# Visitor registration handler, modelled in Dafny

The repository's one piece of decision logic is the Azure Functions HTTP handler
`HttpRegisterVisitor.Run`. It reads three form fields (name, age, email), validates
them with a fixed chain of guards, inserts the visitor into the `Visitors` table and
answers with a status code and a Swedish plain-text message. Two revisions exist:

- `Functions/function.cs` (later). After validation it answers 500 when the
  `SqlConnectionString` variable is missing or blank. It answers 409 when SQL Server
  reports a duplicate key (error 2627 or 2601), 500 on any other failure and 200 on
  success.
- `function.cs` (earlier). It has the same validation chain. A single catch-all maps
  every failure of the database step to 400.

The model has five modules:

- `Runtime` (`runtime.dfy`) holds the .NET routines the handler relies on. Four of
  them are fields of a `Platform` value passed to every operation: `char.IsLetter`,
  `char.IsWhiteSpace`, `int.TryParse` (yielding a 32-bit `int32`) and
  `MailAddress.TryCreate`. The model knows nothing of them beyond `Facts`. That
  predicate says a space is whitespace, that space, hyphen and apostrophe are not
  letters, and that hyphen and apostrophe are not whitespace. `string.Trim`,
  `TrimStart`, `TrimEnd` and `string.IsNullOrWhiteSpace` are defined over the abstract
  whitespace predicate. That Trim leaves no whitespace at either end is proved, not
  assumed.
- `Validation` (`validation.dfy`) holds the guard chain, shared by both revisions:
  `CheckName`, `CheckAge`, `CheckEmail` and `Validate`. It also holds the declarative
  constraints `ValidName` and `ValidVisitor` that the chain is proved against.
- `ValidationProperties` (`validation_properties.dfy`) states which rule rejects
  which input. It shows which guard parts trimming makes idle, that the rules run in
  a fixed order, and that a validated record re-validates to itself.
- `Registration` (`registration.dfy`) holds what both revisions share: the response,
  the parameters of the database step, the driver's outcome (`Ok | SqlError(number) | OtherError`) and
  the fixed messages.
- `RegisterVisitor` and `RegisterVisitorEarly` model the two revisions. Each has a
  total `Respond` mapping and `Run`, which is validation followed by `Respond`. Each
  result records the response and whether the database step was entered, with which
  parameters.
  `Revisions` (`revisions.dfy`) relates the two.

The database is a parameter `store: Insert -> StoreOutcome`. It stands for the
whole try block: constructing the `SqlConnection`, `OpenAsync`, preparing the
command and `ExecuteNonQueryAsync`. Its outcome therefore covers a failure to open
the connection as well as a failure of the insert. The handler consults it only
where the source enters that try block.

The name is trimmed at Functions/function.cs:39 before any rule looks at it, so
`" Anna"` is judged exactly like `"Anna"` (`SurroundingSpacesIgnored`). For the same
reason the space tests of the boundary guard can never fire
(`SpaceBoundaryTestsIdle`).

## Model

| member | source | states |
|---|---|---|
| Runtime.TrimStart | Functions/function.cs:39 | result is a suffix of the input, does not start with whitespace, and everything dropped is whitespace |
| Runtime.TrimEnd | Functions/function.cs:39 | result is a prefix of the input, does not end with whitespace, and everything dropped is whitespace |
| Runtime.Trim | Functions/function.cs:39 | the input with whitespace cut from both ends (a slice preceded and followed only by whitespace); no whitespace at either end; empty exactly when the input is all whitespace; an already trimmed string is unchanged |
| Runtime.IsBlank | Functions/function.cs:89 | a connection string is blank exactly when it is missing or trims to the empty string |
| Runtime.TrimmedBlankIsEmpty | Functions/function.cs:81 | after trimming, IsNullOrWhiteSpace holds exactly of the empty string |
| Runtime.TrimIdempotent | Functions/function.cs:79 | trimming a trimmed string changes nothing |
| Runtime.TrimDropsTrailing | Functions/function.cs:39 | appending a whitespace character does not change the trimmed result |
| Runtime.TrimDropsPadding | Functions/function.cs:39 | surrounding a string with whitespace characters does not change the trimmed result |
| Validation.Message | Functions/function.cs:41-85 | the seven fixed 400 bodies, one per rule (no contract of its own; `MessagesDistinct` states that they differ) |
| Validation.NameRule | Functions/function.cs:41-63 | the four name guards in source order yield only name errors, and pass exactly the non-blank names meeting the declarative name constraint |
| Validation.CheckName | Functions/function.cs:39-63 | accepts exactly when the trimmed name meets the name constraint, and then yields the trimmed name; otherwise a name error |
| Validation.CheckAge | Functions/function.cs:66-76 | accepts exactly a parsed integer in 1..100 and yields it; not-a-number exactly when parsing fails, out-of-range otherwise |
| Validation.CheckEmail | Functions/function.cs:79-85 | accepts exactly a non-empty trimmed email the mail-address parser accepts, and yields it; otherwise the invalid-email error |
| Validation.Validate | Functions/function.cs:39-85 | an accepted record satisfies every field constraint, carries the trimmed name and email and the parsed age |
| ValidationProperties.BlankTestImpliedByLength | Functions/function.cs:39-41 | after trimming, the IsNullOrWhiteSpace disjunct of the length guard does not change its verdict |
| ValidationProperties.SpaceBoundaryTestsIdle | Functions/function.cs:59 | a trimmed name never starts or ends with a space |
| ValidationProperties.LengthRuleRejects | Functions/function.cs:39-45 | an all-whitespace name, or a trimmed name shorter than 2 or longer than 50, gets the length message whatever the other fields |
| ValidationProperties.CharacterRuleRejects | Functions/function.cs:47-51 | a name of valid length with a character that is not a letter, space, hyphen or apostrophe gets the invalid-characters message |
| ValidationProperties.LetterRuleRejects | Functions/function.cs:53-57 | a name of valid length made of allowed characters without any letter gets the no-letter message |
| ValidationProperties.PunctuationOnlyNameRejected | Functions/function.cs:47-57 | a name of 2 to 50 hyphens and apostrophes gets the no-letter message |
| ValidationProperties.PunctuationOnlyExamples | Functions/function.cs:53-57 | "---" and "''" get the no-letter message |
| ValidationProperties.BoundaryRuleIff | Functions/function.cs:59-63 | among names passing the first three rules, rejection for a bad boundary happens iff the first or last character is a hyphen; otherwise the trimmed name is accepted |
| ValidationProperties.AgeRules | Functions/function.cs:66-76 | once the name passes, an unparsable age gets the not-a-number message and a parsed age of at most 0 or above 100 the range message |
| ValidationProperties.AgeRangeInclusive | Functions/function.cs:72 | 1 and 100 are accepted, 0 and 101 are rejected with the range message |
| ValidationProperties.EmailRule | Functions/function.cs:79-85 | once name and age pass, the verdict is a failure iff the trimmed email is empty or refused by the mail-address parser, and that failure is the invalid-email error |
| ValidationProperties.NameRulesFirst | Functions/function.cs:39-63 | a rejected name decides the verdict; age and email do not affect it |
| ValidationProperties.AgeRulesBeforeEmail | Functions/function.cs:66-85 | a rejected age after a valid name decides the verdict; the email does not affect it |
| ValidationProperties.NameErrorIff | Functions/function.cs:39-63 | the verdict is a name error iff the trimmed name breaks the declarative name constraint |
| ValidationProperties.AgeErrorIff | Functions/function.cs:66-76 | the verdict is an age error iff the name is valid and the age breaks its rule |
| ValidationProperties.AcceptedIff | Functions/function.cs:39-85 | the form is accepted iff the name constraint, the age range and the email rule all hold |
| ValidationProperties.VerdictSeesTrimmedFieldsOnly | Functions/function.cs:39-85 | two forms with equal trimmed names, equal age text and equal trimmed emails get the same verdict |
| ValidationProperties.SurroundingSpacesIgnored | Functions/function.cs:39 | spaces around the name and the email do not change the verdict |
| ValidationProperties.ResubmissionRevalidates | Functions/function.cs:39-85 | a validated record submitted again with the same age text is accepted as the same record |
| ValidationProperties.MessagesDistinct | Functions/function.cs:41-85 | different rules give different messages |
| Registration.Welcome | Functions/function.cs:129 | the welcome message is "Välkommen, ", then the name, then "! Din registrering är sparad." |
| Registration.WelcomeInjective | Functions/function.cs:129 | different names give different welcome messages |
| RegisterVisitor.IsDuplicateKey | Functions/function.cs:112 | the exception filter: SQL error 2627 or 2601 (no contract of its own; `Respond` states its effect) |
| RegisterVisitor.Respond | Functions/function.cs:87-129 | a validation failure is exactly a 400 with its message, without entering the database step. That step is entered iff the form is valid and the connection string is set. 200 with the welcome message iff that step succeeds; 409 iff it reports error 2627 or 2601; 500 with the generic message otherwise |
| RegisterVisitor.Run | Functions/function.cs:39-129 | 400 iff validation fails; any other response implies all field constraints. The database step receives the trimmed name, parsed age and trimmed email; a 200 welcomes the trimmed name |
| RegisterVisitor.MissingConnectionString | Functions/function.cs:87-96 | a valid form with a missing or blank connection string gets 500 without entering the database step, whatever the database would do |
| RegisterVisitor.OnlyOutcomeClassReachesCaller | Functions/function.cs:112-126 | drivers agreeing on success and duplicate-key produce the same response, so no other error detail reaches the caller |
| RegisterVisitorEarly.Respond | function.cs:56-76 | only 200 or 400. A validation failure gets its message. The database step is entered iff the form is valid, with the connection string unchecked. 200 with the welcome iff that step succeeds, else 400 with the generic message |
| RegisterVisitorEarly.Run | function.cs:34-76 | the database step is skipped iff validation fails. The step receives the trimmed name, parsed age and trimmed email; a 200 welcomes the trimmed name |
| RegisterVisitorEarly.PersistenceFailureIsBadRequest | function.cs:70-74 | any failure of the database step, a duplicate email included, gives 400 with the generic message |
| RegisterVisitorEarly.BlankConnectionIsBadRequest | function.cs:56-74 | with a driver that cannot open a blank connection, a valid form and a blank connection string give 400 after the database step is entered (it fails at opening the connection) |
| Revisions.SameValidationVerdict | function.cs:34-53 | both revisions reject exactly the same forms before the database, with identical responses |
| Revisions.SameInsert | function.cs:62-68 | whenever the later revision enters the database step, the earlier enters it with the same parameters, and both answer the same 200 exactly when it succeeds |
| Revisions.DifferOnlyOnPersistenceFailure | function.cs:56-74 | for a driver that cannot open a blank connection string (`DriverRejectsBlank`), responses differ only for a valid form whose database step fails: earlier 400 with the generic message, later 409 or 500 |

## Left out

- Logging (`_logger` calls). It is a side effect with no influence on the response.
- HTTP plumbing: `HttpTrigger`, `ReadFormAsync`, `IActionResult` construction and
  async/await. A request is the three field strings (`form["x"].ToString()`, so a
  missing field is the empty string). A response is a (status, body) pair.
- `SqlConnection`, `OpenAsync`, `SqlCommand` and `ExecuteNonQueryAsync`. They are the
  external database driver. Together they become the `store` parameter, which maps
  the parameters of the database step to its outcome. The step itself is recorded in
  the result rather than performed; the model does not say whether a failure came
  from opening the connection or from the insert.
- Email uniqueness. The database's UNIQUE constraint enforces it, not this code.
  The model does not keep a table. A second registration with the same email
  therefore appears only as a driver outcome with error 2627 or 2601.
- `Environment.GetEnvironmentVariable`. It is an `Option<string>` input.
- `char.IsLetter`, `char.IsWhiteSpace`, `int.TryParse` and `MailAddress.TryCreate`.
  They depend on Unicode categories, culture and number-style rules, and the .NET
  address grammar. These are not part of this model and stay abstract, limited to
  `Facts`. No concrete age parser or email grammar is written.
- Validation.NameRule, Validation.CheckName: strings are sequences of Unicode scalar
  values, while .NET strings are UTF-16 code units. The model therefore does not
  capture that `name.Length` counts a character outside the Basic Multilingual Plane
  twice, nor that `char.IsLetter` sees each half of a surrogate pair (never a
  letter). For example, 26 × U+1D400 is rejected by the source with the length
  message, and "𠀀𠀀" with the invalid-characters message. The model judges both on
  whole characters.
- Validation.NameRule, ValidationProperties.BoundaryRuleIff,
  ValidationProperties.SpaceBoundaryTestsIdle: `StartsWith(" ")` and `EndsWith("-")`
  with a string argument compare culture-sensitively under the current culture. The
  model reads them as ordinal tests of the first and last character, and both lemmas
  hold only under that reading.
- `Frontend/script.js`. It is browser UI (DOM, fetch, styling).
- Determinism of validation. It holds by construction, since `Validate` is a function.
