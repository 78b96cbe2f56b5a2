/** What the validation chain promises: which rule rejects which input, which parts of
    the guards trimming makes idle, the fixed order of the rules, and that a
    validated record survives being submitted again. */
module ValidationProperties {
  import opened Runtime
  import opened Validation

  /** After trimming, the IsNullOrWhiteSpace disjunct of the length guard adds
      nothing: a blank trimmed name is empty, hence already shorter than 2. */
  lemma BlankTestImpliedByLength(p: Platform, raw: string)
    ensures var t := Trim(p, raw);
      (IsNullOrWhiteSpace(p, t) || |t| < 2 || |t| > 50) == (|t| < 2 || |t| > 50)
  {
  }

  /** The space half of the boundary guard can never fire: trimming has already
      removed every space from both ends. */
  lemma SpaceBoundaryTestsIdle(p: Platform, raw: string)
    requires Facts(p)
    ensures !StartsWith(Trim(p, raw), ' ') && !EndsWith(Trim(p, raw), ' ')
  {
  }

  /** An empty or all-whitespace name, or a trimmed name shorter than 2 or longer
      than 50 characters, is rejected with the length message whatever the age
      and email are. */
  lemma LengthRuleRejects(p: Platform, form: Form)
    requires IsNullOrWhiteSpace(p, form.name) || |Trim(p, form.name)| < 2 || |Trim(p, form.name)| > 50
    ensures Validate(p, form) == Failure(NameLength)
  {
  }

  /** A name of valid length with a character that is not a letter, space, hyphen
      or apostrophe is rejected with the invalid-characters message. */
  lemma CharacterRuleRejects(p: Platform, form: Form, i: int)
    requires 2 <= |Trim(p, form.name)| <= 50
    requires 0 <= i < |Trim(p, form.name)| && !AllowedInName(p, Trim(p, form.name)[i])
    ensures Validate(p, form) == Failure(NameCharacters)
  {
  }

  /** A name of valid length made of allowed characters only, none of them a
      letter, is rejected with the no-letter message. */
  lemma LetterRuleRejects(p: Platform, form: Form)
    requires 2 <= |Trim(p, form.name)| <= 50
    requires OnlyAllowedCharacters(p, Trim(p, form.name)) && !HasLetter(p, Trim(p, form.name))
    ensures Validate(p, form) == Failure(NameNoLetter)
  {
  }

  /** A name of 2..50 hyphens and apostrophes, such as "---" or "''", passes the
      length and character rules and falls to the no-letter rule. */
  lemma PunctuationOnlyNameRejected(p: Platform, form: Form)
    requires Facts(p)
    requires 2 <= |form.name| <= 50
    requires forall i :: 0 <= i < |form.name| ==> form.name[i] == '-' || form.name[i] == '\''
    ensures Validate(p, form) == Failure(NameNoLetter)
  {
    var n := form.name;
    assert !p.isWhiteSpace(n[0]) && !p.isWhiteSpace(n[|n| - 1]);
    assert Trim(p, n) == n;
    assert OnlyAllowedCharacters(p, n);
    assert !HasLetter(p, n);
  }

  lemma PunctuationOnlyExamples(p: Platform, age: string, email: string)
    requires Facts(p)
    ensures Validate(p, Form("---", age, email)) == Failure(NameNoLetter)
    ensures Validate(p, Form("''", age, email)) == Failure(NameNoLetter)
  {
    PunctuationOnlyNameRejected(p, Form("---", age, email));
    PunctuationOnlyNameRejected(p, Form("''", age, email));
  }

  /** Among names that pass the first three rules, the boundary rule rejects
      exactly those that start or end with a hyphen; an apostrophe or letter at
      either end is accepted. */
  lemma BoundaryRuleIff(p: Platform, raw: string)
    requires Facts(p)
    requires 2 <= |Trim(p, raw)| <= 50
    requires OnlyAllowedCharacters(p, Trim(p, raw)) && HasLetter(p, Trim(p, raw))
    ensures var t := Trim(p, raw);
      CheckName(p, raw) == (if t[0] == '-' || t[|t| - 1] == '-' then Failure(NameBoundary) else Success(t))
  {
  }

  /** Once the name passes, the age decides: no integer gives the not-a-number
      message, an integer outside 1..100 the range message, whatever the email. */
  lemma AgeRules(p: Platform, form: Form)
    requires CheckName(p, form.name).Success?
    ensures p.tryParseInt(form.age).None? ==> Validate(p, form) == Failure(AgeNotANumber)
    ensures p.tryParseInt(form.age).Some? && (p.tryParseInt(form.age).value <= 0 || p.tryParseInt(form.age).value > 100)
      ==> Validate(p, form) == Failure(AgeOutOfRange)
  {
  }

  /** The range is inclusive at both ends: 1 and 100 pass, 0 and 101 do not. */
  lemma AgeRangeInclusive(p: Platform, raw: string)
    ensures p.tryParseInt(raw) == Some(1) ==> CheckAge(p, raw) == Success(1)
    ensures p.tryParseInt(raw) == Some(100) ==> CheckAge(p, raw) == Success(100)
    ensures p.tryParseInt(raw) == Some(0) ==> CheckAge(p, raw) == Failure(AgeOutOfRange)
    ensures p.tryParseInt(raw) == Some(101) ==> CheckAge(p, raw) == Failure(AgeOutOfRange)
  {
  }

  /** Once name and age pass, the email decides: it is rejected exactly when its
      trimmed form is empty or refused by the mail-address parser. */
  lemma EmailRule(p: Platform, form: Form)
    requires CheckName(p, form.name).Success? && CheckAge(p, form.age).Success?
    ensures Validate(p, form).Failure? <==> Trim(p, form.email) == [] || !p.isMailAddress(Trim(p, form.email))
    ensures Validate(p, form).Failure? ==> Validate(p, form).error == EmailInvalid
  {
  }

  /** The name rules come first: a rejected name decides the verdict, and the age
      and email fields are never looked at. */
  lemma NameRulesFirst(p: Platform, form: Form, age: string, email: string)
    requires CheckName(p, form.name).Failure?
    ensures Validate(p, form) == Failure(CheckName(p, form.name).error)
    ensures Validate(p, form) == Validate(p, Form(form.name, age, email))
  {
  }

  /** The age rules come before the email rule: a rejected age decides the verdict
      and the email field is never looked at. */
  lemma AgeRulesBeforeEmail(p: Platform, form: Form, email: string)
    requires CheckName(p, form.name).Success? && CheckAge(p, form.age).Failure?
    ensures Validate(p, form) == Failure(CheckAge(p, form.age).error)
    ensures Validate(p, form) == Validate(p, Form(form.name, form.age, email))
  {
  }

  /** The verdict against the declarative field constraints: a name error exactly
      when the trimmed name breaks the name constraint, whatever the other fields. */
  lemma NameErrorIff(p: Platform, form: Form)
    ensures Validate(p, form).Failure? && IsNameError(Validate(p, form).error)
      <==> !ValidName(p, Trim(p, form.name))
  {
    if CheckName(p, form.name).Success? {
      assert Validate(p, form).Failure? ==> !IsNameError(Validate(p, form).error);
    }
  }

  /** An age error exactly when the name is valid and the age breaks its rule. */
  lemma AgeErrorIff(p: Platform, form: Form)
    ensures Validate(p, form).Failure? && IsAgeError(Validate(p, form).error)
      <==> ValidName(p, Trim(p, form.name)) && CheckAge(p, form.age).Failure?
  {
  }

  /** Acceptance exactly when all three field constraints hold. */
  lemma AcceptedIff(p: Platform, form: Form)
    ensures Validate(p, form).Success? <==>
      && ValidName(p, Trim(p, form.name))
      && p.tryParseInt(form.age).Some? && 1 <= p.tryParseInt(form.age).value <= 100
      && Trim(p, form.email) != [] && p.isMailAddress(Trim(p, form.email))
  {
  }

  /** The verdict depends on the name and email only through their trimmed forms. */
  lemma VerdictSeesTrimmedFieldsOnly(p: Platform, f1: Form, f2: Form)
    requires Trim(p, f1.name) == Trim(p, f2.name) && f1.age == f2.age
    requires Trim(p, f1.email) == Trim(p, f2.email)
    ensures Validate(p, f1) == Validate(p, f2)
  {
    var name, age, email := CheckName(p, f1.name), CheckAge(p, f1.age), CheckEmail(p, f1.email);
    assert name == CheckName(p, f2.name) by {
      assert NameRule(p, Trim(p, f1.name)) == NameRule(p, Trim(p, f2.name));
    }
    assert email == CheckEmail(p, f2.email) by {
      TrimmedBlankIsEmpty(p, f1.email);
      TrimmedBlankIsEmpty(p, f2.email);
    }
  }

  /** Leading and trailing spaces around the name and the email change nothing:
      both are trimmed before any rule looks at them, so " Anna " is judged as
      "Anna". */
  lemma SurroundingSpacesIgnored(p: Platform, form: Form)
    requires Facts(p)
    ensures Validate(p, Form([' '] + form.name + [' '], form.age, [' '] + form.email + [' '])) == Validate(p, form)
  {
    TrimDropsPadding(p, form.name, ' ');
    TrimDropsPadding(p, form.email, ' ');
    VerdictSeesTrimmedFieldsOnly(p, Form([' '] + form.name + [' '], form.age, [' '] + form.email + [' ']), form);
  }

  /** A validated record submitted again, with the same age text, is accepted as
      the very same record. */
  lemma ResubmissionRevalidates(p: Platform, form: Form)
    requires Validate(p, form).Success?
    ensures var v := Validate(p, form).value;
      Validate(p, Form(v.name, form.age, v.email)) == Success(v)
  {
    TrimIdempotent(p, form.name);
    TrimIdempotent(p, form.email);
  }

  /** Each rule has its own message, so the response body names the broken rule. */
  lemma MessagesDistinct(e1: ValidationError, e2: ValidationError)
    requires e1 != e2
    ensures Message(e1) != Message(e2)
  {
    MessageLength(e1);
    MessageLength(e2);
  }

  /** The seven messages have seven different lengths. */
  lemma MessageLength(e: ValidationError)
    ensures |Message(e)| == match e
      case NameLength => 51
      case NameCharacters => 74
      case NameNoLetter => 40
      case NameBoundary => 67
      case AgeNotANumber => 26
      case AgeOutOfRange => 35
      case EmailInvalid => 21
  {
  }
}
