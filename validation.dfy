/** The guard chain that HttpRegisterVisitor.Run applies to the three submitted form
    fields. Both revisions of the handler contain the same chain, so it is modelled
    once: all name rules, then the age rules, then the email rule, each failure
    surfacing one fixed Swedish message. */
module Validation {
  import opened Runtime

  /** The three raw text fields of the submitted form. */
  datatype Form = Form(name: string, age: string, email: string)

  /** A visitor that passed every rule: trimmed name, parsed age, trimmed email. */
  datatype Visitor = Visitor(name: string, age: int32, email: string)

  datatype ValidationError =
    | NameLength        // trimmed length outside 2..50, or blank
    | NameCharacters    // a character other than a letter, space, hyphen or apostrophe
    | NameNoLetter      // allowed characters only, but not a single letter
    | NameBoundary      // starts or ends with a space or a hyphen
    | AgeNotANumber     // int.TryParse failed
    | AgeOutOfRange     // parsed, but not in 1..100
    | EmailInvalid      // blank after trimming, or rejected by the mail-address parser

  /** The body of the 400 response for each rule. */
  function Message(e: ValidationError): string
  {
    match e
    case NameLength => "Namnet måste vara minst 2 tecken och max 50 tecken."
    case NameCharacters => "Namnet får bara innehålla bokstäver, mellanslag, bindestreck och apostrof."
    case NameNoLetter => "Namnet måste innehålla minst en bokstav."
    case NameBoundary => "Namnet får inte börja eller sluta med mellanslag eller bindestreck."
    case AgeNotANumber => "Åldern måste vara ett tal."
    case AgeOutOfRange => "Åldern måste vara mellan 1 och 100."
    case EmailInvalid => "Ogiltig e-postadress."
  }

  predicate IsNameError(e: ValidationError)
  {
    e.NameLength? || e.NameCharacters? || e.NameNoLetter? || e.NameBoundary?
  }

  predicate IsAgeError(e: ValidationError)
  {
    e.AgeNotANumber? || e.AgeOutOfRange?
  }

  /** The character test of the second name rule. */
  predicate AllowedInName(p: Platform, c: char)
  {
    p.isLetter(c) || c == ' ' || c == '-' || c == '\''
  }

  predicate OnlyAllowedCharacters(p: Platform, name: string)
  {
    forall i :: 0 <= i < |name| ==> AllowedInName(p, name[i])
  }

  predicate HasLetter(p: Platform, name: string)
  {
    exists i :: 0 <= i < |name| && p.isLetter(name[i])
  }

  /** The name constraint as a declarative rule, independent of the order of the
      checks: length 2..50, allowed characters only, at least one letter, and
      neither a space nor a hyphen at either end. */
  predicate ValidName(p: Platform, name: string)
  {
    && 2 <= |name| <= 50
    && OnlyAllowedCharacters(p, name)
    && HasLetter(p, name)
    && name[0] != ' ' && name[0] != '-'
    && name[|name| - 1] != ' ' && name[|name| - 1] != '-'
  }

  /** The invariant of a validated record: nothing partially valid is ever built. */
  predicate ValidVisitor(p: Platform, v: Visitor)
  {
    && ValidName(p, v.name)
    && 1 <= v.age <= 100
    && v.email != [] && !p.isWhiteSpace(v.email[0]) && !p.isWhiteSpace(v.email[|v.email| - 1])
    && p.isMailAddress(v.email)
  }

  /** The four name guards, in the order the handler runs them, on the trimmed name.
      The first disjunct of the first guard and the space tests of the fourth are
      kept although trimming makes them idle (see the lemmas below). */
  function NameRule(p: Platform, name: string): (r: Option<ValidationError>)
    ensures r.Some? ==> IsNameError(r.value)
    ensures r.None? <==> ValidName(p, name) && !IsNullOrWhiteSpace(p, name)
  {
    if IsNullOrWhiteSpace(p, name) || |name| < 2 || |name| > 50 then Some(NameLength)
    else if !OnlyAllowedCharacters(p, name) then Some(NameCharacters)
    else if !HasLetter(p, name) then Some(NameNoLetter)
    else if StartsWith(name, ' ') || EndsWith(name, ' ') || StartsWith(name, '-') || EndsWith(name, '-') then Some(NameBoundary)
    else None
  }

  /** Name validation: trim, then run the name guards. */
  function CheckName(p: Platform, raw: string): (r: Result<string, ValidationError>)
    ensures r.Success? <==> ValidName(p, Trim(p, raw))
    ensures r.Success? ==> r.value == Trim(p, raw)
    ensures r.Failure? ==> IsNameError(r.error)
  {
    var name := Trim(p, raw);
    match NameRule(p, name)
    case Some(e) => Failure(e)
    case None => Success(name)
  }

  /** Age validation: int.TryParse, then the range 1..100 inclusive. */
  function CheckAge(p: Platform, raw: string): (r: Result<int32, ValidationError>)
    ensures r.Success? <==> p.tryParseInt(raw).Some? && 1 <= p.tryParseInt(raw).value <= 100
    ensures r.Success? ==> r.value == p.tryParseInt(raw).value
    ensures r.Failure? ==> IsAgeError(r.error)
    ensures r.Failure? ==> (r.error.AgeNotANumber? <==> p.tryParseInt(raw).None?)
  {
    match p.tryParseInt(raw)
    case None => Failure(AgeNotANumber)
    case Some(age) =>
      if age <= 0 || age > 100 then Failure(AgeOutOfRange) else Success(age)
  }

  /** Email validation: trim, then reject a blank result or one the mail-address
      parser refuses. */
  function CheckEmail(p: Platform, raw: string): (r: Result<string, ValidationError>)
    ensures r.Success? <==> Trim(p, raw) != [] && p.isMailAddress(Trim(p, raw))
    ensures r.Success? ==> r.value == Trim(p, raw)
    ensures r.Failure? ==> r.error == EmailInvalid
  {
    var email := Trim(p, raw);
    TrimmedBlankIsEmpty(p, raw);
    if IsNullOrWhiteSpace(p, email) || !p.isMailAddress(email) then Failure(EmailInvalid)
    else Success(email)
  }

  /** The whole chain: name, then age, then email; the first failure wins. */
  function Validate(p: Platform, form: Form): (r: Result<Visitor, ValidationError>)
    ensures r.Success? ==> ValidVisitor(p, r.value)
    ensures r.Success? ==> r.value.name == Trim(p, form.name) && r.value.email == Trim(p, form.email)
    ensures r.Success? ==> p.tryParseInt(form.age) == Some(r.value.age)
  {
    match CheckName(p, form.name)
    case Failure(e) => Failure(e)
    case Success(name) =>
      match CheckAge(p, form.age)
      case Failure(e) => Failure(e)
      case Success(age) =>
        match CheckEmail(p, form.email)
        case Failure(e) => Failure(e)
        case Success(email) => Success(Visitor(name, age, email))
  }
}
