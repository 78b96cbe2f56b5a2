/** The later revision of HttpRegisterVisitor.Run (Functions/function.cs): after
    validation it refuses a missing or blank connection string with 500, maps a
    duplicate-key SqlException to 409, every other failure to 500, and success to 200. */
module RegisterVisitor {
  import opened Runtime
  import opened Validation
  import opened Registration

  /** SQL Server error numbers for a violated UNIQUE constraint (2627) and a
      violated unique index (2601). */
  predicate IsDuplicateKey(number: int)
  {
    number == 2627 || number == 2601
  }

  predicate Duplicate(outcome: StoreOutcome)
  {
    outcome.SqlError? && IsDuplicateKey(outcome.number)
  }

  /** Maps the validation verdict, the SqlConnectionString variable and the
      driver's outcome for the database step to exactly one response. */
  function Respond(p: Platform, verdict: Result<Visitor, ValidationError>, connStr: Option<string>,
                   store: Insert -> StoreOutcome): (h: Handled)
    ensures h.response.status in {200, 400, 409, 500}
    // every validation failure is a 400 with its rule's message, before the database
    ensures h.response.status == 400 <==> verdict.Failure?
    ensures verdict.Failure? ==> h.response.body == Message(verdict.error) && h.insert.None?
    // the database step is entered only for a valid record and a configured connection string
    ensures h.insert.Some? <==> verdict.Success? && !IsBlank(p, connStr)
    ensures h.insert.Some? ==> h.insert.value == Insert(connStr, verdict.value)
    ensures h.response.status == 200 <==> h.insert.Some? && store(h.insert.value).Ok?
    ensures h.response.status == 200 ==> h.response.body == Welcome(verdict.value.name)
    ensures h.response.status == 409 <==> h.insert.Some? && Duplicate(store(h.insert.value))
    ensures h.response.status == 409 ==> h.response.body == AlreadyRegistered
    ensures h.response.status == 500 <==>
      verdict.Success? && (h.insert.None? || (!store(h.insert.value).Ok? && !Duplicate(store(h.insert.value))))
    ensures h.response.status == 500 ==> h.response.body == SaveFailed
  {
    match verdict
    case Failure(e) => Handled(Response(400, Message(e)), None)
    case Success(visitor) =>
      if IsBlank(p, connStr) then Handled(Response(500, SaveFailed), None)
      else
        var insert := Insert(connStr, visitor);
        var response :=
          match store(insert)
          case Ok => Response(200, Welcome(visitor.name))
          case SqlError(number) =>
            if IsDuplicateKey(number) then Response(409, AlreadyRegistered) else Response(500, SaveFailed)
          case OtherError => Response(500, SaveFailed);
        Handled(response, Some(insert))
  }

  /** The handler: validate the form, then persist and respond. */
  function Run(p: Platform, form: Form, connStr: Option<string>, store: Insert -> StoreOutcome): (h: Handled)
    ensures h.response.status == 400 <==> Validate(p, form).Failure?
    ensures h.response.status != 400 ==>
      && ValidName(p, Trim(p, form.name))
      && p.tryParseInt(form.age).Some? && 1 <= p.tryParseInt(form.age).value <= 100
      && Trim(p, form.email) != [] && p.isMailAddress(Trim(p, form.email))
    ensures h.insert.Some? ==>
      && p.tryParseInt(form.age).Some?
      && h.insert.value == Insert(connStr, Visitor(Trim(p, form.name), p.tryParseInt(form.age).value, Trim(p, form.email)))
    ensures h.response.status == 200 ==> h.response.body == Welcome(Trim(p, form.name))
  {
    Respond(p, Validate(p, form), connStr, store)
  }

  /** A missing or blank connection string after a valid form gives 500 without
      entering the database step, whatever the database would have done. */
  lemma MissingConnectionString(p: Platform, form: Form, connStr: Option<string>, store: Insert -> StoreOutcome)
    requires Validate(p, form).Success? && IsBlank(p, connStr)
    ensures Run(p, form, connStr, store) == Handled(Response(500, SaveFailed), None)
  {
  }

  /** What the driver reports reaches the caller only as "succeeded", "duplicate
      key" or "failed": two drivers that agree on that classification give the same
      response, so no other error number or exception detail leaks. */
  lemma OnlyOutcomeClassReachesCaller(p: Platform, form: Form, connStr: Option<string>,
                                      s1: Insert -> StoreOutcome, s2: Insert -> StoreOutcome)
    requires forall i: Insert :: s1(i).Ok? == s2(i).Ok?
    requires forall i: Insert :: Duplicate(s1(i)) == Duplicate(s2(i))
    ensures Run(p, form, connStr, s1) == Run(p, form, connStr, s2)
  {
  }
}
