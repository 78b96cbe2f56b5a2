/** The earlier revision of HttpRegisterVisitor.Run (function.cs): the same
    validation chain, then one try block whose catch-all turns every failure of the
    database step, a duplicate email and a blank connection string included, into
    400 "Kunde inte spara till databasen.". It has no 409 and no 500 response. */
module RegisterVisitorEarly {
  import opened Runtime
  import opened Validation
  import opened Registration

  /** Maps the validation verdict and the driver's outcome for the database step, run with
      the SqlConnectionString variable as read, to exactly one response. */
  function Respond(verdict: Result<Visitor, ValidationError>, connStr: Option<string>,
                   store: Insert -> StoreOutcome): (h: Handled)
    ensures h.response.status in {200, 400}
    // the database step is entered exactly when the form is valid, with the connection string unchecked
    ensures h.insert.Some? <==> verdict.Success?
    ensures h.insert.Some? ==> h.insert.value == Insert(connStr, verdict.value)
    ensures verdict.Failure? ==> h.response.body == Message(verdict.error)
    ensures h.response.status == 200 <==> h.insert.Some? && store(h.insert.value).Ok?
    ensures h.response.status == 200 ==> h.response.body == Welcome(verdict.value.name)
    ensures verdict.Success? && h.response.status == 400 ==> h.response.body == SaveFailed
  {
    match verdict
    case Failure(e) => Handled(Response(400, Message(e)), None)
    case Success(visitor) =>
      var insert := Insert(connStr, visitor);
      if store(insert).Ok? then Handled(Response(200, Welcome(visitor.name)), Some(insert))
      else Handled(Response(400, SaveFailed), Some(insert))
  }

  /** The handler: validate the form, then persist and respond. */
  function Run(p: Platform, form: Form, connStr: Option<string>, store: Insert -> StoreOutcome): (h: Handled)
    ensures h.insert.None? <==> Validate(p, form).Failure?
    ensures h.insert.Some? ==>
      && p.tryParseInt(form.age).Some?
      && h.insert.value == Insert(connStr, Visitor(Trim(p, form.name), p.tryParseInt(form.age).value, Trim(p, form.email)))
    ensures h.response.status == 200 ==> h.response.body == Welcome(Trim(p, form.name))
  {
    Respond(Validate(p, form), connStr, store)
  }

  /** A duplicate email, or any other failure of the database step, gives the same
      400 response as a malformed form would, with the generic message. */
  lemma PersistenceFailureIsBadRequest(p: Platform, form: Form, connStr: Option<string>, store: Insert -> StoreOutcome)
    requires Validate(p, form).Success?
    requires !store(Insert(connStr, Validate(p, form).value)).Ok?
    ensures Run(p, form, connStr, store).response == Response(400, SaveFailed)
  {
  }

  /** Without its own check, a missing or blank connection string is only noticed by
      the driver, which fails to open the connection: 400, after the database step
      was entered. */
  lemma BlankConnectionIsBadRequest(p: Platform, form: Form, connStr: Option<string>, store: Insert -> StoreOutcome)
    requires DriverRejectsBlank(p, store)
    requires Validate(p, form).Success? && IsBlank(p, connStr)
    ensures Run(p, form, connStr, store) == Handled(Response(400, SaveFailed), Some(Insert(connStr, Validate(p, form).value)))
  {
    assert IsBlank(p, Insert(connStr, Validate(p, form).value).connection);
  }
}
