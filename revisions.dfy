/** How the two revisions of HttpRegisterVisitor.Run relate: the same validation
    verdict for every submission, the same database step whenever the later one enters it,
    and different responses only when the database step fails. */
module Revisions {
  import opened Runtime
  import opened Validation
  import opened Registration
  import Later = RegisterVisitor
  import Early = RegisterVisitorEarly

  /** Both revisions reject exactly the same submissions before the database, with
      the same 400 response. */
  lemma SameValidationVerdict(p: Platform, form: Form, connStr: Option<string>, store: Insert -> StoreOutcome)
    ensures Later.Run(p, form, connStr, store).response.status == 400
      <==> Early.Run(p, form, connStr, store).insert.None?
    ensures Early.Run(p, form, connStr, store).insert.None?
      ==> Later.Run(p, form, connStr, store) == Early.Run(p, form, connStr, store)
  {
  }

  /** Whenever the later revision enters the database step, the earlier one enters it with the very same
      command, and both answer 200 with the same body exactly when it succeeds. */
  lemma SameInsert(p: Platform, form: Form, connStr: Option<string>, store: Insert -> StoreOutcome)
    requires Later.Run(p, form, connStr, store).insert.Some?
    ensures Early.Run(p, form, connStr, store).insert == Later.Run(p, form, connStr, store).insert
    ensures Later.Run(p, form, connStr, store).response.status == 200
      <==> Early.Run(p, form, connStr, store).response.status == 200
    ensures Later.Run(p, form, connStr, store).response.status == 200
      ==> Later.Run(p, form, connStr, store).response == Early.Run(p, form, connStr, store).response
  {
  }

  /** The revisions answer differently only after a valid form, when the database
      step fails: the earlier one then says 400, the later one 409 or 500. */
  lemma DifferOnlyOnPersistenceFailure(p: Platform, form: Form, connStr: Option<string>, store: Insert -> StoreOutcome)
    requires DriverRejectsBlank(p, store)
    requires Later.Run(p, form, connStr, store).response != Early.Run(p, form, connStr, store).response
    ensures Validate(p, form).Success?
    ensures Early.Run(p, form, connStr, store).response == Response(400, SaveFailed)
    ensures Later.Run(p, form, connStr, store).response.status in {409, 500}
  {
  }
}
