/** What both revisions of HttpRegisterVisitor.Run share around the validator: the
    response they build, the parameters with which they enter the database step,
    and what the driver reports back. */
module Registration {
  import opened Runtime
  import opened Validation

  /** An HTTP response reduced to its status code and plain-text body. */
  datatype Response = Response(status: int, body: string)

  /** The parameters with which the database step (open the connection, prepare
      INSERT INTO Visitors (Name, Age, Email), execute it) is entered: the
      connection string (null when the variable is unset) and the three values
      bound to @Name, @Age and @Email. */
  datatype Insert = Insert(connection: Option<string>, visitor: Visitor)

  /** How the whole database step ended, opening the connection included:
      normally, with a SqlException carrying an error number, or with any other
      exception. */
  datatype StoreOutcome = Ok | SqlError(number: int) | OtherError

  /** The response, and the parameters with which the database step was entered on
      the way to it (None when the handler returned before that step). */
  datatype Handled = Handled(response: Response, insert: Option<Insert>)

  const AlreadyRegistered: string := "E-postadressen är redan registrerad."

  const SaveFailed: string := "Kunde inte spara till databasen."

  const WelcomePrefix: string := "Välkommen, "

  const WelcomeSuffix: string := "! Din registrering är sparad."

  /** The body of the 200 response, embedding the validated name. */
  function Welcome(name: string): (r: string)
    ensures |r| == |WelcomePrefix| + |name| + |WelcomeSuffix|
    ensures r[..|WelcomePrefix|] == WelcomePrefix
    ensures r[|WelcomePrefix|..|WelcomePrefix| + |name|] == name
    ensures r[|WelcomePrefix| + |name|..] == WelcomeSuffix
  {
    WelcomePrefix + name + WelcomeSuffix
  }

  /** The database driver cannot succeed with a missing or blank connection
      string: opening such a connection raises. */
  ghost predicate DriverRejectsBlank(p: Platform, store: Insert -> StoreOutcome)
  {
    forall i: Insert :: IsBlank(p, i.connection) ==> !store(i).Ok?
  }

  /** Distinct names get distinct welcome messages. */
  lemma WelcomeInjective(n1: string, n2: string)
    requires Welcome(n1) == Welcome(n2)
    ensures n1 == n2
  {
  }
}
