/** The two records the sign-up page keeps in component state, and the pure
    record-from-record updates that its handlers apply to them.

    Every update here is a whole-record replacement built from the previous
    record: the page never mutates a record in place. */
module SignUpForm {

  datatype Option<T> = None | Some(value: T)

  /** The three form fields, `Data` in the page. */
  datatype Data = Data(username: string, password: string, confirmPassword: string)

  /** The names of the three inputs; `handleChange` receives one of these as
      the input's `name` attribute. */
  datatype Field = Username | Password | ConfirmPassword

  /** The submission status, `Status` in the page. */
  datatype Status = Status(error: bool, loading: bool, message: string)

  /** What the page shows when a rejection carries no usable message. */
  const FallbackMessage: string := "An error occurred"

  /** Both records when the page is mounted: every field empty, nothing shown. */
  const InitialData: Data := Data("", "", "")
  const InitialStatus: Status := Status(false, false, "")

  /** The value of one named field. */
  function Get(d: Data, f: Field): string
  {
    match f
    case Username => d.username
    case Password => d.password
    case ConfirmPassword => d.confirmPassword
  }

  /** `handleChange`: the edited field takes the new value verbatim (no
      trimming, no validation) and the other two fields keep theirs. */
  function HandleChange(d: Data, f: Field, value: string): (r: Data)
    ensures Get(r, f) == value
    ensures forall g: Field :: g != f ==> Get(r, g) == Get(d, g)
  {
    match f
    case Username => d.(username := value)
    case Password => d.(password := value)
    case ConfirmPassword => d.(confirmPassword := value)
  }

  /** `resetError`, the dismissal of the error surface: nothing is shown any
      more and the loading flag is kept. */
  function ResetError(s: Status): (r: Status)
    ensures !r.error && r.message == ""
    ensures r.loading == s.loading
  {
    s.(error := false, message := "")
  }

  /** The first status update of `formHandler`: loading is switched on and a
      previously shown error stays shown. */
  function BeginSubmit(s: Status): (r: Status)
    ensures r.loading
    ensures r.error == s.error && r.message == s.message
  {
    s.(loading := true)
  }

  /** The status update of the success continuation. It is built from the
      status the handler captured when the submit happened, not from the live
      status, so the error and message of that moment come back. */
  function SettleSuccess(snapshot: Status): (r: Status)
    ensures !r.loading
    ensures r.error == snapshot.error && r.message == snapshot.message
  {
    snapshot.(loading := false)
  }

  /** The message shown after a rejection: the server's message when it is
      present and non-empty (the `||` treats "" like a missing value), the
      fallback otherwise. */
  function FailureMessage(serverMessage: Option<string>): (r: string)
    ensures r != ""
    ensures serverMessage.Some? && serverMessage.value != "" ==> r == serverMessage.value
    ensures serverMessage.None? || serverMessage.value == "" ==> r == FallbackMessage
  {
    if serverMessage.Some? && serverMessage.value != "" then serverMessage.value
    else FallbackMessage
  }

  /** The status update of the failure continuation. All three keys are
      overwritten, so nothing of the captured status survives. */
  function SettleFailure(snapshot: Status, serverMessage: Option<string>): (r: Status)
    ensures !r.loading && r.error
    ensures r.message == FailureMessage(serverMessage)
  {
    snapshot.(loading := false, error := true, message := FailureMessage(serverMessage))
  }

  /** The status invariant the page relies on: an error is shown exactly when
      there is a message to show. */
  predicate Consistent(s: Status)
  {
    s.error <==> s.message != ""
  }

  // ---- Properties of the updates ----

  /** Editing a field back to its previous value undoes the edit. */
  lemma HandleChangeUndo(d: Data, f: Field, value: string)
    ensures HandleChange(HandleChange(d, f, value), f, Get(d, f)) == d
  {
  }

  /** Of two edits to the same field only the later one is kept. */
  lemma HandleChangeLastWins(d: Data, f: Field, v1: string, v2: string)
    ensures HandleChange(HandleChange(d, f, v1), f, v2) == HandleChange(d, f, v2)
  {
  }

  /** Edits to two different fields commute. */
  lemma HandleChangeCommutes(d: Data, f: Field, g: Field, v: string, w: string)
    requires f != g
    ensures HandleChange(HandleChange(d, f, v), g, w) == HandleChange(HandleChange(d, g, w), f, v)
  {
  }

  /** Dismissing twice is the same as dismissing once. */
  lemma ResetErrorIdempotent(s: Status)
    ensures ResetError(ResetError(s)) == ResetError(s)
  {
  }

  /** A failure does not depend on the captured status: two failures with the
      same server message give the same status whatever came before. */
  lemma SettleFailureForgetsSnapshot(s1: Status, s2: Status, m: Option<string>)
    ensures SettleFailure(s1, m) == SettleFailure(s2, m)
    ensures SettleFailure(SettleFailure(s1, m), m) == SettleFailure(s1, m)
  {
  }

  /** The status invariant holds initially and every status update keeps it;
      a failure establishes it whatever the captured status was. */
  lemma ConsistentPreserved(s: Status, m: Option<string>)
    ensures Consistent(InitialStatus)
    ensures Consistent(ResetError(s))
    ensures Consistent(SettleFailure(s, m))
    ensures Consistent(s) ==> Consistent(BeginSubmit(s)) && Consistent(SettleSuccess(s))
  {
  }
}
