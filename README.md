# Sign-up form of the Velox client, in Dafny

This project models the state machine of the Velox client's sign-up page
(`pages/sign-up.tsx`). The page keeps two records in component state:

- the form fields `Data` {username, password, confirmPassword}, all empty at mount;
- the submission `Status` {error, loading, message}, `{false, false, ""}` at mount.

Its handlers replace these records whole:

- the change handler replaces one field;
- the dismiss action of the error surface clears the error;
- the submit handler switches loading on and posts the fields to `/auth/create`;
- the request's two continuations settle the status.

On success the page dispatches a `LOGIN` action to the global session
store and moves to `/chat`.

The model has three modules:

- `SignUpForm` (`form.dfy`): the two records, their initial values and the
  pure record-from-record updates, with the invariant `error <==> message != ""`.
- `SignUpFlow` (`flow.dfy`): the whole page as a value (`Page`: fields,
  status, the request in flight, and an effect log of everything observable),
  one transition per event (`Step`), runs of events (`Run`), and the lemmas
  about them.
- `SignUpComponent` (`component.dfy`): the component as a class whose fields
  the handlers overwrite step by step. Each method is proved to do what the
  matching `Step` event does.

Two behaviours of the code are modelled as written:

- Stale snapshot. Both continuations spread the `status` captured by the
  closure when the form was submitted, not the live status. A success
  therefore restores the error and message of that moment. An error
  dismissed while the request is in flight comes back
  (`SignUpFlow.DismissedErrorResurrected`).
- Missing response. When a request fails with no `response` object, the
  failure continuation's destructuring throws before any status update. The
  page stays loading with its submit button disabled for good
  (`SignUpFlow.NoResponseKeepsLoading`, `SignUpFlow.StuckForever`). The log
  records this as `UnhandledRejection`.

The submit guard is the `disabled={status.loading}` button: a `Submit`
event while loading does nothing, because the handler is never reached.
No client-side check compares `password` with `confirmPassword`, and the
fields are sent untrimmed.

## Model

| member | source | states |
|---|---|---|
| `SignUpForm.HandleChange` | pages/sign-up.tsx:40-42 | the edited field holds exactly the new value; the other two fields keep theirs |
| `SignUpForm.HandleChangeUndo` | pages/sign-up.tsx:40-42 | editing a field back to its old value restores the original fields |
| `SignUpForm.HandleChangeLastWins` | pages/sign-up.tsx:40-42 | of two edits to one field only the later survives |
| `SignUpForm.HandleChangeCommutes` | pages/sign-up.tsx:40-42 | edits to two different fields commute |
| `SignUpForm.ResetError` | pages/sign-up.tsx:45-47 | dismissal leaves no error and an empty message, and keeps `loading` |
| `SignUpForm.ResetErrorIdempotent` | pages/sign-up.tsx:45-47 | dismissing twice equals dismissing once |
| `SignUpForm.BeginSubmit` | pages/sign-up.tsx:52 | submit turns `loading` on and keeps `error` and `message`, so a prior error is not cleared |
| `SignUpForm.SettleSuccess` | pages/sign-up.tsx:63 | success turns `loading` off and carries the error and message of the captured status |
| `SignUpForm.FailureMessage` | pages/sign-up.tsx:79 | the shown message is never empty: the server's message when non-empty, otherwise "An error occurred" |
| `SignUpForm.SettleFailure` | pages/sign-up.tsx:75-80 | failure leaves `loading` off, `error` on and the message from `FailureMessage` |
| `SignUpForm.SettleFailureForgetsSnapshot` | pages/sign-up.tsx:75-80 | a failure's status does not depend on the captured status, and repeating it changes nothing |
| `SignUpForm.ConsistentPreserved` | pages/sign-up.tsx:33-37 | `error <==> message != ""` holds initially and is kept by each status update |
| `SignUpFlow.LoginAction` | pages/sign-up.tsx:64-71 | the dispatched action is `LOGIN` with the response's `id` under `ID`, plus `username` and `token` |
| `SignUpFlow.InitialValid` | pages/sign-up.tsx:28-37 | the page at mount satisfies the invariant |
| `SignUpFlow.StepValid` | pages/sign-up.tsx:40-81 | every event keeps the invariant: consistent status, and a request in flight keeps the page loading |
| `SignUpFlow.RunValid` | pages/sign-up.tsx:40-81 | every run of events from a valid page ends in a valid page, so `error <==> message != ""` in every reachable state |
| `SignUpFlow.RunExtendsLog` | pages/sign-up.tsx:50-81 | the effect log only grows |
| `SignUpFlow.PostsAppend` | pages/sign-up.tsx:54-60 | the request count of a log is additive over concatenation |
| `SignUpFlow.ChangeIsolated` | pages/sign-up.tsx:40-42 | an edit sets the named field, keeps the others, and leaves status, request and log untouched |
| `SignUpFlow.SubmitPostsFields` | pages/sign-up.tsx:50-60 | an enabled submit prevents the default action, sets loading, then posts exactly one request to `/auth/create` whose body is the current fields |
| `SignUpFlow.SubmitWhileLoading` | pages/sign-up.tsx:141 | a submit while loading changes nothing |
| `SignUpFlow.MismatchedPasswordsSent` | pages/sign-up.tsx:56-60 | different password and confirmation are still posted as typed |
| `SignUpFlow.SuccessEffects` | pages/sign-up.tsx:61-73 | on success: status is the captured status with loading off, then one `LOGIN` dispatch, then one move to `/chat`, in that order |
| `SignUpFlow.FailureEffects` | pages/sign-up.tsx:74-81 | on rejection: loading off, error on, non-empty message, one status update, and no dispatch and no navigation |
| `SignUpFlow.RepeatedFailureIdempotent` | pages/sign-up.tsx:50-81 | two identical failed submissions leave fields, status and request as one does |
| `SignUpFlow.DismissedErrorResurrected` | pages/sign-up.tsx:45-47 | an error dismissed while a request is in flight is shown again when the request succeeds |
| `SignUpFlow.RunConcat` | pages/sign-up.tsx:40-81 | running two event sequences one after the other equals running their concatenation |
| `SignUpFlow.NoResponseKeepsLoading` | pages/sign-up.tsx:74 | a failure without a response leaves the status loading, clears the request and records an unhandled rejection |
| `SignUpFlow.StuckForever` | pages/sign-up.tsx:141 | a page left loading with no request in flight stays loading and posts nothing, whatever happens next |
| `SignUpComponent.SignUp.constructor` | pages/sign-up.tsx:28-37 | the component mounts with empty fields, status `{false, false, ""}`, no request and an empty log |
| `SignUpComponent.SignUp.HandleChange` | pages/sign-up.tsx:40-42 | the change handler overwrites `data` as the `Change` event does: exactly the named field changes |
| `SignUpComponent.SignUp.ResetError` | pages/sign-up.tsx:45-47 | the dismiss action does what the `Dismiss` event does and keeps the invariant |
| `SignUpComponent.SignUp.FormHandler` | pages/sign-up.tsx:50-60 | the submit handler does what the `Submit` event does: prevent default, set loading, post the fields, capture the status |
| `SignUpComponent.SignUp.OnSettled` | pages/sign-up.tsx:61-81 | the continuations do what the `Settle` event does for each outcome and keep the invariant |

## Left out

- Rendering, animation and the `Meta`, `Input`, `Button`, `Link` and `Error` components (pages/sign-up.tsx:83-156) are not modelled. Only the submit button's `disabled={status.loading}` is kept, as the guard on `Submit`.
- The HTTP client behind `request.noauth().post` is not part of this model. A request is the `Post` entry in the log, and its result is an `Outcome`: success with an account, rejection with an optional message, or no response.
- The `GlobalContext` reducer behind `dispatch` and the Next.js router are not part of this model. Their calls appear only as `Dispatch` and `Navigate` log entries, and the page is not unmounted after navigating.
- Promise scheduling, React render batching and unmount races are not modelled. Each settlement is one atomic step, and every user event sees the state left by the previous one.
- A success response without `data.data` is not modelled. In the code, `setStatus` would run, the access to `data.data.id` would throw into the `.catch`, and that handler would throw in turn. The model assumes success responses are well-formed.
- A rejection body whose `message` is not a string is not modelled. `Rejected` carries an optional string, and an absent or empty message selects the fallback, as the `||` does.
- Input names other than the three of the form (pages/sign-up.tsx:111, 122, 133) cannot occur, so `Field` has exactly three values.
