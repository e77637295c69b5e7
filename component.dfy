/** The sign-up component itself: its two pieces of component state are
    fields that its handlers overwrite, and what it does to the outside world
    is appended to `log`. Each handler is specified by the matching event of
    the state machine in `SignUpFlow`. */
module SignUpComponent {
  import opened SignUpForm
  import opened SignUpFlow

  class SignUp {
    var data: Data
    var status: Status
    /** The request whose continuations have not run yet. */
    var pending: Option<Request>
    var log: seq<Effect>

    /** The component's state as a value of the state machine. */
    function Current(): Page
      reads this
    {
      Page(data, status, pending, log)
    }

    /** Mounting: both records take their initial values. */
    constructor ()
      ensures Current() == InitialPage
      ensures Valid(Current())
    {
      data := InitialData;
      status := InitialStatus;
      pending := None;
      log := [];
    }

    /** The change handler of the three inputs. */
    method HandleChange(f: Field, value: string)
      modifies this
      ensures Current() == Step(old(Current()), Change(f, value))
      ensures Get(data, f) == value
      ensures forall g: Field :: g != f ==> Get(data, g) == Get(old(data), g)
      ensures status == old(status) && log == old(log) && pending == old(pending)
    {
      data := SignUpForm.HandleChange(data, f, value);
    }

    /** The dismiss action of the error surface. */
    method ResetError()
      requires Valid(Current())
      modifies this
      ensures Current() == Step(old(Current()), Dismiss)
      ensures Valid(Current())
      ensures !status.error && status.message == "" && status.loading == old(status.loading)
    {
      status := SignUpForm.ResetError(status);
      log := log + [SetStatus(status)];
      StepValid(old(Current()), Dismiss);
    }

    /** The form's submit handler. The submit button is disabled while
        loading, so in that state the handler is never reached. Otherwise it
        stops the browser's own submission, switches loading on, and posts
        the fields; the status it was created with is what its continuations
        will build on. */
    method FormHandler()
      requires Valid(Current())
      modifies this
      ensures Current() == Step(old(Current()), Submit)
      ensures Valid(Current())
      ensures !old(status.loading) ==>
        && log == old(log) + [PreventDefault, SetStatus(status), Post(CreatePath, data)]
        && status.loading && status.error == old(status.error) && status.message == old(status.message)
    {
      if status.loading {
        return;
      }
      ghost var before := Current();
      var captured := status;
      log := log + [PreventDefault];
      status := BeginSubmit(captured);
      log := log + [SetStatus(status)];
      log := log + [Post(CreatePath, data)];
      pending := Some(Request(captured));
      assert log == before.log + [PreventDefault, SetStatus(status), Post(CreatePath, data)];
      StepValid(before, Submit);
    }

    /** The continuation that runs when the request in flight settles. */
    method OnSettled(o: Outcome)
      requires Valid(Current())
      modifies this
      ensures Current() == Step(old(Current()), Settle(o))
      ensures Valid(Current())
    {
      ghost var before := Current();
      if pending.None? {
        return;
      }
      var captured := pending.value.snapshot;
      pending := None;
      match o
      case Resolved(a) =>
        status := SettleSuccess(captured);
        log := log + [SetStatus(status)];
        log := log + [Dispatch(LoginAction(a))];
        log := log + [Navigate(ChatRoute)];
        assert log == before.log + [SetStatus(status), Dispatch(LoginAction(a)), Navigate(ChatRoute)];
      case Rejected(m) =>
        status := SettleFailure(captured, m);
        log := log + [SetStatus(status)];
      case NoResponse =>
        log := log + [UnhandledRejection];
      StepValid(before, Settle(o));
    }
  }
}
