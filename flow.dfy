/** The submission controller of the sign-up page as a state machine over
    whole page states, with the page's observable outputs recorded in an
    effect log.

    The transport, the session store behind `dispatch` and the router are
    not part of this model: a request is the `Post` entry it leaves in the
    log, its resolution is an `Outcome` event, and a login or a route change
    is the `Dispatch` or `Navigate` entry it leaves in the log. */
module SignUpFlow {
  import opened SignUpForm

  /** The path the registration request is posted to. */
  const CreatePath: string := "/auth/create"
  /** The route the page moves to after a successful registration. */
  const ChatRoute: string := "/chat"
  /** The action type of the login handed to the session store. */
  const LoginType: string := "LOGIN"

  /** The `data` object of a successful response. */
  datatype Account = Account(id: string, username: string, token: string)

  /** The payload of the login action; the identifier travels under `ID`. */
  datatype LoginPayload = LoginPayload(ID: string, username: string, token: string)

  datatype Action = Action(kind: string, payload: LoginPayload)

  /** How a posted request settles.
      - `Resolved`: the server accepted the registration.
      - `Rejected`: the server answered with an error; `message` is the
        message field of its body when there is one.
      - `NoResponse`: the request failed without any response object (a
        connection failure, say). */
  datatype Outcome =
    | Resolved(account: Account)
    | Rejected(message: Option<string>)
    | NoResponse

  /** Observable outputs, in the order they happen. */
  datatype Effect =
    | PreventDefault
    | SetStatus(status: Status)
    | Post(path: string, body: Data)
    | Dispatch(action: Action)
    | Navigate(route: string)
    | UnhandledRejection

  /** A request in flight: the status captured by the handler's closure when
      the form was submitted, which both continuations build on. */
  datatype Request = Request(snapshot: Status)

  /** The page: both records of component state, the request in flight if
      any, and everything observable that has happened so far. */
  datatype Page = Page(data: Data, status: Status, pending: Option<Request>, log: seq<Effect>)

  /** The user and transport events the page reacts to. */
  datatype Event =
    | Change(field: Field, value: string)
    | Dismiss
    | Submit
    | Settle(outcome: Outcome)

  const InitialPage: Page := Page(InitialData, InitialStatus, None, [])

  /** The login action built from a successful response, `id` renamed `ID`. */
  function LoginAction(a: Account): (r: Action)
    ensures r.kind == LoginType
    ensures r.payload.ID == a.id && r.payload.username == a.username && r.payload.token == a.token
  {
    Action(LoginType, LoginPayload(a.id, a.username, a.token))
  }

  /** The effects of a continuation, given the status captured at submit. */
  function Resolve(p: Page, snapshot: Status, o: Outcome): Page
  {
    match o
    case Resolved(a) =>
      var s := SettleSuccess(snapshot);
      p.(status := s, pending := None,
         log := p.log + [SetStatus(s), Dispatch(LoginAction(a)), Navigate(ChatRoute)])
    case Rejected(m) =>
      var s := SettleFailure(snapshot, m);
      p.(status := s, pending := None, log := p.log + [SetStatus(s)])
    case NoResponse =>
      // The failure continuation destructures the missing response and
      // throws before its status update: the status stays as it was.
      p.(pending := None, log := p.log + [UnhandledRejection])
  }

  /** One event. A submit while loading does nothing, because the only
      control that submits is disabled then; a settlement with no request in
      flight cannot happen and does nothing either. */
  function Step(p: Page, e: Event): Page
  {
    match e
    case Change(f, v) => p.(data := HandleChange(p.data, f, v))
    case Dismiss =>
      var s := ResetError(p.status);
      p.(status := s, log := p.log + [SetStatus(s)])
    case Submit =>
      if p.status.loading then p
      else
        var s := BeginSubmit(p.status);
        p.(status := s, pending := Some(Request(p.status)),
           log := p.log + [PreventDefault, SetStatus(s), Post(CreatePath, p.data)])
    case Settle(o) =>
      match p.pending
      case None => p
      case Some(req) => Resolve(p, req.snapshot, o)
  }

  /** A sequence of events, in order. */
  function Run(p: Page, events: seq<Event>): Page
    decreases |events|
  {
    if events == [] then p else Run(Step(p, events[0]), events[1..])
  }

  /** The invariant of every reachable page: the status is consistent, and a
      request in flight keeps the page loading and captured a consistent,
      non-loading status. */
  predicate Valid(p: Page)
  {
    && Consistent(p.status)
    && (p.pending.Some? ==>
          p.status.loading && Consistent(p.pending.value.snapshot) && !p.pending.value.snapshot.loading)
  }

  /** The number of requests in a log. */
  function Posts(log: seq<Effect>): nat
    decreases |log|
  {
    if log == [] then 0 else (if log[0].Post? then 1 else 0) + Posts(log[1..])
  }

  /** Whether a log holds a login or a route change. */
  predicate HandsOff(log: seq<Effect>)
  {
    exists i :: 0 <= i < |log| && (log[i].Dispatch? || log[i].Navigate?)
  }

  // ---- The invariant ----

  lemma InitialValid()
    ensures Valid(InitialPage)
  {
  }

  /** Every event keeps the invariant. */
  lemma StepValid(p: Page, e: Event)
    requires Valid(p)
    ensures Valid(Step(p, e))
  {
  }

  /** Every run from a valid page, in particular from the initial page, keeps
      the invariant, so `error <==> message != ""` holds in every reachable
      state. */
  lemma {:induction false} RunValid(p: Page, events: seq<Event>)
    requires Valid(p)
    ensures Valid(Run(p, events))
    decreases |events|
  {
    if events != [] {
      StepValid(p, events[0]);
      RunValid(Step(p, events[0]), events[1..]);
    }
  }

  /** The log only grows: every event appends to it. */
  lemma {:induction false} RunExtendsLog(p: Page, events: seq<Event>)
    ensures p.log <= Run(p, events).log
    decreases |events|
  {
    if events != [] {
      RunExtendsLog(Step(p, events[0]), events[1..]);
    }
  }

  lemma {:induction false} PostsAppend(a: seq<Effect>, b: seq<Effect>)
    ensures Posts(a + b) == Posts(a) + Posts(b)
    decreases |a|
  {
    if a == [] {
      assert a + b == b;
    } else {
      assert (a + b)[1..] == a[1..] + b;
      PostsAppend(a[1..], b);
    }
  }

  // ---- Editing ----

  /** An edit changes exactly the named field and nothing else on the page:
      no status update, no output. */
  lemma ChangeIsolated(p: Page, f: Field, v: string)
    ensures Get(Step(p, Change(f, v)).data, f) == v
    ensures forall g: Field :: g != f ==> Get(Step(p, Change(f, v)).data, g) == Get(p.data, g)
    ensures Step(p, Change(f, v)).(data := p.data) == p
  {
  }

  // ---- Submitting ----

  /** A submit on a page that is not loading prevents the browser's own
      submission, switches loading on while keeping the shown error, and
      posts exactly one request whose body is the fields as they are: no
      trimming, and no check that the two passwords agree. */
  lemma SubmitPostsFields(p: Page)
    requires !p.status.loading
    ensures Step(p, Submit).log
      == p.log + [PreventDefault, SetStatus(BeginSubmit(p.status)), Post(CreatePath, p.data)]
    ensures Posts(Step(p, Submit).log) == Posts(p.log) + 1
    ensures Step(p, Submit).status.loading
    ensures Step(p, Submit).status.error == p.status.error
    ensures Step(p, Submit).status.message == p.status.message
    ensures Step(p, Submit).pending == Some(Request(p.status))
  {
    var tail := [PreventDefault, SetStatus(BeginSubmit(p.status)), Post(CreatePath, p.data)];
    PostsAppend(p.log, tail);
    assert tail[1..][1..][1..] == [];
    assert Posts(tail[1..][1..]) == 1;
    assert Posts(tail) == Posts(tail[1..]) == 1;
  }

  /** A submit while loading is swallowed: the disabled button never fires. */
  lemma SubmitWhileLoading(p: Page)
    requires p.status.loading
    ensures Step(p, Submit) == p
  {
  }

  /** A mismatched confirmation does not stop the request: both passwords go
      out as typed. */
  lemma MismatchedPasswordsSent(p: Page)
    requires !p.status.loading && p.data.password != p.data.confirmPassword
    ensures Step(p, Submit).log[|p.log| + 2] == Post(CreatePath, p.data)
    ensures Step(p, Submit).log[|p.log| + 2].body.password != Step(p, Submit).log[|p.log| + 2].body.confirmPassword
  {
  }

  // ---- Settling ----

  /** On success the status is the captured one with loading off, and then
      exactly one login carrying the account and one move to the chat route
      follow, in that order. */
  lemma SuccessEffects(p: Page, a: Account)
    requires p.pending.Some?
    ensures Step(p, Settle(Resolved(a))).status == p.pending.value.snapshot.(loading := false)
    ensures Step(p, Settle(Resolved(a))).log
      == p.log + [SetStatus(p.pending.value.snapshot.(loading := false)),
                  Dispatch(Action(LoginType, LoginPayload(a.id, a.username, a.token))),
                  Navigate(ChatRoute)]
    ensures Step(p, Settle(Resolved(a))).pending.None?
  {
  }

  /** On a rejection loading goes off, the error is shown with the server's
      message or the fallback, and neither a login nor a route change
      happens. */
  lemma FailureEffects(p: Page, m: Option<string>)
    requires p.pending.Some?
    ensures var q := Step(p, Settle(Rejected(m)));
      && !q.status.loading && q.status.error
      && q.status.message == FailureMessage(m) && q.status.message != ""
      && q.log == p.log + [SetStatus(q.status)]
      && !HandsOff(q.log[|p.log|..])
      && q.pending.None?
  {
  }

  /** Two identical failed submissions leave the page as one does, apart from
      the log: the message is replaced, not repeated. */
  lemma RepeatedFailureIdempotent(p: Page, m: Option<string>)
    requires !p.status.loading && p.pending.None?
    ensures var once := Run(p, [Submit, Settle(Rejected(m))]);
            var twice := Run(p, [Submit, Settle(Rejected(m)), Submit, Settle(Rejected(m))]);
            once.(log := []) == twice.(log := [])
  {
    var e1, e2 := Submit, Settle(Rejected(m));
    RunTwo(p, e1, e2);
    RunTwo(Step(Step(p, e1), e2), e1, e2);
    RunConcat(p, [e1, e2], [e1, e2]);
    assert [e1, e2] + [e1, e2] == [Submit, Settle(Rejected(m)), Submit, Settle(Rejected(m))];
  }

  /** The captured status outlives a dismissal: an error dismissed while the
      request is in flight is shown again when the request succeeds. */
  lemma DismissedErrorResurrected(p: Page, a: Account)
    requires !p.status.loading && p.pending.None? && p.status.error
    ensures !Step(Step(p, Submit), Dismiss).status.error
    ensures var q := Run(p, [Submit, Dismiss, Settle(Resolved(a))]);
            q.status.error && q.status.message == p.status.message && !q.status.loading
  {
    RunTwo(p, Submit, Dismiss);
    RunConcat(p, [Submit, Dismiss], [Settle(Resolved(a))]);
    assert [Submit, Dismiss] + [Settle(Resolved(a))] == [Submit, Dismiss, Settle(Resolved(a))];
    RunOne(Step(Step(p, Submit), Dismiss), Settle(Resolved(a)));
  }

  lemma RunOne(p: Page, e: Event)
    ensures Run(p, [e]) == Step(p, e)
  {
  }

  lemma RunTwo(p: Page, e1: Event, e2: Event)
    ensures Run(p, [e1, e2]) == Step(Step(p, e1), e2)
  {
    assert [e1, e2][1..] == [e2];
    RunOne(Step(p, e1), e2);
  }

  lemma {:induction false} RunConcat(p: Page, xs: seq<Event>, ys: seq<Event>)
    ensures Run(p, xs + ys) == Run(Run(p, xs), ys)
    decreases |xs|
  {
    if xs == [] {
      assert xs + ys == ys;
    } else {
      assert (xs + ys)[0] == xs[0];
      assert (xs + ys)[1..] == xs[1..] + ys;
      RunConcat(Step(p, xs[0]), xs[1..], ys);
    }
  }

  /** A request that fails without a response object makes the failure
      continuation throw before its status update: the status is left as the
      submit set it, loading, with no request in flight any more. */
  lemma NoResponseKeepsLoading(p: Page)
    requires Valid(p) && p.pending.Some?
    ensures Step(p, Settle(NoResponse)).status == p.status
    ensures Step(p, Settle(NoResponse)).status.loading
    ensures Step(p, Settle(NoResponse)).pending.None?
    ensures Step(p, Settle(NoResponse)).log == p.log + [UnhandledRejection]
  {
  }

  /** A page left loading with no request in flight can never submit again:
      every later run keeps it loading and posts nothing more. */
  lemma {:induction false} StuckForever(p: Page, events: seq<Event>)
    requires p.status.loading && p.pending.None?
    ensures Run(p, events).status.loading
    ensures Run(p, events).pending.None?
    ensures Posts(Run(p, events).log) == Posts(p.log)
    decreases |events|
  {
    if events != [] {
      var q := Step(p, events[0]);
      if events[0].Dismiss? {
        PostsAppend(p.log, [SetStatus(ResetError(p.status))]);
        assert [SetStatus(ResetError(p.status))][1..] == [];
      }
      StuckForever(q, events[1..]);
    }
  }
}
