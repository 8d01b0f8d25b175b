/** Where the requests go that a bridge's callers report. */
module BridgeBilling {
  import opened Prelude
  import opened CoinSelection
  import opened BridgeClient
  import opened BridgeRuntime
  import opened BridgeGate

  // ------------------------------------------------------------------ counting requests

  function InQueue(events: seq<Event>): nat {
    multiset(events)[AccountOneRequest]
  }

  function InTimers(timers: seq<Timer>, generation: nat): nat {
    multiset(timers)[Timer(AccountOneRequest, generation)]
  }

  /** The requests that can still be handled. */
  function Requests(s: System): nat {
    InQueue(s.mailbox) + InQueue(s.landing) + InTimers(s.timers, s.core.generation)
  }

  lemma {:induction false} TimedRequests(events: seq<Event>, g: nat)
    ensures InTimers(Timed(events, g), g) == InQueue(events)
  {
    if events != [] {
      var n := |events| - 1;
      TimedRequests(events[..n], g);
      assert events == events[..n] + [events[n]];
      assert Timed(events, g) == Timed(events[..n], g) + [Timer(events[n], g)];
    }
  }

  lemma NoneStale(timers: seq<Timer>, g: nat)
    requires forall i :: 0 <= i < |timers| ==> timers[i].generation != g
    ensures InTimers(timers, g) == 0
  {
  }

  /** Every request reported is pending, counted, paid for, dropped, cleared or lost. */
  predicate Conserved(s: System) {
    s.books.received
    == Requests(s) + s.core.accounted + s.books.paid + s.books.dropped + s.books.cleared + s.books.lost
  }

  // ------------------------------------------------------------------ one event

  /** What an event makes of the requests it finds: the ones sent on, the ones counted, and the books. */
  predicate Balances(s: System, event: Event, o: Outcome) {
    var b := Entered(s, event, o);
    && b.received == s.books.received
    && InQueue(o.now + o.later) + o.core.accounted + b.paid + b.dropped + b.cleared + b.lost
       == InQueue([event]) + s.core.accounted + s.books.paid + s.books.dropped + s.books.cleared + s.books.lost
          + if event.Restart? then Waiting(s) else 0
  }

  /** A request is put off. */
  predicate PutOff(a: Core) {
    a.awaiting || (a.paramsSet && !a.headOpen)
  }

  lemma AccountSends(c: Setup, a: Core, sending: Sending)
    ensures var o := Account(c, a, sending);
      InQueue(o.now) == 0 && InQueue(o.later) == if PutOff(a) then 1 else 0
  {
  }

  lemma AccountBalances(c: Setup, s: System, sending: Sending)
    ensures Balances(s, AccountOneRequest, Account(c, s.core, sending))
  {
    var o := Account(c, s.core, sending);
    AccountSends(c, s.core, sending);
    assert multiset(o.now + o.later) == multiset(o.now) + multiset(o.later);
    assert InQueue([AccountOneRequest]) == 1;
  }

  /** Other events send no requests on, and leave the count or clear it. */
  predicate NoRequests(a: Core, o: Outcome) {
    AccountOneRequest !in o.now + o.later && (o.core.accounted == a.accounted || o.core.accounted == 0)
  }

  lemma NoRequestsBalance(s: System, event: Event, o: Outcome)
    requires event != AccountOneRequest && NoRequests(s.core, o)
    ensures Balances(s, event, o)
  {
    assert InQueue([event]) == 0;
  }

  lemma OpeningSendsNone(a: Core, ans: Answers)
    ensures NoRequests(a, OnWaitForOpen(a, ans))
  {
  }

  lemma WatchingSendsNone(a: Core, ans: Answers)
    ensures NoRequests(a, OnMonitorStates(a, ans))
  {
  }

  lemma SettingUpSendsNone(c: Setup, a: Core, ans: Answers)
    ensures NoRequests(a, OnFund(c, a, ans)) && NoRequests(a, OnCommit(c, a, ans))
    ensures NoRequests(a, OnMonitorCredits(c, a, ans))
  {
  }

  lemma StartingSendsNone(a: Core, ans: Answers, done: bool)
    ensures NoRequests(a, OnKex(a, done, ans)) && NoRequests(a, OnRestart(a, ans))
  {
  }

  lemma PayingSendsNone(c: Setup, a: Core, event: Event, ans: Answers)
    requires event.WaitForL2Tx? || event.SendPrepay?
    ensures NoRequests(a, Handle(c, a, event, ans))
  {
  }

  lemma HandleBalances(c: Setup, s: System, event: Event, ans: Answers)
    ensures Balances(s, event, Handle(c, s.core, event, ans))
  {
    match event
    case AccountOneRequest => AccountBalances(c, s, ans.sending);
    case WaitForOpen =>
      OpeningSendsNone(s.core, ans);
      NoRequestsBalance(s, event, OnWaitForOpen(s.core, ans));
    case MonitorStates =>
      WatchingSendsNone(s.core, ans);
      NoRequestsBalance(s, event, OnMonitorStates(s.core, ans));
    case FundCommitAddr | TryToCommit | MonitorCredits =>
      SettingUpSendsNone(c, s.core, ans);
      NoRequestsBalance(s, event, Handle(c, s.core, event, ans));
    case KeyExchangeResponse(done) =>
      StartingSendsNone(s.core, ans, done);
      NoRequestsBalance(s, event, OnKex(s.core, done, ans));
    case Restart =>
      StartingSendsNone(s.core, ans, true);
      NoRequestsBalance(s, event, OnRestart(s.core, ans));
    case WaitForL2Tx(_, _, _, _) | SendPrepay =>
      PayingSendsNone(c, s.core, event, ans);
      NoRequestsBalance(s, event, Handle(c, s.core, event, ans));
    case Terminate => NoRequestsBalance(s, event, Quiet(s.core.(watchdog := None)));
  }

  // ------------------------------------------------------------------ runs

  /** Within a generation, a delivery takes its event away and adds what is sent. */
  lemma DeliveredRequests(c: Setup, s: System, o: Outcome)
    requires s.mailbox != [] && o.core.generation == s.core.generation
    ensures Requests(Delivered(c, s, o)) + InQueue([s.mailbox[0]]) == Requests(s) + InQueue(o.now) + InQueue(o.later)
  {
    assert s.mailbox == [s.mailbox[0]] + s.mailbox[1..];
    TimedRequests(o.later, s.core.generation);
    assert multiset(s.mailbox[1..] + o.now) == multiset(s.mailbox[1..]) + multiset(o.now);
  }

  /** A restart makes the timers stale. */
  lemma RestartedRequests(c: Setup, s: System, o: Outcome)
    requires s.mailbox != [] && TimersInv(s) && o.core.generation == s.core.generation + 1
    ensures Requests(Delivered(c, s, o)) + InQueue([s.mailbox[0]]) + Waiting(s)
         == Requests(s) + InQueue(o.now) + InQueue(o.later)
  {
    assert s.mailbox == [s.mailbox[0]] + s.mailbox[1..];
    TimedRequests(o.later, o.core.generation);
    NoneStale(s.timers, o.core.generation);
    assert multiset(s.mailbox[1..] + o.now) == multiset(s.mailbox[1..]) + multiset(o.now);
  }

  lemma DeliveryConserves(c: Setup, s: System, o: Outcome)
    requires s.mailbox != [] && TimersInv(s) && Conserved(s) && Balances(s, s.mailbox[0], o)
    requires o.core.generation == if s.mailbox[0].Restart? then s.core.generation + 1 else s.core.generation
    ensures Conserved(Delivered(c, s, o))
  {
    assert multiset(o.now + o.later) == multiset(o.now) + multiset(o.later);
    if s.mailbox[0].Restart? {
      RestartedRequests(c, s, o);
    } else {
      DeliveredRequests(c, s, o);
    }
  }

  lemma CountRemoved<T>(s: seq<T>, i: nat, x: T)
    requires i < |s|
    ensures multiset(s)[x] == multiset(RemoveAt(s, i))[x] + if s[i] == x then 1 else 0
  {
    assert s == s[..i] + [s[i]] + s[i + 1..];
  }

  lemma ExpiryConserves(c: Setup, s: System, i: nat)
    requires i < |s.timers|
    ensures Requests(After(c, s, TimerExpires(i))) == Requests(s)
  {
    CountRemoved(s.timers, i, Timer(AccountOneRequest, s.core.generation));
  }

  lemma LandingConserves(c: Setup, s: System, i: nat)
    requires i < |s.landing|
    ensures Requests(After(c, s, Lands(i))) == Requests(s)
  {
    CountRemoved(s.landing, i, AccountOneRequest);
  }

  lemma ExitConserves(c: Setup, s: System)
    requires Enabled(s, NodeExits)
    ensures Requests(After(c, s, NodeExits)) == Requests(s)
  {
  }

  lemma PostConserves(s: System, e: Event)
    ensures Requests(Post(s, e)) == Requests(s) + InQueue([e])
  {
  }

  lemma SurroundingsConserve(c: Setup, s: System, step: Step)
    requires Conserved(s) && Enabled(s, step) && !step.Deliver?
    ensures Conserved(After(c, s, step))
  {
    match step
    case RequestArrives => PostConserves(s, AccountOneRequest);
    case TerminateAsked => PostConserves(s, Terminate);
    case KexArrives(done) => PostConserves(s, KeyExchangeResponse(done));
    case Recover => PostConserves(s, Restart);
    case TimerExpires(i) => ExpiryConserves(c, s, i);
    case Lands(i) => LandingConserves(c, s, i);
    case NodeExits => ExitConserves(c, s);
    case CreditSpent =>
  }

  lemma StepKeepsTimers(c: Setup, s: System, step: Step)
    requires TimersInv(s) && Enabled(s, step)
    ensures TimersInv(After(c, s, step))
  {
    if step.Deliver? {
      GenerationMoves(c, s.core, s.mailbox[0], step.ans);
    }
  }

  /** Over whole runs, restarts included, no request is forgotten or counted twice. */
  lemma {:induction false} RequestsAreConserved(c: Setup, run: seq<System>)
    requires Run(c, run)
    ensures Conserved(run[|run| - 1]) && TimersInv(run[|run| - 1])
    decreases |run|
  {
    if |run| > 1 {
      RunPrefix(c, run);
      RequestsAreConserved(c, run[..|run| - 1]);
      var s := run[|run| - 2];
      var step :| Enabled(s, step) && run[|run| - 1] == After(c, s, step);
      StepKeepsTimers(c, s, step);
      if step.Deliver? {
        HandleBalances(c, s, s.mailbox[0], step.ans);
        GenerationMoves(c, s.core, s.mailbox[0], step.ans);
        DeliveryConserves(c, s, Handle(c, s.core, s.mailbox[0], step.ans));
      } else {
        SurroundingsConserve(c, s, step);
      }
    }
  }

  // ------------------------------------------------------------------ the fate of a request

  /** Nothing keeps the machine from counting a request. */
  predicate Ready(a: Core) {
    !a.awaiting && a.headOpen && a.paramsSet && a.addressSet
  }

  /**
   What becomes of a request when it is handled: it is put off while a payment is unconfirmed or the head is
   not open, dropped only for want of terms or of a wallet, and counted or paid for otherwise.
   */
  lemma RequestFateIff(c: Setup, s: System, ans: Answers)
    requires Enabled(s, Deliver(ans)) && s.mailbox[0] == AccountOneRequest
    ensures var a, next := s.core, After(c, s, Deliver(ans));
      && (Requests(next) == Requests(s) <==> PutOff(a))
      && (next.books.dropped > s.books.dropped <==> !a.awaiting && (!a.paramsSet || (a.headOpen && !a.addressSet)))
      && (next.core.accounted + next.books.paid > a.accounted + s.books.paid <==> Ready(a))
  {
    AccountSends(c, s.core, ans.sending);
    DeliveredRequests(c, s, Account(c, s.core, ans.sending));
    AccountFate(c, s, ans.sending);
  }

  lemma AccountFate(c: Setup, s: System, sending: Sending)
    ensures var a, o := s.core, Account(c, s.core, sending);
      var b := Entered(s, AccountOneRequest, o);
      && (b.dropped > s.books.dropped <==> !a.awaiting && (!a.paramsSet || (a.headOpen && !a.addressSet)))
      && (o.core.accounted + b.paid > a.accounted + s.books.paid <==> Ready(a))
  {
  }
}
