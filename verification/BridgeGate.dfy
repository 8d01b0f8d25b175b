/** How many payments of a bridge can be polled for at the same time. */
module BridgeGate {
  import opened Prelude
  import opened CoinSelection
  import opened BridgeClient
  import opened BridgeRuntime
  import HydraServer

  // ------------------------------------------------------------------ counting polls

  function IsPoll(e: Event): nat {
    if e.WaitForL2Tx? then 1 else 0
  }

  function Polls(s: seq<Event>): nat {
    if s == [] then 0 else Polls(s[..|s| - 1]) + IsPoll(s[|s| - 1])
  }

  /** Timers of another generation never deliver their events. */
  function TimedPolls(s: seq<Timer>, generation: nat): nat {
    if s == [] then 0
    else
      TimedPolls(s[..|s| - 1], generation)
      + (if s[|s| - 1].generation == generation then IsPoll(s[|s| - 1].event) else 0)
  }

  /** The polls that can still be delivered. */
  function Pending(s: System): nat {
    Polls(s.mailbox) + Polls(s.landing) + TimedPolls(s.timers, s.core.generation)
  }

  lemma {:induction false} PollsConcat(a: seq<Event>, b: seq<Event>)
    ensures Polls(a + b) == Polls(a) + Polls(b)
  {
    if b == [] {
      assert a + b == a;
    } else {
      assert (a + b)[..|a + b| - 1] == a + b[..|b| - 1];
      PollsConcat(a, b[..|b| - 1]);
    }
  }

  lemma PollsOne(e: Event)
    ensures Polls([e]) == IsPoll(e)
  {
    assert [e][..0] == [];
  }

  lemma {:induction false} PollsRemove(s: seq<Event>, i: nat)
    requires i < |s|
    ensures Polls(s) == Polls(RemoveAt(s, i)) + IsPoll(s[i])
    decreases |s|
  {
    var n := |s| - 1;
    if i < n {
      PollsRemove(s[..n], i);
      assert RemoveAt(s, i)[..n - 1] == RemoveAt(s[..n], i);
    } else {
      assert RemoveAt(s, i) == s[..n];
    }
  }

  lemma {:induction false} TimedConcat(a: seq<Timer>, b: seq<Timer>, g: nat)
    ensures TimedPolls(a + b, g) == TimedPolls(a, g) + TimedPolls(b, g)
  {
    if b == [] {
      assert a + b == a;
    } else {
      assert (a + b)[..|a + b| - 1] == a + b[..|b| - 1];
      TimedConcat(a, b[..|b| - 1], g);
    }
  }

  lemma TimedRemove(s: seq<Timer>, i: nat, g: nat)
    requires i < |s|
    ensures TimedPolls(s, g)
         == TimedPolls(RemoveAt(s, i), g) + (if s[i].generation == g then IsPoll(s[i].event) else 0)
  {
    assert s == s[..i] + ([s[i]] + s[i + 1..]);
    TimedConcat(s[..i], [s[i]] + s[i + 1..], g);
    TimedConcat([s[i]], s[i + 1..], g);
    TimedConcat(s[..i], s[i + 1..], g);
    assert [s[i]][..0] == [];
  }

  /** New timers carry the generation of the state that starts them. */
  lemma {:induction false} TimedNow(events: seq<Event>, g: nat)
    ensures TimedPolls(Timed(events, g), g) == Polls(events)
  {
    if events != [] {
      var n := |events| - 1;
      assert Timed(events, g)[..n] == Timed(events[..n], g);
      TimedNow(events[..n], g);
    }
  }

  lemma {:induction false} StaleTimersSilent(s: seq<Timer>, g: nat)
    requires forall i :: 0 <= i < |s| ==> s[i].generation != g
    ensures TimedPolls(s, g) == 0
  {
    if s != [] {
      StaleTimersSilent(s[..|s| - 1], g);
    }
  }

  // ------------------------------------------------------------------ one event

  function Flag(b: bool): nat {
    if b then 1 else 0
  }

  /** The delivery clears the session: a Restart that gets as far as asking for a key exchange. */
  predicate Resets(s: System, step: Step) {
    step.Deliver? && s.mailbox != [] && s.mailbox[0].Restart? && OnRestart(s.core, step.ans).ok
  }

  /** A prepayment goes out while another payment is unconfirmed. */
  predicate Overlaps(a: Core, event: Event, o: Outcome) {
    event.SendPrepay? && o.paid.Some? && o.ok && a.awaiting
  }

  /** An event other than a reset makes no polls without shutting the gate, or overlapping. */
  predicate Balanced(a: Core, event: Event, o: Outcome) {
    Polls(o.now + o.later) + Flag(a.awaiting)
    <= IsPoll(event) + Flag(o.core.awaiting) + Flag(Overlaps(a, event, o))
  }

  lemma PollsNone(s: seq<Event>)
    requires forall e <- s :: !e.WaitForL2Tx?
    ensures Polls(s) == 0
  {
    if s != [] {
      PollsNone(s[..|s| - 1]);
      assert s[|s| - 1] in s;
    }
  }

  lemma AccountBalanced(c: Setup, a: Core, sending: Sending)
    ensures Balanced(a, AccountOneRequest, Account(c, a, sending))
  {
    var o := Account(c, a, sending);
    if o.now != [] {
      PollsOne(o.now[0]);
      assert o.now + o.later == [o.now[0]];
    } else {
      PollsNone(o.now + o.later);
    }
  }

  lemma PrepayBalanced(c: Setup, a: Core, sending: Sending)
    ensures Balanced(a, SendPrepay, Prepay(c, a, sending))
  {
    var o := Prepay(c, a, sending);
    if o.now != [] {
      PollsOne(o.now[0]);
      assert o.now + o.later == [o.now[0]];
    } else {
      PollsNone(o.now + o.later);
    }
  }

  /** A poll has one successor, or ends: with the gate open, or by an error. */
  predicate PollShape(a: Core, o: Outcome) {
    || (|o.now + o.later| == 1 && o.core.awaiting == a.awaiting)
    || (o.now == [] && o.later == [] && (!o.core.awaiting || !o.ok))
  }

  lemma PollHasShape(a: Core, event: Event, ans: Answers)
    requires event.WaitForL2Tx?
    ensures PollShape(a, OnL2Poll(a, event.spent, event.attempts, event.amount, event.retriesLeft, ans))
  {
  }

  lemma PollBalanced(c: Setup, a: Core, event: Event, ans: Answers)
    requires event.WaitForL2Tx?
    ensures Balanced(a, event, Handle(c, a, event, ans))
  {
    var o := Handle(c, a, event, ans);
    PollHasShape(a, event, ans);
    if o.now == [] && o.later == [] {
      assert o.now + o.later == [];
    } else {
      PollsOne((o.now + o.later)[0]);
      assert o.now + o.later == [(o.now + o.later)[0]];
    }
  }

  predicate LeavesGate(a: Core, o: Outcome) {
    o.core.awaiting == a.awaiting && forall e <- o.now + o.later :: !e.WaitForL2Tx?
  }

  lemma WatchingLeavesGate(a: Core, ans: Answers)
    ensures LeavesGate(a, OnWaitForOpen(a, ans)) && LeavesGate(a, OnMonitorStates(a, ans))
  {
  }

  lemma SettingUpLeavesGate(c: Setup, a: Core, ans: Answers)
    ensures LeavesGate(a, OnFund(c, a, ans)) && LeavesGate(a, OnCommit(c, a, ans))
    ensures LeavesGate(a, OnMonitorCredits(c, a, ans))
  {
  }

  lemma StartingLeavesGate(a: Core, ans: Answers, done: bool)
    ensures LeavesGate(a, OnKex(a, done, ans)) && (!OnRestart(a, ans).ok ==> LeavesGate(a, OnRestart(a, ans)))
  {
  }

  lemma HandleBalanced(c: Setup, a: Core, event: Event, ans: Answers)
    requires event.Restart? ==> !OnRestart(a, ans).ok
    ensures Balanced(a, event, Handle(c, a, event, ans))
  {
    if event == AccountOneRequest {
      AccountBalanced(c, a, ans.sending);
    } else if event == SendPrepay {
      PrepayBalanced(c, a, ans.sending);
    } else if event.WaitForL2Tx? {
      PollBalanced(c, a, event, ans);
    } else {
      OthersLeaveGate(c, a, event, ans);
      PollsNone(Handle(c, a, event, ans).now + Handle(c, a, event, ans).later);
    }
  }

  lemma OthersLeaveGate(c: Setup, a: Core, event: Event, ans: Answers)
    requires !event.AccountOneRequest? && !event.SendPrepay? && !event.WaitForL2Tx?
    requires event.Restart? ==> !OnRestart(a, ans).ok
    ensures LeavesGate(a, Handle(c, a, event, ans))
  {
    match event
    case WaitForOpen | MonitorStates => WatchingLeavesGate(a, ans);
    case KeyExchangeResponse(done) => StartingLeavesGate(a, ans, done);
    case Restart => StartingLeavesGate(a, ans, true);
    case FundCommitAddr | TryToCommit | MonitorCredits => SettingUpLeavesGate(c, a, ans);
    case Terminate =>
  }

  // ------------------------------------------------------------------ runs

  predicate TimersInv(s: System) {
    forall i :: 0 <= i < |s.timers| ==> s.timers[i].generation <= s.core.generation
  }

  /** Pending polls are paid for by the shut gate and by the overlapping prepayments. */
  predicate GateInv(s: System, earlier: nat) {
    TimersInv(s) && s.overlaps >= earlier && Pending(s) <= Flag(s.core.awaiting) + s.overlaps - earlier
  }

  lemma WatchingKeepsGeneration(a: Core, ans: Answers)
    ensures OnWaitForOpen(a, ans).core.generation == a.generation
    ensures OnMonitorStates(a, ans).core.generation == a.generation
  {
  }

  lemma StartingMovesGeneration(a: Core, done: bool, ans: Answers)
    ensures OnRestart(a, ans).core.generation == a.generation + 1
    ensures OnKex(a, done, ans).core.generation == a.generation
  {
  }

  lemma SettingUpKeepsGeneration(c: Setup, a: Core, ans: Answers)
    ensures OnFund(c, a, ans).core.generation == a.generation
    ensures OnCommit(c, a, ans).core.generation == a.generation
    ensures OnMonitorCredits(c, a, ans).core.generation == a.generation
  {
  }

  lemma GenerationMoves(c: Setup, a: Core, event: Event, ans: Answers)
    ensures Handle(c, a, event, ans).core.generation == if event.Restart? then a.generation + 1 else a.generation
  {
    match event
    case WaitForOpen | MonitorStates => WatchingKeepsGeneration(a, ans);
    case KeyExchangeResponse(done) => StartingMovesGeneration(a, done, ans);
    case Restart => StartingMovesGeneration(a, true, ans);
    case FundCommitAddr | TryToCommit | MonitorCredits => SettingUpKeepsGeneration(c, a, ans);
    case Terminate | AccountOneRequest | SendPrepay | WaitForL2Tx(_, _, _, _) =>
  }

  /** A delivery takes one event away and adds what it emits; a restart also drops the timers. */
  lemma DeliveryCounts(c: Setup, s: System, o: Outcome)
    requires s.mailbox != [] && TimersInv(s)
    requires o.core.generation == s.core.generation || o.core.generation == s.core.generation + 1
    ensures TimersInv(Delivered(c, s, o))
    ensures Pending(Delivered(c, s, o)) + IsPoll(s.mailbox[0]) <= Pending(s) + Polls(o.now + o.later)
  {
    var g := o.core.generation;
    assert s.mailbox == [s.mailbox[0]] + s.mailbox[1..];
    PollsConcat([s.mailbox[0]], s.mailbox[1..]);
    PollsOne(s.mailbox[0]);
    PollsConcat(s.mailbox[1..], o.now);
    TimedConcat(s.timers, Timed(o.later, g), g);
    TimedNow(o.later, g);
    PollsConcat(o.now, o.later);
    if g != s.core.generation {
      StaleTimersSilent(s.timers, g);
    }
  }

  /** Within a generation a delivery takes exactly that event away, and adds exactly those. */
  lemma DeliveryIsExact(c: Setup, s: System, o: Outcome)
    requires s.mailbox != [] && o.core.generation == s.core.generation
    ensures Pending(Delivered(c, s, o)) + IsPoll(s.mailbox[0]) == Pending(s) + Polls(o.now + o.later)
    ensures Pending(Delivered(c, s, o)) >= Polls(o.now + o.later)
  {
    assert s.mailbox == [s.mailbox[0]] + s.mailbox[1..];
    PollsConcat([s.mailbox[0]], s.mailbox[1..]);
    PollsOne(s.mailbox[0]);
    PollsConcat(s.mailbox[1..], o.now);
    TimedConcat(s.timers, Timed(o.later, o.core.generation), o.core.generation);
    TimedNow(o.later, o.core.generation);
    PollsConcat(o.now, o.later);
  }

  lemma PostCounts(s: System, e: Event)
    ensures Pending(Post(s, e)) == Pending(s) + IsPoll(e)
  {
    PollsConcat(s.mailbox, [e]);
    PollsOne(e);
  }

  lemma TimerCounts(c: Setup, s: System, i: nat)
    requires i < |s.timers|
    ensures Pending(After(c, s, TimerExpires(i))) == Pending(s)
  {
    TimedRemove(s.timers, i, s.core.generation);
    PollsConcat(s.landing, [s.timers[i].event]);
    PollsOne(s.timers[i].event);
  }

  lemma LandingCounts(c: Setup, s: System, i: nat)
    requires i < |s.landing|
    ensures Pending(After(c, s, Lands(i))) == Pending(s)
  {
    PostCounts(s, s.landing[i]);
    PollsRemove(s.landing, i);
  }

  lemma ExitCounts(c: Setup, s: System)
    requires Enabled(s, NodeExits)
    ensures Pending(After(c, s, NodeExits)) == Pending(s)
  {
    PollsConcat(s.landing, [Restart]);
    PollsOne(Restart);
  }

  /** The surroundings move polls, and make none. */
  lemma SurroundingsKeepPolls(c: Setup, s: System, step: Step)
    requires Enabled(s, step) && !step.Deliver?
    ensures Pending(After(c, s, step)) == Pending(s)
  {
    match step
    case RequestArrives => PostCounts(s, AccountOneRequest);
    case TerminateAsked => PostCounts(s, Terminate);
    case KexArrives(done) => PostCounts(s, KeyExchangeResponse(done));
    case Recover => PostCounts(s, Restart);
    case TimerExpires(i) => TimerCounts(c, s, i);
    case Lands(i) => LandingCounts(c, s, i);
    case NodeExits => ExitCounts(c, s);
    case CreditSpent =>
  }

  lemma SurroundingsKeepTimers(c: Setup, s: System, step: Step)
    requires Enabled(s, step) && !step.Deliver? && TimersInv(s)
    ensures TimersInv(After(c, s, step))
  {
    if step.TimerExpires? {
      var rest := After(c, s, step).timers;
      assert rest == s.timers[..step.timer] + s.timers[step.timer + 1..];
    } else {
      assert After(c, s, step).timers == s.timers;
    }
  }

  lemma SurroundingsKeepRestart(c: Setup, s: System, step: Step)
    requires Enabled(s, step) && !step.Deliver? && RestartOwed(s)
    ensures RestartOwed(After(c, s, step))
  {
    var next := After(c, s, step);
    if step.Recover? {
      assert next.mailbox == s.mailbox + [Restart];
    } else {
      assert next.owed == s.owed;
      assert next.mailbox[..|s.mailbox|] == s.mailbox;
    }
  }

  lemma SurroundingsKeepRest(c: Setup, s: System, step: Step)
    requires Enabled(s, step) && !step.Deliver?
    ensures var next := After(c, s, step);
      && next.core.awaiting == s.core.awaiting && next.core.generation == s.core.generation
      && next.overlaps == s.overlaps && (TimersInv(s) ==> TimersInv(next))
      && (RestartOwed(s) ==> RestartOwed(next))
  {
    if TimersInv(s) {
      SurroundingsKeepTimers(c, s, step);
    }
    if RestartOwed(s) {
      SurroundingsKeepRestart(c, s, step);
    }
  }

  lemma SurroundingsKeepGate(c: Setup, s: System, step: Step, earlier: nat)
    requires GateInv(s, earlier) && Enabled(s, step) && !step.Deliver?
    ensures GateInv(After(c, s, step), earlier)
  {
    SurroundingsKeepPolls(c, s, step);
    SurroundingsKeepRest(c, s, step);
  }

  lemma StepKeepsGate(c: Setup, s: System, step: Step, earlier: nat)
    requires GateInv(s, earlier) && Enabled(s, step) && !Resets(s, step)
    ensures GateInv(After(c, s, step), earlier)
  {
    if step.Deliver? {
      var o := Handle(c, s.core, s.mailbox[0], step.ans);
      HandleBalanced(c, s.core, s.mailbox[0], step.ans);
      GenerationMoves(c, s.core, s.mailbox[0], step.ans);
      DeliveryCounts(c, s, o);
    } else {
      SurroundingsKeepGate(c, s, step, earlier);
    }
  }

  ghost predicate Stretch(c: Setup, states: seq<System>, steps: seq<Step>) {
    && |states| == |steps| + 1
    && forall i :: 0 <= i < |steps| ==> Follows(c, states[i], steps[i], states[i + 1])
  }

  predicate Follows(c: Setup, s: System, step: Step, next: System) {
    Enabled(s, step) && !Resets(s, step) && next == After(c, s, step)
  }

  /**
   Between resets, starting with no poll pending: at most one poll is pending for the shut gate,
   and one for each prepayment that went out while the gate was shut.
   */
  lemma {:induction false} PollsAreBounded(c: Setup, states: seq<System>, steps: seq<Step>)
    requires Stretch(c, states, steps) && TimersInv(states[0]) && Pending(states[0]) == 0
    ensures var first, last := states[0], states[|steps|];
      GateInv(last, first.overlaps) && Pending(last) <= 1 + (last.overlaps - first.overlaps)
    decreases |steps|
  {
    if steps != [] {
      var n := |steps| - 1;
      var before, done := states[..n + 1], steps[..n];
      assert Stretch(c, before, done) by {
        forall i | 0 <= i < |done|
          ensures Follows(c, before[i], done[i], before[i + 1])
        {
          assert Follows(c, states[i], steps[i], states[i + 1]);
        }
      }
      PollsAreBounded(c, before, done);
      assert Follows(c, states[n], steps[n], states[n + 1]);
      StepKeepsGate(c, states[n], steps[n], states[0].overlaps);
    }
  }

  /**
   While a payment is unconfirmed, an event other than a poll starts to poll exactly when a prepayment
   goes through.
   */
  lemma OnlyPrepayIgnoresGate(c: Setup, a: Core, event: Event, ans: Answers)
    requires a.awaiting && !event.WaitForL2Tx? && (event.Restart? ==> !OnRestart(a, ans).ok)
    ensures Polls(Handle(c, a, event, ans).now + Handle(c, a, event, ans).later) > 0
       <==> Overlaps(a, event, Handle(c, a, event, ans))
  {
    HandleBalanced(c, a, event, ans);
    if event == SendPrepay && ans.sending.Sent? && Prepay(c, a, ans.sending).paid.Some? {
      var o := Prepay(c, a, ans.sending);
      PollsOne(o.now[0]);
      assert o.now + o.later == [o.now[0]];
    } else {
      AwaitingStays(c, a, event, ans);
    }
  }

  lemma AwaitingStays(c: Setup, a: Core, event: Event, ans: Answers)
    requires a.awaiting && !event.WaitForL2Tx? && (event.Restart? ==> !OnRestart(a, ans).ok)
    ensures Handle(c, a, event, ans).core.awaiting
  {
    if !event.AccountOneRequest? && !event.SendPrepay? {
      OthersLeaveGate(c, a, event, ans);
    }
  }

  // ------------------------------------------------------------------ a shut gate is opened again

  /** The machine has met an error, or its Restart is still to come. */
  predicate RestartOwed(s: System) {
    s.owed || Restart in s.mailbox
  }

  /** A shut gate has a poll, or a Restart, that will open it. */
  predicate ShutInv(s: System) {
    s.core.awaiting ==> Pending(s) >= 1 || RestartOwed(s)
  }

  /** After an event the gate is open, a poll has been started, a Restart is owed, or the gate is as it was. */
  predicate OpensOrPolls(a: Core, event: Event, o: Outcome) {
    || !o.core.awaiting || !o.ok || Polls(o.now + o.later) >= 1
    || (a.awaiting && !event.WaitForL2Tx? && !event.Restart?)
  }

  lemma AccountOpensOrPolls(c: Setup, a: Core, sending: Sending)
    ensures OpensOrPolls(a, AccountOneRequest, Account(c, a, sending))
  {
    var o := Account(c, a, sending);
    if o.now != [] {
      PollsOne(o.now[0]);
      assert o.now + o.later == [o.now[0]];
    }
  }

  lemma PrepayOpensOrPolls(c: Setup, a: Core, sending: Sending)
    ensures OpensOrPolls(a, SendPrepay, Prepay(c, a, sending))
  {
    var o := Prepay(c, a, sending);
    if o.now != [] {
      PollsOne(o.now[0]);
      assert o.now + o.later == [o.now[0]];
    }
  }

  /** A poll that has no successor opens the gate, or fails. */
  lemma ShapeOpensOrPolls(a: Core, event: Event, o: Outcome)
    requires PollShape(a, o) && (forall e <- o.now + o.later :: e.WaitForL2Tx?)
    ensures OpensOrPolls(a, event, o)
  {
    if o.now + o.later != [] {
      PollsOne((o.now + o.later)[0]);
      assert o.now + o.later == [(o.now + o.later)[0]];
    }
  }

  lemma PollSendsPolls(c: Setup, a: Core, event: Event, ans: Answers)
    requires event.WaitForL2Tx?
    ensures var o := Handle(c, a, event, ans); PollShape(a, o) && forall e <- o.now + o.later :: e.WaitForL2Tx?
  {
    PollHasShape(a, event, ans);
  }

  lemma HandleOpensOrPolls(c: Setup, a: Core, event: Event, ans: Answers)
    ensures OpensOrPolls(a, event, Handle(c, a, event, ans))
  {
    if event == AccountOneRequest {
      AccountOpensOrPolls(c, a, ans.sending);
    } else if event == SendPrepay {
      PrepayOpensOrPolls(c, a, ans.sending);
    } else if event.WaitForL2Tx? {
      PollSendsPolls(c, a, event, ans);
      ShapeOpensOrPolls(a, event, Handle(c, a, event, ans));
    } else if !event.Restart? {
      OthersLeaveGate(c, a, event, ans);
    }
  }

  lemma OutcomeKeepsShut(c: Setup, s: System, o: Outcome)
    requires s.mailbox != [] && !s.owed && ShutInv(s) && OpensOrPolls(s.core, s.mailbox[0], o)
    requires !s.mailbox[0].Restart? ==> o.core.generation == s.core.generation
    requires s.mailbox[0].Restart? ==> !o.core.awaiting || !o.ok
    ensures ShutInv(Delivered(c, s, o))
  {
    if !s.mailbox[0].Restart? {
      DeliveryIsExact(c, s, o);
      assert s.mailbox == [s.mailbox[0]] + s.mailbox[1..];
      assert Restart in s.mailbox ==> Restart in s.mailbox[1..] + o.now;
    }
  }

  lemma RestartOpens(a: Core, ans: Answers)
    ensures !OnRestart(a, ans).core.awaiting || !OnRestart(a, ans).ok
  {
  }

  lemma DeliveryKeepsShut(c: Setup, s: System, ans: Answers)
    requires Enabled(s, Deliver(ans)) && ShutInv(s)
    ensures ShutInv(After(c, s, Deliver(ans)))
  {
    HandleOpensOrPolls(c, s.core, s.mailbox[0], ans);
    GenerationMoves(c, s.core, s.mailbox[0], ans);
    RestartOpens(s.core, ans);
    OutcomeKeepsShut(c, s, Handle(c, s.core, s.mailbox[0], ans));
  }

  lemma SurroundingsKeepShut(c: Setup, s: System, step: Step)
    requires ShutInv(s) && Enabled(s, step) && !step.Deliver?
    ensures ShutInv(After(c, s, step))
  {
    SurroundingsKeepPolls(c, s, step);
    SurroundingsKeepRest(c, s, step);
  }

  /** In every run, restarts included: while a payment is unconfirmed, a poll is pending or a Restart is owed. */
  lemma {:induction false} ShutGateIsPolled(c: Setup, run: seq<System>)
    requires Run(c, run)
    ensures ShutInv(run[|run| - 1])
    decreases |run|
  {
    if |run| > 1 {
      RunPrefix(c, run);
      ShutGateIsPolled(c, run[..|run| - 1]);
      var s := run[|run| - 2];
      var step :| Enabled(s, step) && run[|run| - 1] == After(c, s, step);
      if step.Deliver? {
        DeliveryKeepsShut(c, s, step.ans);
      } else {
        SurroundingsKeepShut(c, s, step);
      }
    }
  }

  /** None of the inputs is in the snapshot; what is not an object holds none. */
  predicate Gone(spent: seq<Ref>, seen: Option<Snapshot>) {
    seen.Some? ==> forall e <- seen.value :: e.ref !in spent
  }

  /** A poll that can be read opens the gate iff the inputs are gone, or all attempts and retries are used up. */
  lemma PollOpensGateIff(c: Setup, a: Core, event: Event, ans: Answers)
    requires event.WaitForL2Tx? && ans.poll.Some? && a.awaiting
    ensures !Handle(c, a, event, ans).core.awaiting
       <==> Gone(event.spent, ans.poll.value) || (event.attempts >= 15 && event.retriesLeft == 0)
  {
    if ans.poll.value.Some? {
      PresentIff(event.spent, ans.poll.value.value);
    }
    PollOpensUnlessPresent(a, event, ans);
  }

  lemma PollOpensUnlessPresent(a: Core, event: Event, ans: Answers)
    requires event.WaitForL2Tx? && ans.poll.Some? && a.awaiting
    ensures !OnL2Poll(a, event.spent, event.attempts, event.amount, event.retriesLeft, ans).core.awaiting
       <==> ans.poll.value.None? || !HydraServer.StillPresent(event.spent, ans.poll.value.value)
            || (event.attempts >= 15 && event.retriesLeft == 0)
  {
  }

  lemma PresentIff(spent: seq<Ref>, seen: Snapshot)
    ensures HydraServer.StillPresent(spent, seen) <==> !Gone(spent, Some(seen))
  {
    if e :| e in seen && e.ref in spent {
      var i :| 0 <= i < |spent| && spent[i] == e.ref;
      assert HydraServer.Contains(seen, spent[i]);
    }
  }

  /** What a poll is followed by: its next attempt, or the first one of a resend, which looks for the new inputs. */
  lemma PollSuccessor(c: Setup, a: Core, e: Event, ans: Answers)
    requires e.WaitForL2Tx?
    ensures var o := Handle(c, a, e, ans);
      && |o.now| <= 1 && |o.later| <= 1
      && (o.later != [] ==> e.attempts < 15 && o.later == [e.(attempts := e.attempts + 1)])
      && (o.now != [] ==>
            && e.attempts >= 15 && e.retriesLeft > 0 && ans.sending.Sent?
            && o.now == [WaitForL2Tx(ans.sending.inputs, 0, e.amount, e.retriesLeft - 1)])
  {
  }

  /** A payment is polled for by its inputs and its amount, with three retries. */
  lemma PaymentPollsInputs(c: Setup, a: Core, event: Event, ans: Answers)
    requires event.AccountOneRequest? || event.SendPrepay?
    ensures var o := Handle(c, a, event, ans);
      if o.ok && o.paid.Some? then
        && ans.sending.Sent? && o.core.sent == a.sent + 1 && o.core.awaiting
        && o.now == [WaitForL2Tx(ans.sending.inputs, 0, o.paid.value, 3)]
      else o.now == []
  {
  }
}
