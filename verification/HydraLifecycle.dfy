/** The chain of lifecycle events: one start of the machine drives one close and fanout at a time. */
module HydraLifecycle {
  import opened Prelude
  import opened HydraConfig
  import opened CoinSelection
  import opened HydraServer
  import opened HydraRuntime

  /** An open head that is not closing is a chain waiting for its last payment. */
  function Token(a: Core): nat {
    if a.headOpen && !a.isClosing then 1 else 0
  }

  function Chains(s: System): nat {
    Pending(s, Lifecycle) + Token(s.actor.core)
  }

  /** Lifecycle events that a Restart cannot drop: they are past the generation check. */
  function Leftovers(s: System): nat
    requires s.actor.mailbox != []
  {
    Count(s.actor.mailbox[1..], Lifecycle) + Count(s.landing, Lifecycle)
  }

  /** Handling an event emits no more chains than it consumes. */
  lemma HandleNoRise(c: Setup, a: Core, event: Event, ans: Answers)
    requires !event.Restart?
    ensures var o := Handle(c, a, event, ans);
      Emitted(o, Lifecycle) + Token(o.core) <= One(Lifecycle, event) + Token(a)
  {
    if event.AccountOneRequest? {
      RequestNoRise(c, a, ans);
    } else if event.WaitForL2Tx? {
      PollNoRise(c, a, event, ans);
    } else {
      OthersNoRise(c, a, event, ans);
    }
  }

  /** A payment that starts the closing turns the waiting head into the chain that closes it. */
  lemma RequestNoRise(c: Setup, a: Core, ans: Answers)
    ensures var o := OnAccount(c, a, ans); Emitted(o, Lifecycle) + Token(o.core) <= Token(a)
  {
  }

  lemma PollNoRise(c: Setup, a: Core, event: Event, ans: Answers)
    requires event.WaitForL2Tx?
    ensures var o := Handle(c, a, event, ans); Emitted(o, Lifecycle) + Token(o.core) == Token(a)
  {
  }

  lemma OthersNoRise(c: Setup, a: Core, event: Event, ans: Answers)
    requires !event.Restart? && !event.AccountOneRequest? && !event.WaitForL2Tx?
    ensures var o := Handle(c, a, event, ans);
      Emitted(o, Lifecycle) + Token(o.core) <= One(Lifecycle, event) + Token(a)
  {
  }

  /** No step other than a Restart adds a chain. */
  lemma ChainsNeverRise(c: Setup, s: System, step: Step)
    requires Enabled(s, step) && !Restarts(s, step)
    ensures Chains(After(c, s, step)) <= Chains(s)
  {
    if step.Deliver? {
      DeliveryCounts(c, s, step, Lifecycle);
      HandleNoRise(c, s.actor.core, NextEvent(s), step.ans);
    } else {
      SurroundingsCount(c, s, step, Lifecycle);
    }
  }

  /** A Restart leaves the leftovers, and one chain more if the node starts. */
  lemma RestartLeaves(c: Setup, s: System, step: Step)
    requires Enabled(s, step) && Restarts(s, step) && TimersInv(s.actor)
    ensures Chains(After(c, s, step)) == Leftovers(s) + (if step.ans.nodeStarts then 1 else 0)
  {
    RestartCounts(c, s, step, Lifecycle);
  }

  /** A run restarts only when no lifecycle event is past the generation check. */
  ghost predicate LeftoverFree(run: Run)
    requires |run.states| == |run.steps| + 1
  {
    forall i :: 0 <= i < |run.steps| && Restarts(run.states[i], run.steps[i]) ==> Leftovers(run.states[i]) == 0
  }

  lemma {:induction false} RunKeepsTimers(c: Setup, run: Run)
    requires run.Valid(c) && run.First() == Start()
    ensures TimersInv(run.Last().actor)
    decreases |run.steps|
  {
    if run.steps != [] {
      InitValid(c, run);
      RunKeepsTimers(c, run.Init());
      StepKeepsTimers(c, run.Init().Last(), run.steps[|run.steps| - 1]);
    }
  }

  /** In every leftover-free run there is at most one chain, so never two closes or two fanouts at once. */
  lemma {:induction false} AtMostOneChain(c: Setup, run: Run)
    requires run.Valid(c) && run.First() == Start() && LeftoverFree(run)
    ensures Chains(run.Last()) <= 1
    decreases |run.steps|
  {
    if run.steps == [] {
      CountOne(Restart, Lifecycle);
    } else {
      InitValid(c, run);
      var init, step := run.Init(), run.steps[|run.steps| - 1];
      assert LeftoverFree(init) by {
        forall i | 0 <= i < |init.steps| && Restarts(init.states[i], init.steps[i])
          ensures Leftovers(init.states[i]) == 0
        {
          assert Restarts(run.states[i], run.steps[i]);
        }
      }
      AtMostOneChain(c, init);
      RunKeepsTimers(c, init);
      if Restarts(init.Last(), step) {
        assert Restarts(run.states[|run.steps| - 1], run.steps[|run.steps| - 1]);
        RestartLeaves(c, init.Last(), step);
      } else {
        ChainsNeverRise(c, init.Last(), step);
      }
    }
  }

  // ------------------------------------------------------------------ the chain is never lost

  /** An event of the chain that closes a head and fans it out. */
  predicate Closes(e: Event) {
    || e.WaitForUtxoCount? || e.TryToClose? || e.WaitForClosed?
    || e.WaitForFanoutReady? || e.DoFanout? || e.WaitForIdleAfterClose?
  }

  predicate OnlyCloses(events: seq<Event>) {
    forall e <- events :: Of(Lifecycle, e) ==> Closes(e)
  }

  /** While the head is closing, the lifecycle events that can still be delivered are those of its closing. */
  predicate ClosingInv(s: System) {
    s.actor.core.isClosing ==>
      && OnlyCloses(s.actor.mailbox) && OnlyCloses(s.landing)
      && forall x <- s.actor.timers ::
           x.generation == s.actor.core.generation && Of(Lifecycle, x.event) ==> Closes(x.event)
  }

  lemma {:induction false} NoneOf(s: seq<Event>)
    requires Count(s, Lifecycle) == 0
    ensures OnlyCloses(s)
  {
    if s != [] {
      NoneOf(s[..|s| - 1]);
    }
  }

  lemma {:induction false} NoneTimed(s: seq<Timer>, g: nat)
    requires CountTimers(s, g, Lifecycle) == 0
    ensures forall x <- s :: x.generation == g ==> !Of(Lifecycle, x.event)
  {
    if s != [] {
      NoneTimed(s[..|s| - 1], g);
    }
  }

  lemma RequestAndClosing(c: Setup, a: Core, ans: Answers)
    ensures var o := OnAccount(c, a, ans);
      && OnlyCloses(ToSeq(o.now) + ToSeq(o.later))
      && (o.core.isClosing ==> a.isClosing || Token(a) == 1)
  {
  }

  lemma PollAndClosing(c: Setup, a: Core, event: Event, ans: Answers)
    requires event.WaitForL2Tx?
    ensures var o := Handle(c, a, event, ans);
      OnlyCloses(ToSeq(o.now) + ToSeq(o.later)) && o.core.isClosing == a.isClosing
  {
  }

  lemma OthersAndClosing(c: Setup, a: Core, event: Event, ans: Answers)
    requires !event.Restart? && !event.AccountOneRequest? && !event.WaitForL2Tx?
    ensures var o := Handle(c, a, event, ans);
      && (o.core.isClosing ==> a.isClosing)
      && (o.core.isClosing && (Of(Lifecycle, event) ==> Closes(event)) ==> OnlyCloses(ToSeq(o.now) + ToSeq(o.later)))
  {
  }

  /** What a delivery leaves pending: the rest, and what it sends. */
  lemma DeliveryKeepsClosing(c: Setup, s: System, ans: Answers)
    requires Enabled(s, Deliver(ans)) && !NextEvent(s).Restart?
    requires OnlyCloses(s.actor.mailbox[1..]) && OnlyCloses(s.landing)
    requires forall x <- s.actor.timers ::
      x.generation == s.actor.core.generation && Of(Lifecycle, x.event) ==> Closes(x.event)
    requires var o := Outcomes(c, s, ans); OnlyCloses(ToSeq(o.now) + ToSeq(o.later))
    ensures ClosingInv(After(c, s, Deliver(ans)))
  {
    OnlyRestartMovesGeneration(c, s.actor.core, NextEvent(s), ans);
    var o, next := Outcomes(c, s, ans), After(c, s, Deliver(ans));
    assert forall e <- next.actor.mailbox :: e in s.actor.mailbox[1..] || e in ToSeq(o.now) + ToSeq(o.later);
    assert forall x <- next.actor.timers ::
      x in s.actor.timers || (x in Timed(o.later, o.core.generation) && x.event in ToSeq(o.now) + ToSeq(o.later));
  }

  /** A head that is about to close has nothing else pending. */
  lemma NothingElsePending(s: System)
    requires Chains(s) <= 1 && Token(s.actor.core) == 1
    ensures OnlyCloses(s.actor.mailbox) && OnlyCloses(s.landing)
    ensures forall x <- s.actor.timers :: x.generation == s.actor.core.generation ==> !Of(Lifecycle, x.event)
  {
    NoneOf(s.actor.mailbox);
    NoneOf(s.landing);
    NoneTimed(s.actor.timers, s.actor.core.generation);
  }

  lemma HandlingKeepsClosing(c: Setup, s: System, ans: Answers)
    requires Enabled(s, Deliver(ans)) && Chains(s) <= 1 && ClosingInv(s)
    ensures ClosingInv(After(c, s, Deliver(ans)))
  {
    var a, event, o := s.actor.core, NextEvent(s), Outcomes(c, s, ans);
    assert event in s.actor.mailbox && forall e <- s.actor.mailbox[1..] :: e in s.actor.mailbox;
    if event == AccountOneRequest {
      RequestAndClosing(c, a, ans);
      if !a.isClosing && o.core.isClosing {
        NothingElsePending(s);
      }
    } else if event.WaitForL2Tx? {
      PollAndClosing(c, a, event, ans);
    } else if !event.Restart? {
      OthersAndClosing(c, a, event, ans);
    }
    if o.core.isClosing && !event.Restart? {
      DeliveryKeepsClosing(c, s, ans);
    }
  }

  lemma SurroundingsKeepClosing(c: Setup, s: System, step: Step)
    requires Enabled(s, step) && !step.Deliver? && ClosingInv(s)
    ensures ClosingInv(After(c, s, step))
  {
    var next := After(c, s, step);
    assert forall e <- next.actor.mailbox :: e in s.actor.mailbox || e in s.landing || !Of(Lifecycle, e);
    assert forall e <- next.landing ::
      e in s.landing || !Of(Lifecycle, e)
      || exists x <- s.actor.timers :: x.generation == s.actor.core.generation && x.event == e;
    assert forall x <- next.actor.timers :: x in s.actor.timers;
  }

  /** Handling an event keeps the only chain there is, unless it fails. */
  lemma HandleKeepsChain(c: Setup, a: Core, event: Event, ans: Answers)
    requires !event.Restart? && One(Lifecycle, event) + Token(a) <= 1 && Handle(c, a, event, ans).ok
    requires a.isClosing && Of(Lifecycle, event) ==> Closes(event)
    ensures var o := Handle(c, a, event, ans);
      Emitted(o, Lifecycle) + Token(o.core) == One(Lifecycle, event) + Token(a)
  {
    if event.AccountOneRequest? {
      RequestKeepsChain(c, a, ans);
    } else if event.WaitForL2Tx? {
      PollNoRise(c, a, event, ans);
    } else {
      OthersKeepChain(c, a, event, ans);
    }
  }

  lemma RequestKeepsChain(c: Setup, a: Core, ans: Answers)
    ensures var o := OnAccount(c, a, ans); Emitted(o, Lifecycle) + Token(o.core) == Token(a)
  {
  }

  lemma OthersKeepChain(c: Setup, a: Core, event: Event, ans: Answers)
    requires !event.Restart? && !event.AccountOneRequest? && !event.WaitForL2Tx?
    requires One(Lifecycle, event) + Token(a) <= 1 && Handle(c, a, event, ans).ok
    requires a.isClosing && Of(Lifecycle, event) ==> Closes(event)
    ensures var o := Handle(c, a, event, ans);
      Emitted(o, Lifecycle) + Token(o.core) == One(Lifecycle, event) + Token(a)
  {
  }

  /** There is a chain, or a Restart will start one, or the machine has been told to stop. */
  predicate Driven(s: System) {
    Chains(s) == 1 || s.owed || Restart in s.actor.mailbox || !s.running
  }

  lemma DeliveryKeepsDriven(c: Setup, s: System, step: Step)
    requires Enabled(s, step) && step.Deliver? && !Restarts(s, step) && Chains(s) <= 1 && Driven(s) && ClosingInv(s)
    ensures Driven(After(c, s, step))
  {
    var o := Outcomes(c, s, step.ans);
    assert NextEvent(s) in s.actor.mailbox;
    assert s.actor.mailbox == [NextEvent(s)] + s.actor.mailbox[1..];
    assert Restart in s.actor.mailbox ==> Restart in After(c, s, step).actor.mailbox;
    DeliveryCounts(c, s, step, Lifecycle);
    TakingRemoves(s, Lifecycle);
    if o.ok {
      HandleKeepsChain(c, s.actor.core, NextEvent(s), step.ans);
    }
  }

  lemma StepKeepsDriven(c: Setup, s: System, step: Step)
    requires Enabled(s, step) && TimersInv(s.actor) && Chains(s) <= 1 && Driven(s) && ClosingInv(s)
    requires Restarts(s, step) ==> Leftovers(s) == 0
    ensures Driven(After(c, s, step))
  {
    if Restarts(s, step) {
      RestartLeaves(c, s, step);
    } else if step.Deliver? {
      DeliveryKeepsDriven(c, s, step);
    } else {
      SurroundingsCount(c, s, step, Lifecycle);
    }
  }

  lemma LeftoverFreeInit(run: Run)
    requires |run.states| == |run.steps| + 1 && run.steps != [] && LeftoverFree(run)
    ensures LeftoverFree(run.Init())
    ensures Restarts(run.Init().Last(), run.steps[|run.steps| - 1]) ==> Leftovers(run.Init().Last()) == 0
  {
    var init := run.Init();
    forall i | 0 <= i < |init.steps| && Restarts(init.states[i], init.steps[i])
      ensures Leftovers(init.states[i]) == 0
    {
      assert Restarts(run.states[i], run.steps[i]);
    }
    assert init.Last() == run.states[|run.steps| - 1];
  }

  /** In every leftover-free run the machine never stalls: its chain, or an owed Restart, drives it on. */
  lemma {:induction false} ChainIsNeverLost(c: Setup, run: Run)
    requires run.Valid(c) && run.First() == Start() && LeftoverFree(run)
    ensures Driven(run.Last()) && ClosingInv(run.Last())
    decreases |run.steps|
  {
    if run.steps != [] {
      InitValid(c, run);
      LeftoverFreeInit(run);
      ChainIsNeverLost(c, run.Init());
      AtMostOneChain(c, run.Init());
      RunKeepsTimers(c, run.Init());
      var s, step := run.Init().Last(), run.steps[|run.steps| - 1];
      StepKeepsDriven(c, s, step);
      if step.Deliver? {
        HandlingKeepsClosing(c, s, step.ans);
      } else {
        SurroundingsKeepClosing(c, s, step);
      }
    }
  }

  function RestartCountOf(run: Run): nat
    requires |run.states| == |run.steps| + 1
    decreases |run.steps|
  {
    if run.steps == [] then 0
    else
      RestartCountOf(run.Init()) +
      if Restarts(run.states[|run.steps| - 1], run.steps[|run.steps| - 1]) then 1 else 0
  }

  lemma OneRestartOneChain(c: Setup, s: System, step: Step)
    requires Enabled(s, step) && TimersInv(s.actor)
    ensures Chains(After(c, s, step)) <= Chains(s) + (if Restarts(s, step) then 1 else 0)
  {
    if Restarts(s, step) {
      RestartLeaves(c, s, step);
      TakingRemoves(s, Lifecycle);
    } else {
      ChainsNeverRise(c, s, step);
    }
  }

  /** Without that condition the chains are still bounded by the restarts. */
  lemma {:induction false} ChainsBoundedByRestarts(c: Setup, run: Run)
    requires run.Valid(c) && run.First() == Start()
    ensures Chains(run.Last()) <= RestartCountOf(run)
    decreases |run.steps|
  {
    if run.steps == [] {
      CountOne(Restart, Lifecycle);
    } else {
      var n := |run.steps| - 1;
      InitValid(c, run);
      assert run.Init().Last() == run.states[n];
      ChainsBoundedByRestarts(c, run.Init());
      RunKeepsTimers(c, run.Init());
      OneRestartOneChain(c, run.states[n], run.steps[n]);
    }
  }

  /**
   The condition is needed: a node that exits while a funding timer has just
   fired leaves two chains behind its Restart.
   */
  lemma LeftoverMakesTwoChains(c: Setup, ans: Answers) returns (run: Run)
    requires ans.nodeStarts
    ensures run.Valid(c) && run.First() == Start() && Chains(run.Last()) == 2
  {
    run := StartedOnce(c, ans);
    ExitMeetsTimer(c, run.Last());
    run := Extend(c, run, NodeExits);
    run := Extend(c, run, Lands(0));
    run := Extend(c, run, TimerExpires(0));
    run := Extend(c, run, Lands(0));
    RestartWithFunding(c, run.Last(), ans);
    run := Extend(c, run, Deliver(ans));
  }

  /** The machine after its first start, waiting for the funding timer. */
  predicate WaitsForFunding(s: System) {
    && s.running && !s.owed && s.landing == []
    && s.actor.core.watchdog == Some(s.actor.core.generation)
    && s.actor.mailbox == [] && s.actor.timers == [Timer(FundCommitAddr, s.actor.core.generation)]
  }

  lemma StartedOnce(c: Setup, ans: Answers) returns (run: Run)
    requires ans.nodeStarts
    ensures run.Valid(c) && run.First() == Start() && WaitsForFunding(run.Last())
  {
    run := Run([Start()], []);
    run := Extend(c, run, Deliver(ans));
  }

  lemma ExitMeetsTimer(c: Setup, s: System)
    requires WaitsForFunding(s)
    ensures var s1 := After(c, s, NodeExits);
      Enabled(s1, Lands(0)) &&
      var s2 := After(c, s1, Lands(0));
      Enabled(s2, TimerExpires(0)) &&
      var s3 := After(c, s2, TimerExpires(0));
      Enabled(s3, Lands(0)) &&
      var s4 := After(c, s3, Lands(0));
      s4.running && !s4.owed && s4.landing == [] &&
      s4.actor.mailbox == [Restart, FundCommitAddr] && s4.actor.timers == []
  {
  }

  lemma RestartWithFunding(c: Setup, s: System, ans: Answers)
    requires Enabled(s, Deliver(ans)) && ans.nodeStarts
    requires s.actor.mailbox == [Restart, FundCommitAddr] && s.landing == [] && s.actor.timers == []
    ensures Chains(After(c, s, Deliver(ans))) == 2
  {
    assert s.actor.mailbox[1..] == [FundCommitAddr];
    CountOne(FundCommitAddr, Lifecycle);
    RestartLeaves(c, s, Deliver(ans));
  }
}
