/** Why a lifecycle event is pending: each has its cause in an earlier delivery. */
module HydraStages {
  import opened Prelude
  import opened HydraConfig
  import opened CoinSelection
  import opened HydraServer
  import opened HydraRuntime
  import opened HydraFunding
  import opened HydraBilling

  /** What was read from the head is a status, and not this one. */
  predicate Another(ans: Answers, tag: Tag) {
    ans.tag.Some? && ans.tag.value != tag
  }

  /** The commit wallet holds 99% of what is to be committed, and the commit succeeded. */
  predicate Commits(c: Setup, ans: Answers) {
    ans.balance.Some? && ans.balance.value as real >= 0.99 * c.cfg.commitAda * 1_000_000.0 && ans.committed
  }

  // ------------------------------------------------------------------ causes

  /** Funding is looked after from the start of a node, after a fanout, and until the funds suffice. */
  predicate CausesFunding(c: Setup, event: Event, ans: Answers) {
    match event
    case Restart => ans.nodeStarts
    case WaitForIdleAfterClose(_) => ans.tag == Some(Idle)
    case FundCommitAddr =>
      ans.fuel == Some(0) || (ans.fuel.Some? && ans.walletReady && ans.balance.Some? && ans.balance.value < c.Target())
    case _ => false
  }

  /** A head is opened with the funds there and the peers connected; its status decides how it goes on. */
  predicate CausesOpening(c: Setup, e: Event, event: Event, ans: Answers) {
    match e
    case TryToInitHead =>
      || (event.FundCommitAddr? && ans.balance.Some? && ans.balance.value >= c.Target())
      || (event.TryToInitHead? && !ans.peersConnected)
      || (event.WaitForInitial? && event.retries <= 1 && Another(ans, Initial) && Another(ans, Open))
    case WaitForInitial(n) =>
      || (event.TryToInitHead? && ans.peersConnected && ans.delivery.Delivered? && n == 10)
      || (event == WaitForInitial(n + 1) && Another(ans, Initial) && Another(ans, Open))
    case TryToCommit =>
      || (event.WaitForInitial? && ans.tag == Some(Initial))
      || (event.TryToCommit? && ans.balance.Some? && !Commits(c, ans))
    case WaitForOpen =>
      || (event.WaitForInitial? && ans.tag == Some(Open))
      || (event.TryToCommit? && Commits(c, ans))
      || (event.WaitForOpen? && Another(ans, Open))
    case _ => false
  }

  /** The head is closed after the last payment of its session, once the coins are there. */
  predicate CausesClosing(c: Setup, e: Event, a: Core, event: Event, ans: Answers) {
    match e
    case WaitForUtxoCount =>
      || (event.AccountOneRequest? && PaymentDue(c, a) && a.sent + 1 >= c.cfg.microtransactionsPerFanout)
      || (event.WaitForUtxoCount? && ans.survey.Some? && |ans.survey.value| <= a.sent)
    case TryToClose =>
      || (event.WaitForUtxoCount? && ans.survey.Some? && |ans.survey.value| > a.sent)
      || (event.WaitForClosed? && event.reclose <= 1 && Another(ans, Closed))
    case WaitForClosed(n) =>
      || (event.TryToClose? && ans.delivery.Delivered? && n == 10)
      || (event == WaitForClosed(n + 1) && Another(ans, Closed))
    case _ => false
  }

  /** A closed head is fanned out when it is ready, until it is idle. */
  predicate CausesFanout(e: Event, event: Event, ans: Answers) {
    match e
    case WaitForFanoutReady =>
      || (event.WaitForClosed? && ans.tag == Some(Closed))
      || (event.WaitForFanoutReady? && ans.fanoutReady == Some(false))
    case DoFanout =>
      || (event.WaitForFanoutReady? && ans.fanoutReady == Some(true))
      || (event.WaitForIdleAfterClose? && event.refanout <= 1 && Another(ans, Idle))
    case WaitForIdleAfterClose(n) =>
      || (event.DoFanout? && ans.delivery.Delivered? && n == 10)
      || (event == WaitForIdleAfterClose(n + 1) && Another(ans, Idle))
    case _ => false
  }

  predicate Causes(c: Setup, e: Event, a: Core, event: Event, ans: Answers) {
    match e
    case FundCommitAddr => CausesFunding(c, event, ans)
    case TryToInitHead | WaitForInitial(_) | TryToCommit | WaitForOpen => CausesOpening(c, e, event, ans)
    case WaitForUtxoCount | TryToClose | WaitForClosed(_) => CausesClosing(c, e, a, event, ans)
    case WaitForFanoutReady | DoFanout | WaitForIdleAfterClose(_) => CausesFanout(e, event, ans)
    case _ => true
  }

  // ------------------------------------------------------------------ one event

  predicate SendsCaused(c: Setup, a: Core, event: Event, ans: Answers, o: Outcome) {
    && (o.now.Some? ==> Causes(c, o.now.value, a, event, ans))
    && (o.later.Some? ==> Causes(c, o.later.value, a, event, ans))
  }

  lemma RequestSendsCaused(c: Setup, a: Core, ans: Answers)
    ensures SendsCaused(c, a, AccountOneRequest, ans, OnAccount(c, a, ans))
  {
  }

  lemma PollSendsCaused(c: Setup, a: Core, event: Event, ans: Answers)
    requires event.WaitForL2Tx?
    ensures SendsCaused(c, a, event, ans, Handle(c, a, event, ans))
  {
  }

  lemma FundingSendsCaused(c: Setup, a: Core, ans: Answers)
    ensures SendsCaused(c, a, Restart, ans, OnRestart(a, ans))
    ensures SendsCaused(c, a, FundCommitAddr, ans, OnFund(c, a, ans))
  {
  }

  lemma OpeningSendsCaused(c: Setup, a: Core, event: Event, ans: Answers)
    requires event.TryToInitHead? || event.WaitForInitial? || event.TryToCommit? || event.WaitForOpen?
    ensures SendsCaused(c, a, event, ans, Handle(c, a, event, ans))
  {
  }

  lemma ClosingSendsCaused(c: Setup, a: Core, event: Event, ans: Answers)
    requires event.WaitForUtxoCount? || event.TryToClose? || event.WaitForClosed?
    ensures SendsCaused(c, a, event, ans, Handle(c, a, event, ans))
  {
  }

  lemma FanoutSendsCaused(c: Setup, a: Core, event: Event, ans: Answers)
    requires event.WaitForFanoutReady? || event.DoFanout? || event.WaitForIdleAfterClose?
    ensures SendsCaused(c, a, event, ans, Handle(c, a, event, ans))
  {
  }

  lemma HandleSendsCaused(c: Setup, a: Core, event: Event, ans: Answers)
    ensures SendsCaused(c, a, event, ans, Handle(c, a, event, ans))
  {
    match event
    case Restart | FundCommitAddr => FundingSendsCaused(c, a, ans);
    case Terminate =>
    case TryToInitHead | WaitForInitial(_) | TryToCommit | WaitForOpen => OpeningSendsCaused(c, a, event, ans);
    case AccountOneRequest => RequestSendsCaused(c, a, ans);
    case WaitForL2Tx(_, _, _, _) => PollSendsCaused(c, a, event, ans);
    case WaitForUtxoCount | TryToClose | WaitForClosed(_) => ClosingSendsCaused(c, a, event, ans);
    case WaitForFanoutReady | DoFanout | WaitForIdleAfterClose(_) => FanoutSendsCaused(c, a, event, ans);
  }

  // ------------------------------------------------------------------ runs

  /** The step delivers an event, with answers, that cause `e`. */
  predicate CausedBy(c: Setup, e: Event, s: System, step: Step) {
    step.Deliver? && s.actor.mailbox != [] && Causes(c, e, s.actor.core, NextEvent(s), step.ans)
  }

  ghost predicate HasCause(c: Setup, run: Run, e: Event)
    requires |run.states| == |run.steps| + 1
  {
    !Of(Lifecycle, e) || exists i :: 0 <= i < |run.steps| && CausedBy(c, e, run.states[i], run.steps[i])
  }

  /** It can still be delivered, or is the event of a stale timer. */
  predicate IsPending(s: System, e: Event) {
    e in s.actor.mailbox || e in s.landing || exists x <- s.actor.timers :: x.event == e
  }

  lemma CauseStays(c: Setup, run: Run, e: Event)
    requires run.Valid(c) && run.steps != [] && HasCause(c, run.Init(), e)
    ensures HasCause(c, run, e)
  {
    if Of(Lifecycle, e) {
      var i :| 0 <= i < |run.steps| - 1 && CausedBy(c, e, run.Init().states[i], run.Init().steps[i]);
      assert CausedBy(c, e, run.states[i], run.steps[i]);
    }
  }

  lemma PendingAfter(c: Setup, s: System, step: Step, e: Event)
    requires Enabled(s, step) && IsPending(After(c, s, step), e) && Of(Lifecycle, e)
    ensures IsPending(s, e) || (step.Deliver? && (Outcomes(c, s, step.ans).now == Some(e)
                                                   || Outcomes(c, s, step.ans).later == Some(e)))
  {
    var next := After(c, s, step);
    if step.Deliver? {
      var o := Outcomes(c, s, step.ans);
      assert forall f <- next.actor.mailbox :: f in s.actor.mailbox || f in ToSeq(o.now);
      assert forall x <- next.actor.timers :: x in s.actor.timers || x in Timed(o.later, o.core.generation);
    } else {
      assert forall f <- next.actor.mailbox :: f in s.actor.mailbox || f in s.landing || !Of(Lifecycle, f);
      assert forall f <- next.landing ::
        f in s.landing || !Of(Lifecycle, f) || exists x <- s.actor.timers :: x.event == f;
      assert forall x <- next.actor.timers :: x in s.actor.timers;
    }
  }

  /**
   In every run, restarts included, every lifecycle event that is pending was caused by an earlier delivery:
   a head is opened only with the funds there, closed only after its last payment, fanned out only when it is
   closed and ready, and each stage is tried again after ten looks.
   */
  lemma {:induction false} EveryEventHasItsCause(c: Setup, run: Run, e: Event)
    requires run.Valid(c) && run.First() == Start() && IsPending(run.Last(), e)
    ensures HasCause(c, run, e)
    decreases |run.steps|
  {
    if run.steps != [] && Of(Lifecycle, e) {
      var n := |run.steps| - 1;
      InitValid(c, run);
      var s, step := run.Init().Last(), run.steps[n];
      PendingAfter(c, s, step, e);
      if IsPending(s, e) {
        EveryEventHasItsCause(c, run.Init(), e);
        CauseStays(c, run, e);
      } else {
        HandleSendsCaused(c, s.actor.core, NextEvent(s), step.ans);
        assert CausedBy(c, e, run.states[n], run.steps[n]);
      }
    }
  }

  /** The head is taken to be open only when its status has been read as open. */
  lemma OpenIsRead(c: Setup, s: System, step: Step)
    requires Enabled(s, step) && !s.actor.core.headOpen && After(c, s, step).actor.core.headOpen
    ensures step.Deliver? && NextEvent(s) == WaitForOpen && step.ans.tag == Some(Open)
  {
    if step.Deliver? {
      HandlingLeadsOn(c, s, step.ans);
      OpensOnlyOnOpen(c, s.actor.core, NextEvent(s), step.ans);
    }
  }

  lemma OpensOnlyOnOpen(c: Setup, a: Core, event: Event, ans: Answers)
    requires !a.headOpen && Handle(c, a, event, ans).core.headOpen
    ensures event == WaitForOpen && ans.tag == Some(Open)
  {
    if event == AccountOneRequest {
      RequestLeadsOn(c, a, ans);
    } else if event.WaitForL2Tx? {
      PollLeadsOn(c, a, event, ans);
    }
  }

  // ------------------------------------------------------------------ errors

  /** Some call that the event makes fails. */
  predicate CallFails(c: Setup, a: Core, event: Event, ans: Answers) {
    match event
    case Restart => !ans.nodeStarts
    case Terminate => false
    case FundCommitAddr =>
      || ans.fuel.None?
      || (ans.fuel.value > 0
          && (!ans.walletReady || ans.balance.None?
              || (ans.balance.value < c.Target() && !a.fundTxSent && !ans.funding.Delivered?)))
    case TryToInitHead => ans.peersConnected && !ans.delivery.Delivered?
    case TryToClose | DoFanout => !ans.delivery.Delivered?
    case WaitForInitial(_) | WaitForOpen | WaitForClosed(_) | WaitForIdleAfterClose(_) => ans.tag.None?
    case TryToCommit => ans.balance.None?
    case AccountOneRequest => PaymentDue(c, a) && Pay(c, c.Amount(a.accounted + 1), ans).None?
    case WaitForL2Tx(_, _, amount, _) => ans.poll.None? || (ResendDue(event, ans) && Pay(c, amount, ans).None?)
    case WaitForUtxoCount => ans.survey.None?
    case WaitForFanoutReady => ans.fanoutReady.None?
  }

  lemma RequestFailsIff(c: Setup, a: Core, ans: Answers)
    ensures !OnAccount(c, a, ans).ok <==> CallFails(c, a, AccountOneRequest, ans)
  {
    if PaymentDue(c, a) {
      DuePays(c, a, a.(accounted := a.accounted + 1), ans);
    }
  }

  lemma PollFailsIff(c: Setup, a: Core, event: Event, ans: Answers)
    requires event.WaitForL2Tx?
    ensures !Handle(c, a, event, ans).ok <==> CallFails(c, a, event, ans)
  {
  }

  lemma OthersFailIff(c: Setup, a: Core, event: Event, ans: Answers)
    requires !event.AccountOneRequest? && !event.WaitForL2Tx?
    ensures !Handle(c, a, event, ans).ok <==> CallFails(c, a, event, ans)
  {
  }

  /** The machine owes itself a Restart after an event exactly when a call has failed. */
  lemma RestartIsOwedIff(c: Setup, s: System, ans: Answers)
    requires Enabled(s, Deliver(ans))
    ensures After(c, s, Deliver(ans)).owed <==> CallFails(c, s.actor.core, NextEvent(s), ans)
  {
    if NextEvent(s) == AccountOneRequest {
      RequestFailsIff(c, s.actor.core, ans);
    } else if NextEvent(s).WaitForL2Tx? {
      PollFailsIff(c, s.actor.core, NextEvent(s), ans);
    } else {
      OthersFailIff(c, s.actor.core, NextEvent(s), ans);
    }
  }

  // ------------------------------------------------------------------ what the flags stand for

  /** Read off the events and answers alone: is the head open, have the peers connected, which node is watched. */
  datatype Seen = Seen(open: bool, peers: bool, node: Option<nat>, starts: nat)

  function Heard(before: Seen, event: Event, ans: Answers): Seen {
    match event
    case Restart =>
      var n := before.starts + 1;
      Seen(false, false, if ans.nodeStarts then Some(n) else None, n)
    case Terminate => before.(node := None)
    case TryToInitHead => before.(peers := before.peers || ans.peersConnected)
    case WaitForOpen => before.(open := before.open || ans.tag == Some(Open))
    case WaitForIdleAfterClose(_) => before.(open := before.open && ans.tag != Some(Idle))
    case _ => before
  }

  function SeenAfter(before: Seen, s: System, step: Step): Seen
    requires Enabled(s, step)
  {
    if step.NodeExits? then before.(node := None)
    else if step.Deliver? then Heard(before, NextEvent(s), step.ans)
    else before
  }

  function SeenIn(c: Setup, run: Run): Seen
    requires run.Valid(c)
    decreases |run.steps|
  {
    if run.steps == [] then Seen(false, false, None, 0)
    else
      InitValid(c, run);
      SeenAfter(SeenIn(c, run.Init()), run.Init().Last(), run.steps[|run.steps| - 1])
  }

  predicate FlagsAre(a: Core, seen: Seen) {
    && a.headOpen == seen.open && a.peersConnected == seen.peers && a.watchdog == seen.node
    && a.generation == seen.starts
  }

  lemma RequestKeepsFlags(c: Setup, a: Core, ans: Answers, seen: Seen)
    requires FlagsAre(a, seen)
    ensures FlagsAre(OnAccount(c, a, ans).core, seen)
  {
  }

  lemma PollKeepsFlags(c: Setup, a: Core, event: Event, ans: Answers, seen: Seen)
    requires event.WaitForL2Tx? && FlagsAre(a, seen)
    ensures FlagsAre(Handle(c, a, event, ans).core, seen)
  {
  }

  lemma OthersKeepFlags(c: Setup, a: Core, event: Event, ans: Answers, seen: Seen)
    requires !event.AccountOneRequest? && !event.WaitForL2Tx? && FlagsAre(a, seen)
    ensures FlagsAre(Handle(c, a, event, ans).core, Heard(seen, event, ans))
  {
  }

  lemma HandleKeepsFlags(c: Setup, a: Core, event: Event, ans: Answers, seen: Seen)
    requires FlagsAre(a, seen)
    ensures FlagsAre(Handle(c, a, event, ans).core, Heard(seen, event, ans))
  {
    if event == AccountOneRequest {
      RequestKeepsFlags(c, a, ans, seen);
    } else if event.WaitForL2Tx? {
      PollKeepsFlags(c, a, event, ans, seen);
    } else {
      OthersKeepFlags(c, a, event, ans, seen);
    }
  }

  lemma StepKeepsFlags(c: Setup, s: System, step: Step, seen: Seen)
    requires Enabled(s, step) && FlagsAre(s.actor.core, seen)
    ensures FlagsAre(After(c, s, step).actor.core, SeenAfter(seen, s, step))
  {
    if step.Deliver? {
      HandleKeepsFlags(c, s.actor.core, NextEvent(s), step.ans, seen);
    }
  }

  /**
   In every run: the head is taken to be open since its status was read as open, until a restart or the end of
   its fanout; the peers are known to be connected, and the last node is watched, accordingly.
   */
  lemma {:induction false} FlagsFollowEvents(c: Setup, run: Run)
    requires run.Valid(c) && run.First() == Start()
    ensures FlagsAre(run.Last().actor.core, SeenIn(c, run))
    decreases |run.steps|
  {
    if run.steps != [] {
      InitValid(c, run);
      FlagsFollowEvents(c, run.Init());
      StepKeepsFlags(c, run.Init().Last(), run.steps[|run.steps| - 1], SeenIn(c, run.Init()));
    }
  }
}
