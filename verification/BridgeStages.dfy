/** What drives a bridge's machine: why its events are pending, when it fails, and that it never stalls. */
module BridgeStages {
  import opened Prelude
  import opened CoinSelection
  import opened BridgeClient
  import opened BridgeRuntime
  import opened BridgeGate
  import HydraServer

  // ------------------------------------------------------------------ causes

  /** The commit wallet holds 99% of what is to be committed, and the commit succeeded. */
  predicate Commits(c: Setup, ans: Answers) {
    ans.walletBalance.Some? && ans.committed
    && ans.walletBalance.value as real >= 0.99 * c.cfg.commitAda * 1_000_000.0
  }

  /** The head is seen open for the first time. */
  predicate Opens(a: Core, event: Event, ans: Answers) {
    (event.WaitForOpen? || event.MonitorStates?) && ans.tag == Some(Tag.Open) && !a.openInitialized
  }

  /** Why an event is sent; requests, polls and messages of others are not accounted for here. */
  predicate Causes(c: Setup, e: Event, a: Core, event: Event, ans: Answers) {
    match e
    case FundCommitAddr =>
      || (event == KeyExchangeResponse(true) && ans.nodeStarts)
      || (event.MonitorStates? && ans.tag == Some(Initial) && a.lastTag != Initial)
    case TryToCommit =>
      || (event.FundCommitAddr? && ans.walletReady && ans.walletBalance.Some?
          && (ans.walletBalance.value >= c.Target() || ans.fundingSent))
      || (event.TryToCommit? && ans.tag != Some(Tag.Open) && !(ans.tag == Some(Initial) && Commits(c, ans)))
    case WaitForOpen =>
      || (event.TryToCommit? && (ans.tag == Some(Tag.Open) || (ans.tag == Some(Initial) && Commits(c, ans))))
      || (event.WaitForOpen? && ans.tag.Some? && ans.tag != Some(Tag.Open))
    case MonitorStates =>
      (event.WaitForOpen? && ans.tag == Some(Tag.Open)) || (event.MonitorStates? && ans.tag.Some?)
    case MonitorCredits => Opens(a, event, ans) || (event.MonitorCredits? && a.headOpen)
    case SendPrepay => Opens(a, event, ans)
    case Restart => event == KeyExchangeResponse(false) && !ans.portsFree
    case _ => true
  }

  predicate SendsCaused(c: Setup, a: Core, event: Event, ans: Answers, o: Outcome) {
    forall e <- o.now + o.later :: Causes(c, e, a, event, ans)
  }

  lemma OpeningSendsCaused(c: Setup, a: Core, ans: Answers)
    ensures SendsCaused(c, a, WaitForOpen, ans, OnWaitForOpen(a, ans))
  {
  }

  lemma SeeingSends(a: Core, tag: Tag)
    ensures var o := OnStateSeen(a, tag);
      && o.now == []
      && forall e <- o.later ::
           || e == MonitorStates
           || (e == FundCommitAddr && tag == Initial && a.lastTag != Initial)
           || ((e == MonitorCredits || e == SendPrepay) && tag == Tag.Open && !a.openInitialized)
  {
  }

  lemma WatchingSendsCaused(c: Setup, a: Core, ans: Answers)
    ensures SendsCaused(c, a, MonitorStates, ans, OnMonitorStates(a, ans))
  {
    if ans.tag.Some? {
      SeeingSends(a, ans.tag.value);
      assert forall e <- OnStateSeen(a, ans.tag.value).later :: Causes(c, e, a, MonitorStates, ans);
    }
  }

  lemma SettingUpSendsCaused(c: Setup, a: Core, ans: Answers)
    ensures SendsCaused(c, a, FundCommitAddr, ans, OnFund(c, a, ans))
    ensures SendsCaused(c, a, TryToCommit, ans, OnCommit(c, a, ans))
    ensures SendsCaused(c, a, MonitorCredits, ans, OnMonitorCredits(c, a, ans))
  {
  }

  lemma StartingSendsCaused(c: Setup, a: Core, ans: Answers, done: bool)
    ensures SendsCaused(c, a, KeyExchangeResponse(done), ans, OnKex(a, done, ans))
    ensures SendsCaused(c, a, Restart, ans, OnRestart(a, ans))
  {
  }

  lemma RequestSendsCaused(c: Setup, a: Core, ans: Answers)
    ensures SendsCaused(c, a, AccountOneRequest, ans, Account(c, a, ans.sending))
  {
  }

  lemma PrepaySendsCaused(c: Setup, a: Core, ans: Answers)
    ensures SendsCaused(c, a, SendPrepay, ans, Prepay(c, a, ans.sending))
  {
  }

  lemma PollSendsCaused(c: Setup, a: Core, event: Event, ans: Answers)
    requires event.WaitForL2Tx?
    ensures SendsCaused(c, a, event, ans, Handle(c, a, event, ans))
  {
  }

  lemma HandleSendsCaused(c: Setup, a: Core, event: Event, ans: Answers)
    ensures SendsCaused(c, a, event, ans, Handle(c, a, event, ans))
  {
    match event
    case WaitForOpen => OpeningSendsCaused(c, a, ans);
    case MonitorStates => WatchingSendsCaused(c, a, ans);
    case KeyExchangeResponse(done) => StartingSendsCaused(c, a, ans, done);
    case Restart => StartingSendsCaused(c, a, ans, true);
    case FundCommitAddr | TryToCommit | MonitorCredits => SettingUpSendsCaused(c, a, ans);
    case AccountOneRequest => RequestSendsCaused(c, a, ans);
    case SendPrepay => PrepaySendsCaused(c, a, ans);
    case WaitForL2Tx(_, _, _, _) => PollSendsCaused(c, a, event, ans);
    case Terminate =>
  }

  /** An event that drives the machine, and comes from nowhere else. */
  predicate Drives(e: Event) {
    || e.FundCommitAddr? || e.TryToCommit? || e.WaitForOpen? || e.MonitorStates? || e.MonitorCredits? || e.SendPrepay?
  }

  predicate IsPending(s: System, e: Event) {
    e in s.mailbox || e in s.landing || exists x <- s.timers :: x.event == e
  }

  /** The event was caused by what was handled when the run went on from this state. */
  ghost predicate CausedBy(c: Setup, e: Event, s: System, next: System) {
    exists ans :: CausedWith(c, e, s, next, ans)
  }

  predicate CausedWith(c: Setup, e: Event, s: System, next: System, ans: Answers) {
    Enabled(s, Deliver(ans)) && next == After(c, s, Deliver(ans)) && Causes(c, e, s.core, s.mailbox[0], ans)
  }

  lemma PendingAfterDelivery(c: Setup, s: System, o: Outcome, e: Event)
    requires s.mailbox != [] && IsPending(Delivered(c, s, o), e)
    ensures IsPending(s, e) || e in o.now + o.later
  {
    var next := Delivered(c, s, o);
    assert forall f <- next.mailbox :: f in s.mailbox || f in o.now;
    assert forall x <- next.timers :: x in s.timers || (x in Timed(o.later, o.core.generation) && x.event in o.later);
  }

  lemma PendingAfter(c: Setup, s: System, step: Step, e: Event)
    requires Enabled(s, step) && Drives(e) && IsPending(After(c, s, step), e)
    ensures IsPending(s, e)
         || (step.Deliver? && e in Handle(c, s.core, s.mailbox[0], step.ans).now
                                   + Handle(c, s.core, s.mailbox[0], step.ans).later)
  {
    if step.Deliver? {
      PendingAfterDelivery(c, s, Handle(c, s.core, s.mailbox[0], step.ans), e);
    } else {
      PendingAfterSurroundings(c, s, step, e);
    }
  }

  lemma PendingAfterSurroundings(c: Setup, s: System, step: Step, e: Event)
    requires Enabled(s, step) && !step.Deliver? && Drives(e) && IsPending(After(c, s, step), e)
    ensures IsPending(s, e)
  {
    var next := After(c, s, step);
    assert forall f <- next.mailbox :: f in s.mailbox || f in s.landing || !Drives(f);
    assert forall f <- next.landing :: f in s.landing || !Drives(f) || exists x <- s.timers :: x.event == f;
    assert forall x <- next.timers :: x in s.timers;
  }

  lemma StepCauses(c: Setup, s: System, step: Step, e: Event)
    requires Enabled(s, step) && Drives(e) && IsPending(After(c, s, step), e)
    ensures IsPending(s, e) || CausedBy(c, e, s, After(c, s, step))
  {
    PendingAfter(c, s, step, e);
    if !IsPending(s, e) {
      HandleSendsCaused(c, s.core, s.mailbox[0], step.ans);
      assert CausedWith(c, e, s, After(c, s, step), step.ans);
    }
  }

  lemma NextCauses(c: Setup, s: System, next: System, e: Event)
    requires Next(c, s, next) && Drives(e) && IsPending(next, e)
    ensures IsPending(s, e) || CausedBy(c, e, s, next)
  {
    var step :| Enabled(s, step) && next == After(c, s, step);
    StepCauses(c, s, step, e);
  }

  /**
   In every run, restarts included: every event that drives the machine was caused by an earlier one. In
   particular nothing is committed before the wallet was funded, nothing monitored before the head was seen
   open, and a prepayment is due only then.
   */
  lemma {:induction false} EveryEventHasItsCause(c: Setup, run: seq<System>, e: Event) returns (i: nat)
    requires Run(c, run) && Drives(e) && IsPending(run[|run| - 1], e)
    ensures i + 1 < |run| && CausedBy(c, e, run[i], run[i + 1])
    decreases |run|
  {
    var n := |run| - 1;
    assert n > 0;
    RunPrefix(c, run);
    NextCauses(c, run[n - 1], run[n], e);
    if IsPending(run[n - 1], e) {
      i := EveryEventHasItsCause(c, run[..n], e);
    } else {
      i := n - 1;
    }
  }

  // ------------------------------------------------------------------ errors

  /** Some call that the event makes fails, or what it needs is missing. */
  predicate CallFails(c: Setup, a: Core, event: Event, ans: Answers) {
    match event
    case Restart => ans.fuel.None? || ans.fuel.value < 15_000_000 || !ans.keysReady || !ans.requestSent
    case Terminate | MonitorCredits => false
    case KeyExchangeResponse(done) =>
      && a.generation == a.kexGeneration
      && ((!a.addressSet && !ans.addressDerived)
          || (if done then !ans.nodeStarts else ans.portsFree && !(ans.keysReady && ans.requestSent)))
    case FundCommitAddr =>
      || !ans.walletReady || !a.paramsSet || ans.walletBalance.None?
      || (ans.walletBalance.value < c.Target() && !ans.fundingSent)
    case TryToCommit => ans.tag == Some(Initial) && (ans.walletBalance.None? || !a.paramsSet)
    case WaitForOpen | MonitorStates => ans.tag.None?
    case AccountOneRequest =>
      && !a.awaiting && a.headOpen && a.paramsSet && a.addressSet
      && a.accounted + 1 >= c.cfg.requestsPerMicrotransaction && !ans.sending.Sent?
    case SendPrepay => !a.prepaySent && (!a.paramsSet || (a.addressSet && !ans.sending.Sent?))
    case WaitForL2Tx(spent, attempts, _, retriesLeft) =>
      || ans.poll.None?
      || (ans.poll.value.Some? && HydraServer.StillPresent(spent, ans.poll.value.value)
          && attempts >= 15 && retriesLeft > 0 && !ans.sending.Sent?)
  }

  lemma StartingFailsIff(c: Setup, a: Core, event: Event, ans: Answers)
    requires event.Restart? || event.KeyExchangeResponse? || event.Terminate?
    ensures !Handle(c, a, event, ans).ok <==> CallFails(c, a, event, ans)
  {
  }

  lemma SettingUpFailsIff(c: Setup, a: Core, event: Event, ans: Answers)
    requires event.FundCommitAddr? || event.TryToCommit? || event.MonitorCredits?
    ensures !Handle(c, a, event, ans).ok <==> CallFails(c, a, event, ans)
  {
  }

  lemma WatchingFailsIff(c: Setup, a: Core, event: Event, ans: Answers)
    requires event.WaitForOpen? || event.MonitorStates?
    ensures !Handle(c, a, event, ans).ok <==> CallFails(c, a, event, ans)
  {
  }

  lemma PayingFailsIff(c: Setup, a: Core, event: Event, ans: Answers)
    requires event.AccountOneRequest? || event.SendPrepay? || event.WaitForL2Tx?
    ensures !Handle(c, a, event, ans).ok <==> CallFails(c, a, event, ans)
  {
  }

  /** The machine owes itself a Restart after an event exactly when a call has failed. */
  lemma RestartIsOwedIff(c: Setup, s: System, ans: Answers)
    requires Enabled(s, Deliver(ans))
    ensures After(c, s, Deliver(ans)).owed <==> CallFails(c, s.core, s.mailbox[0], ans)
  {
    match s.mailbox[0]
    case Restart | KeyExchangeResponse(_) | Terminate => StartingFailsIff(c, s.core, s.mailbox[0], ans);
    case FundCommitAddr | TryToCommit | MonitorCredits => SettingUpFailsIff(c, s.core, s.mailbox[0], ans);
    case WaitForOpen | MonitorStates => WatchingFailsIff(c, s.core, s.mailbox[0], ans);
    case AccountOneRequest | SendPrepay | WaitForL2Tx(_, _, _, _) =>
      PayingFailsIff(c, s.core, s.mailbox[0], ans);
  }

  /** An offer of ports that are taken is answered by starting over. */
  lemma OfferStartsOverIff(a: Core, ans: Answers)
    requires a.generation == a.kexGeneration
    ensures Restart in OnKex(a, false, ans).now <==> (a.addressSet || ans.addressDerived) && !ans.portsFree
    ensures OnKex(a, false, ans).now == [] || OnKex(a, false, ans).now == [Event.Restart]
  {
  }

  // ------------------------------------------------------------------ what the fields stand for

  /** A head that is not open has no credits; a head has been set up before it is seen open. */
  predicate FieldsInv(a: Core) {
    && a.kexGeneration == a.generation
    && (a.headOpen <==> a.openInitialized)
    && (!a.headOpen ==> a.credits == 0 && a.lastBalance == 0)
  }

  predicate KeepsFields(a: Core, o: Outcome) {
    FieldsInv(a) ==> FieldsInv(o.core)
  }

  lemma OpeningKeepsFields(a: Core, ans: Answers)
    ensures KeepsFields(a, OnWaitForOpen(a, ans))
  {
  }

  lemma SeeingKeepsFields(a: Core, tag: Tag)
    ensures KeepsFields(a, OnStateSeen(a, tag))
  {
  }

  lemma WatchingKeepsFields(a: Core, ans: Answers)
    ensures KeepsFields(a, OnMonitorStates(a, ans))
  {
    if ans.tag.Some? {
      SeeingKeepsFields(a, ans.tag.value);
    }
  }

  lemma SettingUpKeepsFields(c: Setup, a: Core, ans: Answers)
    ensures KeepsFields(a, OnFund(c, a, ans)) && KeepsFields(a, OnCommit(c, a, ans))
    ensures KeepsFields(a, OnMonitorCredits(c, a, ans))
  {
  }

  lemma StartingKeepsFields(a: Core, ans: Answers, done: bool)
    ensures KeepsFields(a, OnKex(a, done, ans)) && KeepsFields(a, OnRestart(a, ans))
  {
  }

  lemma PayingKeepsFields(c: Setup, a: Core, event: Event, ans: Answers)
    requires event.AccountOneRequest? || event.SendPrepay? || event.WaitForL2Tx?
    ensures KeepsFields(a, Handle(c, a, event, ans))
  {
  }

  lemma HandleKeepsFields(c: Setup, a: Core, event: Event, ans: Answers)
    ensures KeepsFields(a, Handle(c, a, event, ans))
  {
    match event
    case WaitForOpen => OpeningKeepsFields(a, ans);
    case MonitorStates => WatchingKeepsFields(a, ans);
    case KeyExchangeResponse(done) => StartingKeepsFields(a, ans, done);
    case Restart => StartingKeepsFields(a, ans, true);
    case FundCommitAddr | TryToCommit | MonitorCredits => SettingUpKeepsFields(c, a, ans);
    case AccountOneRequest | SendPrepay | WaitForL2Tx(_, _, _, _) => PayingKeepsFields(c, a, event, ans);
    case Terminate =>
  }

  /** The first time that a head is seen open, its session starts over. */
  lemma OpeningStartsOver(c: Setup, a: Core, event: Event, ans: Answers)
    requires FieldsInv(a) && !a.headOpen && (event.WaitForOpen? || event.MonitorStates?)
    ensures var o := Handle(c, a, event, ans);
      && (o.core.headOpen <==> ans.tag == Some(Tag.Open))
      && (o.core.headOpen ==>
            && o.core.accounted == 0 && o.core.sent == 0 && !o.core.prepaySent
            && MonitorCredits in o.later && SendPrepay in o.later)
  {
  }

  /** A head that is seen in another state is no longer open. */
  lemma SeenClosedIff(c: Setup, a: Core, ans: Answers)
    requires a.headOpen && ans.tag.Some?
    ensures var o := OnMonitorStates(a, ans);
      && (o.core.headOpen <==> ans.tag == Some(Tag.Open)) && o.core.lastTag == ans.tag.value
      && MonitorStates in o.later
  {
  }

  /** A restart that gets through to the gateway leaves nothing of the session. */
  lemma RestartForgets(a: Core, ans: Answers)
    requires OnRestart(a, ans).ok
    ensures var b := OnRestart(a, ans).core;
      b == FreshCore().(generation := a.generation + 1, kexGeneration := a.generation + 1,
                        paramsSet := a.paramsSet, addressSet := a.addressSet)
  {
  }

  // ------------------------------------------------------------------ the machine never stalls

  /** The event will still be delivered. */
  predicate Live(s: System, e: Event) {
    e in s.mailbox || e in s.landing || Timer(e, s.core.generation) in s.timers
  }

  /** An open head is watched, its credits are counted, and its prepayment is made. */
  predicate Watched(s: System) {
    s.core.headOpen ==>
      || RestartOwed(s)
      || (Live(s, MonitorStates) && Live(s, MonitorCredits) && (s.core.prepaySent || Live(s, SendPrepay)))
  }

  /** Something that drives the machine is pending. */
  predicate Driven(s: System) {
    || (exists e <- s.mailbox :: Drives(e)) || (exists e <- s.landing :: Drives(e))
    || (exists x <- s.timers :: Drives(x.event))
  }

  /** Nothing drives the machine before there are terms and a wallet; they stay. */
  predicate SetUp(s: System) {
    s.core.headOpen || Driven(s) ==> s.core.paramsSet && s.core.addressSet
  }

  /** What an event does to a head that is open: what it needs is sent on, or a Restart is owed. */
  predicate GoesOn(a: Core, event: Event, o: Outcome) {
    o.ok && o.core.headOpen ==>
      && (!a.headOpen || event.MonitorStates? ==> MonitorStates in o.later)
      && (!a.headOpen || event.MonitorCredits? ==> MonitorCredits in o.later)
      && (!a.headOpen ==> SendPrepay in o.later)
      && (event.SendPrepay? ==> o.core.prepaySent)
      && (a.headOpen && a.prepaySent ==> o.core.prepaySent)
  }

  lemma OpeningGoesOn(a: Core, ans: Answers)
    requires FieldsInv(a)
    ensures GoesOn(a, WaitForOpen, OnWaitForOpen(a, ans))
  {
  }

  lemma WatchingGoesOn(a: Core, ans: Answers)
    requires FieldsInv(a)
    ensures GoesOn(a, MonitorStates, OnMonitorStates(a, ans))
  {
  }

  lemma SettingUpGoesOn(c: Setup, a: Core, ans: Answers)
    ensures GoesOn(a, FundCommitAddr, OnFund(c, a, ans)) && GoesOn(a, TryToCommit, OnCommit(c, a, ans))
    ensures GoesOn(a, MonitorCredits, OnMonitorCredits(c, a, ans))
  {
  }

  lemma StartingGoesOn(a: Core, ans: Answers, done: bool)
    ensures GoesOn(a, KeyExchangeResponse(done), OnKex(a, done, ans)) && GoesOn(a, Restart, OnRestart(a, ans))
  {
  }

  lemma PayingGoesOn(c: Setup, a: Core, event: Event, ans: Answers)
    requires event.AccountOneRequest? || event.SendPrepay? || event.WaitForL2Tx?
    requires a.addressSet
    ensures GoesOn(a, event, Handle(c, a, event, ans))
  {
  }

  lemma HandleGoesOn(c: Setup, a: Core, event: Event, ans: Answers)
    requires FieldsInv(a) && a.addressSet
    ensures GoesOn(a, event, Handle(c, a, event, ans))
  {
    match event
    case WaitForOpen => OpeningGoesOn(a, ans);
    case MonitorStates => WatchingGoesOn(a, ans);
    case KeyExchangeResponse(done) => StartingGoesOn(a, ans, done);
    case Restart => StartingGoesOn(a, ans, true);
    case FundCommitAddr | TryToCommit | MonitorCredits => SettingUpGoesOn(c, a, ans);
    case AccountOneRequest | SendPrepay | WaitForL2Tx(_, _, _, _) => PayingGoesOn(c, a, event, ans);
    case Terminate =>
  }

  /** Terms and wallet stay, and what drives the machine comes from what did, or with both of them set. */
  predicate StaysSetUp(a: Core, event: Event, o: Outcome) {
    && (a.paramsSet ==> o.core.paramsSet) && (a.addressSet ==> o.core.addressSet)
    && (o.core.headOpen || (exists e <- o.now + o.later :: Drives(e)) ==>
          a.headOpen || Drives(event) || (o.core.paramsSet && o.core.addressSet))
  }

  lemma OpeningStaysSetUp(a: Core, ans: Answers)
    ensures StaysSetUp(a, WaitForOpen, OnWaitForOpen(a, ans))
  {
  }

  lemma WatchingStaysSetUp(a: Core, ans: Answers)
    ensures StaysSetUp(a, MonitorStates, OnMonitorStates(a, ans))
  {
  }

  lemma SettingUpStaysSetUp(c: Setup, a: Core, ans: Answers)
    ensures StaysSetUp(a, FundCommitAddr, OnFund(c, a, ans)) && StaysSetUp(a, TryToCommit, OnCommit(c, a, ans))
    ensures StaysSetUp(a, MonitorCredits, OnMonitorCredits(c, a, ans))
  {
  }

  lemma KexStaysSetUp(a: Core, ans: Answers, done: bool)
    ensures StaysSetUp(a, KeyExchangeResponse(done), OnKex(a, done, ans))
  {
  }

  lemma RestartStaysSetUp(a: Core, ans: Answers)
    ensures StaysSetUp(a, Restart, OnRestart(a, ans))
  {
  }

  lemma RequestStaysSetUp(c: Setup, a: Core, ans: Answers)
    ensures StaysSetUp(a, AccountOneRequest, Account(c, a, ans.sending))
  {
  }

  lemma PrepayStaysSetUp(c: Setup, a: Core, ans: Answers)
    ensures StaysSetUp(a, SendPrepay, Prepay(c, a, ans.sending))
  {
  }

  lemma PollStaysSetUp(c: Setup, a: Core, event: Event, ans: Answers)
    requires event.WaitForL2Tx?
    ensures StaysSetUp(a, event, Handle(c, a, event, ans))
  {
  }

  lemma HandleStaysSetUp(c: Setup, a: Core, event: Event, ans: Answers)
    ensures StaysSetUp(a, event, Handle(c, a, event, ans))
  {
    match event
    case WaitForOpen => OpeningStaysSetUp(a, ans);
    case MonitorStates => WatchingStaysSetUp(a, ans);
    case KeyExchangeResponse(done) => KexStaysSetUp(a, ans, done);
    case Restart => RestartStaysSetUp(a, ans);
    case FundCommitAddr | TryToCommit | MonitorCredits => SettingUpStaysSetUp(c, a, ans);
    case AccountOneRequest => RequestStaysSetUp(c, a, ans);
    case SendPrepay => PrepayStaysSetUp(c, a, ans);
    case WaitForL2Tx(_, _, _, _) => PollStaysSetUp(c, a, event, ans);
    case Terminate =>
  }

  lemma DeliveryStaysSetUp(c: Setup, s: System, o: Outcome)
    requires s.mailbox != [] && SetUp(s) && StaysSetUp(s.core, s.mailbox[0], o)
    ensures SetUp(Delivered(c, s, o))
  {
    var next := Delivered(c, s, o);
    assert s.mailbox[0] in s.mailbox;
    assert forall e <- next.mailbox :: e in s.mailbox || e in o.now + o.later;
    assert forall x <- next.timers ::
      x in s.timers || (x in Timed(o.later, o.core.generation) && x.event in o.now + o.later);
  }

  lemma SurroundingsStaySetUp(c: Setup, s: System, step: Step)
    requires Enabled(s, step) && !step.Deliver? && SetUp(s)
    ensures SetUp(After(c, s, step))
  {
    var next := After(c, s, step);
    assert forall e <- next.mailbox :: e in s.mailbox || e in s.landing || !Drives(e);
    assert forall e <- next.landing :: e in s.landing || !Drives(e) || exists x <- s.timers :: x.event == e;
    assert forall x <- next.timers :: x in s.timers;
  }

  lemma LaterIsLive(c: Setup, s: System, o: Outcome, e: Event)
    requires s.mailbox != [] && e in o.later
    ensures Live(Delivered(c, s, o), e)
  {
    var i :| 0 <= i < |o.later| && o.later[i] == e;
    assert Timed(o.later, o.core.generation)[i] == Timer(e, o.core.generation);
  }

  lemma OthersStayLive(c: Setup, s: System, o: Outcome, e: Event)
    requires s.mailbox != [] && Live(s, e) && s.mailbox[0] != e && o.core.generation == s.core.generation
    ensures Live(Delivered(c, s, o), e)
  {
    assert s.mailbox == [s.mailbox[0]] + s.mailbox[1..];
  }

  /** The event stays live if it is not the one handled, and is live anyway if it is sent. */
  lemma StaysLive(c: Setup, s: System, o: Outcome, e: Event)
    requires s.mailbox != [] && o.core.generation == s.core.generation
    requires e in o.later || (Live(s, e) && s.mailbox[0] != e)
    ensures Live(Delivered(c, s, o), e)
  {
    if e in o.later {
      LaterIsLive(c, s, o, e);
    } else {
      OthersStayLive(c, s, o, e);
    }
  }

  lemma DeliveryKeepsWatched(c: Setup, s: System, o: Outcome)
    requires s.mailbox != [] && !s.owed && !s.mailbox[0].Restart? && o.core.generation == s.core.generation
    requires Watched(s) && GoesOn(s.core, s.mailbox[0], o)
    ensures Watched(Delivered(c, s, o))
  {
    var next := Delivered(c, s, o);
    if next.core.headOpen && o.ok {
      assert s.mailbox == [s.mailbox[0]] + s.mailbox[1..];
      if s.core.headOpen && Restart in s.mailbox {
        assert Restart in s.mailbox[1..] + o.now;
      } else {
        StaysLive(c, s, o, MonitorStates);
        StaysLive(c, s, o, MonitorCredits);
        if !next.core.prepaySent {
          StaysLive(c, s, o, SendPrepay);
        }
      }
    }
  }

  lemma SurroundingsKeepLive(c: Setup, s: System, step: Step, e: Event)
    requires Enabled(s, step) && !step.Deliver? && Live(s, e)
    ensures Live(After(c, s, step), e)
  {
    match step
    case TimerExpires(i) =>
      assert forall x <- s.timers :: x in RemoveAt(s.timers, i) || x == s.timers[i];
    case Lands(i) =>
      assert forall f <- s.landing :: f in RemoveAt(s.landing, i) || f == s.landing[i];
    case RequestArrives =>
    case TerminateAsked =>
    case KexArrives(done) =>
    case Recover =>
    case NodeExits =>
    case CreditSpent =>
  }

  lemma SurroundingsKeepWatched(c: Setup, s: System, step: Step)
    requires Enabled(s, step) && !step.Deliver? && Watched(s)
    ensures Watched(After(c, s, step))
  {
    if s.core.headOpen && !RestartOwed(s) {
      SurroundingsKeepLive(c, s, step, MonitorStates);
      SurroundingsKeepLive(c, s, step, MonitorCredits);
      if !s.core.prepaySent {
        SurroundingsKeepLive(c, s, step, SendPrepay);
      }
    }
  }

  ghost predicate Inv(s: System) {
    FieldsInv(s.core) && SetUp(s) && Watched(s)
  }

  lemma RestartKeepsWatched(c: Setup, s: System, ans: Answers)
    requires Enabled(s, Deliver(ans)) && s.mailbox[0].Restart?
    ensures Watched(After(c, s, Deliver(ans)))
  {
  }

  lemma DeliveryKeepsInv(c: Setup, s: System, ans: Answers)
    requires Enabled(s, Deliver(ans)) && Inv(s)
    ensures Inv(After(c, s, Deliver(ans)))
  {
    var event := s.mailbox[0];
    var o := Handle(c, s.core, event, ans);
    HandleKeepsFields(c, s.core, event, ans);
    HandleStaysSetUp(c, s.core, event, ans);
    DeliveryStaysSetUp(c, s, o);
    GenerationMoves(c, s.core, event, ans);
    if event.Restart? {
      RestartKeepsWatched(c, s, ans);
    } else {
      HandlingGoesOn(c, s, ans);
      DeliveryKeepsWatched(c, s, o);
    }
  }

  lemma HandlingGoesOn(c: Setup, s: System, ans: Answers)
    requires Enabled(s, Deliver(ans)) && Inv(s)
    ensures GoesOn(s.core, s.mailbox[0], Handle(c, s.core, s.mailbox[0], ans))
  {
    assert s.mailbox[0] in s.mailbox;
    if s.core.addressSet {
      HandleGoesOn(c, s.core, s.mailbox[0], ans);
    } else {
      NotSetUpOpensNothing(c, s.core, s.mailbox[0], ans);
    }
  }

  lemma NotSetUpOpensNothing(c: Setup, a: Core, event: Event, ans: Answers)
    requires !a.addressSet && !a.headOpen && !Drives(event)
    ensures !Handle(c, a, event, ans).core.headOpen
  {
  }

  lemma NextKeepsInv(c: Setup, s: System, next: System)
    requires Next(c, s, next) && Inv(s)
    ensures Inv(next)
  {
    var step :| Enabled(s, step) && next == After(c, s, step);
    if step.Deliver? {
      DeliveryKeepsInv(c, s, step.ans);
    } else {
      SurroundingsStaySetUp(c, s, step);
      SurroundingsKeepWatched(c, s, step);
      SurroundingsKeepFields(c, s, step);
    }
  }

  lemma SurroundingsKeepFields(c: Setup, s: System, step: Step)
    requires Enabled(s, step) && !step.Deliver? && FieldsInv(s.core)
    ensures FieldsInv(After(c, s, step).core)
  {
  }

  lemma StartInv()
    ensures Inv(Start())
  {
  }

  /**
   In every run, restarts included: while the head is open its status is watched, its credits are counted and its
   prepayment is made or due, unless a Restart is owed; and a head that is not open has no credits.
   */
  lemma {:induction false} OpenHeadIsWatched(c: Setup, run: seq<System>)
    requires Run(c, run)
    ensures Inv(run[|run| - 1])
    decreases |run|
  {
    if |run| == 1 {
      StartInv();
    } else {
      RunPrefix(c, run);
      OpenHeadIsWatched(c, run[..|run| - 1]);
      NextKeepsInv(c, run[|run| - 2], run[|run| - 1]);
    }
  }
}
