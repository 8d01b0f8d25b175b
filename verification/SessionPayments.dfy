/** What the machine can count on: payments that are due find their inputs, and when the close test passes. */
module SessionPayments {
  import opened Prelude
  import opened HydraConfig
  import opened CoinSelection
  import opened Ledger
  import opened Funding
  import opened HydraServer
  import opened SessionEngine
  import F = SessionFunding
  import R = HydraRuntime
  import P = HydraPolls
  import B = HydraBilling
  import O = HydraOverdue
  import S = Session
  import V = Solvency

  // ------------------------------------------------------------------ the next payment

  predicate PaidFor(a: Core, o: Outcome) {
    && o.ok && o.now.Some? && o.now.value.WaitForL2Tx?
    && o.core.sent == a.sent + 1 && o.core.accounted == 0 && o.core.awaiting
  }

  lemma DueRequestPaysIff(c: Setup, a: Core, ans: Answers)
    requires PaymentDue(c, a)
    ensures PaidFor(a, OnAccount(c, a, ans)) <==> Pay(c, c.Amount(a.accounted + 1), ans).Some?
  {
    B.DuePays(c, a, a.(accounted := a.accounted + 1), ans);
  }

  /** The payment is selected from what is there, and its call succeeds. */
  ghost predicate GoesWell(ans: Answers, utxos: Utxos) {
    ans.pick.Some? && ans.delivery.Delivered? && Shows(ans.pick.value, utxos)
  }

  lemma PayOfSelection(c: Setup, amount: U64, ans: Answers)
    requires ans.pick.Some? && ans.delivery.Delivered?
    ensures Pay(c, amount, ans).Some? <==> Select(ans.pick.value, c.wallet, amount).Ok?
  {
  }

  /** Whatever the backlog: the wallet's funds pay for it, from every split. */
  ghost predicate AlwaysPaid(c: Setup, a: Core, funds: U64) {
    forall ans: Answers, utxos: Utxos ::
      GoesWell(ans, utxos) && Balance(utxos, c.wallet) == funds ==> PaidFor(a, OnAccount(c, a, ans))
  }

  function SomeAnswers(snapshot: Snapshot): Answers {
    Answers(false, None, false, None, Lost, false, Delivered, None, false, Some(snapshot), None, None, None)
  }

  /**
   The due request is paid for from every split of the funds iff the price of all accounted requests is
   legal and they are enough for it.
   */
  lemma BacklogIsPaidIff(c: Setup, a: Core, funds: U64)
    requires PaymentDue(c, a)
    ensures var amount := c.Amount(a.accounted + 1);
      AlwaysPaid(c, a, funds) <==> LegalAmount(amount) && Enough(funds, amount)
  {
    var amount := c.Amount(a.accounted + 1);
    PayableFromEverySplitIff(c.wallet, amount, funds);
    if AlwaysPayable(c.wallet, amount, funds) {
      forall ans: Answers, utxos: Utxos | GoesWell(ans, utxos) && Balance(utxos, c.wallet) == funds
        ensures PaidFor(a, OnAccount(c, a, ans))
      {
        PayOfSelection(c, amount, ans);
        DueRequestPaysIff(c, a, ans);
      }
    } else {
      var snapshot, utxos :| Shows(snapshot, utxos) && Balance(utxos, c.wallet) == funds
        && !Select(snapshot, c.wallet, amount).Ok?;
      var ans := SomeAnswers(snapshot);
      assert GoesWell(ans, utxos);
      PayOfSelection(c, amount, ans);
      DueRequestPaysIff(c, a, ans);
    }
  }

  // ------------------------------------------------------------------ the payments of a run

  /** The ledger that the head opened with covers the plan, and the session has kept to it. */
  ghost predicate Keeps(c: Setup, t: S.Terms, run: Run, plan: V.Plan, funds: U64) {
    && run.Valid(c, t) && Balance(run.before[0].utxos, t.sender) == funds
    && V.Legal(plan) && V.Covers(funds, plan)
    && run.Last().ses.prices <= plan && run.Last().ses.late == {}
  }

  lemma MachineIsSolvent(c: Setup, t: S.Terms, run: Run, plan: V.Plan, funds: U64, micro: nat, ans: Answers)
    requires Keeps(c, t, run, plan, funds) && V.Due(plan, run.Last().ses, micro)
    requires GoesWell(ans, run.Last().ses.utxos)
    ensures Pay(c, plan[micro], ans).Some?
  {
    var session := MachineRunsSession(c, t, run);
    V.PlanSolvency(t, plan, funds, session);
    PayOfSelection(c, plan[micro], ans);
  }

  lemma NextPaymentSelects(c: Setup, t: S.Terms, run: Run, plan: V.Plan, funds: U64, ans: Answers)
    requires Keeps(c, t, run, plan, funds) && |run.Last().ses.prices| < |plan|
    requires GoesWell(ans, run.Last().ses.utxos)
    ensures Pay(c, plan[|run.Last().ses.prices|], ans).Some?
  {
    var session := MachineRunsSession(c, t, run);
    S.RunKeepsInv(t, session);
    MachineIsSolvent(c, t, run, plan, funds, |run.Last().ses.prices|, ans);
  }

  /** In every run of the machine on a ledger that covers the plan, the next payment of the plan is never refused. */
  lemma NextPaymentGoesOut(c: Setup, t: S.Terms, run: Run, plan: V.Plan, funds: U64, a: Core, ans: Answers)
    requires Keeps(c, t, run, plan, funds) && a == run.Last().sys.actor.core
    requires GoesWell(ans, run.Last().ses.utxos)
    requires PaymentDue(c, a) && |run.Last().ses.prices| < |plan|
    requires c.Amount(a.accounted + 1) == plan[|run.Last().ses.prices|]
    ensures PaidFor(a, OnAccount(c, a, ans))
  {
    NextPaymentSelects(c, t, run, plan, funds, ans);
    DueRequestPaysIff(c, a, ans);
  }

  lemma ResendPays(c: Setup, a: Core, e: Event, ans: Answers)
    requires ResendDue(e, ans)
    ensures var o := Handle(c, a, e, ans);
      o.ok <==> Pay(c, e.amount, ans).Some?
    ensures var o := Handle(c, a, e, ans);
      o.ok ==> o.now == Some(WaitForL2Tx(Pay(c, e.amount, ans).value, 0, e.amount, e.retriesLeft - 1))
  {
  }

  /** Nor is the resend of its last payment, as long as that has not been applied. */
  lemma ResendGoesOut(c: Setup, t: S.Terms, run: Run, plan: V.Plan, funds: U64, e: Event, ans: Answers)
    requires Keeps(c, t, run, plan, funds) && e in run.Last().sys.actor.mailbox && ResendDue(e, ans)
    requires GoesWell(ans, run.Last().ses.utxos)
    requires |run.Last().ses.prices| - 1 !in run.Last().ses.applied
    ensures Handle(c, run.Last().sys.actor.core, e, ans).ok
  {
    var ses := run.Last().ses;
    var session := MachineRunsSession(c, t, run);
    assert e in P.PendingPolls(run.Last().sys);
    var last := |ses.prices| - 1;
    assert e.amount == ses.prices[last];
    MachineIsSolvent(c, t, run, plan, funds, last, ans);
    ResendPays(c, run.Last().sys.actor.core, e, ans);
  }

  // ------------------------------------------------------------------ from the configuration to the payments

  /** A request that completes a microtransaction is not paid for. */
  predicate Misses(c: Setup, w: World, step: Step) {
    && step.Machine? && step.step.Deliver? && w.sys.actor.mailbox != [] && R.NextEvent(w.sys) == AccountOneRequest
    && O.Missed(c, w.sys.actor.core, R.Outcomes(c, w.sys, step.step.ans))
  }

  ghost predicate NeverMisses(c: Setup, run: Run)
    requires |run.worlds| == |run.steps| + 1
  {
    forall i :: 0 <= i < |run.steps| ==> !Misses(c, run.worlds[i], run.steps[i])
  }

  lemma NeverMissesInit(c: Setup, run: Run)
    requires |run.worlds| == |run.steps| + 1 && run.steps != [] && NeverMisses(c, run)
    ensures NeverMisses(c, run.Init()) && !Misses(c, run.Init().Last(), run.steps[|run.steps| - 1])
  {
    var init := run.Init();
    forall i | 0 <= i < |init.steps|
      ensures !Misses(c, init.worlds[i], init.steps[i])
    {
      assert !Misses(c, run.worlds[i], run.steps[i]);
    }
    assert !Misses(c, run.worlds[|run.steps| - 1], run.steps[|run.steps| - 1]);
  }

  /** Less than a microtransaction is left over, and the session is within its cap. */
  predicate WithinBatch(c: Setup, a: Core) {
    a.accounted < c.cfg.requestsPerMicrotransaction && B.CapInv(c, a)
  }

  /** Every payment so far was for one microtransaction. */
  predicate AllWhole(c: Setup, sent: nat, prices: seq<U64>) {
    |prices| == sent && forall k :: 0 <= k < |prices| ==> prices[k] == c.Amount(c.cfg.requestsPerMicrotransaction)
  }

  /** A request that is not missed joins an incomplete batch, or completes one and is paid for. */
  lemma RequestStaysWithin(c: Setup, a: Core, o: Outcome)
    requires WithinBatch(c, a) && B.RequestShape(c, a, o) && B.CapInv(c, o.core) && !O.Missed(c, a, o)
    requires a.awaiting ==> o.core.accounted == a.accounted
    ensures WithinBatch(c, o.core)
  {
  }

  lemma RequestStaysWhole(c: Setup, a: Core, ans: Answers)
    requires WithinBatch(c, a) && !O.Missed(c, a, OnAccount(c, a, ans))
    ensures WithinBatch(c, OnAccount(c, a, ans).core)
  {
    B.RequestOutcome(c, a, ans);
    B.RequestKeepsCap(c, a, ans);
    RequestStaysWithin(c, a, OnAccount(c, a, ans));
  }

  lemma DueIsWhole(c: Setup, a: Core, ans: Answers)
    requires WithinBatch(c, a)
    ensures var due := Due(c, a, AccountOneRequest, ans);
      due.Some? ==> PaymentDue(c, a) && due.value == c.Amount(c.cfg.requestsPerMicrotransaction)
  {
    if PaymentDue(c, a) {
      assert a.accounted + 1 == c.cfg.requestsPerMicrotransaction;
    }
  }

  lemma EscapedIsMissed(c: Setup, a: Core, ans: Answers)
    requires Sends(c, a, AccountOneRequest, ans).Escaped?
    ensures O.Missed(c, a, OnAccount(c, a, ans))
  {
    B.EscapedHasFailed(c, a, ans);
  }

  /** A payment that is not missed is reported, and for one microtransaction. */
  lemma PaymentIsWhole(c: Setup, a: Core, ans: Answers)
    requires WithinBatch(c, a) && !O.Missed(c, a, OnAccount(c, a, ans))
    ensures var sending := Sends(c, a, AccountOneRequest, ans);
      && !sending.Escaped?
      && (sending.Sent? ==> Due(c, a, AccountOneRequest, ans) == Some(c.Amount(c.cfg.requestsPerMicrotransaction)))
  {
    DueIsWhole(c, a, ans);
    if Sends(c, a, AccountOneRequest, ans).Escaped? {
      EscapedIsMissed(c, a, ans);
    }
  }

  lemma OthersStayWhole(c: Setup, a: Core, event: Event, ans: Answers)
    requires WithinBatch(c, a) && !event.AccountOneRequest? && !event.Restart?
    ensures WithinBatch(c, Handle(c, a, event, ans).core)
  {
    B.OtherOutcome(c, a, event, ans);
    B.HandleKeepsCap(c, a, event, ans);
  }

  lemma DeliveryStaysWhole(c: Setup, t: S.Terms, w: World, ans: Answers)
    requires SamePayer(c, t) && Enabled(c, t, w, Machine(R.Deliver(ans))) && !R.Resets(w.sys, R.Deliver(ans))
    requires !Misses(c, w, Machine(R.Deliver(ans))) && WithinBatch(c, w.sys.actor.core)
    requires AllWhole(c, w.sys.actor.core.sent, w.ses.prices)
    ensures WithinBatch(c, R.Outcomes(c, w.sys, ans).core)
    ensures AllWhole(c, R.Outcomes(c, w.sys, ans).core.sent, Booked(c, t, w, ans).0.prices)
  {
    var a, event := w.sys.actor.core, R.NextEvent(w.sys);
    SendingIsSelected(c, a, event, ans);
    if event == AccountOneRequest {
      RequestStaysWhole(c, a, ans);
      PaymentIsWhole(c, a, ans);
      RequestResults(c, a, ans);
    } else {
      OthersStayWhole(c, a, event, ans);
      if event.WaitForL2Tx? {
        PollResults(c, a, event, ans);
      } else {
        OtherResults(c, a, event, ans);
      }
    }
  }

  /** A fresh head, a machine that has sent nothing, and less than a microtransaction accounted. */
  ghost predicate StartsFresh(c: Setup, t: S.Terms, run: Run) {
    && run.Valid(c, t) && |run.before| == 1 && NeverMisses(c, run)
    && !run.worlds[0].sys.actor.core.isClosing
    && run.worlds[0].sys.actor.core.accounted < c.cfg.requestsPerMicrotransaction
  }

  lemma {:induction false} RunStaysWhole(c: Setup, t: S.Terms, run: Run)
    requires StartsFresh(c, t, run)
    ensures WithinBatch(c, run.Last().sys.actor.core)
    ensures AllWhole(c, run.Last().sys.actor.core.sent, run.Last().ses.prices)
    decreases |run.steps|
  {
    if run.steps != [] {
      InitValid(c, t, run);
      NeverMissesInit(c, run);
      RunStaysWhole(c, t, run.Init());
      var w, step := run.Init().Last(), run.steps[|run.steps| - 1];
      if step.Machine? && step.step.Deliver? {
        DeliveryStaysWhole(c, t, w, step.step.ans);
      }
    }
  }

  lemma WholeIsMicrotransaction(c: Setup)
    requires F.InRange(c.cfg)
    ensures c.Amount(c.cfg.requestsPerMicrotransaction) == c.cfg.Microtransaction()
  {
  }

  /** The run has kept to the plan of its configuration. */
  lemma WholeKeepsPlan(c: Setup, a: Core, prices: seq<U64>)
    requires c.cfg.Accepted() && F.InRange(c.cfg) && WithinBatch(c, a) && AllWhole(c, a.sent, prices)
    ensures prices <= F.SessionPlan(c.cfg)
    ensures !a.isClosing ==> |prices| < |F.SessionPlan(c.cfg)|
    ensures forall k :: 0 <= k < |F.SessionPlan(c.cfg)| ==> F.SessionPlan(c.cfg)[k] == c.cfg.Microtransaction()
  {
    F.RepeatCosts(c.cfg.Microtransaction(), c.cfg.Cap());
    WholeIsMicrotransaction(c);
  }

  lemma FundsCoverPlan(cfg: Config, funds: U64)
    requires cfg.Accepted() && F.InRange(cfg) && cfg.microtransactionsPerFanout >= 1 && funds >= cfg.Target()
    ensures V.Legal(F.SessionPlan(cfg)) && V.Covers(funds, F.SessionPlan(cfg))
  {
    F.AcceptedNumbers(cfg);
    F.RepeatCosts(cfg.Microtransaction(), cfg.Cap());
  }

  /** A run on a fresh head with the funds, in which no payment was missed and none sent again late. */
  ghost predicate Funded(c: Setup, t: S.Terms, run: Run, funds: U64) {
    && c.cfg.Accepted() && F.InRange(c.cfg) && c.cfg.microtransactionsPerFanout >= 1
    && StartsFresh(c, t, run) && run.Last().ses.late == {}
    && Balance(run.before[0].utxos, t.sender) == funds >= c.cfg.Target()
  }

  lemma FundedKeepsPlan(c: Setup, t: S.Terms, run: Run, funds: U64)
    requires Funded(c, t, run, funds)
    ensures Keeps(c, t, run, F.SessionPlan(c.cfg), funds)
  {
    RunStaysWhole(c, t, run);
    WholeKeepsPlan(c, run.Last().sys.actor.core, run.Last().ses.prices);
    FundsCoverPlan(c.cfg, funds);
  }

  lemma FundedIsNext(c: Setup, t: S.Terms, run: Run, funds: U64, a: Core)
    requires Funded(c, t, run, funds) && a == run.Last().sys.actor.core && PaymentDue(c, a)
    ensures |run.Last().ses.prices| < |F.SessionPlan(c.cfg)|
    ensures c.Amount(a.accounted + 1) == c.cfg.Microtransaction() == F.SessionPlan(c.cfg)[|run.Last().ses.prices|]
  {
    RunStaysWhole(c, t, run);
    WholeKeepsPlan(c, a, run.Last().ses.prices);
    WholeIsMicrotransaction(c);
  }

  /**
   From the configuration to the payments: on a fresh head that holds at least the funding target, in every
   run of the machine in which no payment was missed and none sent again late, a payment that falls due is
   for one microtransaction and goes out.
   */
  lemma FundedMachinePays(c: Setup, t: S.Terms, run: Run, funds: U64, a: Core, ans: Answers)
    requires Funded(c, t, run, funds) && a == run.Last().sys.actor.core && PaymentDue(c, a)
    requires GoesWell(ans, run.Last().ses.utxos)
    ensures PaidFor(a, OnAccount(c, a, ans)) && c.Amount(a.accounted + 1) == c.cfg.Microtransaction()
  {
    FundedKeepsPlan(c, t, run, funds);
    FundedIsNext(c, t, run, funds, a);
    NextPaymentGoesOut(c, t, run, F.SessionPlan(c.cfg), funds, a, ans);
  }

  /** So does every resend of a payment that is not applied. */
  lemma FundedMachineResends(c: Setup, t: S.Terms, run: Run, funds: U64, e: Event, ans: Answers)
    requires Funded(c, t, run, funds) && e in run.Last().sys.actor.mailbox && ResendDue(e, ans)
    requires GoesWell(ans, run.Last().ses.utxos)
    requires |run.Last().ses.prices| - 1 !in run.Last().ses.applied
    ensures Handle(c, run.Last().sys.actor.core, e, ans).ok
  {
    FundedKeepsPlan(c, t, run, funds);
    ResendGoesOut(c, t, run, F.SessionPlan(c.cfg), funds, e, ans);
  }

  // ------------------------------------------------------------------ the close test

  function RefsOf(snapshot: seq<Entry>): set<Ref> {
    set e <- snapshot :: e.ref
  }

  /** A snapshot lists every coin once. */
  lemma {:induction false} ShownCount(snapshot: seq<Entry>)
    requires AscendingKeys(snapshot)
    ensures |RefsOf(snapshot)| == |snapshot|
  {
    if snapshot != [] {
      var init, last := snapshot[..|snapshot| - 1], snapshot[|snapshot| - 1];
      ShownCount(init);
      assert snapshot == init + [last];
      assert RefsOf(snapshot) == RefsOf(init) + {last.ref};
      assert last.ref !in RefsOf(init);
    }
  }

  lemma ShowsAll(snapshot: Snapshot, utxos: Utxos)
    requires Shows(snapshot, utxos)
    ensures |snapshot| == |utxos|
  {
    ShownCount(snapshot);
    forall r
      ensures r in RefsOf(snapshot) <==> r in utxos.Keys
    {
      if r in utxos {
        assert Entry(r, utxos[r].address, Some(utxos[r].lovelace)) in snapshot;
      }
    }
    assert RefsOf(snapshot) == utxos.Keys;
  }

  /**
   The close test, in every run of the machine on the ledger: it passes iff the coins of the wallet and of
   the others, and the payments applied since the head opened, outnumber the payments sent and reported.
   */
  lemma CountTestPassesIff(c: Setup, t: S.Terms, run: Run, ans: Answers)
    requires run.Valid(c, t) && ans.survey.Some? && Shows(ans.survey.value, run.Last().ses.utxos)
    ensures var a, s := run.Last().sys.actor.core, run.Last().ses;
      Handle(c, a, WaitForUtxoCount, ans)
      == Later(a, if |Owned(s.utxos, t.sender)| + |S.Others(t, run.before[0])| + |s.applied| > a.sent
                  then TryToClose else WaitForUtxoCount)
  {
    var session := MachineRunsSession(c, t, run);
    V.CoinCount(t, session);
    ShowsAll(ans.survey.value, run.Last().ses.utxos);
  }

  /** A head that was opened with a single coin, while that is not used up: iff as many are applied as were sent. */
  lemma OneCoinCountTestPassesIff(c: Setup, t: S.Terms, run: Run, ans: Answers)
    requires run.Valid(c, t) && ans.survey.Some? && Shows(ans.survey.value, run.Last().ses.utxos)
    requires |Owned(run.before[0].utxos, t.sender)| == 1 && S.Others(t, run.before[0]) == {}
    requires Balance(run.Last().ses.utxos, t.sender) > 0
    ensures var a := run.Last().sys.actor.core;
      Handle(c, a, WaitForUtxoCount, ans)
      == Later(a, if |run.Last().ses.applied| >= a.sent then TryToClose else WaitForUtxoCount)
  {
    var session := MachineRunsSession(c, t, run);
    V.OneCoinStays(t, session);
    assert Owned(run.Last().ses.utxos, t.sender) != {};
    CountTestPassesIff(c, t, run, ans);
  }
}
