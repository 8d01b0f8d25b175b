/** The gateway's payments: exactly when one is a whole microtransaction. */
module HydraOverdue {
  import opened Prelude
  import opened Arithmetic
  import opened HydraConfig
  import opened CoinSelection
  import opened Ledger
  import opened Funding
  import opened HydraServer
  import opened HydraRuntime
  import opened HydraBilling

  /**
   A request completes a microtransaction and is not paid for: the head is not open, is closing, or the
   payment fails.
   */
  predicate Missed(c: Setup, a: Core, o: Outcome) {
    !a.awaiting && a.accounted + 1 >= c.cfg.requestsPerMicrotransaction && o.core.sent == a.sent
  }

  /** What a step makes of the mark that a payment was missed: an empty backlog clears it. */
  function Marked(c: Setup, s: System, step: Step, before: bool): bool
    requires Enabled(s, step)
  {
    if step.Deliver? then
      var o := Outcomes(c, s, step.ans);
      o.core.accounted != 0 && (before || (NextEvent(s).AccountOneRequest? && Missed(c, s.actor.core, o)))
    else before
  }

  /** A payment has been missed since the backlog was last empty. */
  function Overdue(c: Setup, run: Run): bool
    requires run.Valid(c)
    decreases |run.steps|
  {
    if run.steps == [] then false
    else
      InitValid(c, run);
      Marked(c, run.Init().Last(), run.steps[|run.steps| - 1], Overdue(c, run.Init()))
  }

  /** A request is put off, paid for, or counted. */
  predicate Counts(a: Core, o: Outcome) {
    if a.awaiting then o.core == a
    else o.core.sent == a.sent ==> o.core.accounted == a.accounted + 1
  }

  lemma RequestMisses(c: Setup, a: Core, o: Outcome, overdue: bool)
    requires c.cfg.requestsPerMicrotransaction >= 1 && RequestShape(c, a, o) && Counts(a, o)
    requires overdue <==> a.accounted >= c.cfg.requestsPerMicrotransaction
    ensures (o.core.accounted != 0 && (overdue || Missed(c, a, o)))
       <==> o.core.accounted >= c.cfg.requestsPerMicrotransaction
  {
  }

  lemma RequestCounts(c: Setup, a: Core, ans: Answers)
    ensures Counts(a, OnAccount(c, a, ans))
  {
  }

  lemma OthersKeepBacklog(c: Setup, a: Core, event: Event, ans: Answers)
    requires !event.AccountOneRequest?
    ensures var b := Handle(c, a, event, ans).core; b.accounted == a.accounted || b.accounted == 0
  {
    if !event.Restart? {
      OtherOutcome(c, a, event, ans);
    }
  }

  /** The mark after a delivery, told by its outcome. */
  function MarkAfter(c: Setup, a: Core, event: Event, o: Outcome, before: bool): bool {
    o.core.accounted != 0 && (before || (event.AccountOneRequest? && Missed(c, a, o)))
  }

  lemma DeliveryKeepsMark(c: Setup, a: Core, event: Event, ans: Answers, before: bool)
    requires c.cfg.requestsPerMicrotransaction >= 1
    requires before <==> a.accounted >= c.cfg.requestsPerMicrotransaction
    ensures var o := Handle(c, a, event, ans);
      MarkAfter(c, a, event, o, before) <==> o.core.accounted >= c.cfg.requestsPerMicrotransaction
  {
    if event == AccountOneRequest {
      RequestOutcome(c, a, ans);
      RequestCounts(c, a, ans);
      RequestMisses(c, a, OnAccount(c, a, ans), before);
    } else {
      OthersKeepBacklog(c, a, event, ans);
    }
  }

  lemma StepKeepsMark(c: Setup, s: System, step: Step, before: bool)
    requires Enabled(s, step) && c.cfg.requestsPerMicrotransaction >= 1
    requires before <==> s.actor.core.accounted >= c.cfg.requestsPerMicrotransaction
    ensures Marked(c, s, step, before)
       <==> After(c, s, step).actor.core.accounted >= c.cfg.requestsPerMicrotransaction
  {
    if step.Deliver? {
      DeliveryKeepsMark(c, s.actor.core, NextEvent(s), step.ans, before);
    }
  }

  /** In every run: a microtransaction's worth of requests is left exactly when a payment was missed. */
  lemma {:induction false} OverdueIff(c: Setup, run: Run)
    requires run.Valid(c) && run.First() == Start() && c.cfg.requestsPerMicrotransaction >= 1
    ensures Overdue(c, run) <==> run.Last().actor.core.accounted >= c.cfg.requestsPerMicrotransaction
    decreases |run.steps|
  {
    if run.steps != [] {
      InitValid(c, run);
      OverdueIff(c, run.Init());
      StepKeepsMark(c, run.Init().Last(), run.steps[|run.steps| - 1], Overdue(c, run.Init()));
    }
  }

  lemma WholeIff(c: Setup, a: Core, o: Outcome)
    requires RequestShape(c, a, o) && o.core.sent == a.sent + 1
    requires 0 < c.cfg.lovelacePerRequest && (a.accounted + 1) * c.cfg.lovelacePerRequest < U64_SIZE
    ensures o.now.Some? && o.now.value.WaitForL2Tx?
    ensures o.now.value.amount == c.Amount(c.cfg.requestsPerMicrotransaction)
       <==> a.accounted + 1 == c.cfg.requestsPerMicrotransaction
  {
    AmountsDiffer(c.cfg.lovelacePerRequest, c.cfg.requestsPerMicrotransaction, a.accounted + 1);
  }

  /** In every run: the payment that the next request makes is one microtransaction iff none was missed before. */
  lemma PaymentIsWholeIff(c: Setup, run: Run, a: Core, ans: Answers)
    requires run.Valid(c) && run.First() == Start() && c.cfg.requestsPerMicrotransaction >= 1
    requires a == run.Last().actor.core && OnAccount(c, a, ans).core.sent == a.sent + 1
    requires 0 < c.cfg.lovelacePerRequest && (a.accounted + 1) * c.cfg.lovelacePerRequest < U64_SIZE
    ensures var o := OnAccount(c, a, ans);
      && o.now.Some? && o.now.value.WaitForL2Tx?
      && (o.now.value.amount == c.Amount(c.cfg.requestsPerMicrotransaction) <==> !Overdue(c, run))
  {
    OverdueIff(c, run);
    RequestOutcome(c, a, ans);
    WholeIff(c, a, OnAccount(c, a, ans));
  }

  lemma AmountsDiffer(price: nat, batch: nat, n: nat)
    requires price > 0 && batch <= n && n * price < U64_SIZE
    ensures (n * price) % U64_SIZE == (batch * price) % U64_SIZE <==> n == batch
  {
    MultiplyMonotone(price, batch, n);
    if n * price == batch * price {
      PriceIsInjective(price, n, batch);
    }
  }

  // ------------------------------------------------------------------ a payment that is not whole

  /** Everything goes well, the head is open, and payments are selected from `pick`. */
  function Fine(pick: Option<Snapshot>): Answers {
    Answers(true, Some(1), true, Some(U64_SIZE - 1), Delivered, true, Delivered, Some(Open), true, pick, None, None,
            Some(true))
  }

  /** Nothing is pending but one timer. */
  predicate Waits(s: System, e: Event) {
    && s.running && !s.owed && s.landing == [] && s.actor.mailbox == []
    && s.actor.timers == [Timer(e, s.actor.core.generation)]
  }

  lemma FireTimer(c: Setup, run: Run, e: Event) returns (longer: Run)
    requires run.Valid(c) && Waits(run.Last(), e)
    ensures longer.Valid(c) && longer.First() == run.First()
    ensures longer.Last() == run.Last().(actor := Actor(run.Last().actor.core, [e], []))
  {
    var s := run.Last();
    longer := Extend(c, run, TimerExpires(0));
    assert RemoveAt(s.actor.timers, 0) == [];
    assert longer.Last() == s.(actor := s.actor.(timers := []), landing := [e]);
    longer := Extend(c, longer, Lands(0));
    assert RemoveAt([e], 0) == [];
  }

  /** A lifecycle event that only starts the timer of the next one. */
  lemma Advance(c: Setup, run: Run, e: Event, core: Core, next: Event) returns (longer: Run)
    requires run.Valid(c) && Waits(run.Last(), e) && !e.Terminate? && !e.Restart? && !e.AccountOneRequest?
    requires Handle(c, run.Last().actor.core, e, Fine(None)) == Later(core, next)
    requires core.generation == run.Last().actor.core.generation && core.accounted == run.Last().actor.core.accounted
    ensures longer.Valid(c) && longer.First() == run.First()
    ensures longer.Last() == run.Last().(actor := Actor(core, [], [Timer(next, core.generation)]))
  {
    longer := FireTimer(c, run, e);
    longer := Extend(c, longer, Deliver(Fine(None)));
  }

  /** The head is open, and nothing is pending. */
  predicate Ready(s: System) {
    && s.running && !s.owed && s.actor.mailbox == [] && s.actor.timers == [] && s.landing == []
    && s.actor.core.headOpen && !s.actor.core.awaiting && !s.actor.core.isClosing && s.actor.core.sent == 0
    && s.books.paid == 0
  }

  /** The head is about to open. */
  predicate NearlyReady(s: System) {
    && Waits(s, WaitForOpen) && s.books.paid == 0
    && !s.actor.core.headOpen && !s.actor.core.awaiting && !s.actor.core.isClosing && s.actor.core.sent == 0
  }

  /** The machine after its start. */
  predicate Started(s: System, e: Event) {
    && Waits(s, e) && s.books.paid == 0 && s.actor.core.accounted == 0
    && !s.actor.core.headOpen && !s.actor.core.awaiting && !s.actor.core.isClosing && s.actor.core.sent == 0
  }

  lemma StartedUp(c: Setup) returns (run: Run)
    ensures run.Valid(c) && run.First() == Start() && Started(run.Last(), FundCommitAddr)
  {
    run := Run([Start()], []);
    run := Extend(c, run, Deliver(Fine(None)));
  }

  lemma WellFunded(c: Setup) returns (run: Run)
    ensures run.Valid(c) && run.First() == Start() && Started(run.Last(), TryToInitHead)
  {
    run := StartedUp(c);
    run := Advance(c, run, FundCommitAddr, run.Last().actor.core.(fundTxSent := false), TryToInitHead);
  }

  lemma NearlyOpened(c: Setup) returns (run: Run)
    ensures run.Valid(c) && run.First() == Start() && Started(run.Last(), WaitForOpen)
  {
    run := WellFunded(c);
    run := Advance(c, run, TryToInitHead, run.Last().actor.core.(peersConnected := true), WaitForInitial(10));
    run := Advance(c, run, WaitForInitial(10), run.Last().actor.core, WaitForOpen);
  }

  /** Requests that arrive before the head opens are counted, however many. */
  lemma {:induction false} GatheredBefore(c: Setup, n: nat) returns (run: Run)
    ensures run.Valid(c) && run.First() == Start() && NearlyReady(run.Last()) && run.Last().actor.core.accounted == n
  {
    if n == 0 {
      run := NearlyOpened(c);
    } else {
      run := GatheredBefore(c, n - 1);
      run := Extend(c, run, RequestArrives);
      assert run.Last().actor.mailbox == [AccountOneRequest];
      run := Extend(c, run, Deliver(Fine(None)));
    }
  }

  /** A run from the start to an open head with any backlog. */
  lemma Gathered(c: Setup, n: nat) returns (run: Run)
    ensures run.Valid(c) && run.First() == Start() && Ready(run.Last()) && run.Last().actor.core.accounted == n
  {
    run := GatheredBefore(c, n);
    run := FireTimer(c, run, WaitForOpen);
    run := Extend(c, run, Deliver(Fine(None)));
  }

  /** A wallet of just the coin that the payment needs. */
  lemma ExactWallet(c: Setup, amount: U64) returns (ans: Answers)
    requires LegalAmount(amount)
    ensures Pay(c, amount, ans).Some?
  {
    var snapshot, utxos := OneCoinShown(c.wallet, amount);
    OneCoinPaysIff(snapshot, utxos, c.wallet, amount, 0);
    ans := Fine(Some(snapshot));
  }

  lemma DueFails(c: Setup, a: Core)
    requires PaymentDue(c, a)
    ensures OnAccount(c, a, Fine(None)) == Failed(a.(accounted := a.accounted + 1))
  {
  }

  /** A payment has failed, another request is queued, and the Restart that is owed behind it. */
  predicate HasFailed(c: Setup, s: System) {
    && s.running && !s.owed && s.actor.mailbox == [AccountOneRequest, Restart] && s.books.paid == 0
    && s.actor.core.headOpen && !s.actor.core.isClosing && !s.actor.core.awaiting && s.actor.core.sent == 0
    && s.actor.core.accounted == c.cfg.requestsPerMicrotransaction
  }

  lemma FailedOnce(c: Setup) returns (run: Run)
    requires c.cfg.requestsPerMicrotransaction >= 1
    ensures run.Valid(c) && run.First() == Start() && HasFailed(c, run.Last())
  {
    run := Gathered(c, c.cfg.requestsPerMicrotransaction - 1);
    run := Extend(c, run, RequestArrives);
    run := Extend(c, run, RequestArrives);
    assert run.Last().actor.mailbox == [AccountOneRequest, AccountOneRequest];
    DueFails(c, run.Last().actor.core);
    run := Extend(c, run, Deliver(Fine(None)));
    assert run.Last().actor.mailbox == [AccountOneRequest];
    run := Extend(c, run, Recover);
  }

  /** One payment has been made, for one request more than a microtransaction. */
  predicate PaidTooMuch(c: Setup, s: System) {
    s.actor.core.sent == 1 && s.books.paid == c.cfg.requestsPerMicrotransaction + 1
  }

  lemma SomeWalletPays(c: Setup, a: Core, b: Core, amount: U64) returns (ans: Answers)
    requires PaymentDue(c, a) && b == a.(accounted := a.accounted + 1)
    requires amount == c.Amount(b.accounted) && LegalAmount(amount)
    ensures OnAccount(c, a, ans).core.sent == a.sent + 1
  {
    ans := ExactWallet(c, amount);
    DueIsMicrotransaction(c, a, b, ans);
    MicrotransactionPays(c, b, amount, ans);
  }

  lemma PaymentIsBooked(c: Setup, s: System, ans: Answers)
    requires Enabled(s, Deliver(ans)) && NextEvent(s) == AccountOneRequest
    requires OnAccount(c, s.actor.core, ans).core.sent == s.actor.core.sent + 1
    ensures After(c, s, Deliver(ans)).books.paid == s.books.paid + s.actor.core.accounted + 1
    ensures After(c, s, Deliver(ans)).actor.core.sent == s.actor.core.sent + 1
  {
  }

  /**
   The gateway, too, handles queued requests before the Restart that it owes after a failed
   payment: a run from the start in which the next payment is for one request too many.
   */
  lemma FailureSpoilsNextPayment(c: Setup) returns (run: Run)
    requires c.cfg.requestsPerMicrotransaction >= 1
    requires LegalAmount(c.Amount(c.cfg.requestsPerMicrotransaction + 1))
    ensures run.Valid(c) && run.First() == Start() && PaidTooMuch(c, run.Last())
  {
    run := FailedOnce(c);
    var a := run.Last().actor.core;
    var ans := SomeWalletPays(c, a, a.(accounted := a.accounted + 1), c.Amount(a.accounted + 1));
    PaymentIsBooked(c, run.Last(), ans);
    run := Extend(c, run, Deliver(ans));
  }
}
