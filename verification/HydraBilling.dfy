/** Where the reported requests go, what is paid for them, and how long a session lasts. */
module HydraBilling {
  import opened Prelude
  import opened Arithmetic
  import opened HydraConfig
  import opened CoinSelection
  import opened HydraServer
  import opened HydraRuntime

  /** Every request received is pending, in the backlog, paid for, written off at a fanout or lost to a restart. */
  predicate Conserved(s: System) {
    s.books.received ==
      Pending(s, Billable) + s.actor.core.accounted + s.books.paid + s.books.writtenOff + s.books.lost
  }

  /** The session closes exactly when it has sent its last microtransaction. */
  predicate CapInv(c: Setup, a: Core) {
    a.sent <= c.cfg.Cap() && (a.isClosing <==> a.sent == c.cfg.Cap())
  }

  /** The first submissions pay the price of every paid request, and again that of the unreported payments. */
  predicate PricesMatch(c: Setup, b: Books) {
    c.cfg.lovelacePerRequest * b.received < U64_SIZE ==>
      b.submitted == c.cfg.lovelacePerRequest * (b.paid + b.unreported)
  }

  /** A request is deferred, joins the backlog, or is paid for together with the whole backlog. */
  predicate RequestShape(c: Setup, a: Core, o: Outcome) {
    if o.core.sent == a.sent + 1 then
      && o.core.accounted == 0 && Emitted(o, Billable) == 0 && !a.isClosing && !a.awaiting && a.headOpen
      && a.accounted + 1 >= c.cfg.requestsPerMicrotransaction
      && o.now.Some? && o.now.value.WaitForL2Tx?
      && o.now.value.amount == c.Amount(a.accounted + 1)
      && o.now.value.attempts == 0 && o.now.value.retriesLeft == L2_TX_MAX_RETRIES
    else
      o.core.sent == a.sent && o.core.accounted + Emitted(o, Billable) == a.accounted + 1
  }

  lemma RequestOutcome(c: Setup, a: Core, ans: Answers)
    ensures RequestShape(c, a, OnAccount(c, a, ans))
  {
  }

  /** Other events leave requests alone, except that finding the head Idle drops the backlog. */
  predicate OtherShape(a: Core, event: Event, o: Outcome) {
    && Emitted(o, Billable) == 0
    && (o.core.accounted == a.accounted || (event.WaitForIdleAfterClose? && o.core.accounted == 0))
  }

  lemma PollOutcome(c: Setup, a: Core, event: Event, ans: Answers)
    requires event.WaitForL2Tx?
    ensures OtherShape(a, event, Handle(c, a, event, ans))
  {
  }

  lemma OtherOutcome(c: Setup, a: Core, event: Event, ans: Answers)
    requires !event.Restart? && !event.AccountOneRequest?
    ensures OtherShape(a, event, Handle(c, a, event, ans))
  {
    if event.WaitForL2Tx? {
      PollOutcome(c, a, event, ans);
    }
  }

  /** What the books gain is what the backlog, the event and the emitted events lose. */
  lemma BookingBalances(c: Setup, b: Books, event: Event, before: Actor, o: Outcome)
    requires !event.Restart?
    requires if event.AccountOneRequest? then RequestShape(c, before.core, o) else OtherShape(before.core, event, o)
    ensures var b' := Booked(b, event, before, o);
      && b'.received == b.received && b'.lost == b.lost
      && b'.paid + b'.writtenOff + o.core.accounted + Emitted(o, Billable) ==
         b.paid + b.writtenOff + before.core.accounted + One(Billable, event)
  {
  }

  lemma DeliveryConserves(c: Setup, s: System, step: Step)
    requires step.Deliver? && Enabled(s, step) && !NextEvent(s).Restart? && Conserved(s)
    ensures Conserved(After(c, s, step))
  {
    DeliveryCounts(c, s, step, Billable);
    if NextEvent(s).AccountOneRequest? {
      RequestOutcome(c, s.actor.core, step.ans);
    } else {
      OtherOutcome(c, s.actor.core, NextEvent(s), step.ans);
    }
    BookingBalances(c, s.books, NextEvent(s), s.actor, Outcomes(c, s, step.ans));
  }

  lemma RestartConserves(c: Setup, s: System, step: Step)
    requires Enabled(s, step) && Restarts(s, step) && TimersInv(s.actor) && Conserved(s)
    ensures Conserved(After(c, s, step))
  {
    RestartCounts(c, s, step, Billable);
    TakingRemoves(s, Billable);
  }

  lemma StepConserves(c: Setup, s: System, step: Step)
    requires Enabled(s, step) && TimersInv(s.actor) && Conserved(s)
    ensures Conserved(After(c, s, step))
  {
    if !step.Deliver? {
      SurroundingsCount(c, s, step, Billable);
    } else if NextEvent(s).Restart? {
      RestartConserves(c, s, step);
    } else {
      DeliveryConserves(c, s, step);
    }
  }

  /** Over whole runs, restarts included, no request is forgotten or counted twice. */
  lemma {:induction false} RequestsAreConserved(c: Setup, run: Run)
    requires run.Valid(c) && run.First() == Start()
    ensures Conserved(run.Last()) && TimersInv(run.Last().actor)
    decreases |run.steps|
  {
    if run.steps == [] {
      CountOne(Restart, Billable);
    } else {
      InitValid(c, run);
      var s, step := run.Init().Last(), run.steps[|run.steps| - 1];
      RequestsAreConserved(c, run.Init());
      StepKeepsTimers(c, s, step);
      StepConserves(c, s, step);
    }
  }

  // ------------------------------------------------------------------ prices

  lemma PayingKeepsPrice(price: nat, before: nat, n: nat, received: nat)
    requires n <= received && price * received < U64_SIZE
    ensures (n * price) % U64_SIZE == n * price
    ensures price * (before + n) == price * before + n * price
  {
    MultiplyMonotone(price, n, received);
    Distribute(price, before, n);
  }

  lemma DueIsMicrotransaction(c: Setup, a: Core, b: Core, ans: Answers)
    requires PaymentDue(c, a) && b == a.(accounted := a.accounted + 1)
    ensures OnAccount(c, a, ans) == OnMicrotransaction(c, b, ans)
  {
  }

  lemma MicrotransactionPays(c: Setup, a: Core, amount: U64, ans: Answers)
    requires amount == c.Amount(a.accounted)
    ensures match Pay(c, amount, ans)
      case Some(inputs) => OnMicrotransaction(c, a, ans) == Paid(c, a, amount, inputs)
      case None => OnMicrotransaction(c, a, ans) == Failed(a)
  {
  }

  /** A due request is paid for as far as the payment succeeds. */
  lemma DuePays(c: Setup, a: Core, b: Core, ans: Answers)
    requires PaymentDue(c, a) && b == a.(accounted := a.accounted + 1)
    ensures match Pay(c, c.Amount(b.accounted), ans)
      case Some(inputs) => OnAccount(c, a, ans) == Paid(c, b, c.Amount(b.accounted), inputs)
      case None => OnAccount(c, a, ans) == Failed(b)
  {
    DueIsMicrotransaction(c, a, b, ans);
    MicrotransactionPays(c, b, c.Amount(b.accounted), ans);
  }

  lemma EscapedIsNoPayment(c: Setup, a: Core, ans: Answers)
    requires Sends(c, a, AccountOneRequest, ans).Escaped?
    ensures PaymentDue(c, a) && Pay(c, c.Amount(a.accounted + 1), ans).None?
  {
  }

  /** A payment that went out unreported has failed. */
  lemma EscapedHasFailed(c: Setup, a: Core, ans: Answers)
    requires Sends(c, a, AccountOneRequest, ans).Escaped?
    ensures OnAccount(c, a, ans) == Failed(a.(accounted := a.accounted + 1))
  {
    EscapedIsNoPayment(c, a, ans);
    DuePays(c, a, a.(accounted := a.accounted + 1), ans);
  }

  /** The books gain at most one payment for all accounted requests, reported or not. */
  predicate OnePayment(c: Setup, b: Books, n: nat, b': Books) {
    && b'.received == b.received
    && ((b'.paid + b'.unreported == b.paid + b.unreported && b'.submitted == b.submitted)
        || (b'.paid + b'.unreported == b.paid + b.unreported + n && b'.submitted == b.submitted + c.Amount(n)))
  }

  /** The books after an event. */
  function Entered(c: Setup, b: Books, event: Event, before: Actor, o: Outcome, sending: Sending): Books {
    Noted(c, Booked(b, event, before, o), event, before.core, sending)
  }

  lemma RequestIsOnePayment(c: Setup, b: Books, before: Actor, o: Outcome, sending: Sending)
    requires RequestShape(c, before.core, o) && (sending.Escaped? ==> o.core.sent == before.core.sent)
    ensures OnePayment(c, b, before.core.accounted + 1, Entered(c, b, AccountOneRequest, before, o, sending))
  {
  }

  lemma PaymentKeepsPrices(c: Setup, b: Books, n: nat, b': Books)
    requires OnePayment(c, b, n, b') && n <= b.received && c.cfg.lovelacePerRequest * b.received < U64_SIZE
    requires b.submitted == c.cfg.lovelacePerRequest * (b.paid + b.unreported)
    ensures b'.submitted == c.cfg.lovelacePerRequest * (b'.paid + b'.unreported)
  {
    PayingKeepsPrice(c.cfg.lovelacePerRequest, b.paid + b.unreported, n, b.received);
  }

  lemma RequestKeepsPrices(c: Setup, b: Books, before: Actor, o: Outcome, sending: Sending)
    requires RequestShape(c, before.core, o) && (sending.Escaped? ==> o.core.sent == before.core.sent)
    requires PricesMatch(c, b) && before.core.accounted + 1 <= b.received
    ensures PricesMatch(c, Entered(c, b, AccountOneRequest, before, o, sending))
  {
    RequestIsOnePayment(c, b, before, o, sending);
    var next := Entered(c, b, AccountOneRequest, before, o, sending);
    if c.cfg.lovelacePerRequest * b.received < U64_SIZE {
      PaymentKeepsPrices(c, b, before.core.accounted + 1, next);
    }
  }

  lemma RequestSends(c: Setup, a: Core, ans: Answers)
    ensures RequestShape(c, a, OnAccount(c, a, ans))
    ensures Sends(c, a, AccountOneRequest, ans).Escaped? ==> OnAccount(c, a, ans).core.sent == a.sent
  {
    RequestOutcome(c, a, ans);
    if Sends(c, a, AccountOneRequest, ans).Escaped? {
      EscapedHasFailed(c, a, ans);
    }
  }

  /** Only a request is paid for. */
  lemma OthersPayNothing(c: Setup, b: Books, event: Event, before: Actor, o: Outcome, sending: Sending)
    requires !event.AccountOneRequest? && PricesMatch(c, b)
    ensures PricesMatch(c, Entered(c, b, event, before, o, sending))
  {
  }

  lemma DeliveryKeepsPrices(c: Setup, s: System, ans: Answers)
    requires Enabled(s, Deliver(ans)) && Conserved(s) && PricesMatch(c, s.books)
    ensures PricesMatch(c, Entered(c, s.books, NextEvent(s), s.actor, Outcomes(c, s, ans), Attempt(c, s, ans)))
  {
    if NextEvent(s) == AccountOneRequest {
      TakingRemoves(s, Billable);
      RequestSends(c, s.actor.core, ans);
      RequestKeepsPrices(c, s.books, s.actor, Outcomes(c, s, ans), Attempt(c, s, ans));
    } else {
      OthersPayNothing(c, s.books, NextEvent(s), s.actor, Outcomes(c, s, ans), Attempt(c, s, ans));
    }
  }

  lemma StepKeepsPrices(c: Setup, s: System, step: Step)
    requires Enabled(s, step) && Conserved(s) && PricesMatch(c, s.books)
    ensures PricesMatch(c, After(c, s, step).books)
  {
    if step.RequestArrives? {
      MultiplyMonotone(c.cfg.lovelacePerRequest, s.books.received, s.books.received + 1);
    } else if step.Deliver? {
      DeliveryKeepsPrices(c, s, step.ans);
    }
  }

  /**
   As long as the price of all requests fits 64 bits, the lovelace submitted is the price of the paid
   requests and of those that an unreported payment was for; the latter are paid for once more, or lost.
   */
  lemma {:induction false} PaymentsMatchPrices(c: Setup, run: Run)
    requires run.Valid(c) && run.First() == Start()
    ensures PricesMatch(c, run.Last().books)
    decreases |run.steps|
  {
    if run.steps != [] {
      InitValid(c, run);
      PaymentsMatchPrices(c, run.Init());
      RequestsAreConserved(c, run.Init());
      StepKeepsPrices(c, run.Init().Last(), run.steps[|run.steps| - 1]);
    }
  }

  /**
   Requests are written off by nothing but an Idle head, which writes off all that were accounted for and lets the
   next session start with none.
   */
  lemma IdleWritesOffBacklog(c: Setup, s: System, step: Step)
    requires Enabled(s, step)
    ensures var idle := step.Deliver? && NextEvent(s).WaitForIdleAfterClose? && step.ans.tag == Some(Idle);
      var next := After(c, s, step);
      && next.books.writtenOff == s.books.writtenOff + (if idle then s.actor.core.accounted else 0)
      && (idle ==> next.actor.core.accounted == 0 && next.actor.core.sent == 0)
  {
    if step.Deliver? && NextEvent(s).WaitForIdleAfterClose? {
      IdleCounts(c, s.actor.core, NextEvent(s), step.ans);
    }
  }

  lemma IdleCounts(c: Setup, a: Core, event: Event, ans: Answers)
    requires event.WaitForIdleAfterClose?
    ensures var b := Handle(c, a, event, ans).core;
      if ans.tag == Some(Idle) then b.accounted == 0 && b.sent == 0 else b.accounted == a.accounted
  {
  }

  // ------------------------------------------------------------------ the session cap

  lemma HandleKeepsCap(c: Setup, a: Core, event: Event, ans: Answers)
    requires CapInv(c, a)
    ensures CapInv(c, Handle(c, a, event, ans).core)
  {
    if event.AccountOneRequest? {
      RequestKeepsCap(c, a, ans);
    } else if event.WaitForL2Tx? {
      PollKeepsCounts(c, a, event, ans);
    } else {
      OthersKeepCap(c, a, event, ans);
    }
  }

  lemma RequestKeepsCap(c: Setup, a: Core, ans: Answers)
    requires CapInv(c, a)
    ensures CapInv(c, OnAccount(c, a, ans).core)
  {
    RequestOutcome(c, a, ans);
  }

  lemma PollKeepsCounts(c: Setup, a: Core, event: Event, ans: Answers)
    requires event.WaitForL2Tx?
    ensures var b := Handle(c, a, event, ans).core; b.sent == a.sent && b.isClosing == a.isClosing
  {
  }

  lemma OthersKeepCap(c: Setup, a: Core, event: Event, ans: Answers)
    requires CapInv(c, a) && !event.AccountOneRequest? && !event.WaitForL2Tx?
    ensures CapInv(c, Handle(c, a, event, ans).core)
  {
  }

  /** In every state, the head is closing iff the session has sent `max(1, microtransactions_per_fanout)` payments. */
  lemma {:induction false} SessionIsCapped(c: Setup, run: Run)
    requires run.Valid(c) && run.First() == Start()
    ensures CapInv(c, run.Last().actor.core)
    decreases |run.steps|
  {
    if run.steps != [] {
      InitValid(c, run);
      SessionIsCapped(c, run.Init());
      var s, step := run.Init().Last(), run.steps[|run.steps| - 1];
      if step.Deliver? {
        HandleKeepsCap(c, s.actor.core, NextEvent(s), step.ans);
      }
    }
  }

  /** No microtransaction starts while the head is closing or another payment is unconfirmed. */
  lemma NothingStartsWhileClosing(c: Setup, s: System, step: Step)
    requires Enabled(s, step) && (s.actor.core.isClosing || s.actor.core.awaiting)
    ensures After(c, s, step).books.paid == s.books.paid
    ensures After(c, s, step).books.submitted == s.books.submitted
  {
    if step.Deliver? && NextEvent(s).AccountOneRequest? {
      RequestOutcome(c, s.actor.core, step.ans);
    }
  }
}
