/** What a bridge pays: exactly when a payment is a whole microtransaction. */
module BridgePayments {
  import opened Prelude
  import opened Arithmetic
  import opened CoinSelection
  import opened BridgeClient
  import opened BridgeRuntime
  import opened Funding
  import HydraServer
  import HydraOverdue

  // ------------------------------------------------------------------ invariant

  /** A payment is for at least a microtransaction, and for exactly one iff it was not overdue. */
  predicate Priced(c: Setup, p: Payment) {
    && p.amount == c.Amount(p.requests) && p.requests >= c.cfg.requestsPerMicrotransaction
    && (p.requests == c.cfg.requestsPerMicrotransaction <==> !p.overdue)
  }

  /** The amount was paid before. */
  predicate Known(payments: seq<Payment>, amount: U64) {
    exists i :: 0 <= i < |payments| && payments[i].amount == amount
  }

  predicate KnownEvent(payments: seq<Payment>, e: Event) {
    e.WaitForL2Tx? ==> Known(payments, e.amount)
  }

  /** A microtransaction's worth of unpaid requests is left exactly when a payment for them has failed. */
  predicate OverdueInv(c: Setup, s: System) {
    s.core.accounted >= c.cfg.requestsPerMicrotransaction <==> s.overdue
  }

  predicate Inv(c: Setup, s: System) {
    && OverdueInv(c, s)
    && (forall p <- s.payments :: Priced(c, p))
    && (forall i :: 0 <= i < |s.resent| ==> Known(s.payments, s.resent[i]))
    && (forall e <- s.mailbox :: KnownEvent(s.payments, e))
    && (forall e <- s.landing :: KnownEvent(s.payments, e))
    && (forall x <- s.timers :: KnownEvent(s.payments, x.event))
  }

  // ------------------------------------------------------------------ one event

  /** What an event does to the count of requests and to the payments. */
  predicate Fits(c: Setup, s: System, event: Event, o: Outcome) {
    var next := Recorded(c, s, event, o).(core := o.core);
    && OverdueInv(c, next)
    && (o.paid.Some? && !event.WaitForL2Tx? ==> Priced(c, next.payments[|s.payments|]))
    && (o.paid.Some? && event.WaitForL2Tx? ==> o.paid.value == event.amount)
    && (forall e <- o.now + o.later :: e.WaitForL2Tx? ==>
          (event.WaitForL2Tx? && e.amount == event.amount) || o.paid == Some(e.amount))
  }

  lemma AccountFits(c: Setup, s: System, sending: Sending)
    requires OverdueInv(c, s) && c.cfg.requestsPerMicrotransaction >= 1
    ensures Fits(c, s, AccountOneRequest, Account(c, s.core, sending))
  {
  }

  lemma PrepayFits(c: Setup, s: System, sending: Sending)
    requires OverdueInv(c, s) && c.cfg.requestsPerMicrotransaction >= 1
    ensures Fits(c, s, SendPrepay, Prepay(c, s.core, sending))
  {
  }

  lemma PollFits(c: Setup, s: System, event: Event, ans: Answers)
    requires OverdueInv(c, s) && c.cfg.requestsPerMicrotransaction >= 1 && event.WaitForL2Tx?
    ensures Fits(c, s, event, Handle(c, s.core, event, ans))
  {
  }

  predicate PaysNothing(a: Core, o: Outcome) {
    && o.paid.None? && (o.core.accounted == a.accounted || o.core.accounted == 0)
    && forall e <- o.now + o.later :: !e.WaitForL2Tx?
  }

  lemma OpeningPaysNothing(a: Core, ans: Answers)
    ensures PaysNothing(a, OnWaitForOpen(a, ans))
  {
  }

  lemma SeeingPaysNothing(a: Core, tag: Tag)
    ensures PaysNothing(a, OnStateSeen(a, tag))
  {
  }

  lemma WatchingPaysNothing(a: Core, ans: Answers)
    ensures PaysNothing(a, OnMonitorStates(a, ans))
  {
    if ans.tag.Some? {
      SeeingPaysNothing(a, ans.tag.value);
    }
  }

  lemma SettingUpPaysNothing(c: Setup, a: Core, ans: Answers)
    ensures PaysNothing(a, OnFund(c, a, ans)) && PaysNothing(a, OnCommit(c, a, ans))
    ensures PaysNothing(a, OnMonitorCredits(c, a, ans))
  {
  }

  lemma RestartPaysNothing(a: Core, ans: Answers)
    ensures PaysNothing(a, OnRestart(a, ans))
  {
  }

  lemma KexPaysNothing(a: Core, ans: Answers, done: bool)
    ensures PaysNothing(a, OnKex(a, done, ans))
  {
  }

  predicate MayPay(event: Event) {
    event.WaitForL2Tx? || event.AccountOneRequest? || event.SendPrepay?
  }

  lemma OthersPayNothing(c: Setup, a: Core, event: Event, ans: Answers)
    requires !MayPay(event)
    ensures PaysNothing(a, Handle(c, a, event, ans))
  {
    match event
    case WaitForOpen => OpeningPaysNothing(a, ans);
    case MonitorStates => WatchingPaysNothing(a, ans);
    case KeyExchangeResponse(done) => KexPaysNothing(a, ans, done);
    case Restart => RestartPaysNothing(a, ans);
    case FundCommitAddr | TryToCommit | MonitorCredits => SettingUpPaysNothing(c, a, ans);
    case Terminate =>
  }

  lemma NothingFits(c: Setup, s: System, event: Event, o: Outcome)
    requires OverdueInv(c, s) && c.cfg.requestsPerMicrotransaction >= 1
    requires !MayPay(event) && PaysNothing(s.core, o)
    ensures Fits(c, s, event, o)
  {
  }

  lemma HandleFits(c: Setup, s: System, event: Event, ans: Answers)
    requires OverdueInv(c, s) && c.cfg.requestsPerMicrotransaction >= 1
    ensures Fits(c, s, event, Handle(c, s.core, event, ans))
  {
    if event == AccountOneRequest {
      AccountFits(c, s, ans.sending);
    } else if event == SendPrepay {
      PrepayFits(c, s, ans.sending);
    } else if event.WaitForL2Tx? {
      PollFits(c, s, event, ans);
    } else {
      OthersPayNothing(c, s.core, event, ans);
      NothingFits(c, s, event, Handle(c, s.core, event, ans));
    }
  }

  // ------------------------------------------------------------------ preservation

  lemma KnownGrows(payments: seq<Payment>, more: seq<Payment>)
    requires payments <= more
    ensures forall amount: U64 :: Known(payments, amount) ==> Known(more, amount)
  {
    forall amount: U64 | Known(payments, amount)
      ensures Known(more, amount)
    {
      var i :| 0 <= i < |payments| && payments[i].amount == amount;
      assert more[i].amount == amount;
    }
  }

  lemma DeliveryKeepsInv(c: Setup, s: System, o: Outcome)
    requires Inv(c, s) && s.mailbox != [] && Fits(c, s, s.mailbox[0], o)
    ensures Inv(c, Delivered(c, s, o))
  {
    var event, next := s.mailbox[0], Delivered(c, s, o);
    assert KnownEvent(s.payments, event);
    KnownGrows(s.payments, next.payments);
    assert o.paid.Some? && !event.WaitForL2Tx? ==> next.payments[|s.payments|].amount == o.paid.value;
    forall e <- o.now + o.later
      ensures KnownEvent(next.payments, e)
    {
    }
    forall e <- next.mailbox
      ensures KnownEvent(next.payments, e)
    {
      assert e in s.mailbox || e in o.now + o.later;
    }
    forall x <- next.timers
      ensures KnownEvent(next.payments, x.event)
    {
      assert x in s.timers || x.event in o.now + o.later;
    }
  }

  lemma StepKeepsInv(c: Setup, s: System, step: Step)
    requires c.cfg.requestsPerMicrotransaction >= 1 && Inv(c, s) && Enabled(s, step)
    ensures Inv(c, After(c, s, step))
  {
    if step.Deliver? {
      HandleFits(c, s, s.mailbox[0], step.ans);
      DeliveryKeepsInv(c, s, Handle(c, s.core, s.mailbox[0], step.ans));
    }
  }

  lemma {:induction false} RunKeepsInv(c: Setup, run: seq<System>)
    requires Run(c, run) && c.cfg.requestsPerMicrotransaction >= 1
    ensures Inv(c, run[|run| - 1])
    decreases |run|
  {
    if |run| > 1 {
      RunPrefix(c, run);
      RunKeepsInv(c, run[..|run| - 1]);
      var step :| Enabled(run[|run| - 2], step) && run[|run| - 1] == After(c, run[|run| - 2], step);
      StepKeepsInv(c, run[|run| - 2], step);
    }
  }

  // ------------------------------------------------------------------ what holds of every run

  /**
   In every run: a payment for requests is exactly one microtransaction iff no payment had failed since
   their count was last zero; a prepayment always is one; a resend repeats an amount paid before.
   */
  lemma PaymentIsWholeIff(c: Setup, run: seq<System>, i: nat)
    requires Run(c, run) && c.cfg.requestsPerMicrotransaction >= 1 && i < |run[|run| - 1].payments|
    requires c.cfg.lovelacePerRequest > 0
    requires run[|run| - 1].payments[i].requests * c.cfg.lovelacePerRequest < U64_SIZE
    ensures var p := run[|run| - 1].payments[i];
      p.amount == c.Amount(c.cfg.requestsPerMicrotransaction) <==> !p.overdue
  {
    RunKeepsInv(c, run);
    var p, batch, price := run[|run| - 1].payments[i], c.cfg.requestsPerMicrotransaction, c.cfg.lovelacePerRequest;
    assert p in run[|run| - 1].payments && Priced(c, p);
    HydraOverdue.AmountsDiffer(price, batch, p.requests);
  }

  lemma ResendsRepeat(c: Setup, run: seq<System>, i: nat)
    requires Run(c, run) && c.cfg.requestsPerMicrotransaction >= 1 && i < |run[|run| - 1].resent|
    ensures Known(run[|run| - 1].payments, run[|run| - 1].resent[i])
  {
    RunKeepsInv(c, run);
  }

  /**
   The condition, read off the state before a request: its payment is for one microtransaction iff fewer
   requests are left.
   */
  lemma OverdueIff(c: Setup, run: seq<System>)
    requires Run(c, run) && c.cfg.requestsPerMicrotransaction >= 1
    ensures run[|run| - 1].overdue <==> run[|run| - 1].core.accounted >= c.cfg.requestsPerMicrotransaction
  {
    RunKeepsInv(c, run);
  }

  // ------------------------------------------------------------------ a payment that is not whole

  /** Everything goes well, and the head is open. */
  function Fine(sending: Sending): Answers {
    Answers(Some(MIN_FUEL), true, true, true, true, true, true, Some(0), true, true, Some(Open), None, sending, None)
  }

  lemma DeliveredAlone(c: Setup, s: System, e: Event, o: Outcome)
    requires !e.Restart?
    ensures Delivered(c, s.(timers := [], mailbox := [e]), o)
         == Recorded(c, s, e, o).(core := o.core, mailbox := o.now, timers := Timed(o.later, o.core.generation),
                                  owed := !o.ok)
  {
    assert [e][1..] + o.now == o.now && [] + Timed(o.later, o.core.generation) == Timed(o.later, o.core.generation);
  }

  lemma TimerLands(c: Setup, run: seq<System>, e: Event) returns (longer: seq<System>)
    requires Run(c, run)
    requires var s := run[|run| - 1];
      s.mailbox == [] && s.landing == [] && s.timers == [Timer(e, s.core.generation)]
    ensures Run(c, longer) && longer[|longer| - 1] == run[|run| - 1].(timers := [], mailbox := [e])
  {
    var s := run[|run| - 1];
    longer := Follow(c, run, TimerExpires(0));
    assert RemoveAt(s.timers, 0) == [];
    assert longer[|longer| - 1] == s.(timers := [], landing := [e]);
    longer := Follow(c, longer, Lands(0));
    assert RemoveAt([e], 0) == [];
  }

  /** Nothing is pending but one timer, and it fires. */
  lemma FireTimer(c: Setup, run: seq<System>, e: Event, ans: Answers) returns (longer: seq<System>)
    requires Run(c, run) && !e.Restart?
    requires var s := run[|run| - 1];
      s.mailbox == [] && s.landing == [] && s.timers == [Timer(e, s.core.generation)] && !s.owed
    ensures Run(c, longer)
    ensures var s, o := run[|run| - 1], Handle(c, run[|run| - 1].core, e, ans);
      longer[|longer| - 1]
      == Recorded(c, s, e, o).(core := o.core, mailbox := o.now, timers := Timed(o.later, o.core.generation),
                               owed := !o.ok)
  {
    var s := run[|run| - 1];
    longer := TimerLands(c, run, e);
    longer := Follow(c, longer, Deliver(ans));
    DeliveredAlone(c, s, e, Handle(c, s.core, e, ans));
  }

  /** The machine has just been told to start, and has asked for a key exchange. */
  lemma Started(c: Setup) returns (run: seq<System>)
    ensures Run(c, run)
    ensures run[|run| - 1] == Start().(core := FreshCore().(generation := 1, kexGeneration := 1), mailbox := [])
  {
    run := Follow(c, [Start()], Deliver(Fine(HydraServer.Unsent)));
    assert Timed([], 1) == [];
  }

  lemma Exchanged(c: Setup) returns (run: seq<System>)
    ensures Run(c, run)
    ensures run[|run| - 1]
         == Start().(core := FreshCore().(generation := 1, kexGeneration := 1, paramsSet := true, addressSet := true,
                                          watchdog := Some(1)),
                     mailbox := [], timers := [Timer(FundCommitAddr, 1)])
  {
    run := Started(c);
    run := Follow(c, run, KexArrives(false));
    run := Follow(c, run, Deliver(Fine(HydraServer.Unsent)));
    assert Timed([], 1) == [];
    assert run[|run| - 1].mailbox == [] && run[|run| - 1].timers == [];
    run := Follow(c, run, KexArrives(true));
    run := Follow(c, run, Deliver(Fine(HydraServer.Unsent)));
    assert Timed([FundCommitAddr], 1) == [Timer(FundCommitAddr, 1)];
  }

  /** The head is open, nothing is accounted, and no payment is unconfirmed. */
  predicate Ready(s: System) {
    && s.core.headOpen && s.core.paramsSet && s.core.addressSet && !s.core.awaiting
    && s.mailbox == [] && !s.owed && !s.overdue
  }

  lemma Opened(c: Setup) returns (run: seq<System>)
    ensures Run(c, run) && Ready(run[|run| - 1]) && run[|run| - 1].core.accounted == 0
    ensures run[|run| - 1].payments == []
  {
    run := Exchanged(c);
    run := FireTimer(c, run, FundCommitAddr, Fine(HydraServer.Unsent));
    assert Timed([TryToCommit], 1) == [Timer(TryToCommit, 1)];
    run := FireTimer(c, run, TryToCommit, Fine(HydraServer.Unsent));
    assert Timed([WaitForOpen], 1) == [Timer(WaitForOpen, 1)];
    run := FireTimer(c, run, WaitForOpen, Fine(HydraServer.Unsent));
  }

  lemma {:induction false} Gathered(c: Setup, n: nat) returns (run: seq<System>)
    requires n < c.cfg.requestsPerMicrotransaction
    ensures Run(c, run) && Ready(run[|run| - 1]) && run[|run| - 1].core.accounted == n
    ensures run[|run| - 1].payments == []
  {
    if n == 0 {
      run := Opened(c);
    } else {
      run := Gathered(c, n - 1);
      run := Follow(c, run, RequestArrives);
      assert run[|run| - 1].mailbox == [AccountOneRequest];
      run := Follow(c, run, Deliver(Fine(HydraServer.Unsent)));
    }
  }

  /** With these answers, the amount is paid from the inputs. */
  predicate PaysFrom(c: Setup, amount: U64, ans: HydraServer.Answers, inputs: seq<Ref>) {
    HydraServer.Submit(c, amount, ans) == HydraServer.Sent(inputs)
  }

  lemma SomeWalletPays(c: Setup, amount: U64) returns (ans: HydraServer.Answers, inputs: seq<Ref>)
    requires LegalAmount(amount)
    ensures PaysFrom(c, amount, ans, inputs)
  {
    ans := HydraOverdue.ExactWallet(c, amount);
    inputs := HydraServer.Submit(c, amount, ans).inputs;
  }

  /** The first payment fails, after it has gone out or before; another request is queued behind it. */
  lemma FailedOnce(c: Setup, sending: Sending) returns (run: seq<System>)
    requires c.cfg.requestsPerMicrotransaction >= 1 && !sending.Sent?
    ensures Run(c, run)
    ensures var s, batch := run[|run| - 1], c.cfg.requestsPerMicrotransaction;
      && s.mailbox == [AccountOneRequest, Restart] && !s.owed && s.overdue
      && s.core.headOpen && s.core.paramsSet && s.core.addressSet && !s.core.awaiting && s.core.accounted == batch
      && s.payments == if sending.Escaped? then [Payment(c.Amount(batch), batch, false, false)] else []
  {
    run := Gathered(c, c.cfg.requestsPerMicrotransaction - 1);
    run := Follow(c, run, RequestArrives);
    run := Follow(c, run, RequestArrives);
    assert run[|run| - 1].mailbox == [AccountOneRequest, AccountOneRequest];
    run := Follow(c, run, Deliver(Fine(sending)));
    assert run[|run| - 1].mailbox == [AccountOneRequest];
    run := Follow(c, run, Recover);
  }

  /** The queued request pays for one request more than a microtransaction. */
  lemma QueuedPays(c: Setup, run: seq<System>, inputs: seq<Ref>) returns (longer: seq<System>)
    requires Run(c, run) && c.cfg.requestsPerMicrotransaction >= 1
    requires var s := run[|run| - 1];
      && s.mailbox == [AccountOneRequest, Restart] && !s.owed && s.overdue
      && s.core.headOpen && s.core.paramsSet && s.core.addressSet && !s.core.awaiting
      && s.core.accounted == c.cfg.requestsPerMicrotransaction
    ensures Run(c, longer)
    ensures var s, n := longer[|longer| - 1], c.cfg.requestsPerMicrotransaction + 1;
      && s.payments == run[|run| - 1].payments + [Payment(c.Amount(n), n, true, true)]
      && s.mailbox == [Restart, WaitForL2Tx(inputs, 0, c.Amount(n), HydraServer.L2_TX_MAX_RETRIES)]
  {
    longer := Follow(c, run, Deliver(Fine(HydraServer.Sent(inputs))));
  }

  /**
   After a failed payment the machine owes itself a Restart, but requests that are already in the mailbox come
   first: a run from the start in which the next payment is for one request too many. If the failed payment
   has gone out all the same, all its requests are paid for again. Both payments answer as a wallet can.
   */
  lemma FailureSpoilsNextPayment(c: Setup, failed: HydraServer.Answers, first: Sending)
    returns (run: seq<System>, paid: HydraServer.Answers, inputs: seq<Ref>)
    requires c.cfg.requestsPerMicrotransaction >= 1
    requires LegalAmount(c.Amount(c.cfg.requestsPerMicrotransaction + 1))
    requires first == HydraServer.Submit(c, c.Amount(c.cfg.requestsPerMicrotransaction), failed) && !first.Sent?
    ensures Run(c, run) && PaysFrom(c, c.Amount(c.cfg.requestsPerMicrotransaction + 1), paid, inputs)
    ensures var s, batch := run[|run| - 1], c.cfg.requestsPerMicrotransaction;
      && s.payments == (if first.Escaped? then [Payment(c.Amount(batch), batch, false, false)] else [])
                       + [Payment(c.Amount(batch + 1), batch + 1, true, true)]
      && s.mailbox == [Restart, WaitForL2Tx(inputs, 0, c.Amount(batch + 1), HydraServer.L2_TX_MAX_RETRIES)]
  {
    run := FailedOnce(c, first);
    paid, inputs := SomeWalletPays(c, c.Amount(c.cfg.requestsPerMicrotransaction + 1));
    run := QueuedPays(c, run, inputs);
  }

  // ------------------------------------------------------------------ a payment that is confirmed

  /** The poll sees none of the inputs any more. */
  function Confirming(): Answers {
    Fine(HydraServer.Unsent).(poll := Some(Some([])))
  }

  /** One payment has been made, is confirmed, and nothing is pending. */
  predicate Settled(c: Setup, s: System) {
    var batch := c.cfg.requestsPerMicrotransaction;
    && s.mailbox == [] && !s.owed && !s.core.awaiting && s.core.headOpen && s.core.paramsSet && s.core.addressSet
    && s.core.accounted == 0 && s.payments == [Payment(c.Amount(batch), batch, false, true)]
  }

  /** A run from the start that pays, and whose gate is opened by the confirmation. */
  lemma PaidAndConfirmed(c: Setup) returns (run: seq<System>, paid: HydraServer.Answers, inputs: seq<Ref>)
    requires c.cfg.requestsPerMicrotransaction >= 1
    requires LegalAmount(c.Amount(c.cfg.requestsPerMicrotransaction))
    ensures Run(c, run) && PaysFrom(c, c.Amount(c.cfg.requestsPerMicrotransaction), paid, inputs)
    ensures Settled(c, run[|run| - 1])
  {
    var batch := c.cfg.requestsPerMicrotransaction;
    paid, inputs := SomeWalletPays(c, c.Amount(batch));
    run := PaidOnce(c, inputs);
    run := Confirmed(c, run, inputs);
  }

  lemma Confirmed(c: Setup, run: seq<System>, inputs: seq<Ref>) returns (longer: seq<System>)
    requires Run(c, run)
    requires run[|run| - 1].mailbox
          == [WaitForL2Tx(inputs, 0, c.Amount(c.cfg.requestsPerMicrotransaction), HydraServer.L2_TX_MAX_RETRIES)]
    requires var s := run[|run| - 1]; !s.owed && Settled(c, s.(mailbox := [], core := s.core.(awaiting := false)))
    ensures Run(c, longer) && Settled(c, longer[|longer| - 1])
  {
    longer := Follow(c, run, Deliver(Confirming()));
  }

  /** The first payment has been made, and its poll is next. */
  lemma PaidOnce(c: Setup, inputs: seq<Ref>) returns (run: seq<System>)
    requires c.cfg.requestsPerMicrotransaction >= 1
    ensures Run(c, run)
    ensures var s, batch := run[|run| - 1], c.cfg.requestsPerMicrotransaction;
      && s.mailbox == [WaitForL2Tx(inputs, 0, c.Amount(batch), HydraServer.L2_TX_MAX_RETRIES)]
      && !s.owed && s.core.awaiting && s.core.headOpen && s.core.paramsSet && s.core.addressSet
      && s.core.accounted == 0 && s.payments == [Payment(c.Amount(batch), batch, false, true)]
  {
    run := Gathered(c, c.cfg.requestsPerMicrotransaction - 1);
    run := Follow(c, run, RequestArrives);
    assert run[|run| - 1].mailbox == [AccountOneRequest];
    run := Follow(c, run, Deliver(Fine(HydraServer.Sent(inputs))));
  }

  /** The next request is then counted, and not put off. */
  lemma NextRequestIsCounted(c: Setup, run: seq<System>) returns (longer: seq<System>)
    requires Run(c, run) && Settled(c, run[|run| - 1]) && c.cfg.requestsPerMicrotransaction >= 2
    ensures Run(c, longer) && longer[|longer| - 1].core.accounted == 1
  {
    longer := Follow(c, run, RequestArrives);
    assert longer[|longer| - 1].mailbox == [AccountOneRequest];
    longer := Follow(c, longer, Deliver(Fine(HydraServer.Unsent)));
  }
}
