/** Runs of the machine on the ledger, built step by step: counting, paying, polling, sending again, giving up. */
module SessionSteps {
  import opened Prelude
  import opened CoinSelection
  import opened Ledger
  import opened Funding
  import opened HydraServer
  import opened SessionEngine
  import R = HydraRuntime
  import B = HydraBilling
  import O = HydraOverdue
  import Q = EqualPrices
  import S = Session

  /** Where a run has got to; what timers and other tasks hold is left open. */
  predicate At(w: World, owed: bool, a: Core, mailbox: seq<Event>, ses: S.State, k: Claims) {
    && w.sys.running && w.sys.owed == owed && w.sys.actor.core == a && w.sys.actor.mailbox == mailbox
    && w.ses == ses && w.claims == k
  }

  /** The run goes on from another one. */
  ghost predicate Continues(c: Setup, t: S.Terms, longer: Run, run: Run)
    requires run.worlds != []
  {
    longer.Valid(c, t) && longer.before == run.before && longer.worlds[0] == run.worlds[0]
  }

  // ------------------------------------------------------------------ single steps

  /** A machine that is ready, on a head that is open; it has got there from its start. */
  lemma Begin(c: Setup, t: S.Terms, before: seq<S.State>, n: nat) returns (history: R.Run, run: Run, a: Core)
    requires SamePayer(c, t) && S.Run(t, before)
    ensures history.Valid(c) && history.First() == R.Start()
    ensures run.Valid(c, t) && run.before == before && run.worlds[0].sys == history.Last()
    ensures At(run.Last(), false, a, [], before[|before| - 1], Claims([], 0))
    ensures a.headOpen && !a.awaiting && !a.isClosing && a.sent == 0 && a.accounted == n
  {
    history := O.Gathered(c, n);
    a := history.Last().actor.core;
    run := Run(before, [World(history.Last(), before[|before| - 1], Claims([], 0))], []);
  }

  lemma Arrive(c: Setup, t: S.Terms, run: Run, owed: bool, a: Core, mailbox: seq<Event>, ses: S.State, k: Claims)
    returns (longer: Run)
    requires run.Valid(c, t) && At(run.Last(), owed, a, mailbox, ses, k)
    ensures Continues(c, t, longer, run) && At(longer.Last(), owed, a, mailbox + [AccountOneRequest], ses, k)
  {
    longer := Extend(c, t, run, Machine(R.RequestArrives));
  }

  lemma RecoverNow(c: Setup, t: S.Terms, run: Run, a: Core, mailbox: seq<Event>, ses: S.State, k: Claims)
    returns (longer: Run)
    requires run.Valid(c, t) && At(run.Last(), true, a, mailbox, ses, k)
    ensures Continues(c, t, longer, run) && At(longer.Last(), false, a, mailbox + [Restart], ses, k)
  {
    longer := Extend(c, t, run, Machine(R.Recover));
  }

  lemma LandNow(c: Setup, t: S.Terms, run: Run, owed: bool, a: Core, mailbox: seq<Event>, ses: S.State, k: Claims,
                i: nat) returns (longer: Run, pay: Ref, back: Ref)
    requires run.Valid(c, t) && At(run.Last(), owed, a, mailbox, ses, k)
    requires i < |ses.pool| && Applicable(ses.utxos, ses.pool[i].payment)
    ensures Continues(c, t, longer, run)
    ensures pay !in ses.used && back !in ses.used && pay != back
    ensures At(longer.Last(), owed, a, mailbox, S.AfterLand(ses, i, pay, back), k)
  {
    pay := S.FreshRef(ses.used);
    back := pay + 1;
    longer := Extend(c, t, run, Ledger(i, pay, back));
  }

  /** The event in front is handled, and what it sends at once joins the mailbox. */
  lemma DeliverStep(c: Setup, t: S.Terms, w: World, e: Event, rest: seq<Event>, a: Core, ses: S.State, k: Claims,
                    ans: Answers, o: Outcome, ses': S.State, k': Claims) returns (next: World)
    requires SamePayer(c, t) && At(w, false, a, [e] + rest, ses, k)
    requires !e.Restart? && !e.Terminate? && !e.WaitForIdleAfterClose?
    requires (ans.pick.Some? ==> Shows(ans.pick.value, ses.utxos)) && o == Handle(c, a, e, ans)
    requires Booked(c, t, w, ans) == (ses', k')
    ensures Follows(c, t, w, Machine(R.Deliver(ans)), next)
    ensures At(next, !o.ok, o.core, rest + ToSeq(o.now), ses', k')
    ensures next.sys.landing == w.sys.landing
    ensures next.sys.actor.timers == w.sys.actor.timers + Timed(o.later, o.core.generation)
  {
    assert ([e] + rest)[1..] == rest;
    next := After(c, t, w, Machine(R.Deliver(ans)));
  }

  lemma ExtendTo(c: Setup, t: S.Terms, run: Run, step: Step, next: World) returns (longer: Run)
    requires run.Valid(c, t) && Follows(c, t, run.Last(), step, next)
    ensures Continues(c, t, longer, run) && longer.Last() == next
  {
    longer := Extend(c, t, run, step);
  }

  /** An event that asks for no payment leaves the session alone. */
  lemma NothingBooked(c: Setup, t: S.Terms, w: World, ans: Answers)
    requires c.wallet == t.sender && w.sys.actor.mailbox != []
    requires Due(c, w.sys.actor.core, R.NextEvent(w.sys), ans) == None
    ensures Booked(c, t, w, ans) == (w.ses, w.claims)
  {
  }

  // ------------------------------------------------------------------ requests and payments

  lemma CountNow(c: Setup, t: S.Terms, run: Run, a: Core, ses: S.State, k: Claims) returns (longer: Run)
    requires run.Valid(c, t) && At(run.Last(), false, a, [], ses, k)
    requires !a.awaiting && a.accounted + 1 < c.cfg.requestsPerMicrotransaction
    ensures Continues(c, t, longer, run)
    ensures At(longer.Last(), false, a.(accounted := a.accounted + 1), [], ses, k)
  {
    var arrived := Arrive(c, t, run, false, a, [], ses, k);
    assert [] + [AccountOneRequest] == [AccountOneRequest] + [];
    var o := Quiet(a.(accounted := a.accounted + 1));
    NothingBooked(c, t, arrived.Last(), O.Fine(None));
    var next := DeliverStep(c, t, arrived.Last(), AccountOneRequest, [], a, ses, k, O.Fine(None), o, ses, k);
    longer := ExtendTo(c, t, arrived, Machine(R.Deliver(O.Fine(None))), next);
  }

  /** So many requests are counted that one more makes a payment due. */
  lemma {:induction false} CountUp(c: Setup, t: S.Terms, run: Run, a: Core, ses: S.State, k: Claims)
    returns (longer: Run)
    requires run.Valid(c, t) && At(run.Last(), false, a, [], ses, k)
    requires !a.awaiting && a.accounted < c.cfg.requestsPerMicrotransaction
    ensures Continues(c, t, longer, run)
    ensures At(longer.Last(), false, a.(accounted := c.cfg.requestsPerMicrotransaction - 1), [], ses, k)
    decreases c.cfg.requestsPerMicrotransaction - a.accounted
  {
    if a.accounted + 1 == c.cfg.requestsPerMicrotransaction {
      longer := run;
    } else {
      var next := CountNow(c, t, run, a, ses, k);
      longer := CountUp(c, t, next, a.(accounted := a.accounted + 1), ses, k);
    }
  }

  /** The wallet holds enough for a payment of the amount. */
  ghost predicate Affords(t: S.Terms, utxos: Utxos, amount: U64) {
    LegalAmount(amount) && Enough(Balance(utxos, t.sender), amount) && Balance(utxos, t.sender) < U64_SIZE
  }

  /** The payment that the ledger as it is gives rise to, and its inputs as the machine lists them. */
  ghost predicate Choice(t: S.Terms, utxos: Utxos, amount: U64, p: Payment, inputs: seq<Ref>) {
    && Q.Current(t, utxos, amount, p) && Balanced(utxos, p)
    && p.amount == amount && p.sender == t.sender && p.receiver == t.receiver
    && inputs != [] && forall r :: r in inputs <==> r in p.inputs
  }

  lemma Choose(c: Setup, t: S.Terms, run: Run, ses: S.State, amount: U64)
    returns (snapshot: Snapshot, p: Payment, inputs: seq<Ref>)
    requires run.Valid(c, t) && run.Last().ses == ses && Affords(t, ses.utxos, amount)
    ensures Shows(snapshot, ses.utxos) && Select(snapshot, t.sender, amount).Ok?
    ensures inputs == Select(snapshot, t.sender, amount).value.inputs && p == S.Chosen(t, amount, snapshot)
    ensures Choice(t, ses.utxos, amount, p, inputs)
  {
    var session := MachineRunsSession(c, t, run);
    S.RunKeepsInv(t, session);
    S.SomeSnapshot(ses.utxos);
    snapshot :| Shows(snapshot, ses.utxos);
    BalanceSuffices(snapshot, ses.utxos, t.sender, amount);
    S.ChosenIsBalanced(t, ses, amount, snapshot);
    Q.ChosenIsCurrent(t, ses.utxos, amount, snapshot);
    p := S.Chosen(t, amount, snapshot);
    inputs := Select(snapshot, t.sender, amount).value.inputs;
    assert p.inputs == set r | r in inputs;
  }

  function Paying(snapshot: Snapshot, delivery: Delivery): Answers {
    O.Fine(Some(snapshot)).(delivery := delivery)
  }

  lemma PayingSubmits(c: Setup, amount: U64, snapshot: Snapshot, delivery: Delivery)
    requires Select(snapshot, c.wallet, amount).Ok? && !delivery.Lost?
    ensures Submit(c, amount, Paying(snapshot, delivery))
         == if delivery.Delivered? then Sent(Select(snapshot, c.wallet, amount).value.inputs) else Escaped
  {
  }

  lemma DueAmount(c: Setup, a: Core, ans: Answers, amount: U64)
    requires PaymentDue(c, a) && amount == c.Amount(a.accounted + 1)
    ensures Due(c, a, AccountOneRequest, ans) == Some(amount)
  {
  }

  /** The outcome of a payment that goes out; its call may fail. */
  function PayOutcome(c: Setup, counted: Core, amount: U64, inputs: seq<Ref>, delivery: Delivery): Outcome {
    if delivery.Delivered? then Paid(c, counted, amount, inputs) else Failed(counted)
  }

  lemma PayHandled(c: Setup, a: Core, counted: Core, amount: U64, snapshot: Snapshot, delivery: Delivery)
    requires PaymentDue(c, a) && counted == a.(accounted := a.accounted + 1) && amount == c.Amount(counted.accounted)
    requires Select(snapshot, c.wallet, amount).Ok? && !delivery.Lost?
    ensures OnAccount(c, a, Paying(snapshot, delivery))
         == PayOutcome(c, counted, amount, Select(snapshot, c.wallet, amount).value.inputs, delivery)
  {
    B.DuePays(c, a, counted, Paying(snapshot, delivery));
    PayingSubmits(c, amount, snapshot, delivery);
  }

  function PayClaims(k: Claims, requests: nat, amount: U64, delivery: Delivery): Claims {
    var claim := Claim(k.settled, requests, amount, delivery.Delivered?);
    Claims(k.made + [claim], if delivery.Delivered? then claim.Limit() else k.settled)
  }

  lemma RequestBooked(c: Setup, t: S.Terms, w: World, ans: Answers, amount: U64, sending: Sending)
    requires c.wallet == t.sender && w.sys.actor.mailbox != [] && R.NextEvent(w.sys) == AccountOneRequest
    requires Due(c, w.sys.actor.core, AccountOneRequest, ans) == Some(amount) && Submit(c, amount, ans) == sending
    requires !sending.Unsent? && ans.pick.Some? && Select(ans.pick.value, t.sender, amount).Ok?
    ensures Booked(c, t, w, ans)
         == (S.AfterStart(w.ses, S.Chosen(t, amount, ans.pick.value)),
             Claimed(w.claims, w.sys.actor.core.accounted, Some(amount), sending))
  {
  }

  lemma PayBooked(c: Setup, t: S.Terms, w: World, amount: U64, snapshot: Snapshot, delivery: Delivery,
                  ans: Answers, sending: Sending)
    requires c.wallet == t.sender && w.sys.actor.mailbox != [] && R.NextEvent(w.sys) == AccountOneRequest
    requires Select(snapshot, t.sender, amount).Ok? && !delivery.Lost? && ans == Paying(snapshot, delivery)
    requires Due(c, w.sys.actor.core, AccountOneRequest, ans) == Some(amount) && sending == Submit(c, amount, ans)
    ensures Booked(c, t, w, ans)
         == (S.AfterStart(w.ses, S.Chosen(t, amount, snapshot)),
             PayClaims(w.claims, w.sys.actor.core.accounted + 1, amount, delivery))
  {
    PayingSubmits(c, amount, snapshot, delivery);
    RequestBooked(c, t, w, ans, amount, sending);
  }

  lemma PayAnswered(c: Setup, a: Core, counted: Core, amount: U64, snapshot: Snapshot, delivery: Delivery, o: Outcome)
    requires PaymentDue(c, a) && counted == a.(accounted := a.accounted + 1) && amount == c.Amount(counted.accounted)
    requires Select(snapshot, c.wallet, amount).Ok? && !delivery.Lost?
    requires o == PayOutcome(c, counted, amount, Select(snapshot, c.wallet, amount).value.inputs, delivery)
    ensures o == OnAccount(c, a, Paying(snapshot, delivery))
    ensures Due(c, a, AccountOneRequest, Paying(snapshot, delivery)) == Some(amount)
  {
    PayHandled(c, a, counted, amount, snapshot, delivery);
    DueAmount(c, a, Paying(snapshot, delivery), amount);
  }

  /** What handling the request does, and what it books. */
  predicate PayResult(c: Setup, t: S.Terms, w: World, ans: Answers, o: Outcome, ses': S.State, k': Claims)
    requires c.wallet == t.sender && w.sys.actor.mailbox != []
  {
    o == OnAccount(c, w.sys.actor.core, ans) && Booked(c, t, w, ans) == (ses', k')
  }

  lemma PayResults(c: Setup, t: S.Terms, w: World, counted: Core, amount: U64, snapshot: Snapshot, delivery: Delivery,
                   o: Outcome)
    requires c.wallet == t.sender && w.sys.actor.mailbox != [] && R.NextEvent(w.sys) == AccountOneRequest
    requires PaymentDue(c, w.sys.actor.core)
    requires counted == w.sys.actor.core.(accounted := w.sys.actor.core.accounted + 1)
    requires amount == c.Amount(counted.accounted) && Select(snapshot, t.sender, amount).Ok? && !delivery.Lost?
    requires o == PayOutcome(c, counted, amount, Select(snapshot, t.sender, amount).value.inputs, delivery)
    ensures PayResult(c, t, w, Paying(snapshot, delivery), o, S.AfterStart(w.ses, S.Chosen(t, amount, snapshot)),
                      PayClaims(w.claims, counted.accounted, amount, delivery))
  {
    var ans := Paying(snapshot, delivery);
    PayAnswered(c, w.sys.actor.core, counted, amount, snapshot, delivery, o);
    PayBooked(c, t, w, amount, snapshot, delivery, ans, Submit(c, amount, ans));
  }

  lemma PayStep(c: Setup, t: S.Terms, run: Run, rest: seq<Event>, a: Core, ses: S.State, k: Claims,
                snapshot: Snapshot, delivery: Delivery, o: Outcome, ses': S.State, k': Claims) returns (longer: Run)
    requires run.Valid(c, t) && At(run.Last(), false, a, [AccountOneRequest] + rest, ses, k)
    requires Shows(snapshot, ses.utxos) && PayResult(c, t, run.Last(), Paying(snapshot, delivery), o, ses', k')
    ensures Continues(c, t, longer, run) && At(longer.Last(), !o.ok, o.core, rest + ToSeq(o.now), ses', k')
  {
    var ans := Paying(snapshot, delivery);
    var next := DeliverStep(c, t, run.Last(), AccountOneRequest, rest, a, ses, k, ans, o, ses', k');
    longer := ExtendTo(c, t, run, Machine(R.Deliver(ans)), next);
  }

  /** The request pays for the whole backlog; if its call fails, it has paid all the same. */
  lemma PayNow(c: Setup, t: S.Terms, run: Run, rest: seq<Event>, a: Core, ses: S.State, k: Claims,
               counted: Core, amount: U64, delivery: Delivery) returns (longer: Run, p: Payment, inputs: seq<Ref>)
    requires run.Valid(c, t) && At(run.Last(), false, a, [AccountOneRequest] + rest, ses, k) && PaymentDue(c, a)
    requires counted == a.(accounted := a.accounted + 1) && amount == c.Amount(counted.accounted)
    requires Affords(t, ses.utxos, amount) && !delivery.Lost?
    ensures Continues(c, t, longer, run) && Choice(t, ses.utxos, amount, p, inputs)
    ensures var o := PayOutcome(c, counted, amount, inputs, delivery);
      At(longer.Last(), !o.ok, o.core, rest + ToSeq(o.now), S.AfterStart(ses, p),
         PayClaims(k, a.accounted + 1, amount, delivery))
  {
    var snapshot;
    snapshot, p, inputs := Choose(c, t, run, ses, amount);
    var o := PayOutcome(c, counted, amount, inputs, delivery);
    PayResults(c, t, run.Last(), counted, amount, snapshot, delivery, o);
    longer := PayStep(c, t, run, rest, a, ses, k, snapshot, delivery, o, S.AfterStart(ses, p),
                      PayClaims(k, counted.accounted, amount, delivery));
  }

  // ------------------------------------------------------------------ polls

  function Polling(seen: Snapshot): Answers {
    O.Fine(None).(poll := Some(Some(seen)))
  }

  lemma StillThere(spent: seq<Ref>, seen: Snapshot, utxos: Utxos)
    requires Shows(seen, utxos) && spent != [] && spent[0] in utxos
    ensures StillPresent(spent, seen)
  {
    var e := Entry(spent[0], utxos[spent[0]].address, Some(utxos[spent[0]].lovelace));
    assert e in seen;
    assert Contains(seen, spent[0]);
  }

  /** The timer that was started last fires, and its event lands. */
  lemma FireLast(c: Setup, t: S.Terms, run: Run, a: Core, ses: S.State, k: Claims, timers: seq<Timer>, e: Event)
    returns (longer: Run)
    requires run.Valid(c, t) && At(run.Last(), false, a, [], ses, k)
    requires run.Last().sys.actor.timers == timers + [Timer(e, a.generation)]
    ensures Continues(c, t, longer, run) && At(longer.Last(), false, a, [e], ses, k)
  {
    var landing := run.Last().sys.landing;
    var fired := Extend(c, t, run, Machine(R.TimerExpires(|timers|)));
    assert fired.Last().sys.landing == landing + [e];
    longer := Extend(c, t, fired, Machine(R.Lands(|landing|)));
  }

  /** An event that sends nothing and asks for no payment leaves the machine as its outcome says. */
  lemma QuietNow(c: Setup, t: S.Terms, run: Run, e: Event, a: Core, ses: S.State, k: Claims, ans: Answers, o: Outcome)
    returns (longer: Run)
    requires run.Valid(c, t) && At(run.Last(), false, a, [e], ses, k)
    requires !e.Restart? && !e.Terminate? && !e.WaitForIdleAfterClose?
    requires ans.pick == None && o == Handle(c, a, e, ans) && o.ok && o.now == None
    requires Due(c, a, e, ans) == None
    ensures Continues(c, t, longer, run) && At(longer.Last(), false, o.core, [], ses, k)
    ensures longer.Last().sys.actor.timers == run.Last().sys.actor.timers + Timed(o.later, o.core.generation)
  {
    NothingBooked(c, t, run.Last(), ans);
    assert [e] + [] == [e];
    var next := DeliverStep(c, t, run.Last(), e, [], a, ses, k, ans, o, ses, k);
    longer := ExtendTo(c, t, run, Machine(R.Deliver(ans)), next);
  }

  /** The payment is still unconfirmed, and is polled for once more. */
  lemma PollAgain(c: Setup, t: S.Terms, run: Run, a: Core, ses: S.State, k: Claims, e: Event, seen: Snapshot)
    returns (longer: Run)
    requires run.Valid(c, t) && At(run.Last(), false, a, [e], ses, k)
    requires e.WaitForL2Tx? && e.attempts < L2_TX_MAX_POLL_ATTEMPTS && StillPresent(e.spent, seen)
    ensures Continues(c, t, longer, run) && At(longer.Last(), false, a, [e.(attempts := e.attempts + 1)], ses, k)
  {
    var again := e.(attempts := e.attempts + 1);
    var polled := QuietNow(c, t, run, e, a, ses, k, Polling(seen), Later(a, again));
    longer := FireLast(c, t, polled, a, ses, k, run.Last().sys.actor.timers, again);
  }

  /** All attempts are used up while the payment's first input is still there. */
  lemma {:induction false} PollOut(c: Setup, t: S.Terms, run: Run, a: Core, ses: S.State, k: Claims, e: Event)
    returns (longer: Run)
    requires run.Valid(c, t) && At(run.Last(), false, a, [e], ses, k)
    requires e.WaitForL2Tx? && e.attempts <= L2_TX_MAX_POLL_ATTEMPTS
    requires e.spent != [] && e.spent[0] in ses.utxos
    ensures Continues(c, t, longer, run)
    ensures At(longer.Last(), false, a, [e.(attempts := L2_TX_MAX_POLL_ATTEMPTS)], ses, k)
    decreases L2_TX_MAX_POLL_ATTEMPTS - e.attempts
  {
    if e.attempts == L2_TX_MAX_POLL_ATTEMPTS {
      longer := run;
    } else {
      S.SomeSnapshot(ses.utxos);
      var seen: Snapshot :| Shows(seen, ses.utxos);
      StillThere(e.spent, seen, ses.utxos);
      var polled := PollAgain(c, t, run, a, ses, k, e, seen);
      longer := PollOut(c, t, polled, a, ses, k, e.(attempts := e.attempts + 1));
    }
  }

  /** No retry is left: the payment is given up, and the gate opens. */
  lemma GiveUpNow(c: Setup, t: S.Terms, run: Run, a: Core, ses: S.State, k: Claims, e: Event) returns (longer: Run)
    requires run.Valid(c, t) && At(run.Last(), false, a, [e], ses, k)
    requires e.WaitForL2Tx? && e.attempts == L2_TX_MAX_POLL_ATTEMPTS && e.retriesLeft == 0
    requires e.spent != [] && e.spent[0] in ses.utxos
    ensures Continues(c, t, longer, run) && At(longer.Last(), false, a.(awaiting := false), [], ses, k)
  {
    S.SomeSnapshot(ses.utxos);
    var seen: Snapshot :| Shows(seen, ses.utxos);
    StillThere(e.spent, seen, ses.utxos);
    longer := QuietNow(c, t, run, e, a, ses, k, Polling(seen), Quiet(a.(awaiting := false)));
  }

  lemma ContainedIsThere(seen: Snapshot, utxos: Utxos, r: Ref)
    requires Shows(seen, utxos) && Contains(seen, r)
    ensures r in utxos
  {
    var i :| 0 <= i < |seen| && seen[i].ref == r;
    assert seen[i] in seen;
  }

  lemma NoneThere(spent: seq<Ref>, seen: Snapshot, utxos: Utxos)
    requires Shows(seen, utxos) && forall r <- spent :: r !in utxos
    ensures !StillPresent(spent, seen)
  {
    if i :| 0 <= i < |spent| && Contains(seen, spent[i]) {
      ContainedIsThere(seen, utxos, spent[i]);
    }
  }

  /** None of the inputs is there any more: the payment is confirmed. */
  lemma ConfirmNow(c: Setup, t: S.Terms, run: Run, a: Core, ses: S.State, k: Claims, e: Event) returns (longer: Run)
    requires run.Valid(c, t) && At(run.Last(), false, a, [e], ses, k)
    requires e.WaitForL2Tx? && forall r <- e.spent :: r !in ses.utxos
    ensures Continues(c, t, longer, run) && At(longer.Last(), false, a.(awaiting := false), [], ses, k)
  {
    S.SomeSnapshot(ses.utxos);
    var seen: Snapshot :| Shows(seen, ses.utxos);
    NoneThere(e.spent, seen, ses.utxos);
    longer := QuietNow(c, t, run, e, a, ses, k, Polling(seen), Quiet(a.(awaiting := false)));
  }

  // ------------------------------------------------------------------ payments sent again

  /** The poll sees an older snapshot, the resend selects from the one that is there now. */
  function Resending(seen: Snapshot, snapshot: Snapshot): Answers {
    O.Fine(Some(snapshot)).(poll := Some(Some(seen)))
  }

  lemma ResendingSubmits(c: Setup, amount: U64, seen: Snapshot, snapshot: Snapshot)
    requires Select(snapshot, c.wallet, amount).Ok?
    ensures Submit(c, amount, Resending(seen, snapshot)) == Sent(Select(snapshot, c.wallet, amount).value.inputs)
  {
  }

  lemma ResendHandled(c: Setup, a: Core, e: Event, ans: Answers, inputs: seq<Ref>)
    requires ResendDue(e, ans) && Submit(c, e.amount, ans) == Sent(inputs)
    ensures Handle(c, a, e, ans) == Outcome(a, Some(WaitForL2Tx(inputs, 0, e.amount, e.retriesLeft - 1)), None, true)
  {
  }

  lemma ResendBooked(c: Setup, t: S.Terms, w: World, ans: Answers, amount: U64, sending: Sending)
    requires c.wallet == t.sender && w.sys.actor.mailbox != [] && R.NextEvent(w.sys).WaitForL2Tx?
    requires Due(c, w.sys.actor.core, R.NextEvent(w.sys), ans) == Some(amount) && Submit(c, amount, ans) == sending
    requires !sending.Unsent? && ans.pick.Some? && Select(ans.pick.value, t.sender, amount).Ok? && w.ses.prices != []
    ensures Booked(c, t, w, ans)
         == (S.AfterResend(w.ses, |w.ses.prices| - 1, S.Chosen(t, amount, ans.pick.value)), w.claims)
  {
  }

  /** What handling the poll does, and what it books. */
  predicate ResendResult(c: Setup, t: S.Terms, w: World, e: Event, ans: Answers, o: Outcome, ses': S.State)
    requires c.wallet == t.sender && w.sys.actor.mailbox != []
  {
    o == Handle(c, w.sys.actor.core, e, ans) && Booked(c, t, w, ans) == (ses', w.claims)
  }

  lemma ResendResults(c: Setup, t: S.Terms, w: World, e: Event, seen: Snapshot, snapshot: Snapshot, inputs: seq<Ref>,
                      o: Outcome)
    requires c.wallet == t.sender && w.sys.actor.mailbox != [] && R.NextEvent(w.sys) == e && w.ses.prices != []
    requires ResendDue(e, Resending(seen, snapshot)) && Select(snapshot, t.sender, e.amount).Ok?
    requires inputs == Select(snapshot, t.sender, e.amount).value.inputs
    requires o == Outcome(w.sys.actor.core, Some(WaitForL2Tx(inputs, 0, e.amount, e.retriesLeft - 1)), None, true)
    ensures ResendResult(c, t, w, e, Resending(seen, snapshot), o,
                         S.AfterResend(w.ses, |w.ses.prices| - 1, S.Chosen(t, e.amount, snapshot)))
  {
    ResendingSubmits(c, e.amount, seen, snapshot);
    ResendHandled(c, w.sys.actor.core, e, Resending(seen, snapshot), inputs);
    ResendBooked(c, t, w, Resending(seen, snapshot), e.amount, Sent(inputs));
  }

  lemma ResendStep(c: Setup, t: S.Terms, run: Run, a: Core, ses: S.State, k: Claims, e: Event, ans: Answers,
                   o: Outcome, ses': S.State) returns (longer: Run)
    requires run.Valid(c, t) && At(run.Last(), false, a, [e], ses, k) && e.WaitForL2Tx? && o.ok
    requires (ans.pick.Some? ==> Shows(ans.pick.value, ses.utxos)) && ResendResult(c, t, run.Last(), e, ans, o, ses')
    ensures Continues(c, t, longer, run) && At(longer.Last(), false, o.core, ToSeq(o.now), ses', k)
  {
    assert [e] + [] == [e] && [] + ToSeq(o.now) == ToSeq(o.now);
    var next := DeliverStep(c, t, run.Last(), e, [], a, ses, k, ans, o, ses', k);
    longer := ExtendTo(c, t, run, Machine(R.Deliver(ans)), next);
  }

  /** The last payment is sent again, seen unconfirmed in a ledger that may be an older one. */
  lemma ResendNow(c: Setup, t: S.Terms, run: Run, a: Core, ses: S.State, k: Claims, e: Event, older: Utxos)
    returns (longer: Run, p: Payment, inputs: seq<Ref>)
    requires run.Valid(c, t) && At(run.Last(), false, a, [e], ses, k)
    requires e.WaitForL2Tx? && e.attempts == L2_TX_MAX_POLL_ATTEMPTS && e.retriesLeft > 0
    requires e.spent != [] && e.spent[0] in older && Affords(t, ses.utxos, e.amount) && ses.prices != []
    ensures Continues(c, t, longer, run) && Choice(t, ses.utxos, e.amount, p, inputs)
    ensures At(longer.Last(), false, a, [WaitForL2Tx(inputs, 0, e.amount, e.retriesLeft - 1)],
               S.AfterResend(ses, |ses.prices| - 1, p), k)
  {
    S.SomeSnapshot(older);
    var seen: Snapshot :| Shows(seen, older);
    StillThere(e.spent, seen, older);
    var snapshot;
    snapshot, p, inputs := Choose(c, t, run, ses, e.amount);
    var o := Outcome(a, Some(WaitForL2Tx(inputs, 0, e.amount, e.retriesLeft - 1)), None, true);
    ResendResults(c, t, run.Last(), e, seen, snapshot, inputs, o);
    longer := ResendStep(c, t, run, a, ses, k, e, Resending(seen, snapshot), o,
                         S.AfterResend(ses, |ses.prices| - 1, p));
  }

  // ------------------------------------------------------------------ payments that are given up

  function Copies(x: S.Submission, n: nat): seq<S.Submission> {
    if n == 0 then [] else [x] + Copies(x, n - 1)
  }

  /** All submissions of the last payment are this one, and none has been applied. */
  predicate OnlyPayment(ses: S.State, p: Payment) {
    && ses.prices != [] && |ses.prices| - 1 !in ses.applied
    && forall x <- ses.pool :: x.micro == |ses.prices| - 1 ==> x.payment == p
  }

  lemma SameResend(ses: S.State, p: Payment)
    requires OnlyPayment(ses, p) && p.inputs != {}
    ensures var last := |ses.prices| - 1;
      S.AfterResend(ses, last, p) == ses.(pool := ses.pool + [S.Submission(last, p)])
    ensures OnlyPayment(S.AfterResend(ses, |ses.prices| - 1, p), p)
  {
  }

  lemma SameChoice(t: S.Terms, utxos: Utxos, amount: U64, p: Payment, spent: seq<Ref>, q: Payment, inputs: seq<Ref>)
    requires Choice(t, utxos, amount, p, spent) && Choice(t, utxos, amount, q, inputs)
    ensures p == q && p.inputs != {} && spent[0] in utxos
  {
    Q.CurrentIsUnique(t, utxos, amount, p, q);
    assert spent[0] in p.inputs;
  }

  /** Nothing is applied: the payment is polled for, sent again as often as there are retries, and given up. */
  lemma {:induction false} GiveUp(c: Setup, t: S.Terms, run: Run, a: Core, ses: S.State, k: Claims, e: Event,
                                  p: Payment)
    returns (longer: Run)
    requires run.Valid(c, t) && At(run.Last(), false, a, [e], ses, k) && e.WaitForL2Tx? && e.attempts == 0
    requires Choice(t, ses.utxos, e.amount, p, e.spent) && OnlyPayment(ses, p) && Affords(t, ses.utxos, e.amount)
    ensures Continues(c, t, longer, run)
    ensures At(longer.Last(), false, a.(awaiting := false), [],
               ses.(pool := ses.pool + Copies(S.Submission(|ses.prices| - 1, p), e.retriesLeft)), k)
    decreases e.retriesLeft
  {
    SameChoice(t, ses.utxos, e.amount, p, e.spent, p, e.spent);
    var polled := PollOut(c, t, run, a, ses, k, e);
    var last := e.(attempts := L2_TX_MAX_POLL_ATTEMPTS);
    if e.retriesLeft == 0 {
      longer := GiveUpNow(c, t, polled, a, ses, k, last);
      assert ses.pool + [] == ses.pool;
    } else {
      var resent, q, inputs := ResendNow(c, t, polled, a, ses, k, last, ses.utxos);
      SameChoice(t, ses.utxos, e.amount, p, e.spent, q, inputs);
      SameResend(ses, p);
      var again := WaitForL2Tx(inputs, 0, e.amount, e.retriesLeft - 1);
      longer := GiveUp(c, t, resent, a, S.AfterResend(ses, |ses.prices| - 1, p), k, again, p);
      var x := S.Submission(|ses.prices| - 1, p);
      assert ses.pool + [x] + Copies(x, e.retriesLeft - 1) == ses.pool + Copies(x, e.retriesLeft);
    }
  }
}
