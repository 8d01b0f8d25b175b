/**
 Runs of the machine on the ledger in which something goes wrong: a payment or a request that is paid for
 twice, and a payment that is never made. Each machine has come from its start to where the run begins.
 */
module SessionCases {
  import opened Prelude
  import opened CoinSelection
  import opened Ledger
  import opened Funding
  import opened HydraServer
  import opened HydraPolls
  import opened SessionEngine
  import opened SessionSteps
  import opened EqualPrices
  import R = HydraRuntime
  import S = Session
  import V = Solvency
  import Y = SessionPayments
  import D = RepeatedPayments

  /** The run begins with a machine that `history` leads to from its start. */
  ghost predicate Starts(c: Setup, t: S.Terms, history: R.Run, run: Run) {
    && history.Valid(c) && history.First() == R.Start() && run.Valid(c, t) && run.worlds[0].sys == history.Last()
  }

  /** It begins on the ledger as the head was opened with. */
  ghost predicate Witness(c: Setup, t: S.Terms, start: S.State, history: R.Run, run: Run) {
    Starts(c, t, history, run) && run.before == [start]
  }

  /** The sender's balance is what is left of the funds. */
  lemma BalanceNow(c: Setup, t: S.Terms, run: Run)
    requires run.Valid(c, t)
    ensures var s := run.Last().ses;
      && s.utxos.Keys <= s.used && S.Within(s.applied, |s.prices|)
      && Balance(s.utxos, t.sender) + S.Spent(s.prices, s.applied) == Balance(run.before[0].utxos, t.sender)
  {
    var session := MachineRunsSession(c, t, run);
    S.RunKeepsInv(t, session);
  }

  lemma SpentOne(prices: seq<U64>, micro: nat)
    requires micro < |prices|
    ensures S.Spent(prices, [micro]) == prices[micro]
  {
    assert [micro][..0] == [];
  }

  /** The machine after so many payments, the last of them just made. */
  predicate HasSent(c: Setup, a: Core, sent: nat) {
    && a.headOpen && a.awaiting && a.accounted == 0 && a.sent == sent
    && (a.isClosing <==> sent >= c.cfg.microtransactionsPerFanout)
  }

  /** The first payment, for a backlog of any size. */
  lemma FirstPayment(c: Setup, t: S.Terms, start: S.State, n: nat, amount: U64)
    returns (history: R.Run, run: Run, p: Payment, inputs: seq<Ref>, a: Core, k: Claims)
    requires SamePayer(c, t) && S.InitialState(start) && n + 1 >= c.cfg.requestsPerMicrotransaction
    requires amount == c.Amount(n + 1) && Affords(t, start.utxos, amount)
    ensures Witness(c, t, start, history, run) && Choice(t, start.utxos, amount, p, inputs)
    ensures At(run.Last(), false, a, [WaitForL2Tx(inputs, 0, amount, L2_TX_MAX_RETRIES)], S.AfterStart(start, p), k)
    ensures HasSent(c, a, 1)
  {
    history, run, a := Begin(c, t, [start], n);
    run := Arrive(c, t, run, false, a, [], start, Claims([], 0));
    var counted := a.(accounted := n + 1);
    assert [] + [AccountOneRequest] == [AccountOneRequest] + [];
    run, p, inputs := PayNow(c, t, run, [], a, start, Claims([], 0), counted, amount, Delivered);
    a := Paid(c, counted, amount, inputs).core;
    k := PayClaims(Claims([], 0), n + 1, amount, Delivered);
  }

  /** Another payment, with the request that completes its batch. */
  lemma NextPayment(c: Setup, t: S.Terms, run: Run, a: Core, ses: S.State, k: Claims, amount: U64)
    returns (longer: Run, p: Payment, inputs: seq<Ref>, b: Core, k': Claims)
    requires run.Valid(c, t) && At(run.Last(), false, a, [], ses, k)
    requires a.headOpen && !a.isClosing && !a.awaiting && a.accounted < c.cfg.requestsPerMicrotransaction
    requires amount == c.Amount(c.cfg.requestsPerMicrotransaction) && Affords(t, ses.utxos, amount)
    ensures Continues(c, t, longer, run) && Choice(t, ses.utxos, amount, p, inputs)
    ensures At(longer.Last(), false, b, [WaitForL2Tx(inputs, 0, amount, L2_TX_MAX_RETRIES)], S.AfterStart(ses, p), k')
    ensures HasSent(c, b, a.sent + 1)
  {
    var batch := c.cfg.requestsPerMicrotransaction;
    var nearly := a.(accounted := batch - 1);
    longer := CountUp(c, t, run, a, ses, k);
    longer := Arrive(c, t, longer, false, nearly, [], ses, k);
    var counted := nearly.(accounted := batch);
    assert [] + [AccountOneRequest] == [AccountOneRequest] + [];
    longer, p, inputs := PayNow(c, t, longer, [], nearly, ses, k, counted, amount, Delivered);
    b := Paid(c, counted, amount, inputs).core;
    k' := PayClaims(k, batch, amount, Delivered);
  }

  // ------------------------------------------------------------------ a payment made twice

  /**
   The poll and the resend read two snapshots. If the payment is applied in between, the resend
   is applied as well: from any split of funds for two payments, the first one is made twice.
   */
  lemma LateResendPaysAgain(c: Setup, t: S.Terms, start: S.State, n: nat, amount: U64)
    returns (history: R.Run, run: Run)
    requires SamePayer(c, t) && S.InitialState(start) && n + 1 >= c.cfg.requestsPerMicrotransaction
    requires amount == c.Amount(n + 1) && LegalAmount(amount)
    requires 2 * amount + MIN_LOVELACE <= Balance(start.utxos, t.sender) < U64_SIZE
    ensures Witness(c, t, start, history, run)
    ensures var s := run.Last().ses;
      s.prices == [amount] && V.Occurrences(s.applied, 0) == 2 && s.late == {0}
  {
    var p, inputs, a, k;
    history, run, p, inputs, a, k := FirstPayment(c, t, start, n, amount);
    var e := WaitForL2Tx(inputs, 0, amount, L2_TX_MAX_RETRIES);
    var ses := S.AfterStart(start, p);
    SameChoice(t, start.utxos, amount, p, inputs, p, inputs);
    run := PollOut(c, t, run, a, ses, k, e);
    e := e.(attempts := L2_TX_MAX_POLL_ATTEMPTS);
    var pay, back;
    run, pay, back := LandNow(c, t, run, false, a, [e], ses, k, 0);
    ses := S.AfterLand(ses, 0, pay, back);
    BalanceNow(c, t, run);
    SpentOne([amount], 0);
    var q;
    run, q, inputs := ResendNow(c, t, run, a, ses, k, e, start.utxos);
    e := WaitForL2Tx(inputs, 0, amount, L2_TX_MAX_RETRIES - 1);
    run, pay, back := LandNow(c, t, run, false, a, [e], S.AfterResend(ses, 0, q), k, 1);
    assert run.Last().ses.applied == [0, 0];
  }

  // ------------------------------------------------------------------ a payment never made

  /** Nothing that was sent can be applied. */
  predicate NothingApplies(s: S.State) {
    forall i :: 0 <= i < |s.pool| ==> !Applicable(s.utxos, s.pool[i].payment)
  }

  lemma ThreeCopies(x: S.Submission)
    ensures Copies(x, 3) == [x, x, x]
  {
    assert Copies(x, 1) == [x];
    assert Copies(x, 2) == [x, x];
  }

  /** All submissions are one payment, and it lands: its inputs are gone. */
  lemma LandingEndsCopies(s: S.State, i: nat, pay: Ref, back: Ref, p: Payment)
    requires i < |s.pool| && forall j :: 0 <= j < |s.pool| ==> s.pool[j].payment == p
    requires p.inputs != {} && p.inputs <= s.used && pay !in s.used && back !in s.used
    ensures NothingApplies(S.AfterLand(s, i, pay, back))
    ensures forall r <- p.inputs :: r !in S.AfterLand(s, i, pay, back).utxos
  {
    var r :| r in p.inputs;
  }

  /** A payment is made and given up. */
  lemma FirstGivenUp(c: Setup, t: S.Terms, start: S.State, n: nat, amount: U64)
    returns (history: R.Run, run: Run, p: Payment, inputs: seq<Ref>, a: Core, k: Claims)
    requires SamePayer(c, t) && S.InitialState(start) && n + 1 >= c.cfg.requestsPerMicrotransaction
    requires amount == c.Amount(n + 1) && Affords(t, start.utxos, amount) && c.cfg.microtransactionsPerFanout >= 2
    ensures Witness(c, t, start, history, run) && Choice(t, start.utxos, amount, p, inputs) && p.inputs != {}
    ensures var x := S.Submission(0, p);
      At(run.Last(), false, a, [], start.(prices := [amount], pool := [x, x, x, x]), k)
    ensures a.headOpen && !a.awaiting && !a.isClosing && a.accounted == 0 && a.sent == 1
  {
    history, run, p, inputs, a, k := FirstPayment(c, t, start, n, amount);
    var ses := S.AfterStart(start, p);
    SameChoice(t, start.utxos, amount, p, inputs, p, inputs);
    run := GiveUp(c, t, run, a, ses, k, WaitForL2Tx(inputs, 0, amount, L2_TX_MAX_RETRIES), p);
    a := a.(awaiting := false);
    var x := S.Submission(0, p);
    ThreeCopies(x);
    assert [x] + [x, x, x] == [x, x, x, x];
  }

  /** Two payments from the same coins: the first one has been given up, the second one has been applied. */
  predicate FirstIsLost(c: Setup, w: World, amount: U64) {
    && w.ses.prices == [amount, amount] && w.ses.applied == [1] && w.ses.late == {} && NothingApplies(w.ses)
    && w.sys.actor.core.sent == 2 && !w.sys.actor.core.awaiting
    && (w.sys.actor.core.isClosing <==> c.cfg.microtransactionsPerFanout == 2)
  }

  /**
   A payment is given up, the next one is chosen from the same coins, and is applied. From any
   split of funds for two payments: nothing that was sent can apply any more.
   */
  lemma GivenUpPaymentIsLost(c: Setup, t: S.Terms, start: S.State, amount: U64)
    returns (history: R.Run, run: Run)
    requires SamePayer(c, t) && S.InitialState(start) && c.cfg.requestsPerMicrotransaction >= 1
    requires amount == c.Amount(c.cfg.requestsPerMicrotransaction) && LegalAmount(amount)
    requires c.cfg.microtransactionsPerFanout >= 2
    requires 2 * amount + MIN_LOVELACE <= Balance(start.utxos, t.sender) < U64_SIZE
    ensures Witness(c, t, start, history, run) && FirstIsLost(c, run.Last(), amount)
  {
    var p, inputs, a, k;
    history, run, p, inputs, a, k := FirstGivenUp(c, t, start, c.cfg.requestsPerMicrotransaction - 1, amount);
    var x := S.Submission(0, p);
    var ses := start.(prices := [amount], pool := [x, x, x, x]);
    var q, again;
    run, q, again, a, k := NextPayment(c, t, run, a, ses, k, amount);
    SameChoice(t, ses.utxos, amount, p, inputs, q, again);
    var started := S.AfterStart(ses, q);
    BalanceNow(c, t, run);
    var pay, back;
    var e := WaitForL2Tx(again, 0, amount, L2_TX_MAX_RETRIES);
    run, pay, back := LandNow(c, t, run, false, a, [e], started, k, 4);
    LandingEndsCopies(started, 4, pay, back, p);
    run := ConfirmNow(c, t, run, a, S.AfterLand(started, 4, pay, back), k, e);
  }

  /** The head is closing, no poll is pending, and nothing that was sent can be applied. */
  predicate Dead(w: World) {
    w.sys.actor.core.isClosing && PendingPolls(w.sys) == {} && NothingApplies(w.ses)
  }

  lemma ClosingStays(c: Setup, a: Core, event: Event, ans: Answers)
    requires a.isClosing && !event.Restart? && !(event.WaitForIdleAfterClose? && ans.tag == Some(Idle))
    requires !event.WaitForL2Tx?
    ensures Handle(c, a, event, ans).core.isClosing && Handle(c, a, event, ans).core.sent == a.sent
  {
  }

  lemma ClosingSendsNothing(c: Setup, a: Core, event: Event, ans: Answers)
    requires a.isClosing && !event.WaitForL2Tx?
    ensures Due(c, a, event, ans) == None
  {
  }

  lemma ClosingRequestStartsNothing(c: Setup, a: Core, ans: Answers)
    requires a.isClosing
    ensures var o := OnAccount(c, a, ans); PollsOf(ToSeq(o.now) + ToSeq(o.later)) == {}
  {
  }

  lemma DeadDeliveryStays(c: Setup, t: S.Terms, w: World, ans: Answers)
    requires SamePayer(c, t) && Dead(w) && Enabled(c, t, w, Machine(R.Deliver(ans)))
    requires !R.Resets(w.sys, R.Deliver(ans))
    ensures var next := After(c, t, w, Machine(R.Deliver(ans)));
      Dead(next) && next.ses == w.ses && next.sys.actor.core.sent == w.sys.actor.core.sent
  {
    var a, event := w.sys.actor.core, R.NextEvent(w.sys);
    assert event.WaitForL2Tx? ==> event in PendingPolls(w.sys);
    ClosingStays(c, a, event, ans);
    ClosingSendsNothing(c, a, event, ans);
    NothingBooked(c, t, w, ans);
    TakingKeepsPolls(w.sys);
    DeliveryLeavesPolls(c, w.sys, ans);
    if event == AccountOneRequest {
      ClosingRequestStartsNothing(c, a, ans);
    } else {
      OthersTally(c, a, event, ans);
    }
  }

  lemma DeadStays(c: Setup, t: S.Terms, w: World, step: Step)
    requires SamePayer(c, t) && Dead(w) && Enabled(c, t, w, step) && ResetFree(w, step)
    ensures var next := After(c, t, w, step);
      Dead(next) && next.ses == w.ses && next.sys.actor.core.sent == w.sys.actor.core.sent
  {
    match step
    case Machine(m) =>
      if m.Deliver? {
        DeadDeliveryStays(c, t, w, m.ans);
      } else {
        SurroundingsLeavePolls(c, w.sys, m);
      }
    case Ledger(i, pay, back) =>
  }

  /** Nothing happens to the session any more, however the run goes on. */
  lemma {:induction false} DeadForever(c: Setup, t: S.Terms, run: Run, i: nat)
    requires run.Valid(c, t) && i < |run.worlds| && Dead(run.worlds[i])
    ensures Dead(run.Last()) && run.Last().ses == run.worlds[i].ses
    ensures run.Last().sys.actor.core.sent == run.worlds[i].sys.actor.core.sent
    decreases |run.steps|
  {
    if i < |run.steps| {
      InitValid(c, t, run);
      DeadForever(c, t, run.Init(), i);
      DeadStays(c, t, run.Init().Last(), run.steps[|run.steps| - 1]);
    }
  }

  /** A session about to start on a ledger of which nothing has been spent. */
  function Opening(utxos: Utxos): S.State {
    S.State(utxos, utxos.Keys, {}, [], [], [], {})
  }

  /** However the run goes on without a reset, the close test fails whenever it is made. */
  ghost predicate NeverCloses(c: Setup, t: S.Terms, run: Run)
    requires run.worlds != []
  {
    forall longer: Run, ans: Answers ::
      && longer.Valid(c, t) && longer.before == run.before && |run.worlds| <= |longer.worlds|
      && longer.worlds[|run.worlds| - 1] == run.Last() && Surveys(ans, longer.Last().ses.utxos)
      ==> Handle(c, longer.Last().sys.actor.core, WaitForUtxoCount, ans)
          == Later(longer.Last().sys.actor.core, WaitForUtxoCount)
  }

  ghost predicate Surveys(ans: Answers, utxos: Utxos) {
    ans.survey.Some? && Shows(ans.survey.value, utxos)
  }

  lemma OpenGateHasNoPolls(c: Setup, t: S.Terms, run: Run)
    requires run.Valid(c, t) && !run.Last().sys.actor.core.awaiting
    ensures PendingPolls(run.Last().sys) == {}
  {
    var session := MachineRunsSession(c, t, run);
    NoneArePending(run.Last().sys);
  }

  lemma DeadHeadNeverCloses(c: Setup, t: S.Terms, run: Run)
    requires run.Valid(c, t) && Dead(run.Last()) && Balance(run.Last().ses.utxos, t.sender) > 0
    requires |Owned(run.before[0].utxos, t.sender)| == 1 && S.Others(t, run.before[0]) == {}
    requires |run.Last().ses.applied| < run.Last().sys.actor.core.sent
    ensures NeverCloses(c, t, run)
  {
    forall longer: Run, ans: Answers |
      && longer.Valid(c, t) && longer.before == run.before && |run.worlds| <= |longer.worlds|
      && longer.worlds[|run.worlds| - 1] == run.Last() && Surveys(ans, longer.Last().ses.utxos)
      ensures Handle(c, longer.Last().sys.actor.core, WaitForUtxoCount, ans)
           == Later(longer.Last().sys.actor.core, WaitForUtxoCount)
    {
      DeadForever(c, t, longer, |run.worlds| - 1);
      Y.OneCoinCountTestPassesIff(c, t, longer, ans);
    }
  }

  /** From a single coin, the close test then fails for good, with funds left. */
  lemma GivenUpPaymentBlocksClose(c: Setup, t: S.Terms, funds: U64, amount: U64)
    returns (history: R.Run, run: Run)
    requires SamePayer(c, t) && c.cfg.requestsPerMicrotransaction >= 1
    requires amount == c.Amount(c.cfg.requestsPerMicrotransaction) && LegalAmount(amount)
    requires c.cfg.microtransactionsPerFanout == 2 && 2 * amount + MIN_LOVELACE <= funds
    ensures Witness(c, t, Opening(SingleCoin(0, t.sender, funds)), history, run)
    ensures FirstIsLost(c, run.Last(), amount) && Balance(run.Last().ses.utxos, t.sender) == funds - amount
    ensures NeverCloses(c, t, run)
  {
    var start := Opening(SingleCoin(0, t.sender, funds));
    SingleCoinBalance(0, t.sender, funds);
    history, run := GivenUpPaymentIsLost(c, t, start, amount);
    BalanceNow(c, t, run);
    SpentOne([amount, amount], 1);
    OpenGateHasNoPolls(c, t, run);
    DeadHeadNeverCloses(c, t, run);
  }

  // ------------------------------------------------------------------ a head closed early

  /**
   A machine that starts on a head that is still open counts none of the payments made before, but finds
   their coins: from one coin, once a payment has been applied, the close test passes although the next
   one has not been.
   */
  lemma EarlierPaymentsCount(c: Setup, t: S.Terms, before: seq<S.State>, n: nat, amount: U64)
    returns (history: R.Run, run: Run)
    requires SamePayer(c, t) && S.Run(t, before) && n + 1 >= c.cfg.requestsPerMicrotransaction
    requires |Owned(before[0].utxos, t.sender)| == 1 && S.Others(t, before[0]) == {}
    requires before[|before| - 1].applied != []
    requires amount == c.Amount(n + 1) && Affords(t, before[|before| - 1].utxos, amount)
    ensures Starts(c, t, history, run) && run.before == before
    ensures run.Last().sys.actor.core.sent == 1
    ensures var s := run.Last().ses;
      s.prices == before[|before| - 1].prices + [amount] && |s.prices| - 1 !in s.applied
    ensures forall ans: Answers :: Surveys(ans, run.Last().ses.utxos) ==>
      Handle(c, run.Last().sys.actor.core, WaitForUtxoCount, ans) == Later(run.Last().sys.actor.core, TryToClose)
  {
    var a, p, inputs;
    var start, k := before[|before| - 1], Claims([], 0);
    history, run, a := Begin(c, t, before, n);
    BalanceNow(c, t, run);
    run := Arrive(c, t, run, false, a, [], start, k);
    var counted := a.(accounted := n + 1);
    assert [] + [AccountOneRequest] == [AccountOneRequest] + [];
    run, p, inputs := PayNow(c, t, run, [], a, start, k, counted, amount, Delivered);
    forall ans: Answers | Surveys(ans, run.Last().ses.utxos)
      ensures Handle(c, run.Last().sys.actor.core, WaitForUtxoCount, ans)
           == Later(run.Last().sys.actor.core, TryToClose)
    {
      Y.OneCoinCountTestPassesIff(c, t, run, ans);
    }
  }

  // ------------------------------------------------------------------ unequal payments

  lemma TwoCoins(utxos: Utxos, owner: Address, a: Ref, b: Ref)
    requires Owned(utxos, owner) == {a, b} && a != b
    ensures a in utxos && b in utxos && Balance(utxos, owner) == utxos[a].lovelace + utxos[b].lovelace
  {
    assert a in Owned(utxos, owner) && b in Owned(utxos, owner);
    SumWithout(utxos, {a, b}, a);
    assert {a, b} - {a} == {b};
    SumWithout(utxos, {b}, b);
    assert {b} - {b} == {};
  }

  lemma CurrentIsSelected(t: S.Terms, utxos: Utxos, amount: U64, r: Ref, p: Payment, snapshot: Snapshot, sel: Selection)
    requires Current(t, utxos, amount, p) && Shows(snapshot, utxos)
    requires Select(snapshot, t.sender, amount) == Ok(sel) && sel.inputs == [r]
    ensures p == Payment({r}, t.sender, t.receiver, amount, sel.change)
  {
    assert (set x | x in [r]) == {r};
  }

  lemma CurrentLarge(t: S.Terms, utxos: Utxos, amount: U64, r: Ref, p: Payment)
    requires Current(t, utxos, amount, p) && LegalAmount(amount) && SmallestLarge(utxos, t.sender, amount, r)
    ensures p == Payment({r}, t.sender, t.receiver, amount, utxos[r].lovelace - amount)
  {
    S.SomeSnapshot(utxos);
    var snapshot: Snapshot :| Shows(snapshot, utxos);
    var sel := LargeCoinIsChosen(snapshot, utxos, t.sender, amount, r);
    CurrentIsSelected(t, utxos, amount, r, p, snapshot, sel);
  }

  lemma CurrentExact(t: S.Terms, utxos: Utxos, amount: U64, r: Ref, p: Payment)
    requires Current(t, utxos, amount, p) && LegalAmount(amount)
    requires r in Owned(utxos, t.sender) && utxos[r].lovelace == amount
    requires forall q <- Owned(utxos, t.sender) :: utxos[q].lovelace == amount ==> q == r
    ensures p == Payment({r}, t.sender, t.receiver, amount, 0)
  {
    S.SomeSnapshot(utxos);
    var snapshot: Snapshot :| Shows(snapshot, utxos);
    ExactCoinIsChosen(snapshot, utxos, t.sender, amount, r);
    CurrentIsSelected(t, utxos, amount, r, p, snapshot, Selection([r], amount, 0));
  }

  function UnequalCoins(owner: Address): Utxos {
    map[0 := Coin(owner, 5_000_000), 1 := Coin(owner, 3_000_000)]
  }

  lemma UnequalFunds(t: S.Terms)
    ensures Owned(UnequalCoins(t.sender), t.sender) == {0, 1}
    ensures Balance(UnequalCoins(t.sender), t.sender) == 8_000_000
  {
    assert Owned(UnequalCoins(t.sender), t.sender) == {0, 1};
    TwoCoins(UnequalCoins(t.sender), t.sender, 0, 1);
  }

  /** One request at a million lovelace is a payment, and a session has at least two. */
  predicate Million(c: Setup) {
    && c.cfg.lovelacePerRequest == 1_000_000 && c.cfg.requestsPerMicrotransaction == 1
    && c.cfg.microtransactionsPerFanout >= 2
  }

  /** A backlog of four is paid from the coin of five million, and given up; the next request from the other coin. */
  lemma UnequalPayments(c: Setup, t: S.Terms)
    returns (history: R.Run, run: Run, p: Payment, q: Payment, inputs: seq<Ref>, a: Core, k: Claims)
    requires SamePayer(c, t) && Million(c)
    ensures Witness(c, t, Opening(UnequalCoins(t.sender)), history, run)
    ensures p == Payment({0}, t.sender, t.receiver, 4_000_000, 1_000_000)
    ensures q == Payment({1}, t.sender, t.receiver, 1_000_000, 2_000_000) && inputs != [] && inputs[0] == 1
    ensures var x, start := S.Submission(0, p), Opening(UnequalCoins(t.sender));
      At(run.Last(), false, a, [WaitForL2Tx(inputs, 0, 1_000_000, L2_TX_MAX_RETRIES)],
         start.(prices := [4_000_000, 1_000_000], pool := [x, x, x, x, S.Submission(1, q)]), k)
  {
    var start := Opening(UnequalCoins(t.sender));
    UnequalFunds(t);
    history, run, p, inputs, a, k := FirstGivenUp(c, t, start, 3, 4_000_000);
    CurrentLarge(t, start.utxos, 4_000_000, 0, p);
    var x := S.Submission(0, p);
    var ses := start.(prices := [4_000_000], pool := [x, x, x, x]);
    run, q, inputs, a, k := NextPayment(c, t, run, a, ses, k, 1_000_000);
    CurrentLarge(t, start.utxos, 1_000_000, 1, q);
    assert inputs[0] in q.inputs;
  }

  /** The first payment is applied after all. */
  lemma UnequalLanding(c: Setup, t: S.Terms)
    returns (history: R.Run, run: Run, ses: S.State, inputs: seq<Ref>, a: Core, k: Claims, back: Ref)
    requires SamePayer(c, t) && Million(c)
    ensures Witness(c, t, Opening(UnequalCoins(t.sender)), history, run)
    ensures inputs != [] && inputs[0] == 1 && 1 in ses.utxos && back > 1 && ses.utxos.Keys <= ses.used
    ensures At(run.Last(), false, a, [WaitForL2Tx(inputs, 0, 1_000_000, L2_TX_MAX_RETRIES)], ses, k)
    ensures ses.prices == [4_000_000, 1_000_000] && ses.applied == [0] && ses.late == {} && |ses.pool| == 5
    ensures ses.pool[4] == S.Submission(1, Payment({1}, t.sender, t.receiver, 1_000_000, 2_000_000))
    ensures Owned(ses.utxos, t.sender) == {1, back}
    ensures ses.utxos[1].lovelace == 3_000_000 && ses.utxos[back].lovelace == 1_000_000
  {
    var p, q, pay;
    history, run, p, q, inputs, a, k := UnequalPayments(c, t);
    ses := run.Last().ses;
    var e := WaitForL2Tx(inputs, 0, 1_000_000, L2_TX_MAX_RETRIES);
    UnequalFunds(t);
    run, pay, back := LandNow(c, t, run, false, a, [e], ses, k, 0);
    V.OwnedAfter(ses.utxos, p, pay, back);
    assert {0, 1} - {0} + {back} == {1, back};
    ses := S.AfterLand(ses, 0, pay, back);
  }

  lemma UnequalStray(t: S.Terms, ses: S.State, back: Ref, r: Payment)
    requires |ses.pool| == 5 && back != 1 && 1 in ses.utxos
    requires ses.pool[4] == S.Submission(1, Payment({1}, t.sender, t.receiver, 1_000_000, 2_000_000))
    requires Owned(ses.utxos, t.sender) == {1, back} && Current(t, ses.utxos, 1_000_000, r)
    requires ses.utxos[1].lovelace == 3_000_000 && back in ses.utxos && ses.utxos[back].lovelace == 1_000_000
    ensures r.inputs == {back} && S.Late(ses, 1, r)
  {
    CurrentExact(t, ses.utxos, 1_000_000, back, r);
    assert ses.pool[4].micro == 1;
    assert S.Strays(ses, 1, r);
  }

  /**
   With unequal payments a resend can go astray although nothing of its microtransaction has been applied:
   an earlier payment, given up and applied late, leaves a change of just the amount, so that original and
   resend choose different coins and both apply.
   */
  lemma UnequalResendPaysTwice(c: Setup, t: S.Terms) returns (history: R.Run, run: Run)
    requires SamePayer(c, t) && Million(c)
    ensures Witness(c, t, Opening(UnequalCoins(t.sender)), history, run)
    ensures var s := run.Last().ses;
      && s.prices == [4_000_000, 1_000_000] && s.applied == [0, 1, 1] && s.late == {1}
      && V.Occurrences(s.applied, 1) == 2
  {
    var ses, inputs, a, k, back, r, again, x, y;
    history, run, ses, inputs, a, k, back := UnequalLanding(c, t);
    var e := WaitForL2Tx(inputs, 0, 1_000_000, L2_TX_MAX_RETRIES);
    assert back in Owned(ses.utxos, t.sender);
    TwoCoins(ses.utxos, t.sender, 1, back);
    run := PollOut(c, t, run, a, ses, k, e);
    e := e.(attempts := L2_TX_MAX_POLL_ATTEMPTS);
    run, r, again := ResendNow(c, t, run, a, ses, k, e, ses.utxos);
    UnequalStray(t, ses, back, r);
    ses := S.AfterResend(ses, 1, r);
    e := WaitForL2Tx(again, 0, 1_000_000, L2_TX_MAX_RETRIES - 1);
    run, x, y := LandNow(c, t, run, false, a, [e], ses, k, 4);
    ses := S.AfterLand(ses, 4, x, y);
    run, x, y := LandNow(c, t, run, false, a, [e], ses, k, 5);
    assert run.Last().ses.applied == [0, 1, 1];
  }

  // ------------------------------------------------------------------ requests paid for twice

  /** The payment for the backlog goes out, its call fails, and it is applied. Another request was queued behind. */
  lemma UnreportedPayment(c: Setup, t: S.Terms, start: S.State, n: nat, amount: U64)
    returns (history: R.Run, run: Run, ses: S.State, a: Core)
    requires SamePayer(c, t) && S.InitialState(start) && n + 1 >= c.cfg.requestsPerMicrotransaction
    requires amount == c.Amount(n + 1) && Affords(t, start.utxos, amount)
    ensures Witness(c, t, start, history, run)
    ensures At(run.Last(), true, a, [AccountOneRequest], ses, Claims([Claim(0, n + 1, amount, false)], 0))
    ensures a.accounted == n + 1 && a.sent == 0 && PaymentDue(c, a)
    ensures ses.prices == [amount] && ses.applied == [0] && ses.late == {} && |ses.pool| == 1
  {
    var p, inputs, pay, back;
    history, run, a := Begin(c, t, [start], n);
    var k := Claims([], 0);
    run := Arrive(c, t, run, false, a, [], start, k);
    run := Arrive(c, t, run, false, a, [AccountOneRequest], start, k);
    var counted := a.(accounted := n + 1);
    assert [AccountOneRequest, AccountOneRequest] == [AccountOneRequest] + [AccountOneRequest];
    run, p, inputs := PayNow(c, t, run, [AccountOneRequest], a, start, k, counted, amount, Unreported);
    assert [AccountOneRequest] + [] == [AccountOneRequest];
    a, ses := counted, S.AfterStart(start, p);
    k := PayClaims(k, n + 1, amount, Unreported);
    run, pay, back := LandNow(c, t, run, true, a, [AccountOneRequest], ses, k, 0);
    ses := S.AfterLand(ses, 0, pay, back);
  }

  /** The queued request pays for the same requests, and itself, before the Restart. */
  lemma RepeatedPayment(c: Setup, t: S.Terms, run: Run, ses: S.State, a: Core, k: Claims, amount: U64)
    returns (longer: Run)
    requires run.Valid(c, t) && At(run.Last(), true, a, [AccountOneRequest], ses, k) && PaymentDue(c, a)
    requires amount == c.Amount(a.accounted + 1) && Affords(t, ses.utxos, amount)
    ensures Continues(c, t, longer, run)
    ensures longer.Last().claims == PayClaims(k, a.accounted + 1, amount, Delivered)
    ensures var s := longer.Last().ses;
      s.prices == ses.prices + [amount] && s.applied == ses.applied + [|ses.prices|] && s.late == ses.late
    ensures longer.Last().sys.actor.core.sent == a.sent + 1
  {
    var p, inputs, pay, back;
    longer := RecoverNow(c, t, run, a, [AccountOneRequest], ses, k);
    assert [AccountOneRequest] + [Restart] == [AccountOneRequest, Restart];
    var counted := a.(accounted := a.accounted + 1);
    longer, p, inputs := PayNow(c, t, longer, [Restart], a, ses, k, counted, amount, Delivered);
    var o := PayOutcome(c, counted, amount, inputs, Delivered);
    var paid, claims := S.AfterStart(ses, p), PayClaims(k, a.accounted + 1, amount, Delivered);
    BalanceNow(c, t, longer);
    longer, pay, back := LandNow(c, t, longer, false, o.core, [Restart] + ToSeq(o.now), paid, claims, |ses.pool|);
  }

  /**
   The call of a payment fails after the payment has gone out, and another request is queued before the owed
   Restart: it pays for all the requests again. From any split of the funds, nothing is sent again, and every
   one of them is paid for twice.
   */
  lemma UnreportedPaymentPaysTwice(c: Setup, t: S.Terms, start: S.State, n: nat, first: U64, second: U64)
    returns (history: R.Run, run: Run)
    requires SamePayer(c, t) && S.InitialState(start) && n + 1 >= c.cfg.requestsPerMicrotransaction
    requires first == c.Amount(n + 1) && second == c.Amount(n + 2) && LegalAmount(first) && LegalAmount(second)
    requires first + second + MIN_LOVELACE <= Balance(start.utxos, t.sender) < U64_SIZE
    ensures Witness(c, t, start, history, run)
    ensures var s := run.Last().ses;
      s.prices == [first, second] && s.applied == [0, 1] && s.late == {} && run.Last().sys.actor.core.sent == 1
    ensures forall request: nat :: request <= n ==> D.PaidTwice(run.Last(), request)
  {
    var ses, a;
    history, run, ses, a := UnreportedPayment(c, t, start, n, first);
    BalanceNow(c, t, run);
    SpentOne([first], 0);
    run := RepeatedPayment(c, t, run, ses, a, Claims([Claim(0, n + 1, first, false)], 0), second);
    PaidTwiceByBoth(run.Last(), n);
  }

  lemma PaidTwiceByBoth(w: World, n: nat)
    requires |w.claims.made| == 2 && |w.ses.prices| == 2 && w.ses.applied == [0, 1]
    requires w.claims.made[0].first == w.claims.made[1].first == 0
    requires w.claims.made[0].requests == n + 1 && w.claims.made[1].requests == n + 2
    ensures forall request: nat :: request <= n ==> D.PaidTwice(w, request)
  {
    assert D.AppliedAs(w, 0, 0) && D.AppliedAs(w, 1, 1);
    forall request: nat | request <= n
      ensures D.PaidTwice(w, request)
    {
      assert D.Covers(w.claims.made[0], request) && D.Covers(w.claims.made[1], request);
      assert D.PaysFor(w, 0, request) && D.PaysFor(w, 1, request);
    }
  }
}
