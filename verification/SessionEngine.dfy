/**
 The event machine and the ledger together. While the machine starts, polls and resends
 payments, the ledger applies them; seen from the ledger this is a session.
 */
module SessionEngine {
  import opened Prelude
  import opened CoinSelection
  import opened Ledger
  import opened HydraServer
  import opened HydraPolls
  import R = HydraRuntime
  import G = HydraGate
  import B = HydraBilling
  import S = Session

  /**
   What a payment of the amount is for: so many `requests` from `first` on, numbered in the order in which they
   are counted. Its call may have failed although the payment went out; then it is not `reported`.
   */
  datatype Claim = Claim(first: nat, requests: nat, amount: U64, reported: bool)
  {
    function Limit(): nat {
      first + requests
    }
  }

  /** The payments made, with the requests below `settled` covered by reported ones. */
  datatype Claims = Claims(made: seq<Claim>, settled: nat)

  datatype World = World(sys: R.System, ses: S.State, claims: Claims)

  datatype Step = Machine(step: R.Step) | Ledger(index: nat, pay: Ref, back: Ref)

  /** Both sides pay from the same wallet. */
  predicate SamePayer(c: Setup, t: S.Terms) {
    c.wallet == t.sender && t.sender != t.receiver
  }

  /** The payments that the machine makes are selected from the ledger as it is then; polls may be out of date. */
  ghost predicate Enabled(c: Setup, t: S.Terms, w: World, step: Step) {
    match step
    case Machine(m) =>
      R.Enabled(w.sys, m) && (m.Deliver? && m.ans.pick.Some? ==> Shows(m.ans.pick.value, w.ses.utxos))
    case Ledger(i, pay, back) => S.Enabled(t, w.ses, S.Land(i, pay, back))
  }

  // ------------------------------------------------------------------ what goes out

  /** What went out was selected from the snapshot. */
  predicate Selected(wallet: Address, due: Option<U64>, sending: Sending, pick: Option<Snapshot>) {
    !sending.Unsent? ==> due.Some? && pick.Some? && Select(pick.value, wallet, due.value).Ok?
  }

  lemma SendingIsSelected(c: Setup, a: Core, event: Event, ans: Answers)
    ensures Selected(c.wallet, Due(c, a, event, ans), Sends(c, a, event, ans), ans.pick)
  {
  }

  /** What goes out is a payment of its own after a request, and the last payment again after a poll. */
  function Gained(t: S.Terms, ses: S.State, event: Event, due: Option<U64>, sending: Sending, pick: Option<Snapshot>)
    : S.State
    requires Selected(t.sender, due, sending, pick)
  {
    if sending.Unsent? then ses
    else
      var p := S.Chosen(t, due.value, pick.value);
      if event.AccountOneRequest? then S.AfterStart(ses, p)
      else if ses.prices != [] then S.AfterResend(ses, |ses.prices| - 1, p)
      else ses
  }

  /** A payment is for all accounted requests; they remain accounted if its call fails. */
  function Claimed(k: Claims, accounted: nat, due: Option<U64>, sending: Sending): Claims
    requires !sending.Unsent? ==> due.Some?
  {
    if sending.Unsent? then k
    else
      var claim := Claim(k.settled, accounted + 1, due.value, sending.Sent?);
      Claims(k.made + [claim], if sending.Sent? then claim.Limit() else k.settled)
  }

  function Booked(c: Setup, t: S.Terms, w: World, ans: Answers): (S.State, Claims)
    requires c.wallet == t.sender && w.sys.actor.mailbox != []
  {
    var a, event := w.sys.actor.core, R.NextEvent(w.sys);
    var due, sending := Due(c, a, event, ans), R.Attempt(c, w.sys, ans);
    SendingIsSelected(c, a, event, ans);
    (Gained(t, w.ses, event, due, sending, ans.pick),
     if event.AccountOneRequest? then Claimed(w.claims, a.accounted, due, sending) else w.claims)
  }

  ghost function After(c: Setup, t: S.Terms, w: World, step: Step): World
    requires c.wallet == t.sender && Enabled(c, t, w, step)
  {
    match step
    case Machine(m) =>
      var (ses, claims) := if m.Deliver? then Booked(c, t, w, m.ans) else (w.ses, w.claims);
      World(R.After(c, w.sys, m), ses, claims)
    case Ledger(i, pay, back) => w.(ses := S.AfterLand(w.ses, i, pay, back))
  }

  // ------------------------------------------------------------------ coupling

  function Reported(made: seq<Claim>): nat {
    if made == [] then 0 else Reported(made[..|made| - 1]) + if made[|made| - 1].reported then 1 else 0
  }

  /** After a reported payment come new requests; after an unreported one the same again, and more. */
  predicate Linked(x: Claim, y: Claim) {
    if x.reported then y.first == x.Limit() else y.first == x.first && y.requests > x.requests
  }

  /** The last payment accounts for what is settled. */
  predicate Settles(last: Claim, settled: nat, accounted: nat) {
    if last.reported then settled == last.Limit() else settled == last.first && last.requests <= accounted
  }

  predicate ClaimsInv(sent: nat, accounted: nat, k: Claims) {
    && sent == Reported(k.made)
    && (forall i :: 0 <= i < |k.made| ==> k.made[i].requests > 0)
    && (forall i :: 0 <= i < |k.made| - 1 ==> Linked(k.made[i], k.made[i + 1]))
    && (k.made != [] ==> Settles(k.made[|k.made| - 1], k.settled, accounted))
  }

  /** The session's number of the claim `i`: those of this stretch are the last. */
  function Number(w: World, i: nat): int {
    |w.ses.prices| - |w.claims.made| + i
  }

  predicate PricesInv(prices: seq<U64>, made: seq<Claim>) {
    |made| <= |prices| && forall i :: 0 <= i < |made| ==> prices[|prices| - |made| + i] == made[i].amount
  }

  predicate CostAll(polls: set<Event>, amount: U64) {
    forall e <- polls :: e.WaitForL2Tx? && e.amount == amount
  }

  /** The machine polls for the last payment only, and only if that was reported. */
  predicate PollsInv(polls: set<Event>, prices: seq<U64>, made: seq<Claim>) {
    if made == [] || !made[|made| - 1].reported then polls == {}
    else prices != [] && CostAll(polls, prices[|prices| - 1])
  }

  predicate Agree(a: Core, polls: set<Event>, prices: seq<U64>, k: Claims) {
    ClaimsInv(a.sent, a.accounted, k) && PricesInv(prices, k.made) && PollsInv(polls, prices, k.made)
  }

  predicate Agrees(w: World) {
    Agree(w.sys.actor.core, PendingPolls(w.sys), w.ses.prices, w.claims)
  }

  predicate Coupled(w: World) {
    G.GateInv(w.sys) && Agrees(w)
  }

  // ------------------------------------------------------------------ what an event does

  /** What a request does to the counts, told by what went out. */
  predicate RequestCounts(a: Core, sending: Sending, b: Core) {
    if sending.Sent? then b.sent == a.sent + 1 && b.accounted == 0
    else
      && b.sent == a.sent && b.accounted >= a.accounted
      && (sending.Escaped? ==> b.accounted == a.accounted + 1)
  }

  /** The outcome of a request, told by what went out. */
  predicate RequestResult(a: Core, due: Option<U64>, sending: Sending, o: Outcome) {
    && RequestCounts(a, sending, o.core)
    && (o.later.Some? ==> !o.later.value.WaitForL2Tx?)
    && (!sending.Unsent? ==> due.Some? && !a.awaiting)
    && o.now == if sending.Sent? then Some(WaitForL2Tx(sending.inputs, 0, due.value, L2_TX_MAX_RETRIES)) else None
  }

  lemma RequestResults(c: Setup, a: Core, ans: Answers)
    ensures RequestResult(a, Due(c, a, AccountOneRequest, ans), Sends(c, a, AccountOneRequest, ans),
                          OnAccount(c, a, ans))
  {
    if PaymentDue(c, a) {
      B.DuePays(c, a, a.(accounted := a.accounted + 1), ans);
    }
  }

  /** A poll leaves the counts alone, and is followed by polls for the same amount. */
  predicate PollResult(a: Core, event: Event, o: Outcome) {
    && event.WaitForL2Tx? && o.core.sent == a.sent && o.core.accounted == a.accounted
    && CostAll(PollsOf(ToSeq(o.now) + ToSeq(o.later)), event.amount)
  }

  lemma PollResults(c: Setup, a: Core, event: Event, ans: Answers)
    requires event.WaitForL2Tx?
    ensures PollResult(a, event, Handle(c, a, event, ans))
    ensures !Sends(c, a, event, ans).Unsent? ==> Due(c, a, event, ans) == Some(event.amount)
  {
  }

  /** Any other event that is not a reset does nothing to payments. */
  predicate OtherResult(a: Core, o: Outcome) {
    && o.core.sent == a.sent && o.core.accounted == a.accounted
    && PollsOf(ToSeq(o.now) + ToSeq(o.later)) == {}
  }

  lemma OtherResults(c: Setup, a: Core, event: Event, ans: Answers)
    requires !event.AccountOneRequest? && !event.WaitForL2Tx? && !event.Restart?
    requires !(event.WaitForIdleAfterClose? && ans.tag == Some(Idle))
    ensures OtherResult(a, Handle(c, a, event, ans)) && Sends(c, a, event, ans).Unsent?
  {
    OthersTally(c, a, event, ans);
  }

  // ------------------------------------------------------------------ every step is a step of the session

  /** The session moves by one of its own steps, or stays. */
  ghost predicate Moves(t: S.Terms, s: S.State, next: S.State) {
    next == s || S.Next(t, s, next)
  }

  lemma StartGains(t: S.Terms, ses: S.State, due: Option<U64>, sending: Sending, pick: Option<Snapshot>)
    requires Selected(t.sender, due, sending, pick) && !sending.Unsent? && Shows(pick.value, ses.utxos)
    ensures var next := Gained(t, ses, AccountOneRequest, due, sending, pick);
      S.Next(t, ses, next) && next.prices == ses.prices + [due.value]
  {
    S.StepIsNext(t, ses, S.Start(due.value, pick.value));
  }

  lemma ResendGains(t: S.Terms, ses: S.State, event: Event, due: Option<U64>, sending: Sending, pick: Option<Snapshot>)
    requires Selected(t.sender, due, sending, pick) && !sending.Unsent? && Shows(pick.value, ses.utxos)
    requires event.WaitForL2Tx? && ses.prices != [] && due.value == ses.prices[|ses.prices| - 1]
    ensures var next := Gained(t, ses, event, due, sending, pick); S.Next(t, ses, next) && next.prices == ses.prices
  {
    S.ResendIsNext(t, ses, |ses.prices| - 1, due.value, pick.value);
  }

  lemma ClaimKeepsInv(a: Core, k: Claims, due: Option<U64>, sending: Sending, b: Core)
    requires ClaimsInv(a.sent, a.accounted, k) && RequestCounts(a, sending, b) && (!sending.Unsent? ==> due.Some?)
    ensures ClaimsInv(b.sent, b.accounted, Claimed(k, a.accounted, due, sending))
  {
    var next := Claimed(k, a.accounted, due, sending);
    if !sending.Unsent? {
      assert next.made[..|k.made|] == k.made;
    }
  }

  lemma ClaimKeepsPrices(prices: seq<U64>, k: Claims, accounted: nat, due: Option<U64>, sending: Sending)
    requires PricesInv(prices, k.made) && !sending.Unsent? && due.Some?
    ensures PricesInv(prices + [due.value], Claimed(k, accounted, due, sending).made)
  {
    var longer, made := prices + [due.value], Claimed(k, accounted, due, sending).made;
    forall i | 0 <= i < |made|
      ensures longer[|longer| - |made| + i] == made[i].amount
    {
      if i < |k.made| {
        assert longer[|longer| - |made| + i] == prices[|prices| - |k.made| + i];
      }
    }
  }

  /** The polls that are pending after a request. */
  predicate PollsAfter(polls: set<Event>, due: Option<U64>, sending: Sending, prices: seq<U64>, made: seq<Claim>) {
    match sending
    case Unsent => PollsInv(polls, prices, made)
    case Sent(_) => due.Some? && CostAll(polls, due.value)
    case Escaped => polls == {}
  }

  /** A payment goes out only while no poll is pending, so that its own poll is the only one. */
  lemma RequestPolls(c: Setup, s: R.System, ans: Answers, due: Option<U64>, sending: Sending,
                     prices: seq<U64>, made: seq<Claim>)
    requires G.GateInv(s) && R.Enabled(s, R.Deliver(ans)) && R.NextEvent(s) == AccountOneRequest
    requires RequestResult(s.actor.core, due, sending, R.Outcomes(c, s, ans))
    requires PollsInv(PendingPolls(s), prices, made)
    ensures PollsAfter(PendingPolls(R.After(c, s, R.Deliver(ans))), due, sending, prices, made)
  {
    TakingKeepsPolls(s);
    DeliveryLeavesPolls(c, s, ans);
    if !sending.Unsent? {
      NoneArePending(s);
    }
  }

  /** An event that makes no payment, or sends the last one again, keeps what is said of polls. */
  lemma RestKeepsPolls(c: Setup, s: R.System, ans: Answers, prices: seq<U64>, made: seq<Claim>)
    requires R.Enabled(s, R.Deliver(ans)) && !R.NextEvent(s).Restart? && PollsInv(PendingPolls(s), prices, made)
    requires var o := R.Outcomes(c, s, ans);
      var emitted := PollsOf(ToSeq(o.now) + ToSeq(o.later));
      emitted == {} || PollsInv(emitted, prices, made)
    ensures PollsInv(PendingPolls(R.After(c, s, R.Deliver(ans))), prices, made)
  {
    TakingKeepsPolls(s);
    DeliveryLeavesPolls(c, s, ans);
  }

  predicate AgreesAfter(b: Core, polls: set<Event>, accounted: nat, due: Option<U64>, sending: Sending,
                        prices: seq<U64>, k: Claims)
    requires !sending.Unsent? ==> due.Some?
  {
    Agree(b, polls, if sending.Unsent? then prices else prices + [due.value], Claimed(k, accounted, due, sending))
  }

  /** What a request leaves agrees again, with the polls that are then pending. */
  lemma RequestAgrees(a: Core, prices: seq<U64>, k: Claims, b: Core, due: Option<U64>, sending: Sending,
                      polls: set<Event>)
    requires ClaimsInv(a.sent, a.accounted, k) && PricesInv(prices, k.made)
    requires (!sending.Unsent? ==> due.Some?) && RequestCounts(a, sending, b)
    requires PollsAfter(polls, due, sending, prices, k.made)
    ensures AgreesAfter(b, polls, a.accounted, due, sending, prices, k)
  {
    ClaimKeepsInv(a, k, due, sending, b);
    if !sending.Unsent? {
      ClaimKeepsPrices(prices, k, a.accounted, due, sending);
    }
  }

  /** A delivery moves the session, and keeps the agreement. */
  ghost predicate DeliveryAgrees(t: S.Terms, w: World, core: Core, polls: set<Event>, next: (S.State, Claims)) {
    Moves(t, w.ses, next.0) && Agree(core, polls, next.0.prices, next.1)
  }

  lemma RequestGains(t: S.Terms, w: World, b: Core, due: Option<U64>, sending: Sending, pick: Option<Snapshot>,
                     polls: set<Event>)
    requires Selected(t.sender, due, sending, pick) && (!sending.Unsent? ==> Shows(pick.value, w.ses.utxos))
    requires AgreesAfter(b, polls, w.sys.actor.core.accounted, due, sending, w.ses.prices, w.claims)
    ensures DeliveryAgrees(t, w, b, polls, (Gained(t, w.ses, AccountOneRequest, due, sending, pick),
                                            Claimed(w.claims, w.sys.actor.core.accounted, due, sending)))
  {
    if !sending.Unsent? {
      StartGains(t, w.ses, due, sending, pick);
    }
  }

  lemma RequestMachine(c: Setup, w: World, ans: Answers, due: Option<U64>, sending: Sending)
    requires Coupled(w) && R.Enabled(w.sys, R.Deliver(ans)) && R.NextEvent(w.sys) == AccountOneRequest
    requires due == Due(c, w.sys.actor.core, AccountOneRequest, ans) && sending == R.Attempt(c, w.sys, ans)
    ensures !sending.Unsent? ==> due.Some?
    ensures AgreesAfter(R.Outcomes(c, w.sys, ans).core, PendingPolls(R.After(c, w.sys, R.Deliver(ans))),
                        w.sys.actor.core.accounted, due, sending, w.ses.prices, w.claims)
  {
    RequestResults(c, w.sys.actor.core, ans);
    RequestPolls(c, w.sys, ans, due, sending, w.ses.prices, w.claims.made);
    RequestAgrees(w.sys.actor.core, w.ses.prices, w.claims, R.Outcomes(c, w.sys, ans).core, due, sending,
                  PendingPolls(R.After(c, w.sys, R.Deliver(ans))));
  }

  lemma RequestMoves(c: Setup, t: S.Terms, w: World, ans: Answers)
    requires SamePayer(c, t) && Coupled(w) && Enabled(c, t, w, Machine(R.Deliver(ans)))
    requires R.NextEvent(w.sys) == AccountOneRequest
    ensures DeliveryAgrees(t, w, R.Outcomes(c, w.sys, ans).core, PendingPolls(R.After(c, w.sys, R.Deliver(ans))),
                           Booked(c, t, w, ans))
  {
    var due, sending := Due(c, w.sys.actor.core, AccountOneRequest, ans), R.Attempt(c, w.sys, ans);
    RequestMachine(c, w, ans, due, sending);
    SendingIsSelected(c, w.sys.actor.core, AccountOneRequest, ans);
    RequestGains(t, w, R.Outcomes(c, w.sys, ans).core, due, sending, ans.pick,
                 PendingPolls(R.After(c, w.sys, R.Deliver(ans))));
  }

  /** What is known of the handling of a poll. */
  ghost predicate PollHandled(t: S.Terms, a: Core, ses: S.State, event: Event, o: Outcome, due: Option<U64>,
                              sending: Sending, pick: Option<Snapshot>) {
    && PollResult(a, event, o) && Selected(t.sender, due, sending, pick)
    && (!sending.Unsent? ==> due == Some(event.amount) && Shows(pick.value, ses.utxos))
  }

  lemma PollIsHandled(c: Setup, t: S.Terms, a: Core, ses: S.State, event: Event, ans: Answers)
    requires c.wallet == t.sender && event.WaitForL2Tx? && (ans.pick.Some? ==> Shows(ans.pick.value, ses.utxos))
    ensures PollHandled(t, a, ses, event, Handle(c, a, event, ans), Due(c, a, event, ans), Sends(c, a, event, ans),
                        ans.pick)
  {
    PollResults(c, a, event, ans);
    SendingIsSelected(c, a, event, ans);
  }

  lemma PollGains(t: S.Terms, ses: S.State, event: Event, due: Option<U64>, sending: Sending, pick: Option<Snapshot>)
    requires event.WaitForL2Tx? && Selected(t.sender, due, sending, pick)
    requires !sending.Unsent? ==> due == Some(event.amount) && Shows(pick.value, ses.utxos)
    requires ses.prices != [] && ses.prices[|ses.prices| - 1] == event.amount
    ensures var next := Gained(t, ses, event, due, sending, pick); Moves(t, ses, next) && next.prices == ses.prices
  {
    if !sending.Unsent? {
      ResendGains(t, ses, event, due, sending, pick);
    }
  }

  lemma PollAgrees(t: S.Terms, w: World, event: Event, o: Outcome, polls: set<Event>, next: S.State)
    requires Agrees(w) && PollResult(w.sys.actor.core, event, o) && PollsInv(polls, w.ses.prices, w.claims.made)
    requires Moves(t, w.ses, next) && next.prices == w.ses.prices
    ensures DeliveryAgrees(t, w, o.core, polls, (next, w.claims))
  {
  }

  lemma PollMachine(c: Setup, w: World, ans: Answers)
    requires Coupled(w) && R.Enabled(w.sys, R.Deliver(ans)) && R.NextEvent(w.sys).WaitForL2Tx?
    ensures w.ses.prices != [] && w.ses.prices[|w.ses.prices| - 1] == R.NextEvent(w.sys).amount
    ensures PollsInv(PendingPolls(R.After(c, w.sys, R.Deliver(ans))), w.ses.prices, w.claims.made)
  {
    assert R.NextEvent(w.sys) in PendingPolls(w.sys);
    PollResults(c, w.sys.actor.core, R.NextEvent(w.sys), ans);
    RestKeepsPolls(c, w.sys, ans, w.ses.prices, w.claims.made);
  }

  lemma PollMoves(c: Setup, t: S.Terms, w: World, ans: Answers)
    requires SamePayer(c, t) && Coupled(w) && Enabled(c, t, w, Machine(R.Deliver(ans)))
    requires R.NextEvent(w.sys).WaitForL2Tx?
    ensures DeliveryAgrees(t, w, R.Outcomes(c, w.sys, ans).core, PendingPolls(R.After(c, w.sys, R.Deliver(ans))),
                           Booked(c, t, w, ans))
  {
    var a, event := w.sys.actor.core, R.NextEvent(w.sys);
    PollMachine(c, w, ans);
    PollIsHandled(c, t, a, w.ses, event, ans);
    PollGains(t, w.ses, event, Due(c, a, event, ans), R.Attempt(c, w.sys, ans), ans.pick);
    PollAgrees(t, w, event, R.Outcomes(c, w.sys, ans), PendingPolls(R.After(c, w.sys, R.Deliver(ans))),
               Booked(c, t, w, ans).0);
  }

  lemma OtherMoves(c: Setup, t: S.Terms, w: World, ans: Answers)
    requires SamePayer(c, t) && Coupled(w) && Enabled(c, t, w, Machine(R.Deliver(ans)))
    requires !R.NextEvent(w.sys).AccountOneRequest? && !R.NextEvent(w.sys).WaitForL2Tx?
    requires !R.Resets(w.sys, R.Deliver(ans))
    ensures DeliveryAgrees(t, w, R.Outcomes(c, w.sys, ans).core, PendingPolls(R.After(c, w.sys, R.Deliver(ans))),
                           Booked(c, t, w, ans))
  {
    OtherResults(c, w.sys.actor.core, R.NextEvent(w.sys), ans);
    RestKeepsPolls(c, w.sys, ans, w.ses.prices, w.claims.made);
  }

  /** No restart, and no head found idle. */
  predicate ResetFree(w: World, step: Step) {
    step.Machine? ==> !R.Resets(w.sys, step.step)
  }

  lemma DeliveryMoves(c: Setup, t: S.Terms, w: World, ans: Answers)
    requires SamePayer(c, t) && Coupled(w) && Enabled(c, t, w, Machine(R.Deliver(ans)))
    requires !R.Resets(w.sys, R.Deliver(ans))
    ensures DeliveryAgrees(t, w, R.Outcomes(c, w.sys, ans).core, PendingPolls(R.After(c, w.sys, R.Deliver(ans))),
                           Booked(c, t, w, ans))
  {
    if R.NextEvent(w.sys) == AccountOneRequest {
      RequestMoves(c, t, w, ans);
    } else if R.NextEvent(w.sys).WaitForL2Tx? {
      PollMoves(c, t, w, ans);
    } else {
      OtherMoves(c, t, w, ans);
    }
  }

  lemma SurroundingsMove(c: Setup, t: S.Terms, w: World, m: R.Step)
    requires SamePayer(c, t) && Coupled(w) && Enabled(c, t, w, Machine(m)) && !m.Deliver?
    ensures var next := After(c, t, w, Machine(m)); next.ses == w.ses && next.claims == w.claims && Agrees(next)
  {
    SurroundingsLeavePolls(c, w.sys, m);
  }

  lemma StepKeepsCoupled(c: Setup, t: S.Terms, w: World, step: Step)
    requires SamePayer(c, t) && Coupled(w) && Enabled(c, t, w, step) && ResetFree(w, step)
    ensures Coupled(After(c, t, w, step)) && Moves(t, w.ses, After(c, t, w, step).ses)
  {
    match step
    case Machine(m) =>
      G.StepKeepsGate(c, w.sys, m);
      if m.Deliver? {
        DeliveryMoves(c, t, w, m.ans);
      } else {
        SurroundingsMove(c, t, w, m);
      }
    case Ledger(i, pay, back) =>
      S.StepIsNext(t, w.ses, S.Land(i, pay, back));
  }

  // ------------------------------------------------------------------ whole runs

  /** `before` is what has happened in the head so far; a machine that starts over may find it still open. */
  datatype Run = Run(before: seq<S.State>, worlds: seq<World>, steps: seq<Step>)
  {
    /** A stretch without resets, from an open gate and no poll, with nothing sent yet. */
    ghost predicate Valid(c: Setup, t: S.Terms) {
      && SamePayer(c, t) && |worlds| == |steps| + 1
      && S.Run(t, before) && worlds[0].ses == before[|before| - 1] && worlds[0].claims == Claims([], 0)
      && worlds[0].sys.actor.core.sent == 0
      && R.Pending(worlds[0].sys, R.Poll) == 0 && !worlds[0].sys.actor.core.awaiting
      && forall i :: 0 <= i < |steps| ==> Follows(c, t, worlds[i], steps[i], worlds[i + 1])
    }

    function Last(): World
      requires worlds != []
    {
      worlds[|worlds| - 1]
    }

    /** The run without its last step. */
    function Init(): Run
      requires worlds != [] && steps != []
    {
      Run(before, worlds[..|worlds| - 1], steps[..|steps| - 1])
    }
  }

  ghost predicate Follows(c: Setup, t: S.Terms, w: World, step: Step, next: World)
    requires c.wallet == t.sender
  {
    Enabled(c, t, w, step) && ResetFree(w, step) && next == After(c, t, w, step)
  }

  lemma InitValid(c: Setup, t: S.Terms, run: Run)
    requires run.Valid(c, t) && run.steps != []
    ensures run.Init().Valid(c, t)
    ensures Follows(c, t, run.Init().Last(), run.steps[|run.steps| - 1], run.Last())
  {
    var init := run.Init();
    forall i | 0 <= i < |init.steps|
      ensures Follows(c, t, init.worlds[i], init.steps[i], init.worlds[i + 1])
    {
      assert Follows(c, t, run.worlds[i], run.steps[i], run.worlds[i + 1]);
    }
    var k := |run.steps| - 1;
    assert Follows(c, t, run.worlds[k], run.steps[k], run.worlds[k + 1]);
  }

  /** One step more. */
  lemma Extend(c: Setup, t: S.Terms, run: Run, step: Step) returns (longer: Run)
    requires run.Valid(c, t) && Enabled(c, t, run.Last(), step) && ResetFree(run.Last(), step)
    ensures longer.Valid(c, t) && longer.before == run.before && longer.worlds[0] == run.worlds[0]
    ensures longer.Last() == After(c, t, run.Last(), step)
  {
    longer := Run(run.before, run.worlds + [After(c, t, run.Last(), step)], run.steps + [step]);
    forall i | 0 <= i < |longer.steps|
      ensures Follows(c, t, longer.worlds[i], longer.steps[i], longer.worlds[i + 1])
    {
      if i < |run.steps| {
        assert Follows(c, t, run.worlds[i], run.steps[i], run.worlds[i + 1]);
      }
    }
  }

  /**
   Every run of the machine on the ledger continues the session: the payments it makes and resends,
   reported or not, and their applications, are steps of the session, and nothing else touches it.
   */
  lemma {:induction false} MachineRunsSession(c: Setup, t: S.Terms, run: Run) returns (session: seq<S.State>)
    requires run.Valid(c, t)
    ensures S.Run(t, session) && session[0] == run.before[0] && session[|session| - 1] == run.Last().ses
    ensures Coupled(run.Last())
    decreases |run.steps|
  {
    if run.steps == [] {
      session := run.before;
      NoneArePending(run.worlds[0].sys);
    } else {
      InitValid(c, t, run);
      session := MachineRunsSession(c, t, run.Init());
      StepKeepsCoupled(c, t, run.Init().Last(), run.steps[|run.steps| - 1]);
      if run.Last().ses != run.Init().Last().ses {
        session := S.Follow(t, session, run.Last().ses);
      }
    }
  }
}
