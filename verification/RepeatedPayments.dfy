/** Exactly when a request is paid for twice, although no payment was sent again. */
module RepeatedPayments {
  import opened Prelude
  import opened CoinSelection
  import opened Ledger
  import opened HydraServer
  import opened SessionEngine
  import R = HydraRuntime
  import S = Session

  /** The payment is for the request, among others. */
  predicate Covers(x: Claim, request: nat) {
    x.first <= request < x.Limit()
  }

  /** From payment `i` up to payment `k`, no call was reported as a success. */
  predicate Repeats(made: seq<Claim>, i: nat, k: nat)
    requires i < k < |made|
  {
    forall j :: i <= j < k ==> !made[j].reported
  }

  // ------------------------------------------------------------------ which payments share requests

  /** After unreported payments only, a payment is for the same requests and more; otherwise for later ones. */
  lemma {:induction false} Ahead(sent: nat, accounted: nat, k: Claims, i: nat, j: nat)
    requires ClaimsInv(sent, accounted, k) && i < j < |k.made|
    ensures if Repeats(k.made, i, j)
      then k.made[j].first == k.made[i].first && k.made[j].requests > k.made[i].requests
      else k.made[j].first >= k.made[i].Limit()
    decreases j
  {
    assert Linked(k.made[j - 1], k.made[j - 1 + 1]);
    if i < j - 1 {
      Ahead(sent, accounted, k, i, j - 1);
      assert Repeats(k.made, i, j) <==> Repeats(k.made, i, j - 1) && !k.made[j - 1].reported;
    } else {
      assert Repeats(k.made, i, j) <==> !k.made[i].reported;
    }
  }

  lemma SharedIff(sent: nat, accounted: nat, k: Claims, i: nat, j: nat)
    requires ClaimsInv(sent, accounted, k) && i < j < |k.made|
    ensures (exists request: nat :: Covers(k.made[i], request) && Covers(k.made[j], request))
       <==> Repeats(k.made, i, j)
  {
    Ahead(sent, accounted, k, i, j);
    if Repeats(k.made, i, j) {
      assert Covers(k.made[i], k.made[i].first) && Covers(k.made[j], k.made[i].first);
    }
  }

  // ------------------------------------------------------------------ what is paid twice

  /** The payment `i` of this stretch is the one that was applied at position `p`. */
  predicate AppliedAs(w: World, p: nat, i: nat) {
    p < |w.ses.applied| && i < |w.claims.made| && w.ses.applied[p] == Number(w, i)
  }

  /** The application at position `p` pays for the request. */
  ghost predicate PaysFor(w: World, p: nat, request: nat) {
    exists i: nat :: AppliedAs(w, p, i) && Covers(w.claims.made[i], request)
  }

  ghost predicate PaidTwice(w: World, request: nat) {
    exists p: nat, q: nat :: p < q && PaysFor(w, p, request) && PaysFor(w, q, request)
  }

  /** Two payments that share requests have both been applied. */
  ghost predicate RepeatsApplied(w: World) {
    exists i: nat, k: nat, p: nat, q: nat ::
      i < k < |w.claims.made| && AppliedAs(w, p, i) && AppliedAs(w, q, k) && Repeats(w.claims.made, i, k)
  }

  /** One payment has been applied twice. */
  ghost predicate OneAppliedTwice(w: World) {
    exists i: nat, p: nat, q: nat :: p < q && AppliedAs(w, p, i) && AppliedAs(w, q, i)
  }

  lemma PaidTwiceMeans(w: World, request: nat)
    requires Agrees(w) && PaidTwice(w, request)
    ensures OneAppliedTwice(w) || RepeatsApplied(w)
  {
    var p: nat, q: nat :| p < q && PaysFor(w, p, request) && PaysFor(w, q, request);
    var i: nat :| AppliedAs(w, p, i) && Covers(w.claims.made[i], request);
    var k: nat :| AppliedAs(w, q, k) && Covers(w.claims.made[k], request);
    var a := w.sys.actor.core;
    if i < k {
      SharedIff(a.sent, a.accounted, w.claims, i, k);
    } else if k < i {
      SharedIff(a.sent, a.accounted, w.claims, k, i);
    }
  }

  lemma BothPay(w: World, p: nat, i: nat, q: nat, k: nat, request: nat)
    requires p != q && AppliedAs(w, p, i) && AppliedAs(w, q, k)
    requires Covers(w.claims.made[i], request) && Covers(w.claims.made[k], request)
    ensures PaidTwice(w, request)
  {
    assert PaysFor(w, p, request) && PaysFor(w, q, request);
    assert p < q || q < p;
  }

  lemma ApplicationsPayTwice(w: World) returns (request: nat)
    requires Agrees(w) && (OneAppliedTwice(w) || RepeatsApplied(w))
    ensures PaidTwice(w, request)
  {
    var a := w.sys.actor.core;
    if OneAppliedTwice(w) {
      var i: nat, p: nat, q: nat :| p < q && AppliedAs(w, p, i) && AppliedAs(w, q, i);
      request := w.claims.made[i].first;
      assert w.claims.made[i].requests > 0;
      BothPay(w, p, i, q, i, request);
    } else {
      var i: nat, k: nat, p: nat, q: nat :| i < k < |w.claims.made|
        && AppliedAs(w, p, i) && AppliedAs(w, q, k) && Repeats(w.claims.made, i, k);
      SharedIff(a.sent, a.accounted, w.claims, i, k);
      request :| Covers(w.claims.made[i], request) && Covers(w.claims.made[k], request);
      BothPay(w, p, i, q, k, request);
    }
  }

  /**
   In every run of the machine on the ledger: some request is paid for twice iff one payment has been applied
   twice, or a payment whose call failed has been applied and so has a later one, up to the next one reported.
   */
  lemma RequestPaidTwiceIff(c: Setup, t: S.Terms, run: Run)
    requires run.Valid(c, t)
    ensures (exists request: nat :: PaidTwice(run.Last(), request))
       <==> OneAppliedTwice(run.Last()) || RepeatsApplied(run.Last())
  {
    var session := MachineRunsSession(c, t, run);
    if request: nat :| PaidTwice(run.Last(), request) {
      PaidTwiceMeans(run.Last(), request);
    }
    if OneAppliedTwice(run.Last()) || RepeatsApplied(run.Last()) {
      var request := ApplicationsPayTwice(run.Last());
    }
  }

  /** No payment whose call failed has been applied. */
  ghost predicate OnlyReportedApplied(w: World) {
    forall p: nat, i: nat :: AppliedAs(w, p, i) ==> w.claims.made[i].reported
  }

  /** So it takes a late resend, or the application of a payment whose call failed. */
  lemma RequestsArePaidOnce(c: Setup, t: S.Terms, run: Run, request: nat)
    requires run.Valid(c, t) && run.Last().ses.late == {} && OnlyReportedApplied(run.Last())
    ensures !PaidTwice(run.Last(), request)
  {
    var session := MachineRunsSession(c, t, run);
    S.RunKeepsInv(t, session);
    if PaidTwice(run.Last(), request) {
      PaidTwiceMeans(run.Last(), request);
    }
  }

  // ------------------------------------------------------------------ what the payments cost

  /** Every payment of the stretch costs what its requests cost. */
  predicate Worth(c: Setup, made: seq<Claim>) {
    forall i :: 0 <= i < |made| ==> made[i].amount == c.Amount(made[i].requests)
  }

  predicate WorthOf(c: Setup, requests: nat, due: Option<U64>) {
    due.Some? ==> due.value == c.Amount(requests)
  }

  lemma DueIsWorth(c: Setup, a: Core, ans: Answers)
    ensures WorthOf(c, a.accounted + 1, Due(c, a, AccountOneRequest, ans))
  {
  }

  lemma ClaimIsWorth(c: Setup, k: Claims, accounted: nat, requests: nat, due: Option<U64>, sending: Sending)
    requires Worth(c, k.made) && (!sending.Unsent? ==> due.Some?)
    requires requests == accounted + 1 && WorthOf(c, requests, due)
    ensures Worth(c, Claimed(k, accounted, due, sending).made)
  {
  }

  lemma RequestIsWorth(c: Setup, t: S.Terms, w: World, ans: Answers)
    requires c.wallet == t.sender && w.sys.actor.mailbox != [] && Worth(c, w.claims.made)
    requires R.NextEvent(w.sys) == AccountOneRequest
    ensures Worth(c, Booked(c, t, w, ans).1.made)
  {
    var a, event := w.sys.actor.core, R.NextEvent(w.sys);
    SendingIsSelected(c, a, event, ans);
    DueIsWorth(c, a, ans);
    ClaimIsWorth(c, w.claims, a.accounted, a.accounted + 1, Due(c, a, event, ans), R.Attempt(c, w.sys, ans));
  }

  lemma DeliveryIsWorth(c: Setup, t: S.Terms, w: World, ans: Answers)
    requires c.wallet == t.sender && w.sys.actor.mailbox != [] && Worth(c, w.claims.made)
    ensures Worth(c, Booked(c, t, w, ans).1.made)
  {
    if R.NextEvent(w.sys) == AccountOneRequest {
      RequestIsWorth(c, t, w, ans);
    } else {
      SendingIsSelected(c, w.sys.actor.core, R.NextEvent(w.sys), ans);
    }
  }

  /** In every run, each payment is for the price of the requests that it is for. */
  lemma {:induction false} PaymentsAreWorth(c: Setup, t: S.Terms, run: Run)
    requires run.Valid(c, t)
    ensures Worth(c, run.Last().claims.made)
    decreases |run.steps|
  {
    if run.steps != [] {
      InitValid(c, t, run);
      PaymentsAreWorth(c, t, run.Init());
      var w, step := run.Init().Last(), run.steps[|run.steps| - 1];
      if step.Machine? && step.step.Deliver? {
        DeliveryIsWorth(c, t, w, step.step.ans);
      }
    }
  }
}
