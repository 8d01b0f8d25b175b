/** When a session's payments always find their inputs, and how many coins the head holds. */
module Solvency {
  import opened Prelude
  import opened Arithmetic
  import opened HydraConfig
  import opened CoinSelection
  import opened CoinSelectionLaws
  import opened Ledger
  import opened Funding
  import opened Session

  // ------------------------------------------------------------------ counting

  function Elements(s: seq<nat>): set<nat> {
    set i | 0 <= i < |s| :: s[i]
  }

  function Occurrences(s: seq<nat>, x: nat): nat {
    multiset(s)[x]
  }

  lemma {:induction false} DistinctCount(s: seq<nat>)
    requires Distinct(s)
    ensures |Elements(s)| == |s|
  {
    if s != [] {
      var init, last := s[..|s| - 1], s[|s| - 1];
      DistinctCount(init);
      assert Elements(s) == Elements(init) + {last};
      assert last !in Elements(init);
    }
  }

  lemma {:induction false} CountBelow(below: set<nat>, n: nat)
    requires forall x :: x in below ==> x < n
    ensures |below| <= n
  {
    if n == 0 {
      assert below == {};
    } else {
      CountBelow(below - {n - 1}, n - 1);
      assert below <= (below - {n - 1}) + {n - 1};
      SubsetSmaller(below, (below - {n - 1}) + {n - 1});
    }
  }

  lemma SubsetSmaller<T>(a: set<T>, b: set<T>)
    requires a <= b
    ensures |a| <= |b|
  {
    assert b == a + (b - a);
  }

  /** No microtransaction is paid twice unless it was resent late. */
  lemma PaidAtMostOnce(t: Terms, run: seq<State>, j: nat, k: nat)
    requires Run(t, run) && t.sender != t.receiver
    requires var applied := run[|run| - 1].applied;
      j < k < |applied| && applied[j] == applied[k]
    ensures run[|run| - 1].applied[k] in run[|run| - 1].late
  {
    RunKeepsInv(t, run);
  }

  /** Without late resends, payments are no more than microtransactions, and one fewer per unpaid one. */
  lemma AppliedWithinStarted(s: State)
    requires AppliedInv(s) && s.late == {}
    ensures Distinct(s.applied) && |s.applied| <= |s.prices|
    ensures (exists micro: nat :: micro < |s.prices| && micro !in s.applied) ==> |s.applied| < |s.prices|
  {
    var e := Elements(s.applied);
    DistinctCount(s.applied);
    CountBelow(e, |s.prices|);
    if micro: nat :| micro < |s.prices| && micro !in s.applied {
      CountBelow(e + {micro}, |s.prices|);
    }
  }

  // ------------------------------------------------------------------ plans

  /** The amounts of all microtransactions that a session is to make. */
  type Plan = seq<U64>

  /** Every amount is a legal output with room for a minimal change. */
  predicate Legal(plan: Plan) {
    forall k :: 0 <= k < |plan| ==> MIN_LOVELACE <= plan[k] && plan[k] + MIN_LOVELACE < U64_SIZE
  }

  function Cost(plan: Plan): nat {
    if plan == [] then 0 else Cost(plan[..|plan| - 1]) + plan[|plan| - 1]
  }

  /** What is left to pay when the microtransactions in `done` have been paid. */
  function Unpaid(plan: Plan, done: set<nat>): nat {
    if plan == [] then 0
    else
      var n := |plan| - 1;
      Unpaid(plan[..n], done) + (if n in done then 0 else plan[n])
  }

  lemma {:induction false} UnpaidNone(plan: Plan)
    ensures Unpaid(plan, {}) == Cost(plan)
  {
    if plan != [] {
      UnpaidNone(plan[..|plan| - 1]);
    }
  }

  lemma {:induction false} UnpaidSame(plan: Plan, done: set<nat>, k: nat)
    requires k >= |plan|
    ensures Unpaid(plan, done + {k}) == Unpaid(plan, done)
  {
    if plan != [] {
      UnpaidSame(plan[..|plan| - 1], done, k);
    }
  }

  lemma {:induction false} UnpaidPays(plan: Plan, done: set<nat>, k: nat)
    requires k < |plan| && k !in done
    ensures Unpaid(plan, done) == Unpaid(plan, done + {k}) + plan[k]
  {
    var n := |plan| - 1;
    if k < n {
      UnpaidPays(plan[..n], done, k);
    } else {
      UnpaidSame(plan[..n], done, n);
    }
  }

  /** What has been spent and what is still to pay make up the plan. */
  lemma {:induction false} SpentAndUnpaid(plan: Plan, applied: seq<nat>)
    requires Distinct(applied) && Within(applied, |plan|)
    ensures Spent(plan, applied) + Unpaid(plan, Elements(applied)) == Cost(plan)
  {
    if applied == [] {
      UnpaidNone(plan);
      assert Elements(applied) == {};
    } else {
      var init, last := applied[..|applied| - 1], applied[|applied| - 1];
      SpentAndUnpaid(plan, init);
      assert Elements(applied) == Elements(init) + {last};
      UnpaidPays(plan, Elements(init), last);
    }
  }

  /** What is left to pay is the microtransaction alone, or leaves at least another minimal output. */
  lemma {:induction false} UnpaidHolds(plan: Plan, done: set<nat>, k: nat)
    requires Legal(plan) && k < |plan| && k !in done
    ensures Unpaid(plan, done) == plan[k] || Unpaid(plan, done) >= plan[k] + MIN_LOVELACE
  {
    var n := |plan| - 1;
    if k < n {
      UnpaidHolds(plan[..n], done, k);
    } else if Unpaid(plan[..n], done) != 0 {
      UnpaidIsLegal(plan[..n], done);
    }
  }

  lemma {:induction false} UnpaidIsLegal(plan: Plan, done: set<nat>)
    requires Legal(plan)
    ensures Unpaid(plan, done) == 0 || Unpaid(plan, done) >= MIN_LOVELACE
  {
    if plan != [] {
      UnpaidIsLegal(plan[..|plan| - 1], done);
    }
  }

  // ------------------------------------------------------------------ solvency

  /** The funds are what the plan costs, or leave a minimal coin. */
  predicate Covers(funds: nat, plan: Plan) {
    funds == Cost(plan) || funds >= Cost(plan) + MIN_LOVELACE
  }

  /** A run that keeps to the plan and sends nothing again late. */
  ghost predicate Follows(t: Terms, plan: Plan, funds: nat, run: seq<State>) {
    && Run(t, run) && Balance(run[0].utxos, t.sender) == funds
    && run[|run| - 1].prices <= plan && run[|run| - 1].late == {}
  }

  /** The next microtransaction of the plan, or one that has been sent and not applied. */
  predicate Due(plan: Plan, s: State, micro: nat) {
    micro < |plan| && micro <= |s.prices| && micro !in s.applied
  }

  lemma DueIsCovered(t: Terms, plan: Plan, funds: nat, run: seq<State>, micro: nat)
    requires Follows(t, plan, funds, run) && t.sender != t.receiver
    requires Legal(plan) && Covers(funds, plan) && Due(plan, run[|run| - 1], micro)
    ensures Enough(Balance(run[|run| - 1].utxos, t.sender), plan[micro])
    ensures Balance(run[|run| - 1].utxos, t.sender) <= funds
  {
    var s := run[|run| - 1];
    RunKeepsInv(t, run);
    AppliedWithinStarted(s);
    SpentCarries(s.prices, plan, s.applied);
    SpentAndUnpaid(plan, s.applied);
    UnpaidHolds(plan, Elements(s.applied), micro);
  }

  ghost predicate NeverShort(t: Terms, plan: Plan, s: State) {
    forall micro: nat, snapshot: Snapshot :: Due(plan, s, micro) && Shows(snapshot, s.utxos) ==>
      Select(snapshot, t.sender, plan[micro]).Ok?
  }

  /**
   Session solvency. With funds that cover the plan, in every state of every run that follows
   it the next microtransaction, and every resend of an unpaid one, finds its inputs.
   */
  lemma PlanSolvency(t: Terms, plan: Plan, funds: U64, run: seq<State>)
    requires Follows(t, plan, funds, run) && t.sender != t.receiver && Legal(plan) && Covers(funds, plan)
    ensures NeverShort(t, plan, run[|run| - 1])
  {
    var s := run[|run| - 1];
    forall micro: nat, snapshot: Snapshot | Due(plan, s, micro) && Shows(snapshot, s.utxos)
      ensures Select(snapshot, t.sender, plan[micro]).Ok?
    {
      DueIsCovered(t, plan, funds, run, micro);
      BalanceSuffices(snapshot, s.utxos, t.sender, plan[micro]);
    }
  }

  // ------------------------------------------------------------------ the coins of the head

  lemma UnionCount<T>(a: set<T>, b: set<T>, c: set<T>)
    requires a !! b && a !! c && b !! c
    ensures |a + b + c| == |a| + |b| + |c|
  {
  }

  lemma CoinsOfState(t: Terms, others: set<Ref>, s: State)
    requires t.sender != t.receiver && PaidInv(t, s) && OthersInv(t, others, s)
    ensures |s.utxos| == |Owned(s.utxos, t.sender)| + |s.applied| + |others|
  {
    var own := Owned(s.utxos, t.sender);
    assert s.utxos.Keys == own + s.paid + others;
    UnionCount(own, s.paid, others);
    assert |s.utxos| == |s.utxos.Keys|;
  }

  /** The head holds the sender's coins, one per applied payment, and those of the others. */
  lemma CoinCount(t: Terms, run: seq<State>)
    requires Run(t, run) && t.sender != t.receiver
    ensures var s := run[|run| - 1];
      |s.utxos| == |Owned(s.utxos, t.sender)| + |s.applied| + |Others(t, run[0])|
  {
    RunKeepsInv(t, run);
    CoinsOfState(t, Others(t, run[0]), run[|run| - 1]);
  }

  /** What the close test asks for: a coin more than payments started. */
  predicate CountTest(s: State) {
    |s.utxos| >= 1 + |s.prices|
  }

  /** For any split: the sender's and the others' coins must outnumber the payments that are not applied. */
  lemma CountTestIff(t: Terms, run: seq<State>)
    requires Run(t, run) && t.sender != t.receiver
    ensures var s := run[|run| - 1];
      CountTest(s) <==> |Owned(s.utxos, t.sender)| + |Others(t, run[0])| > |s.prices| - |s.applied|
  {
    CoinCount(t, run);
  }

  lemma OwnedAfter(utxos: Utxos, p: Payment, pay: Ref, back: Ref)
    requires p.sender != p.receiver && pay !in utxos && back !in utxos && pay != back
    ensures Owned(Apply(utxos, p, pay, back), p.sender)
         == Owned(utxos, p.sender) - p.inputs + (if p.change > 0 then {back} else {})
  {
  }

  lemma {:induction false} OneCoinStays(t: Terms, run: seq<State>)
    requires Run(t, run) && t.sender != t.receiver && |Owned(run[0].utxos, t.sender)| <= 1
    ensures |Owned(run[|run| - 1].utxos, t.sender)| <= 1
    decreases |run|
  {
    if |run| > 1 {
      RunPrefix(t, run);
      OneCoinStays(t, run[..|run| - 1]);
      RunKeepsInv(t, run[..|run| - 1]);
      var s, s' := run[|run| - 2], run[|run| - 1];
      var step :| Enabled(t, s, step) && s' == After(t, s, step);
      if step.Land? {
        LandOfOneCoin(t, s, step.index, step.pay, step.back);
      }
    }
  }

  lemma LandOfOneCoin(t: Terms, s: State, i: nat, pay: Ref, back: Ref)
    requires t.sender != t.receiver && s.utxos.Keys <= s.used && PoolInv(t, s) && Enabled(t, s, Land(i, pay, back))
    requires |Owned(s.utxos, t.sender)| <= 1
    ensures |Owned(AfterLand(s, i, pay, back).utxos, t.sender)| <= 1
  {
    var p, own := s.pool[i].payment, Owned(s.utxos, t.sender);
    assert SubmissionInv(t, s, s.pool[i]);
    OwnedAfter(s.utxos, p, pay, back);
    var r :| r in p.inputs;
    assert own == {r} by {
      SubsetSmaller({r}, own);
      assert own == {r} + (own - {r});
    }
    assert own - p.inputs == {};
  }

  /** From a single coin, while the sender has funds: the test passes exactly when every payment has been applied. */
  lemma OneCoinCountTestIff(t: Terms, run: seq<State>)
    requires Run(t, run) && t.sender != t.receiver && run[|run| - 1].late == {}
    requires |Owned(run[0].utxos, t.sender)| == 1 && Others(t, run[0]) == {}
    requires Balance(run[|run| - 1].utxos, t.sender) > 0
    ensures CountTest(run[|run| - 1]) <==> |run[|run| - 1].applied| == |run[|run| - 1].prices|
  {
    CountTestIff(t, run);
    OneCoinStays(t, run);
    RunKeepsInv(t, run);
    AppliedWithinStarted(run[|run| - 1]);
    assert Owned(run[|run| - 1].utxos, t.sender) != {};
  }

  // ------------------------------------------------------------------ a session can be completed

  /** One microtransaction more, started and applied. */
  predicate Landed(s: State, p: Payment, pay: Ref, back: Ref, next: State) {
    && next.utxos == Apply(s.utxos, p, pay, back)
    && next.prices == s.prices + [p.amount] && next.applied == s.applied + [|s.prices|] && next.late == s.late
  }

  /** A submission made from the current snapshot applies. */
  lemma SubmitAndLand(t: Terms, run: seq<State>, amount: U64, snapshot: Snapshot)
    returns (longer: seq<State>, p: Payment, pay: Ref, back: Ref)
    requires Run(t, run) && t.sender != t.receiver && Enabled(t, run[|run| - 1], Start(amount, snapshot))
    ensures Run(t, longer) && longer[0] == run[0]
    ensures p.amount == amount && p.sender == t.sender && p.receiver == t.receiver && p.inputs != {}
    ensures var s := run[|run| - 1];
      && Balanced(s.utxos, p) && s.utxos.Keys <= s.used
      && pay !in s.used && back !in s.used && pay != back
      && Landed(s, p, pay, back, longer[|longer| - 1])
  {
    var s := run[|run| - 1];
    RunKeepsInv(t, run);
    p := Chosen(t, amount, snapshot);
    ChosenIsBalanced(t, s, amount, snapshot);
    var s1 := After(t, s, Start(amount, snapshot));
    assert Next(t, s, s1);
    longer := Follow(t, run, s1);
    pay := FreshRef(s.used);
    back := pay + 1;
    assert Enabled(t, s1, Land(|s.pool|, pay, back));
    assert Next(t, s1, After(t, s1, Land(|s.pool|, pay, back)));
    longer := Follow(t, longer, After(t, s1, Land(|s.pool|, pay, back)));
  }

  /** The payments made so far are all that were started. */
  predicate PaidUp(s: State) {
    s.late == {} && |s.applied| == |s.prices|
  }

  lemma PaidUpIsDue(t: Terms, plan: Plan, run: seq<State>)
    requires Run(t, run) && t.sender != t.receiver && PaidUp(run[|run| - 1])
    requires |run[|run| - 1].prices| < |plan|
    ensures Due(plan, run[|run| - 1], |run[|run| - 1].prices|)
  {
    RunKeepsInv(t, run);
  }

  lemma LandedKeepsPlan(plan: Plan, s: State, p: Payment, pay: Ref, back: Ref, next: State)
    requires s.prices <= plan && |s.prices| < |plan| && p.amount == plan[|s.prices|] && PaidUp(s)
    requires Landed(s, p, pay, back, next)
    ensures next.prices <= plan && PaidUp(next) && |next.prices| == |s.prices| + 1
  {
  }

  lemma NextSelection(t: Terms, plan: Plan, funds: U64, run: seq<State>) returns (snapshot: Snapshot)
    requires Follows(t, plan, funds, run) && t.sender != t.receiver && Legal(plan) && Covers(funds, plan)
    requires PaidUp(run[|run| - 1]) && |run[|run| - 1].prices| < |plan|
    ensures Enabled(t, run[|run| - 1], Start(plan[|run[|run| - 1].prices|], snapshot))
  {
    PaidUpIsDue(t, plan, run);
    PlanSolvency(t, plan, funds, run);
    SomeSnapshot(run[|run| - 1].utxos);
    snapshot :| Shows(snapshot, run[|run| - 1].utxos);
  }

  lemma PayNext(t: Terms, plan: Plan, funds: U64, run: seq<State>) returns (longer: seq<State>)
    requires Follows(t, plan, funds, run) && t.sender != t.receiver && Legal(plan) && Covers(funds, plan)
    requires PaidUp(run[|run| - 1]) && |run[|run| - 1].prices| < |plan|
    ensures Follows(t, plan, funds, longer) && longer[0] == run[0] && PaidUp(longer[|longer| - 1])
    ensures |longer[|longer| - 1].prices| == |run[|run| - 1].prices| + 1
  {
    var s := run[|run| - 1];
    var k := |s.prices|;
    var snapshot := NextSelection(t, plan, funds, run);
    var p, pay, back;
    longer, p, pay, back := SubmitAndLand(t, run, plan[k], snapshot);
    LandedKeepsPlan(plan, s, p, pay, back, longer[|longer| - 1]);
  }

  /**
   From any split of the funds, a covered plan can be carried through: all its payments
   are made and applied. With a minimal coin left over the close test then passes.
   */
  lemma {:induction false} SessionCanComplete(t: Terms, plan: Plan, funds: U64, run: seq<State>)
    returns (longer: seq<State>)
    requires Follows(t, plan, funds, run) && t.sender != t.receiver && Legal(plan) && Covers(funds, plan)
    requires PaidUp(run[|run| - 1])
    ensures Follows(t, plan, funds, longer) && longer[0] == run[0]
    ensures longer[|longer| - 1].prices == plan && |longer[|longer| - 1].applied| == |plan|
    ensures funds > Cost(plan) ==> CountTest(longer[|longer| - 1])
    decreases |plan| - |run[|run| - 1].prices|
  {
    if |run[|run| - 1].prices| == |plan| {
      longer := run;
      if funds > Cost(plan) {
        CompletedCount(t, plan, funds, run);
      }
    } else {
      longer := PayNext(t, plan, funds, run);
      longer := SessionCanComplete(t, plan, funds, longer);
    }
  }

  lemma CompletedCount(t: Terms, plan: Plan, funds: nat, run: seq<State>)
    requires Follows(t, plan, funds, run) && t.sender != t.receiver && PaidUp(run[|run| - 1])
    requires run[|run| - 1].prices == plan && funds > Cost(plan)
    ensures CountTest(run[|run| - 1])
  {
    var s := run[|run| - 1];
    RunKeepsInv(t, run);
    AppliedWithinStarted(s);
    SpentAndUnpaid(plan, s.applied);
    CountTestIff(t, run);
    assert Balance(s.utxos, t.sender) > 0;
    assert Owned(s.utxos, t.sender) != {};
  }

  // ------------------------------------------------------------------ exactly which funds suffice

  /** From every split of the funds, and in every run, no payment of the plan is ever refused. */
  ghost predicate AlwaysSolvent(t: Terms, plan: Plan, funds: U64) {
    forall run :: Follows(t, plan, funds, run) ==> NeverShort(t, plan, run[|run| - 1])
  }

  /** A run that pays from a single coin, down to the first payment that this coin cannot make. */
  lemma {:induction false} DrainOneCoin(t: Terms, plan: Plan, funds: U64, run: seq<State>, r: Ref)
    returns (short: seq<State>)
    requires Follows(t, plan, funds, run) && t.sender != t.receiver && Legal(plan) && !Covers(funds, plan)
    requires var s := run[|run| - 1];
      && PaidUp(s) && |s.prices| < |plan| && Owned(s.utxos, t.sender) == {r}
      && s.utxos[r].lovelace == funds - Cost(s.prices)
    ensures Follows(t, plan, funds, short) && !NeverShort(t, plan, short[|short| - 1])
    decreases |plan| - |run[|run| - 1].prices|, 1
  {
    var s := run[|run| - 1];
    var k := |s.prices|;
    assert r in Owned(s.utxos, t.sender);
    PaidUpIsDue(t, plan, run);
    SomeSnapshot(s.utxos);
    var snapshot: Snapshot :| Shows(snapshot, s.utxos);
    OneCoinPaysIff(snapshot, s.utxos, t.sender, plan[k], r);
    if Select(snapshot, t.sender, plan[k]).Err? {
      short := run;
    } else {
      var longer, p, pay, back := SubmitAndLand(t, run, plan[k], snapshot);
      short := AfterOneCoin(t, plan, funds, s, p, longer, r, pay, back);
    }
  }

  /** A payment from the only coin leaves its change, or no coin at all. */
  lemma OneCoinSpent(utxos: Utxos, p: Payment, r: Ref, pay: Ref, back: Ref)
    requires p.sender != p.receiver && Balanced(utxos, p) && p.inputs != {} && Owned(utxos, p.sender) == {r}
    requires pay !in utxos && back !in utxos && pay != back
    ensures var after := Apply(utxos, p, pay, back);
      && r in utxos && p.change == utxos[r].lovelace - p.amount
      && (if p.change > 0 then Owned(after, p.sender) == {back} && after[back].lovelace == p.change
          else Owned(after, p.sender) == {})
  {
    assert r in Owned(utxos, p.sender);
    assert p.inputs == {r};
    SumWithout(utxos, {r}, r);
    assert {r} - {r} == {};
    OwnedAfter(utxos, p, pay, back);
  }

  lemma NoCoinIsShort(t: Terms, plan: Plan, run: seq<State>)
    requires Run(t, run) && t.sender != t.receiver && PaidUp(run[|run| - 1])
    requires |run[|run| - 1].prices| < |plan| && Owned(run[|run| - 1].utxos, t.sender) == {}
    ensures !NeverShort(t, plan, run[|run| - 1])
  {
    var s := run[|run| - 1];
    PaidUpIsDue(t, plan, run);
    SomeSnapshot(s.utxos);
    var snapshot: Snapshot :| Shows(snapshot, s.utxos);
    NoCoinNoPayment(snapshot, s.utxos, t.sender, plan[|s.prices|]);
  }

  lemma {:induction false} AfterOneCoin(t: Terms, plan: Plan, funds: U64, s: State, p: Payment,
                                        run: seq<State>, r: Ref, pay: Ref, back: Ref)
    returns (short: seq<State>)
    requires t.sender != t.receiver && Legal(plan) && !Covers(funds, plan)
    requires Run(t, run) && Balance(run[0].utxos, t.sender) == funds
    requires s.prices <= plan && |s.prices| < |plan| && PaidUp(s) && s.utxos.Keys <= s.used
    requires Owned(s.utxos, t.sender) == {r} && r in s.utxos && s.utxos[r].lovelace == funds - Cost(s.prices)
    requires p.amount == plan[|s.prices|] && p.sender == t.sender && p.receiver == t.receiver
    requires Enough(s.utxos[r].lovelace, p.amount)
    requires Balanced(s.utxos, p) && p.inputs != {} && pay !in s.used && back !in s.used && pay != back
    requires Landed(s, p, pay, back, run[|run| - 1])
    ensures Follows(t, plan, funds, short) && !NeverShort(t, plan, short[|short| - 1])
    decreases |plan| - |s.prices|, 0
  {
    var k := |s.prices|;
    var next := run[|run| - 1];
    assert next.prices == plan[..k + 1] && next.prices[..k] == s.prices;
    assert k + 1 == |plan| ==> next.prices == plan;
    OneCoinSpent(s.utxos, p, r, pay, back);
    if p.change > 0 {
      short := DrainOneCoin(t, plan, funds, run, back);
    } else {
      short := run;
      NoCoinIsShort(t, plan, run);
    }
  }

  /** Whatever the split and the order of events: exactly the funds that cover the plan. */
  lemma AlwaysSolventIff(t: Terms, plan: Plan, funds: U64)
    requires t.sender != t.receiver && Legal(plan) && plan != []
    ensures AlwaysSolvent(t, plan, funds) <==> Covers(funds, plan)
  {
    if Covers(funds, plan) {
      forall run | Follows(t, plan, funds, run)
        ensures NeverShort(t, plan, run[|run| - 1])
      {
        PlanSolvency(t, plan, funds, run);
      }
    } else {
      var utxos := SingleCoin(0, t.sender, funds);
      SingleCoinBalance(0, t.sender, funds);
      var start := State(utxos, {0}, {}, [], [], [], {});
      var short := DrainOneCoin(t, plan, funds, [start], 0);
    }
  }
}
