/**
 One L2 session: microtransactions of any amounts are submitted from the current
 snapshot, may be submitted again, and apply in any order the ledger allows.
 */
module Session {
  import opened Prelude
  import opened CoinSelection
  import opened CoinSelectionLaws
  import opened Ledger

  // ------------------------------------------------------------------ the session

  datatype Terms = Terms(sender: Address, receiver: Address)

  /** A payment sent to the head for microtransaction number `micro`. */
  datatype Submission = Submission(micro: nat, payment: Payment)

  /**
   `prices` are the amounts of the microtransactions started so far, `used` holds every
   ref there ever was, `paid` the refs of the applied payments' outputs, `applied` the
   numbers of the applied submissions in order. A number is in `late` when it was sent
   again although it had been applied, or with inputs that an earlier submission of it,
   still able to apply, does not share.
   */
  datatype State = State(
    utxos: Utxos,
    used: set<Ref>,
    paid: set<Ref>,
    pool: seq<Submission>,
    prices: seq<U64>,
    applied: seq<nat>,
    late: set<nat>)

  datatype Step =
    | Start(amount: U64, snapshot: Snapshot)
    | Resend(micro: nat, again: Snapshot)
    | Land(index: nat, pay: Ref, back: Ref)

  predicate InitialState(s: State) {
    && s.used >= s.utxos.Keys
    && s.paid == {} && s.pool == [] && s.prices == [] && s.applied == [] && s.late == {}
  }

  /** The payment that the snapshot gives rise to. */
  function Chosen(t: Terms, amount: U64, snapshot: Snapshot): Payment
    requires Select(snapshot, t.sender, amount).Ok?
  {
    PaymentOf(Select(snapshot, t.sender, amount).value, t.sender, t.receiver, amount)
  }

  /** An earlier submission of the microtransaction can still apply, and spends other coins. */
  predicate Strays(s: State, micro: nat, p: Payment) {
    exists i :: 0 <= i < |s.pool| && s.pool[i].micro == micro && Applicable(s.utxos, s.pool[i].payment)
      && s.pool[i].payment.inputs !! p.inputs
  }

  /** The microtransaction has been applied, or the payment goes astray. */
  predicate Late(s: State, micro: nat, p: Payment) {
    micro in s.applied || Strays(s, micro, p)
  }

  function Submit(s: State, micro: nat, p: Payment): State {
    s.(pool := s.pool + [Submission(micro, p)])
  }

  ghost predicate Enabled(t: Terms, s: State, step: Step) {
    match step
    case Start(amount, snapshot) => Shows(snapshot, s.utxos) && Select(snapshot, t.sender, amount).Ok?
    case Resend(micro, snapshot) =>
      micro < |s.prices| && Shows(snapshot, s.utxos) && Select(snapshot, t.sender, s.prices[micro]).Ok?
    case Land(i, pay, back) =>
      && i < |s.pool| && Applicable(s.utxos, s.pool[i].payment)
      && pay !in s.used && back !in s.used && pay != back
  }

  function AfterStart(s: State, p: Payment): State {
    Submit(s, |s.prices|, p).(prices := s.prices + [p.amount])
  }

  function AfterResend(s: State, micro: nat, p: Payment): State {
    Submit(s, micro, p).(late := if Late(s, micro, p) then s.late + {micro} else s.late)
  }

  function AfterLand(s: State, i: nat, pay: Ref, back: Ref): State
    requires i < |s.pool|
  {
    s.(utxos := Apply(s.utxos, s.pool[i].payment, pay, back),
       used := s.used + {pay, back},
       paid := s.paid + {pay},
       applied := s.applied + [s.pool[i].micro])
  }

  ghost function After(t: Terms, s: State, step: Step): State
    requires Enabled(t, s, step)
  {
    match step
    case Start(amount, snapshot) => AfterStart(s, Chosen(t, amount, snapshot))
    case Resend(micro, snapshot) => AfterResend(s, micro, Chosen(t, s.prices[micro], snapshot))
    case Land(i, pay, back) => AfterLand(s, i, pay, back)
  }

  ghost predicate Next(t: Terms, s: State, s': State) {
    exists step :: Enabled(t, s, step) && s' == After(t, s, step)
  }

  lemma StepIsNext(t: Terms, s: State, step: Step)
    requires Enabled(t, s, step)
    ensures Next(t, s, After(t, s, step))
  {
  }

  lemma ResendIsNext(t: Terms, s: State, micro: nat, amount: U64, snapshot: Snapshot)
    requires micro < |s.prices| && s.prices[micro] == amount
    requires Shows(snapshot, s.utxos) && Select(snapshot, t.sender, amount).Ok?
    ensures Next(t, s, AfterResend(s, micro, Chosen(t, amount, snapshot)))
  {
    StepIsNext(t, s, Resend(micro, snapshot));
  }

  ghost predicate Run(t: Terms, run: seq<State>) {
    && run != [] && InitialState(run[0])
    && forall i :: 0 <= i < |run| - 1 ==> Next(t, run[i], run[i + 1])
  }

  // ------------------------------------------------------------------ invariant

  predicate Within(applied: seq<nat>, n: nat) {
    forall k :: 0 <= k < |applied| ==> applied[k] < n
  }

  /** What the applied microtransactions are worth. */
  function Spent(prices: seq<U64>, applied: seq<nat>): nat
    requires Within(applied, |prices|)
  {
    if applied == [] then 0
    else Spent(prices, applied[..|applied| - 1]) + prices[applied[|applied| - 1]]
  }

  /** A submission is for its microtransaction; while it can apply, it moves what its inputs are worth. */
  ghost predicate SubmissionInv(t: Terms, s: State, x: Submission) {
    && x.micro < |s.prices|
    && x.payment.inputs != {} && x.payment.inputs <= s.used
    && x.payment.amount == s.prices[x.micro] && x.payment.sender == t.sender && x.payment.receiver == t.receiver
    && (Applicable(s.utxos, x.payment) ==> Balanced(s.utxos, x.payment))
    && (Applicable(s.utxos, x.payment) && x.micro in s.applied ==> x.micro in s.late)
  }

  ghost predicate PoolInv(t: Terms, s: State) {
    forall x <- s.pool :: SubmissionInv(t, s, x)
  }

  /** Two submissions of one microtransaction that can both apply share an input, unless it is late. */
  predicate RivalsInv(s: State) {
    forall x <- s.pool, y <- s.pool | x.micro == y.micro && x.micro !in s.late ::
      Applicable(s.utxos, x.payment) && Applicable(s.utxos, y.payment) ==> !(x.payment.inputs !! y.payment.inputs)
  }

  predicate PaidInv(t: Terms, s: State) {
    && |s.paid| == |s.applied|
    && s.paid <= s.utxos.Keys
    && forall r <- s.paid :: s.utxos[r].address == t.receiver
  }

  predicate AppliedInv(s: State) {
    && Within(s.applied, |s.prices|)
    && forall j, k :: 0 <= j < k < |s.applied| && s.applied[j] == s.applied[k] ==> s.applied[k] in s.late
  }

  /** The coins are the sender's, the payments', and `others` that nobody spends. */
  predicate OthersInv(t: Terms, others: set<Ref>, s: State) {
    && others !! s.paid
    && (forall r <- others :: r in s.utxos && s.utxos[r].address != t.sender)
    && forall r <- s.utxos :: s.utxos[r].address == t.sender || r in s.paid || r in others
  }

  ghost predicate FundsInv(t: Terms, funds: nat, s: State) {
    && AppliedInv(s)
    && Balance(s.utxos, t.sender) + Spent(s.prices, s.applied) == funds
  }

  ghost predicate Inv(t: Terms, funds: nat, others: set<Ref>, s: State) {
    && s.utxos.Keys <= s.used
    && PoolInv(t, s) && RivalsInv(s) && PaidInv(t, s) && OthersInv(t, others, s) && FundsInv(t, funds, s)
  }

  // ------------------------------------------------------------------ a submission

  /** A longer price list and a larger late set keep what is known of a submission. */
  lemma SubmissionCarries(t: Terms, s: State, next: State, x: Submission)
    requires SubmissionInv(t, s, x)
    requires next.utxos == s.utxos && next.used == s.used && next.applied == s.applied
    requires s.prices <= next.prices && s.late <= next.late
    ensures SubmissionInv(t, next, x)
  {
  }

  lemma ChosenIsBalanced(t: Terms, s: State, amount: U64, snapshot: Snapshot)
    requires s.utxos.Keys <= s.used && Shows(snapshot, s.utxos) && Select(snapshot, t.sender, amount).Ok?
    ensures var p := Chosen(t, amount, snapshot);
      && Balanced(s.utxos, p) && p.inputs != {} && p.inputs <= s.used
      && p.amount == amount && p.sender == t.sender && p.receiver == t.receiver
  {
    SelectedPaymentBalanced(snapshot, s.utxos, t.sender, t.receiver, amount);
  }

  lemma SpentCarries(prices: seq<U64>, longer: seq<U64>, applied: seq<nat>)
    requires prices <= longer && Within(applied, |prices|)
    ensures Spent(longer, applied) == Spent(prices, applied)
  {
    if applied != [] {
      SpentCarries(prices, longer, applied[..|applied| - 1]);
    }
  }

  lemma StartKeepsPool(t: Terms, s: State, p: Payment)
    requires PoolInv(t, s) && AppliedInv(s)
    requires Balanced(s.utxos, p) && p.inputs != {} && p.inputs <= s.used
    requires p.sender == t.sender && p.receiver == t.receiver
    ensures PoolInv(t, AfterStart(s, p))
  {
    var next := AfterStart(s, p);
    forall x <- next.pool
      ensures SubmissionInv(t, next, x)
    {
      if x in s.pool {
        SubmissionCarries(t, s, next, x);
      }
    }
  }

  lemma StartKeepsRivals(t: Terms, s: State, p: Payment)
    requires PoolInv(t, s) && RivalsInv(s) && p.inputs != {}
    ensures RivalsInv(AfterStart(s, p))
  {
    var next := AfterStart(s, p);
    forall x <- next.pool, y <- next.pool | x.micro == y.micro && x.micro !in next.late
      && Applicable(next.utxos, x.payment) && Applicable(next.utxos, y.payment)
      ensures !(x.payment.inputs !! y.payment.inputs)
    {
      assert x in s.pool ==> SubmissionInv(t, s, x);
      assert y in s.pool ==> SubmissionInv(t, s, y);
      assert x in s.pool <==> y in s.pool;
    }
  }

  lemma StartKeepsInv(t: Terms, funds: nat, others: set<Ref>, s: State, amount: U64, snapshot: Snapshot)
    requires Inv(t, funds, others, s) && Enabled(t, s, Start(amount, snapshot))
    ensures Inv(t, funds, others, After(t, s, Start(amount, snapshot)))
  {
    var p := Chosen(t, amount, snapshot);
    ChosenIsBalanced(t, s, amount, snapshot);
    StartKeepsPool(t, s, p);
    StartKeepsRivals(t, s, p);
    SpentCarries(s.prices, s.prices + [amount], s.applied);
  }

  lemma ResendKeepsPool(t: Terms, s: State, micro: nat, p: Payment)
    requires PoolInv(t, s) && micro < |s.prices|
    requires Balanced(s.utxos, p) && p.inputs != {} && p.inputs <= s.used
    requires p.sender == t.sender && p.receiver == t.receiver && p.amount == s.prices[micro]
    ensures PoolInv(t, AfterResend(s, micro, p))
  {
    var next := AfterResend(s, micro, p);
    forall x <- next.pool
      ensures SubmissionInv(t, next, x)
    {
      if x in s.pool {
        SubmissionCarries(t, s, next, x);
      }
    }
  }

  lemma ResendKeepsRivals(s: State, micro: nat, p: Payment)
    requires RivalsInv(s) && p.inputs != {}
    ensures RivalsInv(AfterResend(s, micro, p))
  {
    var next := AfterResend(s, micro, p);
    var z := Submission(micro, p);
    forall x <- next.pool, y <- next.pool | x.micro == y.micro && x.micro !in next.late
      && Applicable(next.utxos, x.payment) && Applicable(next.utxos, y.payment)
      ensures !(x.payment.inputs !! y.payment.inputs)
    {
      assert x in s.pool || x == z;
      assert y in s.pool || y == z;
      if x in s.pool && y !in s.pool {
        NoStray(s, micro, p, x);
      } else if y in s.pool && x !in s.pool {
        NoStray(s, micro, p, y);
      }
    }
  }

  lemma NoStray(s: State, micro: nat, p: Payment, x: Submission)
    requires !Strays(s, micro, p) && x in s.pool && x.micro == micro && Applicable(s.utxos, x.payment)
    ensures !(x.payment.inputs !! p.inputs)
  {
    var i :| 0 <= i < |s.pool| && s.pool[i] == x;
  }

  lemma ResendKeepsInv(t: Terms, funds: nat, others: set<Ref>, s: State, micro: nat, snapshot: Snapshot)
    requires Inv(t, funds, others, s) && Enabled(t, s, Resend(micro, snapshot))
    ensures Inv(t, funds, others, After(t, s, Resend(micro, snapshot)))
  {
    var p := Chosen(t, s.prices[micro], snapshot);
    ChosenIsBalanced(t, s, s.prices[micro], snapshot);
    ResendKeepsPool(t, s, micro, p);
    ResendKeepsRivals(s, micro, p);
  }

  // ------------------------------------------------------------------ an application

  /** A payment that can apply after a landing could before, and its coins are untouched. */
  lemma LandLeaves(t: Terms, s: State, i: nat, pay: Ref, back: Ref, x: Submission)
    requires s.utxos.Keys <= s.used && Enabled(t, s, Land(i, pay, back)) && x.payment.inputs <= s.used
    requires Applicable(AfterLand(s, i, pay, back).utxos, x.payment)
    ensures Applicable(s.utxos, x.payment) && x.payment.inputs !! s.pool[i].payment.inputs
    ensures Balanced(s.utxos, x.payment) ==> Balanced(AfterLand(s, i, pay, back).utxos, x.payment)
  {
    var after := AfterLand(s, i, pay, back).utxos;
    forall r <- x.payment.inputs
      ensures r in s.utxos && r !in s.pool[i].payment.inputs && after[r] == s.utxos[r]
    {
      assert r in s.used && r in after;
    }
    SumAgrees(s.utxos, after, x.payment.inputs);
  }

  /** No other submission of the microtransaction that lands can apply any more, unless it is late. */
  lemma LandingEndsRivals(t: Terms, s: State, i: nat, pay: Ref, back: Ref, x: Submission)
    requires s.utxos.Keys <= s.used && PoolInv(t, s) && RivalsInv(s) && Enabled(t, s, Land(i, pay, back))
    requires x in s.pool && x.micro == s.pool[i].micro && x.micro !in s.late
    ensures !Applicable(AfterLand(s, i, pay, back).utxos, x.payment)
  {
    assert SubmissionInv(t, s, x) && s.pool[i] in s.pool;
    if Applicable(AfterLand(s, i, pay, back).utxos, x.payment) {
      LandLeaves(t, s, i, pay, back, x);
    }
  }

  lemma LandKeepsPool(t: Terms, s: State, i: nat, pay: Ref, back: Ref)
    requires s.utxos.Keys <= s.used && PoolInv(t, s) && RivalsInv(s) && Enabled(t, s, Land(i, pay, back))
    ensures PoolInv(t, AfterLand(s, i, pay, back))
  {
    var next := AfterLand(s, i, pay, back);
    forall x <- s.pool
      ensures SubmissionInv(t, next, x)
    {
      assert SubmissionInv(t, s, x);
      if Applicable(next.utxos, x.payment) {
        LandLeaves(t, s, i, pay, back, x);
        if x.micro == s.pool[i].micro && x.micro !in s.late {
          LandingEndsRivals(t, s, i, pay, back, x);
        }
      }
    }
  }

  lemma LandKeepsRivals(t: Terms, s: State, i: nat, pay: Ref, back: Ref)
    requires s.utxos.Keys <= s.used && PoolInv(t, s) && RivalsInv(s) && Enabled(t, s, Land(i, pay, back))
    ensures RivalsInv(AfterLand(s, i, pay, back))
  {
    var next := AfterLand(s, i, pay, back);
    forall x <- next.pool, y <- next.pool | x.micro == y.micro && x.micro !in next.late
      && Applicable(next.utxos, x.payment) && Applicable(next.utxos, y.payment)
      ensures !(x.payment.inputs !! y.payment.inputs)
    {
      assert SubmissionInv(t, s, x) && SubmissionInv(t, s, y);
      LandLeaves(t, s, i, pay, back, x);
      LandLeaves(t, s, i, pay, back, y);
    }
  }

  /** A landing leaves the coins of everybody else alone. */
  lemma LandKeepsForeign(t: Terms, s: State, i: nat, pay: Ref, back: Ref, r: Ref)
    requires s.utxos.Keys <= s.used && Enabled(t, s, Land(i, pay, back)) && Balanced(s.utxos, s.pool[i].payment)
    requires s.pool[i].payment.sender == t.sender && r in s.utxos && s.utxos[r].address != t.sender
    ensures var after := AfterLand(s, i, pay, back).utxos; r in after && after[r] == s.utxos[r]
  {
    assert r !in s.pool[i].payment.inputs;
  }

  lemma LandKeepsPaid(t: Terms, s: State, i: nat, pay: Ref, back: Ref)
    requires t.sender != t.receiver && s.utxos.Keys <= s.used && PaidInv(t, s)
    requires Enabled(t, s, Land(i, pay, back)) && Balanced(s.utxos, s.pool[i].payment)
    requires s.pool[i].payment.sender == t.sender && s.pool[i].payment.receiver == t.receiver
    ensures PaidInv(t, AfterLand(s, i, pay, back))
  {
    forall r <- s.paid
      ensures r in AfterLand(s, i, pay, back).utxos && AfterLand(s, i, pay, back).utxos[r] == s.utxos[r]
    {
      LandKeepsForeign(t, s, i, pay, back, r);
    }
    assert pay !in s.paid;
  }

  lemma LandKeepsOthers(t: Terms, others: set<Ref>, s: State, i: nat, pay: Ref, back: Ref)
    requires t.sender != t.receiver && s.utxos.Keys <= s.used && PaidInv(t, s) && OthersInv(t, others, s)
    requires Enabled(t, s, Land(i, pay, back)) && Balanced(s.utxos, s.pool[i].payment)
    requires s.pool[i].payment.sender == t.sender && s.pool[i].payment.receiver == t.receiver
    ensures OthersInv(t, others, AfterLand(s, i, pay, back))
  {
    var next := AfterLand(s, i, pay, back);
    forall r <- others
      ensures r in next.utxos && next.utxos[r] == s.utxos[r]
    {
      LandKeepsForeign(t, s, i, pay, back, r);
    }
    forall r <- next.utxos
      ensures next.utxos[r].address == t.sender || r in next.paid || r in others
    {
      assert r == pay || r == back || (r in s.utxos && s.utxos[r] == next.utxos[r]);
    }
  }

  lemma LandKeepsFunds(t: Terms, funds: nat, s: State, i: nat, pay: Ref, back: Ref)
    requires t.sender != t.receiver && s.utxos.Keys <= s.used && PoolInv(t, s) && FundsInv(t, funds, s)
    requires Enabled(t, s, Land(i, pay, back))
    ensures FundsInv(t, funds, AfterLand(s, i, pay, back))
  {
    assert SubmissionInv(t, s, s.pool[i]);
    ApplyBalanced(s.utxos, s.pool[i].payment, pay, back);
    assert (s.applied + [s.pool[i].micro])[..|s.applied|] == s.applied;
  }

  lemma LandKeepsInv(t: Terms, funds: nat, others: set<Ref>, s: State, i: nat, pay: Ref, back: Ref)
    requires t.sender != t.receiver && Inv(t, funds, others, s) && Enabled(t, s, Land(i, pay, back))
    ensures Inv(t, funds, others, AfterLand(s, i, pay, back))
  {
    assert SubmissionInv(t, s, s.pool[i]);
    LandKeepsPool(t, s, i, pay, back);
    LandKeepsRivals(t, s, i, pay, back);
    LandKeepsPaid(t, s, i, pay, back);
    LandKeepsOthers(t, others, s, i, pay, back);
    LandKeepsFunds(t, funds, s, i, pay, back);
  }

  // ------------------------------------------------------------------ whole runs

  lemma NextKeepsInv(t: Terms, funds: nat, others: set<Ref>, s: State, s': State)
    requires t.sender != t.receiver && Inv(t, funds, others, s) && Next(t, s, s')
    ensures Inv(t, funds, others, s')
  {
    var step :| Enabled(t, s, step) && s' == After(t, s, step);
    match step
    case Start(amount, snapshot) => StartKeepsInv(t, funds, others, s, amount, snapshot);
    case Resend(micro, snapshot) => ResendKeepsInv(t, funds, others, s, micro, snapshot);
    case Land(i, pay, back) => LandKeepsInv(t, funds, others, s, i, pay, back);
  }

  lemma RunPrefix(t: Terms, run: seq<State>)
    requires Run(t, run) && |run| > 1
    ensures Run(t, run[..|run| - 1])
    ensures Next(t, run[|run| - 2], run[|run| - 1])
  {
    var init := run[..|run| - 1];
    forall i | 0 <= i < |init| - 1
      ensures Next(t, init[i], init[i + 1])
    {
      assert Next(t, run[i], run[i + 1]);
    }
    assert Next(t, run[|run| - 2], run[|run| - 2 + 1]);
  }

  /** What nobody but the sender could spend at the start. */
  function Others(t: Terms, start: State): set<Ref> {
    start.utxos.Keys - Owned(start.utxos, t.sender)
  }

  lemma {:induction false} RunKeepsInv(t: Terms, run: seq<State>)
    requires Run(t, run) && t.sender != t.receiver
    ensures Inv(t, Balance(run[0].utxos, t.sender), Others(t, run[0]), run[|run| - 1])
    decreases |run|
  {
    if |run| > 1 {
      RunPrefix(t, run);
      RunKeepsInv(t, run[..|run| - 1]);
      NextKeepsInv(t, Balance(run[0].utxos, t.sender), Others(t, run[0]), run[|run| - 2], run[|run| - 1]);
    }
  }

  lemma Follow(t: Terms, run: seq<State>, next: State) returns (longer: seq<State>)
    requires Run(t, run) && Next(t, run[|run| - 1], next)
    ensures Run(t, longer) && longer[0] == run[0] && longer[|longer| - 1] == next
  {
    longer := run + [next];
    forall i | 0 <= i < |longer| - 1
      ensures Next(t, longer[i], longer[i + 1])
    {
      if i < |run| - 1 {
        assert Next(t, run[i], run[i + 1]);
      }
    }
  }

  // ------------------------------------------------------------------ snapshots and new refs

  /** Every ledger has a snapshot. */
  lemma {:induction false} SomeSnapshot(utxos: Utxos)
    ensures exists snapshot: Snapshot :: Shows(snapshot, utxos)
    decreases |utxos|
  {
    if utxos == map[] {
      var none: Snapshot := [];
      assert Shows(none, utxos);
    } else {
      var top := Greatest(utxos.Keys);
      var rest := utxos - {top};
      assert rest.Keys == utxos.Keys - {top};
      assert |rest| < |utxos|;
      SomeSnapshot(rest);
      var init: Snapshot :| Shows(init, rest);
      var e := Entry(top, utxos[top].address, Some(utxos[top].lovelace));
      forall k | 0 <= k < |init| ensures init[k].ref < top {
        assert init[k] in init;
      }
      var snapshot: Snapshot := init + [e];
      assert Shows(snapshot, utxos);
    }
  }

  lemma {:induction false} Greatest(refs: set<Ref>) returns (top: Ref)
    requires refs != {}
    ensures top in refs && forall r :: r in refs ==> r <= top
  {
    var x :| x in refs;
    if refs == {x} {
      top := x;
    } else {
      assert refs == {x} + (refs - {x});
      var y := Greatest(refs - {x});
      top := if x < y then y else x;
      forall r | r in refs ensures r <= top {
        assert r == x || r in refs - {x};
      }
    }
  }

  lemma {:induction false} FreshRef(used: set<Ref>) returns (r: Ref)
    ensures forall x :: x in used ==> x < r
  {
    if used == {} {
      r := 0;
    } else {
      r := Greatest(used);
      r := r + 1;
    }
  }
}
