/** Sessions whose microtransactions all cost the same: the submissions that can still apply are all alike. */
module EqualPrices {
  import opened Prelude
  import opened CoinSelection
  import opened CoinSelectionLaws
  import opened Ledger
  import opened Session

  predicate AllCost(s: State, amount: U64) {
    forall k :: 0 <= k < |s.prices| ==> s.prices[k] == amount
  }

  /** A submission that can still apply is the one that the current snapshot would select. */
  ghost predicate Current(t: Terms, utxos: Utxos, amount: U64, p: Payment) {
    forall snapshot :: Shows(snapshot, utxos) ==>
      Select(snapshot, t.sender, amount).Ok? && p == Chosen(t, amount, snapshot)
  }

  ghost predicate EqualInv(t: Terms, s: State, amount: U64) {
    && s.utxos.Keys <= s.used
    && (forall x <- s.pool :: x.payment.inputs != {} && x.payment.inputs <= s.used)
    && (forall x <- s.pool | Applicable(s.utxos, x.payment) :: Current(t, s.utxos, amount, x.payment))
    && (forall micro <- s.late :: micro in s.applied)
  }

  lemma ChosenIsCurrent(t: Terms, utxos: Utxos, amount: U64, snapshot: Snapshot)
    requires Shows(snapshot, utxos) && Select(snapshot, t.sender, amount).Ok?
    ensures Current(t, utxos, amount, Chosen(t, amount, snapshot))
  {
    forall other | Shows(other, utxos)
      ensures other == snapshot
    {
      ShowsUnique(snapshot, other, utxos);
    }
  }

  /** Two submissions that can both apply are the same payment. */
  lemma CurrentIsUnique(t: Terms, utxos: Utxos, amount: U64, p: Payment, q: Payment)
    requires Current(t, utxos, amount, p) && Current(t, utxos, amount, q)
    ensures p == q
  {
    SomeSnapshot(utxos);
  }

  /** Once a submission has landed, no submission made before can apply any more. */
  lemma LandingEndsAll(t: Terms, s: State, amount: U64, i: nat, pay: Ref, back: Ref, x: Submission)
    requires EqualInv(t, s, amount) && Enabled(t, s, Land(i, pay, back)) && x in s.pool
    ensures !Applicable(AfterLand(s, i, pay, back).utxos, x.payment)
  {
    var after := AfterLand(s, i, pay, back).utxos;
    if Applicable(s.utxos, x.payment) {
      CurrentIsUnique(t, s.utxos, amount, x.payment, s.pool[i].payment);
      var r :| r in x.payment.inputs;
      assert r in s.used && r !in after;
    } else {
      var r :| r in x.payment.inputs && r !in s.utxos;
      assert r in s.used && r !in after;
    }
  }

  lemma ResendNeverStrays(t: Terms, s: State, amount: U64, micro: nat, snapshot: Snapshot)
    requires EqualInv(t, s, amount) && Shows(snapshot, s.utxos) && Select(snapshot, t.sender, amount).Ok?
    ensures !Strays(s, micro, Chosen(t, amount, snapshot))
  {
    var p := Chosen(t, amount, snapshot);
    ChosenIsCurrent(t, s.utxos, amount, snapshot);
    SelectedPaymentBalanced(snapshot, s.utxos, t.sender, t.receiver, amount);
    forall i | 0 <= i < |s.pool| && Applicable(s.utxos, s.pool[i].payment)
      ensures s.pool[i].payment == p
    {
      CurrentIsUnique(t, s.utxos, amount, p, s.pool[i].payment);
    }
  }

  lemma SubmitKeepsEqual(t: Terms, s: State, amount: U64, micro: nat, snapshot: Snapshot)
    requires EqualInv(t, s, amount) && Shows(snapshot, s.utxos) && Select(snapshot, t.sender, amount).Ok?
    ensures EqualInv(t, Submit(s, micro, Chosen(t, amount, snapshot)), amount)
  {
    ChosenIsCurrent(t, s.utxos, amount, snapshot);
    ChosenIsBalanced(t, s, amount, snapshot);
  }

  lemma NextKeepsEqual(t: Terms, s: State, s': State, amount: U64)
    requires EqualInv(t, s, amount) && Next(t, s, s') && AllCost(s', amount)
    ensures EqualInv(t, s', amount)
  {
    var step :| Enabled(t, s, step) && s' == After(t, s, step);
    match step
    case Start(price, snapshot) =>
      assert s'.prices[|s.prices|] == amount;
      SubmitKeepsEqual(t, s, amount, |s.prices|, snapshot);
    case Resend(micro, snapshot) =>
      assert s'.prices[micro] == amount;
      SubmitKeepsEqual(t, s, amount, micro, snapshot);
      ResendNeverStrays(t, s, amount, micro, snapshot);
    case Land(i, pay, back) =>
      forall x <- s.pool
        ensures !Applicable(s'.utxos, x.payment)
      {
        LandingEndsAll(t, s, amount, i, pay, back, x);
      }
  }

  lemma NextKeepsPrices(t: Terms, s: State, s': State, amount: U64)
    requires Next(t, s, s') && AllCost(s', amount)
    ensures AllCost(s, amount)
  {
    assert forall k :: 0 <= k < |s.prices| ==> s'.prices[k] == s.prices[k];
  }

  lemma {:induction false} RunKeepsEqual(t: Terms, run: seq<State>, amount: U64)
    requires Run(t, run) && AllCost(run[|run| - 1], amount)
    ensures EqualInv(t, run[|run| - 1], amount)
    decreases |run|
  {
    if |run| > 1 {
      RunPrefix(t, run);
      NextKeepsPrices(t, run[|run| - 2], run[|run| - 1], amount);
      RunKeepsEqual(t, run[..|run| - 1], amount);
      NextKeepsEqual(t, run[|run| - 2], run[|run| - 1], amount);
    }
  }

  /** Resent while an earlier submission can still apply, a microtransaction is the very same payment again. */
  lemma EarlyResendIsSamePayment(t: Terms, run: seq<State>, amount: U64, x: Submission, snapshot: Snapshot)
    requires Run(t, run) && AllCost(run[|run| - 1], amount)
    requires var s := run[|run| - 1];
      x in s.pool && Applicable(s.utxos, x.payment) && Shows(snapshot, s.utxos)
    ensures Select(snapshot, t.sender, amount).Ok? && Chosen(t, amount, snapshot) == x.payment
  {
    RunKeepsEqual(t, run, amount);
    assert Current(t, run[|run| - 1].utxos, amount, x.payment);
  }

  /** With equal prices only a resend of what has been applied already is late. */
  lemma OnlyAppliedAreLate(t: Terms, run: seq<State>, amount: U64, micro: nat)
    requires Run(t, run) && AllCost(run[|run| - 1], amount) && micro in run[|run| - 1].late
    ensures micro in run[|run| - 1].applied
  {
    RunKeepsEqual(t, run, amount);
  }
}
