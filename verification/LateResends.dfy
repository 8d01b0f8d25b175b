/** Exactly when sending a microtransaction again lets it be paid twice. */
module LateResends {
  import opened Prelude
  import opened CoinSelection
  import opened Ledger
  import opened Session
  import opened Solvency

  ghost predicate Lands(t: Terms, s: State, next: State) {
    exists i: nat, pay: Ref, back: Ref :: Enabled(t, s, Land(i, pay, back)) && next == AfterLand(s, i, pay, back)
  }

  /** Submissions are applied one after the other, and nothing else happens. */
  ghost predicate Landings(t: Terms, states: seq<State>) {
    states != [] && forall i :: 0 <= i < |states| - 1 ==> Lands(t, states[i], states[i + 1])
  }

  /** What has been sent so far can pay the microtransaction twice. */
  ghost predicate CanPayTwice(t: Terms, s: State, micro: nat) {
    exists states: seq<State> ::
      Landings(t, states) && states[0] == s && Occurrences(states[|states| - 1].applied, micro) >= 2
  }

  lemma {:induction false} LandingsKeepRun(t: Terms, run: seq<State>, states: seq<State>) returns (longer: seq<State>)
    requires Run(t, run) && Landings(t, states) && states[0] == run[|run| - 1]
    ensures Run(t, longer) && longer[|longer| - 1] == states[|states| - 1]
    ensures states[|states| - 1].late == run[|run| - 1].late
    decreases |states|
  {
    if |states| == 1 {
      longer := run;
    } else {
      var n := |states| - 1;
      assert Landings(t, states[..n]) by {
        forall i | 0 <= i < n - 1
          ensures Lands(t, states[..n][i], states[..n][i + 1])
        {
          assert Lands(t, states[i], states[i + 1]);
        }
      }
      longer := LandingsKeepRun(t, run, states[..n]);
      assert Lands(t, states[n - 1], states[n - 1 + 1]);
      var i: nat, pay, back :| Enabled(t, states[n - 1], Land(i, pay, back))
        && states[n] == AfterLand(states[n - 1], i, pay, back);
      StepIsNext(t, states[n - 1], Land(i, pay, back));
      longer := Follow(t, longer, states[n]);
    }
  }

  lemma {:induction false} TwoOccurrences(s: seq<nat>, x: nat)
    requires Occurrences(s, x) >= 2
    ensures exists j, k :: 0 <= j < k < |s| && s[j] == s[k] == x
  {
    var init, last := s[..|s| - 1], s[|s| - 1];
    assert s == init + [last];
    if last == x {
      assert x in init;
      var j :| 0 <= j < |init| && init[j] == x;
      assert s[j] == s[|s| - 1] == x;
    } else {
      TwoOccurrences(init, x);
      var j, k :| 0 <= j < k < |init| && init[j] == init[k] == x;
      assert s[j] == s[k] == x;
    }
  }

  /** As long as nothing was sent again late, nothing can be paid twice. */
  lemma NotLateNotTwice(t: Terms, run: seq<State>, micro: nat)
    requires Run(t, run) && t.sender != t.receiver && micro !in run[|run| - 1].late
    ensures !CanPayTwice(t, run[|run| - 1], micro)
  {
    forall states: seq<State> | Landings(t, states) && states[0] == run[|run| - 1]
      ensures Occurrences(states[|states| - 1].applied, micro) < 2
    {
      var longer := LandingsKeepRun(t, run, states);
      if Occurrences(states[|states| - 1].applied, micro) >= 2 {
        TwoOccurrences(states[|states| - 1].applied, micro);
        var applied := states[|states| - 1].applied;
        var j, k :| 0 <= j < k < |applied| && applied[j] == applied[k] == micro;
        PaidAtMostOnce(t, longer, j, k);
      }
    }
  }

  lemma LandOne(t: Terms, s: State, i: nat) returns (next: State)
    requires i < |s.pool| && Applicable(s.utxos, s.pool[i].payment)
    ensures Lands(t, s, next) && next.applied == s.applied + [s.pool[i].micro] && next.pool == s.pool
    ensures forall r <- s.utxos :: r !in s.pool[i].payment.inputs ==> r in next.utxos
  {
    var pay := FreshRef(s.used);
    assert Enabled(t, s, Land(i, pay, pay + 1));
    next := AfterLand(s, i, pay, pay + 1);
  }

  /** The earlier submission and the resend, one after the other. */
  lemma BothLand(t: Terms, s: State, i: nat, k: nat) returns (states: seq<State>)
    requires i < |s.pool| && k < |s.pool| && s.pool[i].micro == s.pool[k].micro
    requires Applicable(s.utxos, s.pool[i].payment) && Applicable(s.utxos, s.pool[k].payment)
    requires s.pool[i].payment.inputs !! s.pool[k].payment.inputs
    ensures Landings(t, states) && states[0] == s
    ensures Occurrences(states[|states| - 1].applied, s.pool[k].micro) >= 2
  {
    var one := LandOne(t, s, i);
    var two := LandOne(t, one, k);
    states := [s, one, two];
    assert two.applied == s.applied + [s.pool[i].micro] + [s.pool[k].micro];
  }

  lemma LatePaysTwice(t: Terms, s: State, micro: nat, p: Payment)
    requires Late(s, micro, p) && Applicable(s.utxos, p)
    ensures CanPayTwice(t, AfterResend(s, micro, p), micro)
  {
    var next := AfterResend(s, micro, p);
    if micro in s.applied {
      var landed := LandOne(t, next, |s.pool|);
      assert landed.applied == s.applied + [micro];
      assert Landings(t, [next, landed]);
    } else {
      var i :| 0 <= i < |s.pool| && s.pool[i].micro == micro && Applicable(s.utxos, s.pool[i].payment)
        && s.pool[i].payment.inputs !! p.inputs;
      assert next.pool[i] == s.pool[i];
      var states := BothLand(t, next, i, |s.pool|);
    }
  }

  /**
   Of a microtransaction that nothing was sent late of, in any run: sending it again lets it be paid
   twice, without anything more being sent, iff it has been applied or the resend goes astray. Before
   the resend it cannot be.
   */
  lemma ResendPaysTwiceIff(t: Terms, run: seq<State>, micro: nat, snapshot: Snapshot)
    requires Run(t, run) && t.sender != t.receiver && micro !in run[|run| - 1].late
    requires Enabled(t, run[|run| - 1], Resend(micro, snapshot))
    ensures var s := run[|run| - 1];
      && !CanPayTwice(t, s, micro)
      && (CanPayTwice(t, After(t, s, Resend(micro, snapshot)), micro)
          <==> Late(s, micro, Chosen(t, s.prices[micro], snapshot)))
  {
    var s := run[|run| - 1];
    var p := Chosen(t, s.prices[micro], snapshot);
    NotLateNotTwice(t, run, micro);
    RunKeepsInv(t, run);
    ChosenIsBalanced(t, s, s.prices[micro], snapshot);
    if Late(s, micro, p) {
      LatePaysTwice(t, s, micro, p);
    } else {
      StepIsNext(t, s, Resend(micro, snapshot));
      var longer := Follow(t, run, After(t, s, Resend(micro, snapshot)));
      NotLateNotTwice(t, longer, micro);
    }
  }
}
