/** What a selection guarantees, and exactly when there is one. */
module CoinSelectionLaws {
  import opened Prelude
  import opened CoinSelection

  // ------------------------------------------------------------------ prefix sums

  lemma {:induction false} PrefixOfStretch(cs: seq<Candidate>, n: nat, k: nat)
    requires k <= n <= |cs|
    ensures PrefixSum(cs[..n], k) == PrefixSum(cs, k)
  {
    if k != 0 {
      PrefixOfStretch(cs, n, k - 1);
    }
  }

  lemma {:induction false} PrefixMonotone(cs: seq<Candidate>, j: nat, k: nat)
    requires j <= k <= |cs|
    ensures PrefixSum(cs, j) <= PrefixSum(cs, k)
  {
    if j < k {
      PrefixMonotone(cs, j, k - 1);
    }
  }

  lemma {:induction false} ElementWithinTotal(cs: seq<Candidate>, i: nat)
    requires i < |cs|
    ensures cs[i].value <= Total(cs)
  {
    PrefixMonotone(cs, i + 1, |cs|);
  }

  lemma {:induction false} TotalOfAppend(cs: seq<Candidate>, c: Candidate)
    ensures Total(cs + [c]) == Total(cs) + c.value
  {
    PrefixOfStretch(cs + [c], |cs|, |cs|);
    assert (cs + [c])[..|cs|] == cs;
  }

  lemma {:induction false} TotalOfInsert(cs: seq<Candidate>, c: Candidate)
    ensures Total(Insert(cs, c)) == Total(cs) + c.value
  {
    if cs != [] {
      var init, last := cs[..|cs| - 1], cs[|cs| - 1];
      assert cs == init + [last];
      TotalOfAppend(init, last);
      if last.value <= c.value {
        TotalOfAppend(cs, c);
      } else {
        TotalOfInsert(init, c);
        TotalOfAppend(Insert(init, c), last);
      }
    } else {
      assert Insert(cs, c) == [] + [c];
      TotalOfAppend([], c);
    }
  }

  lemma {:induction false} TotalOfSort(cs: seq<Candidate>)
    ensures Total(SortByValue(cs)) == Total(cs)
  {
    if cs != [] {
      var init, last := cs[..|cs| - 1], cs[|cs| - 1];
      assert cs == init + [last];
      TotalOfSort(init);
      TotalOfInsert(SortByValue(init), last);
      TotalOfAppend(init, last);
    }
  }

  lemma SortKeepsMembers(cs: seq<Candidate>, c: Candidate)
    ensures c in SortByValue(cs) <==> c in cs
  {
    assert c in multiset(SortByValue(cs)) <==> c in multiset(cs);
  }

  // ------------------------------------------------------------------ candidates

  lemma {:induction false} FilterKeepsOrder(entries: seq<Entry>, sender: Address)
    requires AscendingKeys(entries)
    ensures AscendingKeys(Filter(entries, sender))
  {
    if entries != [] {
      var init, last := entries[..|entries| - 1], entries[|entries| - 1];
      FilterKeepsOrder(init, sender);
      var rest := Filter(init, sender);
      forall i | 0 <= i < |rest| ensures rest[i].ref < last.ref {
        assert rest[i] in init;
      }
    }
  }

  /** The candidates are the sender's entries, in ascending key order. */
  lemma CandidatesAreSenderEntries(snapshot: Snapshot, sender: Address)
    requires Candidates(snapshot, sender).Some?
    ensures AscendingRefs(Candidates(snapshot, sender).value)
    ensures forall c :: c in Candidates(snapshot, sender).value <==> Entry(c.ref, sender, Some(c.value)) in snapshot
  {
    FilterKeepsOrder(snapshot, sender);
    var f: seq<Entry>, cs := Filter(snapshot, sender), Candidates(snapshot, sender).value;
    forall c ensures c in cs <==> Entry(c.ref, sender, Some(c.value)) in snapshot {
      if Entry(c.ref, sender, Some(c.value)) in snapshot {
        var i :| 0 <= i < |f| && f[i] == Entry(c.ref, sender, Some(c.value));
        assert cs[i] == c;
      }
      if c in cs {
        var i :| 0 <= i < |cs| && cs[i] == c;
        assert f[i] in snapshot && f[i] == Entry(c.ref, sender, Some(c.value));
      }
    }
  }

  lemma SortedCandidates(snapshot: Snapshot, sender: Address) returns (cs: seq<Candidate>)
    requires Candidates(snapshot, sender).Some?
    ensures cs == SortByValue(Candidates(snapshot, sender).value)
    ensures StrictlySorted(cs)
    ensures forall c :: c in cs <==> Entry(c.ref, sender, Some(c.value)) in snapshot
    ensures Total(cs) == Total(Candidates(snapshot, sender).value)
  {
    var raw := Candidates(snapshot, sender).value;
    CandidatesAreSenderEntries(snapshot, sender);
    cs := SortByValue(raw);
    SortIsSorted(raw);
    TotalOfSort(raw);
    forall c ensures c in cs <==> c in raw {
      SortKeepsMembers(raw, c);
    }
  }

  lemma {:induction false} RefsDistinct(snapshot: Snapshot, cs: seq<Candidate>, sender: Address)
    requires StrictlySorted(cs)
    requires forall c :: c in cs ==> Entry(c.ref, sender, Some(c.value)) in snapshot
    ensures Distinct(Refs(cs))
  {
    forall i, j | 0 <= i < j < |cs| ensures cs[i].ref != cs[j].ref {
      assert Before(cs[i], cs[j]);
      var a :| 0 <= a < |snapshot| && snapshot[a] == Entry(cs[i].ref, sender, Some(cs[i].value));
      var b :| 0 <= b < |snapshot| && snapshot[b] == Entry(cs[j].ref, sender, Some(cs[j].value));
      assert a < b || b < a;
    }
  }

  // ------------------------------------------------------------------ the aggregation loop

  /** `k` is the first position at which the running sum is enough. */
  ghost predicate StopsAt(cs: seq<Candidate>, amount: U64, k: nat) {
    && 0 < k <= |cs|
    && Enough(PrefixSum(cs, k), amount)
    && forall j :: 0 < j < k ==> !Enough(PrefixSum(cs, j), amount)
  }

  ghost predicate NeverEnough(cs: seq<Candidate>, amount: U64) {
    forall j :: 0 < j <= |cs| ==> !Enough(PrefixSum(cs, j), amount)
  }

  /** The running sum leaves the `u64` range before any prefix is enough. */
  ghost predicate OverflowsFirst(cs: seq<Candidate>, amount: U64, k: nat) {
    && 0 < k <= |cs|
    && PrefixSum(cs, k) >= U64_SIZE
    && forall j :: 0 < j < k ==> !Enough(PrefixSum(cs, j), amount)
  }

  lemma {:induction false} AggregateOutcome(cs: seq<Candidate>, amount: U64, k: nat, total: U64)
    requires k <= |cs| && total == PrefixSum(cs, k)
    requires forall j :: 0 < j <= k ==> !Enough(PrefixSum(cs, j), amount)
    ensures match Aggregate(cs, amount, k, total)
      case Ok((n, t)) =>
        && t == PrefixSum(cs, n)
        && (StopsAt(cs, amount, n) || (n == |cs| && NeverEnough(cs, amount)))
      case Err(e) => e == SumOverflow && exists n :: OverflowsFirst(cs, amount, n)
    decreases |cs| - k
  {
    if k < |cs| {
      var next := total + cs[k].value;
      assert next == PrefixSum(cs, k + 1);
      if next >= U64_SIZE {
        assert OverflowsFirst(cs, amount, k + 1);
      } else if Enough(next, amount) {
        assert StopsAt(cs, amount, k + 1);
      } else {
        AggregateOutcome(cs, amount, k + 1, next);
      }
    }
  }

  // ------------------------------------------------------------------ soundness

  /** `chosen` is where the selected inputs and their sum come from. */
  ghost predicate Backs(chosen: seq<Candidate>, sel: Selection, snapshot: Snapshot, sender: Address) {
    && sel.inputs == Refs(chosen)
    && sel.total == Total(chosen)
    && forall c :: c in chosen ==> Entry(c.ref, sender, Some(c.value)) in snapshot
  }

  lemma PickIsSound(cs: seq<Candidate>, amount: U64) returns (chosen: seq<Candidate>)
    requires MIN_LOVELACE <= amount && amount + MIN_LOVELACE < U64_SIZE
    requires Pick(cs, amount).Ok?
    ensures var sel := Pick(cs, amount).value;
      && sel.inputs == Refs(chosen) && sel.total == Total(chosen)
      && sel.total == amount + sel.change
      && (sel.change == 0 || sel.change >= MIN_LOVELACE)
      && exists lo: nat, hi: nat :: lo < hi <= |cs| && chosen == cs[lo..hi]
  {
    var (lo, hi, total) := Choose(cs, amount).value;
    chosen := cs[lo..hi];
    if FirstEqual(cs, amount, 0) < |cs| || FirstAtLeast(cs, amount + MIN_LOVELACE, 0) < |cs| {
      assert chosen == [cs[lo]];
      assert PrefixSum(chosen, 1) == PrefixSum(chosen, 0) + chosen[0].value;
    } else {
      AggregateOutcome(cs, amount, 0, 0);
      PrefixOfStretch(cs, hi, hi);
      assert cs[0..hi] == cs[..hi];
    }
  }

  lemma StretchOfSorted(cs: seq<Candidate>, lo: nat, hi: nat, snapshot: Snapshot, sender: Address)
    requires StrictlySorted(cs) && lo <= hi <= |cs|
    requires forall c :: c in cs ==> Entry(c.ref, sender, Some(c.value)) in snapshot
    ensures Distinct(Refs(cs[lo..hi]))
    ensures forall c :: c in cs[lo..hi] ==> Entry(c.ref, sender, Some(c.value)) in snapshot
  {
    forall c | c in cs[lo..hi] ensures c in cs {}
    RefsDistinct(snapshot, cs[lo..hi], sender);
  }

  /**
   A successful selection names distinct inputs of the sender, whose values add
   up to the amount plus a change that is zero or a legal output.
   */
  lemma SelectionIsSound(snapshot: Snapshot, sender: Address, amount: U64) returns (chosen: seq<Candidate>)
    requires Select(snapshot, sender, amount).Ok?
    ensures amount >= MIN_LOVELACE
    ensures Backs(chosen, Select(snapshot, sender, amount).value, snapshot, sender)
    ensures Distinct(Select(snapshot, sender, amount).value.inputs)
    ensures Select(snapshot, sender, amount).value.inputs != []
    ensures var sel := Select(snapshot, sender, amount).value;
      sel.total == amount + sel.change && (sel.change == 0 || sel.change >= MIN_LOVELACE)
  {
    var cs := SortedCandidates(snapshot, sender);
    assert Select(snapshot, sender, amount) == Pick(cs, amount);
    chosen := PickIsSound(cs, amount);
    var lo: nat, hi: nat :| lo < hi <= |cs| && chosen == cs[lo..hi];
    StretchOfSorted(cs, lo, hi, snapshot, sender);
    assert |Refs(chosen)| > 0;
  }

  // ------------------------------------------------------------------ when it succeeds

  /** Some candidate pays exactly, or some candidate pays with legal change. */
  ghost predicate SingleInput(cs: seq<Candidate>, amount: U64) {
    exists i :: 0 <= i < |cs| && Enough(cs[i].value, amount)
  }

  lemma PickOutcome(cs: seq<Candidate>, amount: U64)
    requires MIN_LOVELACE <= amount && amount + MIN_LOVELACE < U64_SIZE
    ensures Pick(cs, amount).Ok? <==>
      SingleInput(cs, amount) || exists k :: StopsAt(cs, amount, k) && PrefixSum(cs, k) < U64_SIZE
  {
    var exact := FirstEqual(cs, amount, 0);
    var large := FirstAtLeast(cs, amount + MIN_LOVELACE, 0);
    if exact < |cs| {
      assert Enough(cs[exact].value, amount);
    } else if large < |cs| {
      assert Enough(cs[large].value, amount);
    } else {
      assert !SingleInput(cs, amount);
      AggregateOutcome(cs, amount, 0, 0);
      match Aggregate(cs, amount, 0, 0)
      case Ok((n, t)) =>
        if StopsAt(cs, amount, n) {
          assert PrefixSum(cs, n) < U64_SIZE;
        } else if n > 0 {
          assert !Enough(PrefixSum(cs, n), amount);
        }
      case Err(_) =>
        var n :| OverflowsFirst(cs, amount, n);
        forall k | StopsAt(cs, amount, k) ensures PrefixSum(cs, k) >= U64_SIZE {
          assert n <= k;
          PrefixMonotone(cs, n, k);
        }
    }
  }

  /**
   Exactly when a selection exists, `u64` arithmetic included: all of the
   sender's values are readable, the amount is a legal output with room for a
   minimal change, and one candidate is enough alone or the first prefix that
   is enough sums within the range.
   */
  lemma SelectionSucceedsIff(snapshot: Snapshot, sender: Address, amount: U64)
    ensures Select(snapshot, sender, amount).Ok? <==>
      && amount >= MIN_LOVELACE
      && amount + MIN_LOVELACE < U64_SIZE
      && Candidates(snapshot, sender).Some?
      && var cs := SortByValue(Candidates(snapshot, sender).value);
         SingleInput(cs, amount) || exists k :: StopsAt(cs, amount, k) && PrefixSum(cs, k) < U64_SIZE
  {
    if amount >= MIN_LOVELACE && amount + MIN_LOVELACE < U64_SIZE && Candidates(snapshot, sender).Some? {
      var cs := SortByValue(Candidates(snapshot, sender).value);
      PickOutcome(cs, amount);
    }
  }

  /** Some prefix of the ascending order sums to the amount. */
  ghost predicate ExactPrefix(cs: seq<Candidate>, amount: U64) {
    exists k :: 0 < k <= |cs| && PrefixSum(cs, k) == amount
  }

  lemma {:induction false} FirstStop(cs: seq<Candidate>, amount: U64, k: nat) returns (n: nat)
    requires 0 < k <= |cs| && Enough(PrefixSum(cs, k), amount)
    ensures n <= k && StopsAt(cs, amount, n)
  {
    if j :| 0 < j < k && Enough(PrefixSum(cs, j), amount) {
      n := FirstStop(cs, amount, j);
    } else {
      n := k;
    }
  }

  /** What pays `amount` when no sum can leave the `u64` range. */
  ghost predicate Payable(cs: seq<Candidate>, amount: U64) {
    || (exists c :: c in cs && c.value == amount)
    || Total(cs) >= amount + MIN_LOVELACE
    || ExactPrefix(cs, amount)
  }

  lemma PayableMeansSelected(cs: seq<Candidate>, amount: U64)
    requires MIN_LOVELACE <= amount && Payable(cs, amount)
    ensures SingleInput(cs, amount) || exists k :: StopsAt(cs, amount, k)
  {
    if c :| c in cs && c.value == amount {
      var i :| 0 <= i < |cs| && cs[i] == c;
      assert Enough(cs[i].value, amount);
    } else if Total(cs) >= amount + MIN_LOVELACE {
      var k := FirstStop(cs, amount, |cs|);
    } else {
      var k :| 0 < k <= |cs| && PrefixSum(cs, k) == amount;
      k := FirstStop(cs, amount, k);
    }
  }

  lemma SelectedMeansPayable(cs: seq<Candidate>, amount: U64)
    requires SingleInput(cs, amount) || exists k :: StopsAt(cs, amount, k)
    ensures Payable(cs, amount)
  {
    if SingleInput(cs, amount) {
      var i :| 0 <= i < |cs| && Enough(cs[i].value, amount);
      ElementWithinTotal(cs, i);
    } else {
      var k :| StopsAt(cs, amount, k);
      PrefixMonotone(cs, k, |cs|);
    }
  }

  /**
   When the sender's values sum within the range, a legal amount can be paid
   iff some candidate equals it, or the total leaves at least a minimal change,
   or a prefix of the ascending order sums to it.
   */
  lemma SelectionSucceedsWithinRangeIff(snapshot: Snapshot, sender: Address, amount: U64)
    requires MIN_LOVELACE <= amount && amount + MIN_LOVELACE < U64_SIZE
    requires Candidates(snapshot, sender).Some?
    requires Total(Candidates(snapshot, sender).value) < U64_SIZE
    ensures Select(snapshot, sender, amount).Ok? <==>
      Payable(SortByValue(Candidates(snapshot, sender).value), amount)
  {
    var raw := Candidates(snapshot, sender).value;
    var cs := SortByValue(raw);
    TotalOfSort(raw);
    SelectionSucceedsIff(snapshot, sender, amount);
    forall k: nat | k <= |cs| ensures PrefixSum(cs, k) < U64_SIZE {
      PrefixMonotone(cs, k, |cs|);
    }
    if Payable(cs, amount) {
      PayableMeansSelected(cs, amount);
    }
    if SingleInput(cs, amount) || exists k :: StopsAt(cs, amount, k) {
      SelectedMeansPayable(cs, amount);
    }
  }

  lemma AggregateIsShortest(cs: seq<Candidate>, amount: U64) returns (k: nat)
    requires MIN_LOVELACE <= amount && amount + MIN_LOVELACE < U64_SIZE
    requires Pick(cs, amount).Ok? && !SingleInput(cs, amount)
    ensures 2 <= k && StopsAt(cs, amount, k) && Pick(cs, amount).value.inputs == Refs(cs[..k])
  {
    forall i | 0 <= i < |cs| ensures cs[i].value != amount && cs[i].value < amount + MIN_LOVELACE {
      assert !Enough(cs[i].value, amount);
    }
    PickOutcome(cs, amount);
    k :| StopsAt(cs, amount, k) && PrefixSum(cs, k) < U64_SIZE;
    AggregateOutcome(cs, amount, 0, 0);
    forall n: nat | OverflowsFirst(cs, amount, n) ensures n > k {
      if n <= k {
        PrefixMonotone(cs, n, k);
      }
    }
    assert cs[0..k] == cs[..k];
    assert PrefixSum(cs, 1) == PrefixSum(cs, 0) + cs[0].value;
  }

  /**
   When no single candidate is enough, the inputs are the shortest prefix of
   the ascending order that is enough, and there are at least two of them.
   */
  lemma AggregationIsShortest(snapshot: Snapshot, sender: Address, amount: U64) returns (k: nat)
    requires Select(snapshot, sender, amount).Ok?
    requires !SingleInput(SortByValue(Candidates(snapshot, sender).value), amount)
    ensures var cs := SortByValue(Candidates(snapshot, sender).value);
      && StopsAt(cs, amount, k)
      && Select(snapshot, sender, amount).value.inputs == Refs(cs[..k])
    ensures 2 <= k
  {
    k := AggregateIsShortest(SortByValue(Candidates(snapshot, sender).value), amount);
  }

  // ------------------------------------------------------------------ determinism

  /** Two maps with the same contents are iterated alike. */
  lemma {:induction false} AscendingListingUnique(a: Snapshot, b: Snapshot)
    requires forall e :: e in a <==> e in b
    ensures a == b
    decreases |a| + |b|
  {
    if b != [] {
      assert b[0] in a;
    }
    if a != [] {
      assert a[0] in b;
      var x, y := a[|a| - 1], b[|b| - 1];
      assert x in b && y in a;
      assert x == y;
      var initA, initB := a[..|a| - 1], b[..|b| - 1];
      forall e ensures e in initA <==> e in initB {
        if e in initA {
          assert e in a && e.ref < x.ref;
        }
        if e in initB {
          assert e in b && e.ref < y.ref;
        }
      }
      AscendingListingUnique(initA, initB);
      assert a == initA + [x] && b == initB + [y];
    }
  }

  /** The selection depends on nothing but the sender's own entries. */
  lemma SelectionReadsSenderOnly(a: Snapshot, b: Snapshot, sender: Address, amount: U64)
    requires forall e: Entry :: e.address == sender ==> (e in a <==> e in b)
    ensures Select(a, sender, amount) == Select(b, sender, amount)
  {
    FilterKeepsOrder(a, sender);
    FilterKeepsOrder(b, sender);
    AscendingListingUnique(Filter(a, sender), Filter(b, sender));
  }
}
