/** Why a selection is refused, and which coin answers an exact match. */
module SelectionOutcomes {
  import opened Prelude
  import opened CoinSelection
  import opened CoinSelectionLaws

  ghost predicate Readable(snapshot: Snapshot, sender: Address) {
    forall e :: e in snapshot && e.address == sender ==> e.lovelace.Some?
  }

  ghost predicate Owns(snapshot: Snapshot, sender: Address) {
    exists e :: e in snapshot && e.address == sender
  }

  /** Nothing but the coins themselves can stand in the way. */
  ghost predicate Askable(snapshot: Snapshot, sender: Address, amount: U64) {
    && MIN_LOVELACE <= amount && amount + MIN_LOVELACE < U64_SIZE
    && Readable(snapshot, sender) && Owns(snapshot, sender)
  }

  lemma ReadableIffCandidates(snapshot: Snapshot, sender: Address)
    ensures Readable(snapshot, sender) <==> Candidates(snapshot, sender).Some?
    ensures Readable(snapshot, sender) ==> (Owns(snapshot, sender) <==> Candidates(snapshot, sender).value != [])
  {
    var f: seq<Entry> := Filter(snapshot, sender);
    if i :| 0 <= i < |f| && f[i].lovelace.None? {
      assert f[i] in snapshot;
    }
    if e :| e in snapshot && e.address == sender && e.lovelace.None? {
      assert e in f;
    }
    if f != [] {
      assert f[0] in snapshot;
    }
  }

  /** The refusals that do not look at the values of the coins, and their order. */
  lemma RefusedBeforeChoiceIff(snapshot: Snapshot, sender: Address, amount: U64)
    ensures Select(snapshot, sender, amount) == Err(BelowMinimum) <==> amount < MIN_LOVELACE
    ensures Select(snapshot, sender, amount) == Err(UnknownLovelace) <==>
      amount >= MIN_LOVELACE && !Readable(snapshot, sender)
    ensures Select(snapshot, sender, amount) == Err(NoUtxo) <==>
      amount >= MIN_LOVELACE && Readable(snapshot, sender) && !Owns(snapshot, sender)
    ensures Select(snapshot, sender, amount) == Err(AmountOverflow) <==>
      && amount >= MIN_LOVELACE && Readable(snapshot, sender) && Owns(snapshot, sender)
      && amount + MIN_LOVELACE >= U64_SIZE
  {
    ReadableIffCandidates(snapshot, sender);
    if Askable(snapshot, sender, amount) {
      PickRefuses(SortByValue(Candidates(snapshot, sender).value), amount);
    }
  }

  /** What the choice can end in, read off the running sums of the coins. */
  lemma PickRefuses(cs: seq<Candidate>, amount: U64)
    requires MIN_LOVELACE <= amount && amount + MIN_LOVELACE < U64_SIZE
    ensures Pick(cs, amount).Err? ==> Pick(cs, amount).error in {SumOverflow, Insufficient, ChangeTooSmall}
    ensures Pick(cs, amount) == Err(SumOverflow) <==>
      !SingleInput(cs, amount) && exists k :: OverflowsFirst(cs, amount, k)
    ensures Pick(cs, amount) == Err(Insufficient) <==> !SingleInput(cs, amount) && Total(cs) < amount
    ensures Pick(cs, amount) == Err(ChangeTooSmall) <==>
      !SingleInput(cs, amount) && NeverEnough(cs, amount) && amount < Total(cs)
  {
    PickOutcome(cs, amount);
    if Pick(cs, amount).Err? {
      assert !SingleInput(cs, amount);
      AggregateOutcome(cs, amount, 0, 0);
      match Aggregate(cs, amount, 0, 0)
      case Ok((n, total)) => SumsStay(cs, amount, n);
      case Err(_) =>
        var k :| OverflowsFirst(cs, amount, k);
        PrefixMonotone(cs, k, |cs|);
        assert Enough(PrefixSum(cs, k), amount);
    } else if !SingleInput(cs, amount) {
      var k :| StopsAt(cs, amount, k) && PrefixSum(cs, k) < U64_SIZE;
      PrefixMonotone(cs, k, |cs|);
      forall j | OverflowsFirst(cs, amount, j) ensures false {
        if j <= k {
          PrefixMonotone(cs, j, k);
        }
      }
    }
  }

  /** Sums that are never enough are never out of range. */
  lemma SumsStay(cs: seq<Candidate>, amount: U64, n: nat)
    requires MIN_LOVELACE <= amount && amount + MIN_LOVELACE < U64_SIZE
    requires Pick(cs, amount).Err? && n <= |cs| && Aggregate(cs, amount, 0, 0) == Ok((n, PrefixSum(cs, n)))
    requires StopsAt(cs, amount, n) || (n == |cs| && NeverEnough(cs, amount))
    ensures n == |cs| && NeverEnough(cs, amount) && Total(cs) < amount + MIN_LOVELACE
    ensures forall k :: !OverflowsFirst(cs, amount, k)
    ensures Pick(cs, amount) == if Total(cs) < amount then Err(Insufficient) else Err(ChangeTooSmall)
    ensures Total(cs) != amount
  {
    forall k | OverflowsFirst(cs, amount, k) ensures false {
      PrefixMonotone(cs, k, |cs|);
      assert Enough(PrefixSum(cs, k), amount);
    }
    if n > 0 {
      assert NeverEnough(cs, amount) ==> !Enough(PrefixSum(cs, n), amount);
    }
  }

  /**
   The refusals of an askable amount: the running sum leaves 64 bits before it
   is enough; the coins are worth less than the amount; or they are worth more
   but no prefix of the ascending order leaves a legal change.
   */
  lemma RefusedByChoiceIff(snapshot: Snapshot, sender: Address, amount: U64) returns (cs: seq<Candidate>)
    requires Askable(snapshot, sender, amount)
    ensures StrictlySorted(cs)
    ensures forall c :: c in cs <==> Entry(c.ref, sender, Some(c.value)) in snapshot
    ensures Select(snapshot, sender, amount) == Err(SumOverflow) <==>
      !SingleInput(cs, amount) && exists k :: OverflowsFirst(cs, amount, k)
    ensures Select(snapshot, sender, amount) == Err(Insufficient) <==> !SingleInput(cs, amount) && Total(cs) < amount
    ensures Select(snapshot, sender, amount) == Err(ChangeTooSmall) <==>
      !SingleInput(cs, amount) && NeverEnough(cs, amount) && amount < Total(cs)
  {
    ReadableIffCandidates(snapshot, sender);
    cs := SortedCandidates(snapshot, sender);
    PickRefuses(cs, amount);
  }

  /** The first coin of exactly the amount in key order. */
  ghost predicate FirstExact(snapshot: Snapshot, sender: Address, amount: U64, r: Ref) {
    && Entry(r, sender, Some(amount)) in snapshot
    && forall e :: e in snapshot && e.address == sender && e.lovelace == Some(amount) ==> r <= e.ref
  }

  /** No candidate of the amount comes before `c`. */
  lemma ExactIsPicked(cs: seq<Candidate>, amount: U64, i: nat)
    requires MIN_LOVELACE <= amount && amount + MIN_LOVELACE < U64_SIZE
    requires StrictlySorted(cs) && i < |cs| && cs[i].value == amount
    requires forall j :: 0 <= j < |cs| && cs[j].value == amount ==> cs[i].ref <= cs[j].ref
    ensures Pick(cs, amount) == Ok(Selection([cs[i].ref], amount, 0))
  {
    var k := FirstEqual(cs, amount, 0);
    assert k == i;
    assert Choose(cs, amount) == Ok((i, i + 1, amount));
    assert Refs(cs[i..i + 1]) == [cs[i].ref];
  }

  /** An exact coin is spent alone, and of several the one with the least key, whatever larger coins there are. */
  lemma ExactCoinIsChosen(snapshot: Snapshot, sender: Address, amount: U64, r: Ref)
    requires Askable(snapshot, sender, amount) && FirstExact(snapshot, sender, amount, r)
    ensures Select(snapshot, sender, amount) == Ok(Selection([r], amount, 0))
  {
    ReadableIffCandidates(snapshot, sender);
    var cs := SortedCandidates(snapshot, sender);
    assert Select(snapshot, sender, amount) == Pick(cs, amount);
    assert Candidate(r, amount) in cs;
    var i :| 0 <= i < |cs| && cs[i] == Candidate(r, amount);
    forall j | 0 <= j < |cs| && cs[j].value == amount ensures r <= cs[j].ref {
      assert cs[j] in cs;
      assert Entry(cs[j].ref, sender, Some(amount)) in snapshot;
    }
    ExactIsPicked(cs, amount, i);
  }
}
