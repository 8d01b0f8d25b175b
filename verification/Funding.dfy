/** Which amounts a balance can pay: for every split of it into coins, and for a single coin. */
module Funding {
  import opened Prelude
  import opened CoinSelection
  import opened CoinSelectionLaws
  import opened Ledger

  /** The sorted candidates of a shown ledger are the sender's coins. */
  lemma LedgerCandidates(snapshot: Snapshot, utxos: Utxos, sender: Address) returns (cs: seq<Candidate>)
    requires Shows(snapshot, utxos)
    ensures Candidates(snapshot, sender).Some? && cs == SortByValue(Candidates(snapshot, sender).value)
    ensures StrictlySorted(cs) && Total(cs) == Balance(utxos, sender)
    ensures forall c :: c in cs <==>
      c.ref in utxos && utxos[c.ref].address == sender && utxos[c.ref].lovelace == c.value
  {
    CandidatesOfLedger(snapshot, utxos, sender);
    cs := SortedCandidates(snapshot, sender);
    forall c
      ensures c in cs <==> c.ref in utxos && utxos[c.ref].address == sender && utxos[c.ref].lovelace == c.value
    {
      assert c in cs <==> Entry(c.ref, sender, Some(c.value)) in snapshot;
    }
  }

  /** A balance that is the amount, or leaves a minimal coin, can be spent however it is split. */
  lemma BalanceSuffices(snapshot: Snapshot, utxos: Utxos, sender: Address, amount: U64)
    requires Shows(snapshot, utxos) && MIN_LOVELACE <= amount && amount + MIN_LOVELACE < U64_SIZE
    requires Enough(Balance(utxos, sender), amount) && Balance(utxos, sender) < U64_SIZE
    ensures Select(snapshot, sender, amount).Ok?
  {
    var cs := LedgerCandidates(snapshot, utxos, sender);
    TotalOfSort(Candidates(snapshot, sender).value);
    assert PrefixSum(cs, |cs|) == Total(cs);
    SelectionSucceedsWithinRangeIff(snapshot, sender, amount);
  }

  lemma SelectIsPick(snapshot: Snapshot, sender: Address, amount: U64)
    requires MIN_LOVELACE <= amount && amount + MIN_LOVELACE < U64_SIZE && Candidates(snapshot, sender).Some?
    ensures var cs := SortByValue(Candidates(snapshot, sender).value);
      Select(snapshot, sender, amount) == if cs == [] then Err(NoUtxo) else Pick(cs, amount)
  {
  }

  lemma PickedIsSelected(snapshot: Snapshot, sender: Address, amount: U64, sel: Selection)
    requires MIN_LOVELACE <= amount && amount + MIN_LOVELACE < U64_SIZE && Candidates(snapshot, sender).Some?
    requires Pick(SortByValue(Candidates(snapshot, sender).value), amount) == Ok(sel) && sel.inputs != []
    ensures Select(snapshot, sender, amount) == Ok(sel)
  {
    SelectIsPick(snapshot, sender, amount);
  }

  lemma OneCandidatePicks(c: Candidate, amount: U64)
    requires MIN_LOVELACE <= amount && amount + MIN_LOVELACE < U64_SIZE
    ensures Pick([c], amount).Ok? <==> Enough(c.value, amount)
  {
    PickOutcome([c], amount);
    assert PrefixSum([c], 1) == PrefixSum([c], 0) + c.value;
    if Enough(c.value, amount) {
      assert Enough([c][0].value, amount);
    }
  }

  lemma OwnCandidates(utxos: Utxos, sender: Address, cs: seq<Candidate>)
    requires forall c :: c in cs <==>
      c.ref in utxos && utxos[c.ref].address == sender && utxos[c.ref].lovelace == c.value
    ensures forall i :: 0 <= i < |cs| ==>
      cs[i].ref in Owned(utxos, sender) && cs[i].value == utxos[cs[i].ref].lovelace
    ensures forall r <- Owned(utxos, sender) :: Candidate(r, utxos[r].lovelace) in cs
  {
    forall i | 0 <= i < |cs|
      ensures cs[i].ref in Owned(utxos, sender) && cs[i].value == utxos[cs[i].ref].lovelace
    {
      assert cs[i] in cs;
    }
  }

  lemma SortedDiffer(cs: seq<Candidate>)
    requires StrictlySorted(cs) && |cs| >= 2
    ensures cs[0] != cs[1]
  {
    assert Before(cs[0], cs[1]);
  }

  lemma OneCoinIsOneCandidate(utxos: Utxos, sender: Address, r: Ref, cs: seq<Candidate>)
    requires Owned(utxos, sender) == {r} && StrictlySorted(cs)
    requires forall c :: c in cs <==>
      c.ref in utxos && utxos[c.ref].address == sender && utxos[c.ref].lovelace == c.value
    ensures r in utxos && cs == [Candidate(r, utxos[r].lovelace)]
  {
    if |cs| >= 2 {
      SortedDiffer(cs);
    }
    OwnCandidates(utxos, sender, cs);
    assert r in Owned(utxos, sender);
  }

  /** A single coin pays an amount iff it is exact or leaves a minimal change. */
  lemma OneCoinPaysIff(snapshot: Snapshot, utxos: Utxos, sender: Address, amount: U64, r: Ref)
    requires Shows(snapshot, utxos) && MIN_LOVELACE <= amount && amount + MIN_LOVELACE < U64_SIZE
    requires Owned(utxos, sender) == {r}
    ensures r in utxos && (Select(snapshot, sender, amount).Ok? <==> Enough(utxos[r].lovelace, amount))
  {
    var cs := LedgerCandidates(snapshot, utxos, sender);
    OneCoinIsOneCandidate(utxos, sender, r, cs);
    OneCandidatePicks(cs[0], amount);
    SelectIsPick(snapshot, sender, amount);
  }

  lemma NoCoinNoPayment(snapshot: Snapshot, utxos: Utxos, sender: Address, amount: U64)
    requires Shows(snapshot, utxos) && Owned(utxos, sender) == {}
    ensures Select(snapshot, sender, amount).Err?
  {
    var cs := LedgerCandidates(snapshot, utxos, sender);
    OwnCandidates(utxos, sender, cs);
    assert cs == [];
  }

  /** Every split of the funds into coins pays the amount. */
  ghost predicate AlwaysPayable(sender: Address, amount: U64, funds: U64) {
    forall snapshot, utxos :: Shows(snapshot, utxos) && Balance(utxos, sender) == funds ==>
      Select(snapshot, sender, amount).Ok?
  }

  function SingleCoin(r: Ref, owner: Address, value: U64): Utxos {
    map[r := Coin(owner, value)]
  }

  lemma SingleCoinBalance(r: Ref, owner: Address, value: U64)
    ensures Owned(SingleCoin(r, owner, value), owner) == {r}
    ensures Balance(SingleCoin(r, owner, value), owner) == value
  {
    var utxos := SingleCoin(r, owner, value);
    assert Owned(utxos, owner) == {r};
    SumWithout(utxos, {r}, r);
    assert {r} - {r} == {};
  }

  predicate LegalAmount(amount: U64) {
    MIN_LOVELACE <= amount && amount + MIN_LOVELACE < U64_SIZE
  }

  lemma IllegalAmountFails(snapshot: Snapshot, sender: Address, amount: U64)
    requires !LegalAmount(amount)
    ensures Select(snapshot, sender, amount).Err?
  {
  }

  lemma OneCoinShown(sender: Address, value: U64) returns (snapshot: Snapshot, utxos: Utxos)
    ensures Shows(snapshot, utxos) && utxos == SingleCoin(0, sender, value)
    ensures Owned(utxos, sender) == {0} && Balance(utxos, sender) == value
  {
    utxos := SingleCoin(0, sender, value);
    snapshot := [Entry(0, sender, Some(value))];
    SingleCoinBalance(0, sender, value);
  }

  /** Whatever the coins look like: exactly the legal amounts that the funds equal or exceed by a minimal change. */
  lemma PayableFromEverySplitIff(sender: Address, amount: U64, funds: U64)
    ensures AlwaysPayable(sender, amount, funds) <==> LegalAmount(amount) && Enough(funds, amount)
  {
    if LegalAmount(amount) && Enough(funds, amount) {
      forall snapshot, utxos | Shows(snapshot, utxos) && Balance(utxos, sender) == funds
        ensures Select(snapshot, sender, amount).Ok?
      {
        BalanceSuffices(snapshot, utxos, sender, amount);
      }
    } else {
      var snapshot, utxos := OneCoinShown(sender, funds);
      if LegalAmount(amount) {
        OneCoinPaysIff(snapshot, utxos, sender, amount, 0);
      } else {
        IllegalAmountFails(snapshot, sender, amount);
      }
    }
  }

  lemma ExactIsPicked(cs: seq<Candidate>, amount: U64, c: Candidate)
    requires amount + MIN_LOVELACE < U64_SIZE && c in cs && c.value == amount
    requires forall i :: 0 <= i < |cs| && cs[i].value == amount ==> cs[i] == c
    ensures Pick(cs, amount) == Ok(Selection([c.ref], amount, 0))
  {
    var i := FirstEqual(cs, amount, 0);
    assert i < |cs|;
    assert cs[i..i + 1] == [c];
    assert Refs([c]) == [c.ref] by {
      assert [c][..0] == [];
    }
  }

  /** Among the candidates at or above the bound, `c` is the first one in the order. */
  ghost predicate FirstLarge(cs: seq<Candidate>, amount: U64, c: Candidate) {
    && c in cs && c.value >= amount + MIN_LOVELACE
    && (forall i :: 0 <= i < |cs| ==> cs[i].value != amount)
    && forall i :: 0 <= i < |cs| && cs[i] != c ==> cs[i].value < amount + MIN_LOVELACE || cs[i].value > c.value
  }

  lemma FirstLargeIsFound(cs: seq<Candidate>, amount: U64, c: Candidate)
    requires amount + MIN_LOVELACE < U64_SIZE && StrictlySorted(cs) && FirstLarge(cs, amount, c)
    ensures FirstEqual(cs, amount, 0) == |cs|
    ensures FirstAtLeast(cs, amount + MIN_LOVELACE, 0) < |cs| && cs[FirstAtLeast(cs, amount + MIN_LOVELACE, 0)] == c
  {
    var k :| 0 <= k < |cs| && cs[k] == c;
    assert forall j :: 0 <= j < k ==> Before(cs[j], cs[k]);
    var i := FirstAtLeast(cs, amount + MIN_LOVELACE, 0);
    assert i <= k;
  }

  lemma LargeIsPicked(cs: seq<Candidate>, amount: U64, c: Candidate)
    requires amount + MIN_LOVELACE < U64_SIZE && StrictlySorted(cs) && FirstLarge(cs, amount, c)
    ensures Pick(cs, amount) == Ok(Selection([c.ref], c.value, c.value - amount))
  {
    FirstLargeIsFound(cs, amount, c);
    var i := FirstAtLeast(cs, amount + MIN_LOVELACE, 0);
    assert cs[i..i + 1] == [c];
    assert Choose(cs, amount) == Ok((i, i + 1, c.value));
    assert Refs([c]) == [c.ref] by {
      assert [c][..0] == [];
    }
  }

  /** A coin of just the amount, and the only one, is what gets spent. */
  lemma ExactCoinIsChosen(snapshot: Snapshot, utxos: Utxos, sender: Address, amount: U64, r: Ref)
    requires Shows(snapshot, utxos) && MIN_LOVELACE <= amount && amount + MIN_LOVELACE < U64_SIZE
    requires r in Owned(utxos, sender) && utxos[r].lovelace == amount
    requires forall q <- Owned(utxos, sender) :: utxos[q].lovelace == amount ==> q == r
    ensures Select(snapshot, sender, amount) == Ok(Selection([r], amount, 0))
  {
    var cs := LedgerCandidates(snapshot, utxos, sender);
    OwnCandidates(utxos, sender, cs);
    ExactIsPicked(cs, amount, Candidate(r, amount));
    PickedIsSelected(snapshot, sender, amount, Selection([r], amount, 0));
  }

  /** The coin is the smallest of the owner's that leave a minimal change, and none is exact. */
  predicate SmallestLarge(utxos: Utxos, owner: Address, amount: U64, r: Ref) {
    && r in Owned(utxos, owner) && utxos[r].lovelace >= amount + MIN_LOVELACE
    && (forall q <- Owned(utxos, owner) :: utxos[q].lovelace != amount)
    && forall q <- Owned(utxos, owner) | q != r ::
         utxos[q].lovelace < amount + MIN_LOVELACE || utxos[q].lovelace > utxos[r].lovelace
  }

  lemma SmallestLargeIsFirst(utxos: Utxos, owner: Address, amount: U64, r: Ref, cs: seq<Candidate>)
    requires SmallestLarge(utxos, owner, amount, r)
    requires forall c :: c in cs <==>
      c.ref in utxos && utxos[c.ref].address == owner && utxos[c.ref].lovelace == c.value
    ensures FirstLarge(cs, amount, Candidate(r, utxos[r].lovelace))
  {
    OwnCandidates(utxos, owner, cs);
  }

  /** Without an exact coin, the smallest one that leaves a minimal change is spent. */
  lemma LargeCoinIsChosen(snapshot: Snapshot, utxos: Utxos, sender: Address, amount: U64, r: Ref)
    returns (sel: Selection)
    requires Shows(snapshot, utxos) && MIN_LOVELACE <= amount && amount + MIN_LOVELACE < U64_SIZE
    requires SmallestLarge(utxos, sender, amount, r)
    ensures sel == Selection([r], utxos[r].lovelace, utxos[r].lovelace - amount)
    ensures Select(snapshot, sender, amount) == Ok(sel)
  {
    var cs := LedgerCandidates(snapshot, utxos, sender);
    var c := Candidate(r, utxos[r].lovelace);
    SmallestLargeIsFirst(utxos, sender, amount, r, cs);
    sel := Selection([c.ref], c.value, c.value - amount);
    SelectedLarge(snapshot, sender, amount, c, cs);
  }

  lemma SelectedLarge(snapshot: Snapshot, sender: Address, amount: U64, c: Candidate, cs: seq<Candidate>)
    requires MIN_LOVELACE <= amount && amount + MIN_LOVELACE < U64_SIZE && Candidates(snapshot, sender).Some?
    requires cs == SortByValue(Candidates(snapshot, sender).value) && StrictlySorted(cs) && FirstLarge(cs, amount, c)
    ensures Select(snapshot, sender, amount) == Ok(Selection([c.ref], c.value, c.value - amount))
  {
    LargeIsPicked(cs, amount, c);
    PickedIsSelected(snapshot, sender, amount, Selection([c.ref], c.value, c.value - amount));
  }
}
