/**
 Choice of the inputs of an L2 payment: filter the sender's entries out of a
 snapshot, sort them by value, and take an exact match, else one large entry,
 else the shortest prefix that works.
 */
module CoinSelection {
  import opened Prelude

  /** A `txhash#index` key. Numbers keep the order in which the JSON map is iterated. */
  type Ref = nat

  type Address = nat

  /** `lovelace` is `None` when the entry has no readable lovelace value. */
  datatype Entry = Entry(ref: Ref, address: Address, lovelace: Option<U64>)

  predicate AscendingKeys(s: seq<Entry>) {
    forall i, j :: 0 <= i < j < |s| ==> s[i].ref < s[j].ref
  }

  /** The JSON map: iterated in strictly ascending key order. */
  type Snapshot = s: seq<Entry> | AscendingKeys(s) witness []

  datatype Candidate = Candidate(ref: Ref, value: U64)

  datatype SelectionError =
    | BelowMinimum
    | UnknownLovelace
    | NoUtxo
    | AmountOverflow
    | SumOverflow
    | Insufficient
    | ChangeTooSmall

  datatype Selection = Selection(inputs: seq<Ref>, total: U64, change: U64)

  // ------------------------------------------------------------------ candidates

  /** The sender's entries, in map order. */
  function Filter(entries: seq<Entry>, sender: Address): (r: seq<Entry>)
    ensures forall e :: e in r <==> e in entries && e.address == sender
  {
    if entries == [] then []
    else
      var rest := Filter(entries[..|entries| - 1], sender);
      var last := entries[|entries| - 1];
      assert entries == entries[..|entries| - 1] + [last];
      if last.address == sender then rest + [last] else rest
  }

  /** The candidate list, or `None` if some entry has no lovelace value. */
  function Collect(entries: seq<Entry>): (r: Option<seq<Candidate>>)
    ensures r.Some? <==> forall i :: 0 <= i < |entries| ==> entries[i].lovelace.Some?
    ensures r.Some? ==> |r.value| == |entries| && forall i :: 0 <= i < |entries| ==>
      r.value[i] == Candidate(entries[i].ref, entries[i].lovelace.value)
  {
    if entries == [] then Some([])
    else
      var last := entries[|entries| - 1];
      match Collect(entries[..|entries| - 1])
      case None => None
      case Some(rest) => if last.lovelace.None? then None else Some(rest + [Candidate(last.ref, last.lovelace.value)])
  }

  function Candidates(snapshot: Snapshot, sender: Address): Option<seq<Candidate>> {
    Collect(Filter(snapshot, sender))
  }

  // ------------------------------------------------------------------ stable sort

  predicate AscendingRefs(cs: seq<Candidate>) {
    forall i, j :: 0 <= i < j < |cs| ==> cs[i].ref < cs[j].ref
  }

  predicate Before(a: Candidate, b: Candidate) {
    a.value < b.value || (a.value == b.value && a.ref < b.ref)
  }

  predicate StrictlySorted(cs: seq<Candidate>) {
    forall i, j :: 0 <= i < j < |cs| ==> Before(cs[i], cs[j])
  }

  /** Puts `c` behind every element of no larger value. */
  function Insert(cs: seq<Candidate>, c: Candidate): (r: seq<Candidate>)
    ensures multiset(r) == multiset(cs) + multiset{c}
  {
    if cs == [] then [c]
    else if cs[|cs| - 1].value <= c.value then cs + [c]
    else
      assert cs == cs[..|cs| - 1] + [cs[|cs| - 1]];
      Insert(cs[..|cs| - 1], c) + [cs[|cs| - 1]]
  }

  /** The stable ascending sort by value. */
  function SortByValue(cs: seq<Candidate>): (r: seq<Candidate>)
    ensures multiset(r) == multiset(cs)
    ensures |r| == |cs|
  {
    if cs == [] then []
    else
      assert cs == cs[..|cs| - 1] + [cs[|cs| - 1]];
      var r := Insert(SortByValue(cs[..|cs| - 1]), cs[|cs| - 1]);
      assert |multiset(r)| == |r| && |multiset(cs)| == |cs|;
      r
  }

  lemma {:induction false} InsertKeepsOrder(cs: seq<Candidate>, c: Candidate)
    requires StrictlySorted(cs)
    requires forall x :: x in cs ==> x.ref < c.ref
    ensures StrictlySorted(Insert(cs, c))
  {
    if cs != [] && c.value < cs[|cs| - 1].value {
      var init, last := cs[..|cs| - 1], cs[|cs| - 1];
      InsertKeepsOrder(init, c);
      var r := Insert(init, c);
      forall i | 0 <= i < |r| ensures Before(r[i], last) {
        assert r[i] in multiset(r);
        assert r[i] in multiset(init) + multiset{c};
        assert r[i] in init || r[i] == c;
      }
    }
  }

  /** Sorting a list in key order puts it in ascending (value, key) order. */
  lemma {:induction false} SortIsSorted(cs: seq<Candidate>)
    requires AscendingRefs(cs)
    ensures StrictlySorted(SortByValue(cs))
  {
    if cs != [] {
      var init, last := cs[..|cs| - 1], cs[|cs| - 1];
      SortIsSorted(init);
      forall x | x in SortByValue(init) ensures x.ref < last.ref {
        assert x in multiset(SortByValue(init));
        assert x in multiset(init);
      }
      InsertKeepsOrder(SortByValue(init), last);
    }
  }

  // ------------------------------------------------------------------ choice

  /** Sum of the first `k` values. */
  function PrefixSum(cs: seq<Candidate>, k: nat): nat
    requires k <= |cs|
  {
    if k == 0 then 0 else PrefixSum(cs, k - 1) + cs[k - 1].value
  }

  function Total(cs: seq<Candidate>): nat {
    PrefixSum(cs, |cs|)
  }

  /** The least index at or after `k` whose value is `x`, or `|cs|`. */
  function FirstEqual(cs: seq<Candidate>, x: U64, k: nat): (r: nat)
    requires k <= |cs|
    ensures k <= r <= |cs| && (r < |cs| ==> cs[r].value == x)
    ensures forall j :: k <= j < r ==> cs[j].value != x
    decreases |cs| - k
  {
    if k == |cs| || cs[k].value == x then k else FirstEqual(cs, x, k + 1)
  }

  /** The least index at or after `k` whose value is at least `x`, or `|cs|`. */
  function FirstAtLeast(cs: seq<Candidate>, x: U64, k: nat): (r: nat)
    requires k <= |cs|
    ensures k <= r <= |cs| && (r < |cs| ==> cs[r].value >= x)
    ensures forall j :: k <= j < r ==> cs[j].value < x
    decreases |cs| - k
  {
    if k == |cs| || cs[k].value >= x then k else FirstAtLeast(cs, x, k + 1)
  }

  predicate Enough(sum: nat, amount: U64) {
    sum == amount || sum >= amount + MIN_LOVELACE
  }

  /** The aggregation loop after `k` candidates: how many it takes and their sum. */
  function Aggregate(cs: seq<Candidate>, amount: U64, k: nat, total: U64): (r: Result<(nat, U64), SelectionError>)
    requires k <= |cs|
    ensures r.Ok? ==> k <= r.value.0 <= |cs|
    decreases |cs| - k
  {
    if k == |cs| then Ok((k, total))
    else
      var next := total + cs[k].value;
      if next >= U64_SIZE then Err(SumOverflow)
      else if Enough(next, amount) then Ok((k + 1, next))
      else Aggregate(cs, amount, k + 1, next)
  }

  /** The chosen stretch `lo..hi` of the sorted candidates and its sum. */
  function Choose(cs: seq<Candidate>, amount: U64): (r: Result<(nat, nat, U64), SelectionError>)
    requires amount + MIN_LOVELACE < U64_SIZE
    ensures r.Ok? ==> r.value.0 <= r.value.1 <= |cs|
  {
    var exact := FirstEqual(cs, amount, 0);
    var large := FirstAtLeast(cs, amount + MIN_LOVELACE, 0);
    if exact < |cs| then Ok((exact, exact + 1, cs[exact].value))
    else if large < |cs| then Ok((large, large + 1, cs[large].value))
    else
      match Aggregate(cs, amount, 0, 0)
      case Err(e) => Err(e)
      case Ok((n, total)) => Ok((0, n, total))
  }

  function Refs(cs: seq<Candidate>): (r: seq<Ref>)
    ensures |r| == |cs| && forall i :: 0 <= i < |cs| ==> r[i] == cs[i].ref
  {
    if cs == [] then [] else Refs(cs[..|cs| - 1]) + [cs[|cs| - 1].ref]
  }

  function Settle(inputs: seq<Ref>, total: U64, amount: U64): Result<Selection, SelectionError> {
    if total < amount then Err(Insufficient)
    else if 0 < total - amount < MIN_LOVELACE then Err(ChangeTooSmall)
    else Ok(Selection(inputs, total, total - amount))
  }

  function Pick(cs: seq<Candidate>, amount: U64): Result<Selection, SelectionError>
    requires amount + MIN_LOVELACE < U64_SIZE
  {
    match Choose(cs, amount)
    case Err(e) => Err(e)
    case Ok((lo, hi, total)) => Settle(Refs(cs[lo..hi]), total, amount)
  }

  /** The selection as one expression; `SelectInputs` has the loops. */
  function Select(snapshot: Snapshot, sender: Address, amount: U64): Result<Selection, SelectionError> {
    if amount < MIN_LOVELACE then Err(BelowMinimum)
    else
      match Candidates(snapshot, sender)
      case None => Err(UnknownLovelace)
      case Some(cs) =>
        if cs == [] then Err(NoUtxo)
        else if amount + MIN_LOVELACE >= U64_SIZE then Err(AmountOverflow)
        else Pick(SortByValue(cs), amount)
  }

  /** Filters the snapshot and collects the candidates, in two loops. */
  method CollectCandidates(snapshot: Snapshot, sender: Address, amount: U64)
    returns (r: Result<seq<Candidate>, SelectionError>)
    ensures amount < MIN_LOVELACE ==> r == Err(BelowMinimum)
    ensures amount >= MIN_LOVELACE && Candidates(snapshot, sender).None? ==> r == Err(UnknownLovelace)
    ensures amount >= MIN_LOVELACE && Candidates(snapshot, sender).Some? ==> r == Ok(Candidates(snapshot, sender).value)
  {
    var filtered: seq<Entry> := [];
    for i := 0 to |snapshot|
      invariant filtered == Filter(snapshot[..i], sender)
    {
      assert snapshot[..i + 1][..i] == snapshot[..i];
      if snapshot[i].address == sender {
        filtered := filtered + [snapshot[i]];
      }
    }
    assert snapshot[..|snapshot|] == snapshot;
    if amount < MIN_LOVELACE {
      return Err(BelowMinimum);
    }
    var candidates: seq<Candidate> := [];
    for i := 0 to |filtered|
      invariant Collect(filtered[..i]) == Some(candidates)
    {
      assert filtered[..i + 1][..i] == filtered[..i];
      if filtered[i].lovelace.None? {
        return Err(UnknownLovelace);
      }
      candidates := candidates + [Candidate(filtered[i].ref, filtered[i].lovelace.value)];
    }
    assert filtered[..|filtered|] == filtered;
    return Ok(candidates);
  }

  /** The aggregation loop: smallest first until the sum is enough. */
  method AggregateInputs(candidates: seq<Candidate>, amount: U64)
    returns (r: Result<(seq<Ref>, U64), SelectionError>)
    requires amount + MIN_LOVELACE < U64_SIZE
    ensures r == match Aggregate(candidates, amount, 0, 0)
                 case Err(e) => Err(e)
                 case Ok((n, total)) => Ok((Refs(candidates[0..n]), total))
  {
    var minTotal := amount + MIN_LOVELACE;
    var selected: seq<Ref> := [];
    var total: U64 := 0;
    for k := 0 to |candidates|
      invariant selected == Refs(candidates[0..k])
      invariant Aggregate(candidates, amount, 0, 0) == Aggregate(candidates, amount, k, total)
    {
      if total + candidates[k].value >= U64_SIZE {
        return Err(SumOverflow);
      }
      total := total + candidates[k].value;
      assert candidates[0..k + 1][..k] == candidates[0..k];
      selected := selected + [candidates[k].ref];
      if total == amount || total >= minTotal {
        return Ok((selected, total));
      }
    }
    return Ok((selected, total));
  }

  /** The strategy: exact match, else a large enough entry, else aggregation. */
  method ChooseInputs(candidates: seq<Candidate>, amount: U64)
    returns (r: Result<(seq<Ref>, U64), SelectionError>)
    requires amount + MIN_LOVELACE < U64_SIZE
    ensures r == match Choose(candidates, amount)
                 case Err(e) => Err(e)
                 case Ok((lo, hi, total)) => Ok((Refs(candidates[lo..hi]), total))
  {
    var minTotal := amount + MIN_LOVELACE;
    var exact := 0;
    while exact < |candidates| && candidates[exact].value != amount
      invariant exact <= |candidates|
      invariant FirstEqual(candidates, amount, 0) == FirstEqual(candidates, amount, exact)
    {
      exact := exact + 1;
    }
    if exact < |candidates| {
      assert Refs(candidates[exact..exact + 1]) == [candidates[exact].ref];
      return Ok(([candidates[exact].ref], candidates[exact].value));
    }
    var large := 0;
    while large < |candidates| && !(candidates[large].value > amount && candidates[large].value >= minTotal)
      invariant large <= |candidates|
      invariant FirstAtLeast(candidates, minTotal, 0) == FirstAtLeast(candidates, minTotal, large)
    {
      large := large + 1;
    }
    if large < |candidates| {
      assert Refs(candidates[large..large + 1]) == [candidates[large].ref];
      return Ok(([candidates[large].ref], candidates[large].value));
    }
    r := AggregateInputs(candidates, amount);
  }

  /** Chooses the inputs and checks the change they leave. */
  method PickInputs(candidates: seq<Candidate>, amount: U64)
    returns (r: Result<Selection, SelectionError>)
    requires amount + MIN_LOVELACE < U64_SIZE
    ensures r == Pick(candidates, amount)
  {
    var chosen := ChooseInputs(candidates, amount);
    if chosen.Err? {
      return Err(chosen.error);
    }
    var (selected, total) := chosen.value;
    if total < amount {
      return Err(Insufficient);
    }
    var change := total - amount;
    if change > 0 && change < MIN_LOVELACE {
      return Err(ChangeTooSmall);
    }
    return Ok(Selection(selected, total, change));
  }

  method SelectInputs(snapshot: Snapshot, sender: Address, amount: U64)
    returns (r: Result<Selection, SelectionError>)
    ensures r == Select(snapshot, sender, amount)
  {
    var collected := CollectCandidates(snapshot, sender, amount);
    if collected.Err? {
      return Err(collected.error);
    }
    if collected.value == [] {
      return Err(NoUtxo);
    }
    var sorted := SortByValue(collected.value);
    if amount + MIN_LOVELACE >= U64_SIZE {
      return Err(AmountOverflow);
    }
    r := PickInputs(sorted, amount);
  }
}
