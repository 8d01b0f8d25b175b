/**
 The UTxO set of an open head and the payments that spend it. A payment
 applies when all of its inputs are unspent; refs of outputs are never reused.
 */
module Ledger {
  import opened Prelude
  import opened CoinSelection
  import opened CoinSelectionLaws

  datatype Coin = Coin(address: Address, lovelace: U64)

  type Utxos = map<Ref, Coin>

  /** `snapshot` is the JSON form of `utxos`. */
  ghost predicate Shows(snapshot: Snapshot, utxos: Utxos) {
    forall e: Entry :: e in snapshot <==>
      e.ref in utxos && e.address == utxos[e.ref].address && e.lovelace == Some(utxos[e.ref].lovelace)
  }

  function Owned(utxos: Utxos, owner: Address): set<Ref> {
    set r | r in utxos && utxos[r].address == owner
  }

  ghost function Sum(utxos: Utxos, refs: set<Ref>): nat
    requires refs <= utxos.Keys
  {
    if refs == {} then 0 else
    var r :| r in refs;
    utxos[r].lovelace + Sum(utxos, refs - {r})
  }

  ghost function Balance(utxos: Utxos, owner: Address): nat {
    Sum(utxos, Owned(utxos, owner))
  }

  lemma {:induction false} SumWithout(utxos: Utxos, refs: set<Ref>, r: Ref)
    requires refs <= utxos.Keys && r in refs
    ensures Sum(utxos, refs) == utxos[r].lovelace + Sum(utxos, refs - {r})
  {
    var x :| x in refs && Sum(utxos, refs) == utxos[x].lovelace + Sum(utxos, refs - {x});
    if x != r {
      SumWithout(utxos, refs - {x}, r);
      SumWithout(utxos, refs - {r}, x);
      assert refs - {x} - {r} == refs - {r} - {x};
    }
  }

  lemma {:induction false} SumSplits(utxos: Utxos, refs: set<Ref>, part: set<Ref>)
    requires part <= refs <= utxos.Keys
    ensures Sum(utxos, refs) == Sum(utxos, part) + Sum(utxos, refs - part)
  {
    if part == {} {
      assert refs - part == refs;
    } else {
      var r :| r in part;
      SumWithout(utxos, refs, r);
      SumWithout(utxos, part, r);
      SumSplits(utxos, refs - {r}, part - {r});
      assert refs - {r} - (part - {r}) == refs - part;
    }
  }

  lemma {:induction false} SumAgrees(a: Utxos, b: Utxos, refs: set<Ref>)
    requires refs <= a.Keys && refs <= b.Keys
    requires forall r :: r in refs ==> a[r] == b[r]
    ensures Sum(a, refs) == Sum(b, refs)
  {
    if refs != {} {
      var r :| r in refs;
      SumWithout(a, refs, r);
      SumWithout(b, refs, r);
      SumAgrees(a, b, refs - {r});
    }
  }

  function RefSet(cs: seq<Candidate>): set<Ref> {
    set i | 0 <= i < |cs| :: cs[i].ref
  }

  /** Adding up a list of distinct entries is adding up the set of their refs. */
  lemma {:induction false} TotalIsSum(cs: seq<Candidate>, utxos: Utxos)
    requires Distinct(Refs(cs))
    requires forall c :: c in cs ==> c.ref in utxos && c.value == utxos[c.ref].lovelace
    ensures RefSet(cs) <= utxos.Keys && Total(cs) == Sum(utxos, RefSet(cs))
  {
    if cs != [] {
      var init, last := cs[..|cs| - 1], cs[|cs| - 1];
      assert cs == init + [last];
      forall i, j | 0 <= i < j < |init| ensures Refs(init)[i] != Refs(init)[j] {
        assert Refs(cs)[i] != Refs(cs)[j];
      }
      TotalIsSum(init, utxos);
      TotalOfAppend(init, last);
      forall i | 0 <= i < |init| ensures init[i].ref != last.ref {
        assert Refs(cs)[i] != Refs(cs)[|cs| - 1];
      }
      assert last in cs;
      assert RefSet(cs) - {last.ref} == RefSet(init);
      SumWithout(utxos, RefSet(cs), last.ref);
    }
  }

  /** The candidates of a shown ledger are the sender's coins and sum to the balance. */
  lemma CandidatesOfLedger(snapshot: Snapshot, utxos: Utxos, sender: Address)
    requires Shows(snapshot, utxos)
    ensures Candidates(snapshot, sender).Some?
    ensures Total(Candidates(snapshot, sender).value) == Balance(utxos, sender)
  {
    var f := Filter(snapshot, sender);
    forall i | 0 <= i < |f| ensures f[i].lovelace.Some? {
      assert f[i] in snapshot;
    }
    CandidatesAreSenderEntries(snapshot, sender);
    var cs := Candidates(snapshot, sender).value;
    TotalIsSum(cs, utxos);
    forall r ensures r in RefSet(cs) <==> r in Owned(utxos, sender) {
      if r in Owned(utxos, sender) {
        var e := Entry(r, sender, Some(utxos[r].lovelace));
        assert e in snapshot;
        assert Candidate(r, utxos[r].lovelace) in cs;
      }
    }
    assert RefSet(cs) == Owned(utxos, sender);
  }

  lemma ShowsUnique(a: Snapshot, b: Snapshot, utxos: Utxos)
    requires Shows(a, utxos) && Shows(b, utxos)
    ensures a == b
  {
    forall e ensures e in a <==> e in b {}
    AscendingListingUnique(a, b);
  }

  // ------------------------------------------------------------------ payments

  datatype Payment = Payment(inputs: set<Ref>, sender: Address, receiver: Address, amount: U64, change: U64)

  predicate Applicable(utxos: Utxos, p: Payment) {
    p.inputs <= utxos.Keys
  }

  function Outputs(p: Payment, pay: Ref, back: Ref): Utxos {
    map[pay := Coin(p.receiver, p.amount)] + (if p.change > 0 then map[back := Coin(p.sender, p.change)] else map[])
  }

  /** Spends the inputs and adds the payment, and the change if there is any. */
  function Apply(utxos: Utxos, p: Payment, pay: Ref, back: Ref): Utxos {
    (utxos - p.inputs) + Outputs(p, pay, back)
  }

  /** The payment moves exactly what its inputs are worth. */
  ghost predicate Balanced(utxos: Utxos, p: Payment) {
    && Applicable(utxos, p)
    && p.inputs <= Owned(utxos, p.sender)
    && Sum(utxos, p.inputs) == p.amount + p.change
  }

  lemma ApplyBalanced(utxos: Utxos, p: Payment, pay: Ref, back: Ref)
    requires Balanced(utxos, p) && p.receiver != p.sender
    requires pay !in utxos && back !in utxos && pay != back
    ensures Balance(Apply(utxos, p, pay, back), p.sender) + p.amount == Balance(utxos, p.sender)
  {
    var after := Apply(utxos, p, pay, back);
    var before := Owned(utxos, p.sender);
    var kept := before - p.inputs;
    SumSplits(utxos, before, p.inputs);
    SumAgrees(utxos, after, kept);
    if p.change > 0 {
      assert Owned(after, p.sender) - {back} == kept;
      SumWithout(after, Owned(after, p.sender), back);
    } else {
      assert Owned(after, p.sender) == kept;
    }
  }

  /** The payment that `send_hydra_transaction` builds from its selection. */
  function PaymentOf(sel: Selection, sender: Address, receiver: Address, amount: U64): Payment {
    Payment((set r | r in sel.inputs), sender, receiver, amount, sel.change)
  }

  lemma SelectedPaymentBalanced(snapshot: Snapshot, utxos: Utxos, sender: Address, receiver: Address, amount: U64)
    requires Shows(snapshot, utxos) && Select(snapshot, sender, amount).Ok?
    ensures var p := PaymentOf(Select(snapshot, sender, amount).value, sender, receiver, amount);
      Balanced(utxos, p) && p.inputs != {}
  {
    var sel := Select(snapshot, sender, amount).value;
    var chosen := SelectionIsSound(snapshot, sender, amount);
    forall c | c in chosen
      ensures c.ref in utxos && c.value == utxos[c.ref].lovelace && utxos[c.ref].address == sender
    {
      assert Entry(c.ref, sender, Some(c.value)) in snapshot;
    }
    TotalIsSum(chosen, utxos);
    var p := PaymentOf(sel, sender, receiver, amount);
    forall r ensures r in p.inputs <==> r in RefSet(chosen) {
      if r in p.inputs {
        var i :| 0 <= i < |sel.inputs| && sel.inputs[i] == r;
        assert chosen[i].ref == r;
      }
      if r in RefSet(chosen) {
        var i :| 0 <= i < |chosen| && chosen[i].ref == r;
        assert sel.inputs[i] == r;
      }
    }
    assert p.inputs == RefSet(chosen);
    forall r | r in p.inputs ensures r in Owned(utxos, sender) {
      var i :| 0 <= i < |chosen| && chosen[i].ref == r;
      assert chosen[i] in chosen;
    }
    assert sel.inputs[0] in p.inputs;
  }
}
