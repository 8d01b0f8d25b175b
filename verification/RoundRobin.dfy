/** Which relay serves a request that may go to any: a shared counter picks one after the other. */
module RoundRobin {
  import opened Prelude
  import opened Arithmetic

  type Relay = nat

  /** `relays` are the connected relays in key order. */
  class Balancer {
    var relays: seq<Relay>
    var cursor: U64

    constructor ()
      ensures relays == [] && cursor == 0
    {
      relays, cursor := [], 0;
    }

    /** `fetch_add` returns the old value and wraps around. */
    method RelayForAny() returns (r: Option<Relay>)
      requires |relays| < U64_SIZE
      modifies this`cursor
      ensures relays == [] ==> r == None && cursor == old(cursor)
      ensures relays != [] ==>
        r == Some(relays[Pick(old(cursor), 0, |relays|)]) && cursor == (old(cursor) + 1) % U64_SIZE
    {
      var n := |relays|;
      if n == 0 {
        return None;
      }
      var count := cursor;
      cursor := if cursor + 1 == U64_SIZE then 0 else cursor + 1;
      return Some(relays[count % n]);
    }
  }

  // ------------------------------------------------------------------ windows of calls

  /** The index that call number `j` picks when the counter starts at `cursor` and no relay comes or goes. */
  function Pick(cursor: U64, j: nat, n: nat): (i: nat)
    requires n > 0
    ensures i < n
  {
    (cursor + j) % U64_SIZE % n
  }

  /** How often `k` consecutive calls pick relay `i`. */
  function Picks(cursor: U64, k: nat, n: nat, i: nat): nat
    requires n > 0
  {
    if k == 0 then 0 else Picks(cursor, k - 1, n, i) + (if Pick(cursor, k - 1, n) == i then 1 else 0)
  }

  function Ceiling(k: nat, n: nat): nat
    requires n > 0
  {
    if k % n == 0 then k / n else k / n + 1
  }

  predicate FairAt(cursor: U64, k: nat, n: nat, i: nat)
    requires n > 0
  {
    k / n <= Picks(cursor, k, n, i) <= Ceiling(k, n)
  }

  /** The window does not reach the end of the counter, or the relays divide its range. */
  predicate Regular(cursor: U64, k: nat, n: nat)
    requires n > 0
  {
    cursor + k <= U64_SIZE || U64_SIZE % n == 0
  }

  lemma PickIsRemainder(cursor: U64, j: nat, n: nat, i: nat)
    requires i < n && Regular(cursor, j + 1, n)
    ensures Pick(cursor, j, n) == i <==> (cursor + j + (n - 1 - i) + 1) % n == 0
  {
    if cursor + j >= U64_SIZE {
      RemainderOfRemainder(cursor + j, U64_SIZE, n);
    }
    RemainderAt(cursor + j, n, i);
  }

  lemma RemainderAt(m: nat, n: nat, i: nat)
    requires i < n
    ensures m % n == i <==> (m + (n - 1 - i) + 1) % n == 0
  {
    var q, r := m / n, m % n;
    Split(m, n);
    if r < i {
      QuotientUnique(m + (n - i), n, q, r + n - i);
    } else {
      Distribute(n, q, 1);
      QuotientUnique(m + (n - i), n, q + 1, r - i);
    }
  }

  /** The picks of a window, in closed form. */
  lemma {:induction false} PicksAreQuotients(cursor: U64, k: nat, n: nat, i: nat)
    requires i < n && Regular(cursor, k, n)
    ensures Picks(cursor, k, n, i) == (cursor + k + (n - 1 - i)) / n - (cursor + (n - 1 - i)) / n
  {
    if k > 0 {
      PicksAreQuotients(cursor, k - 1, n, i);
      QuotientStep(cursor + (k - 1) + (n - 1 - i), n);
      PickIsRemainder(cursor, k - 1, n, i);
    }
  }

  /** Any `k` consecutive calls pick each relay as evenly as `k` allows. */
  lemma WindowsAreFair(cursor: U64, k: nat, n: nat, i: nat)
    requires i < n && Regular(cursor, k, n)
    ensures FairAt(cursor, k, n, i)
  {
    PicksAreQuotients(cursor, k, n, i);
    QuotientsAddClosely(cursor + (n - 1 - i), k, n);
  }

  ghost predicate AlwaysFair(n: nat)
    requires n > 0
  {
    forall cursor: U64, k: nat, i: nat | i < n :: FairAt(cursor, k, n, i)
  }

  /** Every window is fair, even across the wrap-around, exactly when the number of relays divides 2^64. */
  lemma FairAcrossWrapIff(n: nat)
    requires 0 < n < U64_SIZE
    ensures AlwaysFair(n) <==> U64_SIZE % n == 0
  {
    var r := U64_SIZE % n;
    if r == 0 {
      forall cursor: U64, k: nat, i: nat | i < n
        ensures FairAt(cursor, k, n, i)
      {
        WindowsAreFair(cursor, k, n, i);
      }
    } else {
      UnfairAtWrap(n);
    }
  }

  lemma EdgeQuotients(n: nat, q: nat, r: nat)
    requires 0 < r < n
    ensures (n * q + r + (n - 1)) / n - (n * q + (n - 1)) / n == 1
    ensures Ceiling(r + 1, n) == 1
  {
    Distribute(n, q, 1);
    QuotientUnique(n * q + (n - 1), n, q, n - 1);
    QuotientUnique(n * q + r + (n - 1), n, q + 1, r - 1);
    if r + 1 < n {
      QuotientUnique(r + 1, n, 0, r + 1);
    } else {
      QuotientUnique(r + 1, n, 1, 0);
    }
  }

  /** The last calls before the wrap-around and the first one after it pick relay 0 twice, too soon. */
  lemma UnfairAtWrap(n: nat)
    requires 0 < n < U64_SIZE && U64_SIZE % n != 0
    ensures !FairAt(U64_SIZE - U64_SIZE % n, U64_SIZE % n + 1, n, 0)
  {
    var q, r := U64_SIZE / n, U64_SIZE % n;
    Split(U64_SIZE, n);
    var cursor: U64 := U64_SIZE - r;
    PicksAreQuotients(cursor, r, n, 0);
    EdgeQuotients(n, q, r);
    assert Picks(cursor, r, n, 0) == 1;
    assert 0 % n == 0;
    assert Pick(cursor, r, n) == 0;
  }
}
