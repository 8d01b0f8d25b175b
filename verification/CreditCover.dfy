/**
 Prepaid credits against the balance of one head. The balance only grows; polls and openings
 read it, or fail to. What was served is covered unless an opening starts from too low a baseline.
 */
module CreditCover {
  import opened Prelude
  import opened HydraConfig
  import opened Arithmetic
  import C = Credits

  /** `base` is the baseline of the first opening. */
  datatype World = World(credits: C.World, balance: U64, base: Option<U64>)

  /** A payment to the gateway, or a step of the credit machine. */
  datatype Step = Grow(more: nat) | Inner(step: C.Step)

  /** A balance that is read is the balance of the head. */
  predicate Genuine(w: World, b: Option<U64>) {
    b.Some? ==> b.value == w.balance
  }

  predicate Enabled(w: World, step: Step) {
    match step
    case Grow(more) => w.balance + more < U64_SIZE
    case Inner(s) =>
      C.Enabled(w.credits, s) && !s.Idle? && (s.Monitor? || s.Open? ==> Genuine(w, s.balance))
  }

  function Baseline(b: Option<U64>): U64 {
    if b.Some? then b.value else 0
  }

  function After(cfg: Config, w: World, step: Step): World
    requires Enabled(w, step)
  {
    match step
    case Grow(more) => w.(balance := w.balance + more)
    case Inner(s) =>
      World(C.After(cfg, w.credits, s), w.balance,
            if s.Open? && w.base.None? then Some(Baseline(s.balance)) else w.base)
  }

  predicate Possible(cfg: Config, w: World, steps: seq<Step>)
    decreases |steps|
  {
    steps == [] || (Enabled(w, steps[0]) && Possible(cfg, After(cfg, w, steps[0]), steps[1..]))
  }

  function Run(cfg: Config, w: World, steps: seq<Step>): World
    requires Possible(cfg, w, steps)
    decreases |steps|
  {
    if steps == [] then w else Run(cfg, After(cfg, w, steps[0]), steps[1..])
  }

  function NewHead(balance: U64): World {
    World(C.World(C.OnRestart(), map[], C.Totals(0, 0, 0, 0, 0)), balance, None)
  }

  // ------------------------------------------------------------------ cover

  /** The credits that have been used or can be. */
  function Held(w: World): nat {
    w.credits.meter.available + w.credits.totals.served
  }

  /** What was served costs no more than the balance has grown since the first baseline. */
  predicate Bounded(cfg: Config, w: World) {
    w.base.Some? ==> w.base.value + cfg.lovelacePerRequest * w.credits.totals.served <= w.balance
  }

  /** The held credits are paid for below the point from which increases are counted. */
  predicate Covered(cfg: Config, w: World) {
    if w.base.None? then Held(w) == 0 && !w.credits.meter.headOpen
    else
      && (w.credits.meter.headOpen ==> w.credits.meter.last <= w.balance)
      && w.base.value + cfg.lovelacePerRequest * Held(w)
         <= if w.credits.meter.headOpen then w.credits.meter.last else w.balance
  }

  /** The baseline is not below what the held credits have cost. */
  predicate SafeOpening(cfg: Config, w: World, b: Option<U64>) {
    w.base.Some? ==> w.base.value + cfg.lovelacePerRequest * Held(w) <= Baseline(b)
  }

  predicate SafeStep(cfg: Config, w: World, step: Step) {
    step.Inner? && step.step.Open? ==> SafeOpening(cfg, w, step.step.balance)
  }

  predicate AllSafe(cfg: Config, w: World, steps: seq<Step>)
    requires Possible(cfg, w, steps)
    decreases |steps|
  {
    steps == [] || (SafeStep(cfg, w, steps[0]) && AllSafe(cfg, After(cfg, w, steps[0]), steps[1..]))
  }

  lemma CoverBounds(cfg: Config, w: World)
    requires Covered(cfg, w)
    ensures Bounded(cfg, w)
  {
    MultiplyMonotone(cfg.lovelacePerRequest, w.credits.totals.served, Held(w));
  }

  /** What a poll does, for an increase worth `n` credits. */
  lemma PollAdds(cfg: Config, w: World, up: U64, n: nat)
    requires w.credits.meter.headOpen && !w.credits.meter.closing && w.credits.meter.last <= w.balance
    requires up == w.balance - w.credits.meter.last && n == C.NewCredits(cfg, up)
    ensures var next := After(cfg, w, Inner(C.Monitor(Some(w.balance))));
      && next.base == w.base && next.balance == w.balance
      && next.credits.meter.headOpen && next.credits.meter.last == w.balance
      && next.credits.meter.available == (w.credits.meter.available + n) % U64_SIZE
      && next.credits.totals.served == w.credits.totals.served
  {
    C.MonitorAdds(cfg, w.credits.meter, Some(w.balance));
  }

  lemma CoverGrows(price: nat, base: nat, held: nat, n: nat, after: nat, last: nat, up: nat)
    requires base + price * held <= last && price * n <= up && after <= held + n
    ensures base + price * after <= last + up
  {
    Distribute(price, held, n);
    MultiplyMonotone(price, after, held + n);
  }

  /** A poll counts the increase once, for no more than it is worth. */
  lemma MonitorKeepsCover(cfg: Config, w: World, b: Option<U64>)
    requires C.Fits(cfg) && cfg.Microtransaction() > 0 && Covered(cfg, w) && Enabled(w, Inner(C.Monitor(b)))
    ensures Covered(cfg, After(cfg, w, Inner(C.Monitor(b))))
  {
    var m := w.credits.meter;
    if m.headOpen && !m.closing && b.Some? {
      var up := w.balance - m.last;
      var n := C.NewCredits(cfg, up);
      C.GrantWithoutWrap(cfg, up);
      PollAdds(cfg, w, up, n);
      var next := After(cfg, w, Inner(C.Monitor(b)));
      CoverGrows(cfg.lovelacePerRequest, w.base.value, Held(w), n, Held(next), m.last, up);
    }
  }

  lemma SpendingKeepsHeld(cfg: Config, w: World, s: C.Step)
    requires (s.Load? || s.Exchange?) && Enabled(w, Inner(s))
    ensures var next := After(cfg, w, Inner(s));
      && Held(next) == Held(w) && next.base == w.base && next.balance == w.balance
      && next.credits.meter == w.credits.meter.(available := next.credits.meter.available)
  {
  }

  lemma StepKeepsCover(cfg: Config, w: World, step: Step)
    requires C.Fits(cfg) && cfg.Microtransaction() > 0
    requires Covered(cfg, w) && Enabled(w, step) && SafeStep(cfg, w, step)
    ensures Covered(cfg, After(cfg, w, step))
  {
    match step
    case Grow(more) =>
    case Inner(s) =>
      match s
      case Load(t) => SpendingKeepsHeld(cfg, w, s);
      case Exchange(t) => SpendingKeepsHeld(cfg, w, s);
      case Monitor(b) => MonitorKeepsCover(cfg, w, b);
      case Open(b) =>
      case Restart => MultiplyMonotone(cfg.lovelacePerRequest, w.credits.totals.served, Held(w));
      case Close =>
  }

  /** In every run on one head whose openings are safe, what was served is paid for. */
  lemma {:induction false} SafeRunsAreCovered(cfg: Config, w: World, steps: seq<Step>)
    requires C.Fits(cfg) && cfg.Microtransaction() > 0
    requires Covered(cfg, w) && Possible(cfg, w, steps) && AllSafe(cfg, w, steps)
    ensures Covered(cfg, Run(cfg, w, steps)) && Bounded(cfg, Run(cfg, w, steps))
    decreases |steps|
  {
    if steps == [] {
      CoverBounds(cfg, w);
    } else {
      StepKeepsCover(cfg, w, steps[0]);
      SafeRunsAreCovered(cfg, After(cfg, w, steps[0]), steps[1..]);
    }
  }

  /** An opening that can read the balance is always safe; one that cannot, only at the very beginning. */
  lemma OpeningsAreSafeIff(cfg: Config, w: World, b: Option<U64>)
    requires Covered(cfg, w) && Genuine(w, b) && cfg.lovelacePerRequest > 0
    ensures SafeOpening(cfg, w, b) <==> b.Some? || w.base.None? || (w.base.value == 0 && Held(w) == 0)
  {
    if w.base.Some? && Held(w) > 0 {
      MultiplyMonotone(cfg.lovelacePerRequest, 1, Held(w));
    }
  }

  // ------------------------------------------------------------------ the condition is exact

  lemma {:induction false} Join(cfg: Config, w: World, a: seq<Step>, b: seq<Step>)
    requires Possible(cfg, w, a) && Possible(cfg, Run(cfg, w, a), b)
    ensures Possible(cfg, w, a + b) && Run(cfg, w, a + b) == Run(cfg, Run(cfg, w, a), b)
    ensures AllSafe(cfg, w, a) && AllSafe(cfg, Run(cfg, w, a), b) ==> AllSafe(cfg, w, a + b)
    decreases |a|
  {
    if a == [] {
      assert a + b == b;
    } else {
      assert (a + b)[1..] == a[1..] + b;
      Join(cfg, After(cfg, w, a[0]), a[1..], b);
    }
  }

  lemma OneStep(cfg: Config, w: World, step: Step)
    requires Enabled(w, step)
    ensures Possible(cfg, w, [step]) && Run(cfg, w, [step]) == After(cfg, w, step)
    ensures AllSafe(cfg, w, [step]) <==> SafeStep(cfg, w, step)
  {
    assert [step][1..] == [];
  }

  lemma FreshThread(threads: map<nat, U64>) returns (t: nat)
    ensures t !in threads
  {
    t := Unused(threads.Keys);
  }

  lemma {:induction false} Unused(ids: set<nat>) returns (t: nat)
    ensures forall id <- ids :: id < t
  {
    if ids == {} {
      t := 0;
    } else {
      var x :| x in ids;
      var u := Unused(ids - {x});
      t := if x < u then u else x + 1;
      forall id <- ids
        ensures id < t
      {
        assert id == x || id in ids - {x};
      }
    }
  }

  /** Nothing prevents all available credits from being served. */
  lemma {:induction false} SpendAll(cfg: Config, w: World) returns (steps: seq<Step>)
    ensures Possible(cfg, w, steps) && AllSafe(cfg, w, steps)
    ensures var end := Run(cfg, w, steps);
      end.credits.totals.served == Held(w) && end.balance == w.balance && end.base == w.base
    decreases w.credits.meter.available
  {
    if w.credits.meter.available == 0 {
      steps := [];
    } else {
      var t := FreshThread(w.credits.threads);
      OneStep(cfg, w, Inner(C.Load(t)));
      var loaded := After(cfg, w, Inner(C.Load(t)));
      OneStep(cfg, loaded, Inner(C.Exchange(t)));
      var spent := After(cfg, loaded, Inner(C.Exchange(t)));
      Join(cfg, w, [Inner(C.Load(t))], [Inner(C.Exchange(t))]);
      var rest := SpendAll(cfg, spent);
      Join(cfg, w, [Inner(C.Load(t))] + [Inner(C.Exchange(t))], rest);
      steps := [Inner(C.Load(t))] + [Inner(C.Exchange(t))] + rest;
    }
  }

  /** The head is open, its monitor is running, and there is room for one microtransaction more. */
  predicate Room(cfg: Config, w: World) {
    && !w.credits.meter.closing
    && w.credits.meter.available + w.balance + cfg.Microtransaction() < U64_SIZE
  }

  /** A whole increase is credited in full. */
  lemma WholePoll(cfg: Config, w: World)
    requires C.Fits(cfg) && cfg.Microtransaction() > 0
    requires w.credits.meter.headOpen && !w.credits.meter.closing && w.credits.meter.last <= w.balance
    requires (w.balance - w.credits.meter.last) % cfg.Microtransaction() == 0
    requires w.credits.meter.available + w.balance < U64_SIZE
    ensures var next := After(cfg, w, Inner(C.Monitor(Some(w.balance))));
      && next.base == w.base && next.balance == w.balance
      && cfg.lovelacePerRequest * Held(next)
         == cfg.lovelacePerRequest * Held(w) + (w.balance - w.credits.meter.last)
  {
    var up := w.balance - w.credits.meter.last;
    var n := C.NewCredits(cfg, up);
    C.WholeGrant(cfg, up);
    PollAdds(cfg, w, up, n);
    GrantFits(cfg.lovelacePerRequest, n, up, w.credits.meter.available, w.balance);
    ValuesCombine(cfg.lovelacePerRequest, Held(w), n, cfg.lovelacePerRequest * Held(w), up);
  }

  lemma GrantFits(price: nat, n: nat, up: nat, available: nat, balance: nat)
    requires price * n == up && up <= balance && available + balance < U64_SIZE && price > 0
    ensures available + n < U64_SIZE && (available + n) % U64_SIZE == available + n
  {
    MultiplyMonotone(n, 1, price);
    assert n * price == price * n;
  }

  /** From an opening, the balance can grow to a whole number of microtransactions, which are all credited. */
  lemma CreditAll(cfg: Config, w: World) returns (steps: seq<Step>)
    requires C.Fits(cfg) && cfg.Microtransaction() > 0 && Room(cfg, w)
    requires w.credits.meter.headOpen && w.credits.meter.last <= w.balance
    ensures Possible(cfg, w, steps) && AllSafe(cfg, w, steps)
    ensures var end := Run(cfg, w, steps);
      && end.base == w.base && end.balance >= w.balance
      && cfg.lovelacePerRequest * Held(end)
         == cfg.lovelacePerRequest * Held(w) + (end.balance - w.credits.meter.last)
  {
    var m := cfg.Microtransaction();
    var increase: nat := w.balance - w.credits.meter.last;
    WholeIncrease(increase, m);
    var more: nat := (m - increase % m) % m;
    var grown := w.(balance := w.balance + more);
    OneStep(cfg, w, Grow(more));
    WholePoll(cfg, grown);
    var read := Inner(C.Monitor(Some(grown.balance)));
    OneStep(cfg, grown, read);
    Join(cfg, w, [Grow(more)], [read]);
    steps := [Grow(more)] + [read];
  }

  lemma WholeIncrease(increase: nat, m: nat)
    requires m > 0
    ensures 0 <= (m - increase % m) % m < m && (increase + (m - increase % m) % m) % m == 0
  {
    var r := increase % m;
    Split(increase, m);
    if r == 0 {
      assert (m - r) % m == 0 by { QuotientUnique(m, m, 1, 0); }
    } else {
      QuotientUnique(m - r, m, 0, m - r);
      Distribute(m, increase / m, 1);
      QuotientUnique(increase + (m - r), m, increase / m + 1, 0);
    }
  }

  /** After an opening from too low a baseline, more can be served than was ever paid. */
  lemma UnsafeOpeningOverserves(cfg: Config, w: World, b: Option<U64>) returns (steps: seq<Step>)
    requires C.Fits(cfg) && cfg.Microtransaction() > 0 && Covered(cfg, w) && Room(cfg, w)
    requires Genuine(w, b) && !SafeOpening(cfg, w, b)
    ensures var first := After(cfg, w, Inner(C.Open(b)));
      && Possible(cfg, first, steps) && AllSafe(cfg, first, steps) && !Bounded(cfg, Run(cfg, first, steps))
  {
    var first := After(cfg, w, Inner(C.Open(b)));
    var credit := CreditAll(cfg, first);
    var full := Run(cfg, first, credit);
    var spend := SpendAll(cfg, full);
    Join(cfg, first, credit, spend);
    steps := credit + spend;
  }

  /** No continuation with safe openings serves more than was paid. */
  ghost predicate StaysBounded(cfg: Config, w: World) {
    forall steps :: Possible(cfg, w, steps) && AllSafe(cfg, w, steps) ==> Bounded(cfg, Run(cfg, w, steps))
  }

  /** An opening keeps everything served paid for, whatever follows, exactly when its baseline is safe. */
  lemma OpeningIsSafeIff(cfg: Config, w: World, b: Option<U64>)
    requires C.Fits(cfg) && cfg.Microtransaction() > 0 && Covered(cfg, w) && Room(cfg, w) && Genuine(w, b)
    ensures StaysBounded(cfg, After(cfg, w, Inner(C.Open(b)))) <==> SafeOpening(cfg, w, b)
  {
    var first := After(cfg, w, Inner(C.Open(b)));
    if SafeOpening(cfg, w, b) {
      StepKeepsCover(cfg, w, Inner(C.Open(b)));
      forall steps | Possible(cfg, first, steps) && AllSafe(cfg, first, steps)
        ensures Bounded(cfg, Run(cfg, first, steps))
      {
        SafeRunsAreCovered(cfg, first, steps);
      }
    } else {
      var steps := UnsafeOpeningOverserves(cfg, w, b);
    }
  }

  /** One microtransaction is counted from zero, and its credits are served. */
  lemma CountAndServe(cfg: Config, w: World) returns (steps: seq<Step>)
    requires C.Fits(cfg) && cfg.Microtransaction() > 0 && w.balance == cfg.Microtransaction()
    requires w.credits.meter.headOpen && !w.credits.meter.closing
    requires w.credits.meter.available == 0 && w.credits.meter.last == 0
    ensures Possible(cfg, w, steps)
    ensures var end := Run(cfg, w, steps);
      && end.balance == w.balance && end.base == w.base
      && cfg.lovelacePerRequest * end.credits.totals.served
         == cfg.lovelacePerRequest * w.credits.totals.served + cfg.Microtransaction()
  {
    assert cfg.Microtransaction() % cfg.Microtransaction() == 0 by {
      ExactQuotient(cfg.Microtransaction(), 1);
    }
    WholePoll(cfg, w);
    var read := Inner(C.Monitor(Some(w.balance)));
    OneStep(cfg, w, read);
    var spend := SpendAll(cfg, After(cfg, w, read));
    Join(cfg, w, [read], spend);
    steps := [read] + spend;
  }

  /** A head is opened with nothing in it, and one microtransaction arrives. */
  lemma PaidOnce(cfg: Config) returns (steps: seq<Step>)
    requires C.Fits(cfg) && cfg.Microtransaction() > 0
    ensures Possible(cfg, NewHead(0), steps)
    ensures var w := Run(cfg, NewHead(0), steps);
      && w.base == Some(0) && w.balance == cfg.Microtransaction()
      && w.credits.meter == C.OnOpen(C.OnRestart(), Some(0)) && w.credits.totals.served == 0
  {
    var open := Inner(C.Open(Some(0)));
    var grow := Grow(cfg.Microtransaction());
    OneStep(cfg, NewHead(0), open);
    OneStep(cfg, After(cfg, NewHead(0), open), grow);
    Join(cfg, NewHead(0), [open], [grow]);
    steps := [open] + [grow];
  }

  /**
   The gateway restarts, and cannot read the balance when it finds the head open again: it counts
   from zero, and serves the one microtransaction in the head twice.
   */
  lemma UnreadableOpeningServesTwice(cfg: Config) returns (steps: seq<Step>)
    requires C.Fits(cfg) && cfg.Microtransaction() > 0
    ensures Possible(cfg, NewHead(0), steps)
    ensures var end := Run(cfg, NewHead(0), steps);
      && end.base == Some(0) && end.balance == cfg.Microtransaction()
      && cfg.lovelacePerRequest * end.credits.totals.served == 2 * cfg.Microtransaction()
  {
    steps := PaidOnce(cfg);
    var w := Run(cfg, NewHead(0), steps);
    var serve := CountAndServe(cfg, w);
    Join(cfg, NewHead(0), steps, serve);
    steps := steps + serve;
    w := Run(cfg, NewHead(0), steps);
    var restart, unread := Inner(C.Restart), Inner(C.Open(None));
    OneStep(cfg, w, restart);
    Join(cfg, NewHead(0), steps, [restart]);
    OneStep(cfg, After(cfg, w, restart), unread);
    Join(cfg, NewHead(0), steps + [restart], [unread]);
    steps := steps + [restart] + [unread];
    w := Run(cfg, NewHead(0), steps);
    serve := CountAndServe(cfg, w);
    Join(cfg, NewHead(0), steps, serve);
    steps := steps + serve;
  }
}
