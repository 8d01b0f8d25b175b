/**
 Prepaid credits: a monitor turns balance increases of the head into request
 credits by whole microtransactions, and any number of threads spend them with
 a compare-and-exchange loop.
 */
module Credits {
  import opened Prelude
  import opened HydraConfig
  import opened Arithmetic

  // ------------------------------------------------------------------ the monitor

  /** The `u64` product in the monitor wraps around. */
  function MicrotransactionValue(cfg: Config): U64 {
    (cfg.lovelacePerRequest * cfg.requestsPerMicrotransaction) % U64_SIZE
  }

  /** Whole microtransactions in a balance increase. */
  function NewMicrotransactions(cfg: Config, delta: U64): U64 {
    var m := MicrotransactionValue(cfg);
    if m == 0 || delta < m then 0
    else
      QuotientFits(delta, m);
      assert delta / m <= m * (delta / m) by { MultiplyMonotone(delta / m, 1, m); }
      delta / m
  }

  function NewCredits(cfg: Config, delta: U64): U64 {
    (NewMicrotransactions(cfg, delta) * cfg.requestsPerMicrotransaction) % U64_SIZE
  }

  /** `credits_available`, `credits_last_balance`, `received_microtransactions` and the two flags. */
  datatype Meter = Meter(available: U64, last: U64, received: nat, headOpen: bool, closing: bool)

  /** What a monitor step schedules. */
  datatype Timers = Timers(close: bool, again: bool)

  function Observe(cfg: Config, m: Meter, balance: U64): Meter {
    if balance <= m.last then m.(last := balance)
    else
      m.(available := (m.available + NewCredits(cfg, balance - m.last)) % U64_SIZE,
         received := m.received + NewMicrotransactions(cfg, balance - m.last),
         last := balance)
  }

  function OnMonitor(cfg: Config, m: Meter, balance: Option<U64>): (Meter, Timers) {
    if !m.headOpen || m.closing then (m, Timers(false, false))
    else if balance.None? then (m, Timers(false, true))
    else
      var n := Observe(cfg, m, balance.value);
      if n.received >= cfg.microtransactionsPerFanout then (n.(closing := true), Timers(true, true))
      else (n, Timers(false, true))
  }

  /** The head is open: the baseline is the current balance, or zero if it cannot be read. */
  function OnOpen(m: Meter, balance: Option<U64>): Meter {
    m.(headOpen := true, received := 0, last := if balance.Some? then balance.value else 0)
  }

  function OnRestart(): Meter {
    Meter(0, 0, 0, false, false)
  }

  function OnClose(m: Meter): Meter {
    m.(headOpen := false)
  }

  function OnIdle(m: Meter): Meter {
    m.(closing := false, received := 0, last := 0)
  }

  class CreditMeter {
    const cfg: Config
    var creditsAvailable: U64
    var lastBalance: U64
    var receivedMicrotransactions: nat
    var headOpen: bool
    var isClosing: bool

    ghost function View(): Meter
      reads this
    {
      Meter(creditsAvailable, lastBalance, receivedMicrotransactions, headOpen, isClosing)
    }

    constructor (cfg: Config)
      ensures this.cfg == cfg && View() == OnRestart()
    {
      this.cfg := cfg;
      creditsAvailable, lastBalance, receivedMicrotransactions := 0, 0, 0;
      headOpen, isClosing := false, false;
    }

    method Restart()
      modifies this
      ensures View() == OnRestart()
    {
      headOpen := false;
      creditsAvailable := 0;
      lastBalance := 0;
      receivedMicrotransactions := 0;
      isClosing := false;
    }

    method WaitForOpen(balance: Option<U64>)
      modifies this
      ensures View() == OnOpen(old(View()), balance)
    {
      var initial := if balance.Some? then balance.value else 0;
      headOpen := true;
      lastBalance := initial;
      receivedMicrotransactions := 0;
    }

    method MonitorCredits(balance: Option<U64>) returns (timers: Timers)
      modifies this
      ensures (View(), timers) == OnMonitor(cfg, old(View()), balance)
    {
      timers := Timers(false, false);
      if headOpen && !isClosing {
        if balance.Some? {
          Credit(balance.value);
          if receivedMicrotransactions >= cfg.microtransactionsPerFanout {
            isClosing := true;
            timers := timers.(close := true);
          }
        }
        timers := timers.(again := true);
      }
    }

    method Credit(current: U64)
      modifies this
      ensures View() == Observe(cfg, old(View()), current)
    {
      if current < lastBalance {
        lastBalance := current;
      } else {
        var delta := current - lastBalance;
        if delta > 0 {
          var value := MicrotransactionValue(cfg);
          if value != 0 && delta >= value {
            var micros := NewMicrotransactions(cfg, delta);
            creditsAvailable := (creditsAvailable + NewCredits(cfg, delta)) % U64_SIZE;
            receivedMicrotransactions := receivedMicrotransactions + micros;
          }
          lastBalance := current;
        }
      }
    }

    method TryToClose()
      modifies this
      ensures View() == OnClose(old(View()))
    {
      headOpen := false;
    }

    method IdleAfterClose()
      modifies this
      ensures View() == OnIdle(old(View()))
    {
      isClosing := false;
      receivedMicrotransactions := 0;
      lastBalance := 0;
    }
  }

  // ------------------------------------------------------------------ spending

  /** How an attempt to spend ends; `Pending` when the observed accesses do not decide it. */
  datatype Spend = Spent(access: nat) | Refused | Pending

  /** At access `j` the counter no longer holds the positive value read just before. */
  predicate Missed(counter: seq<U64>, j: nat) {
    0 < j < |counter| && 0 < counter[j - 1] != counter[j]
  }

  /**
   `try_consume_credit`, given what the counter holds at each atomic access: the
   load, then one compare-and-exchange after the other. A credit is taken only
   where the counter still holds the positive value read just before.
   */
  method TryConsumeCredit(counter: seq<U64>) returns (r: Spend)
    requires counter != []
    ensures match r
      case Spent(k) =>
        0 < k < |counter| && counter[k] == counter[k - 1] > 0 && forall j :: 0 < j < k ==> Missed(counter, j)
      case Refused =>
        exists k :: 0 <= k < |counter| && counter[k] == 0 && forall j :: 0 < j <= k ==> Missed(counter, j)
      case Pending =>
        counter[|counter| - 1] > 0 && forall j :: 0 < j < |counter| ==> Missed(counter, j)
  {
    var current := counter[0];
    var k := 0;
    while true
      invariant 0 <= k < |counter| && current == counter[k]
      invariant forall j :: 0 < j <= k ==> Missed(counter, j)
      decreases |counter| - k
    {
      if current == 0 {
        return Refused;
      }
      if k + 1 == |counter| {
        return Pending;
      }
      if counter[k + 1] == current {
        return Spent(k + 1);
      }
      current := counter[k + 1];
      k := k + 1;
    }
  }

  // ------------------------------------------------------------------ interleavings

  /** Credits given out, spent and wiped by restarts; balance increases that the monitor saw. */
  datatype Totals = Totals(granted: nat, served: nat, refused: nat, wiped: nat, observed: nat)

  /** `threads` maps a spending thread to the value it read last. */
  datatype World = World(meter: Meter, threads: map<nat, U64>, totals: Totals)

  datatype Step =
    | Load(thread: nat)
    | Exchange(thread: nat)
    | Monitor(balance: Option<U64>)
    | Open(balance: Option<U64>)
    | Restart
    | Close
    | Idle

  predicate Enabled(w: World, step: Step) {
    match step
    case Load(t) => t !in w.threads
    case Exchange(t) => t in w.threads
    case _ => true
  }

  function Increase(m: Meter, balance: Option<U64>): nat {
    if m.headOpen && !m.closing && balance.Some? && balance.value > m.last then balance.value - m.last else 0
  }

  function After(cfg: Config, w: World, step: Step): World
    requires Enabled(w, step)
  {
    match step
    case Load(t) => w.(threads := w.threads[t := w.meter.available])
    case Exchange(t) =>
      var seen := w.threads[t];
      if seen == 0 then w.(threads := w.threads - {t}, totals := w.totals.(refused := w.totals.refused + 1))
      else if w.meter.available == seen then
        w.(threads := w.threads - {t},
           meter := w.meter.(available := seen - 1),
           totals := w.totals.(served := w.totals.served + 1))
      else w.(threads := w.threads[t := w.meter.available])
    case Monitor(balance) =>
      var up := Increase(w.meter, balance);
      w.(meter := OnMonitor(cfg, w.meter, balance).0,
         totals := w.totals.(granted := w.totals.granted + NewCredits(cfg, up), observed := w.totals.observed + up))
    case Open(balance) => w.(meter := OnOpen(w.meter, balance))
    case Restart =>
      w.(meter := OnRestart(), totals := w.totals.(wiped := w.totals.wiped + w.meter.available))
    case Close => w.(meter := OnClose(w.meter))
    case Idle => w.(meter := OnIdle(w.meter))
  }

  ghost predicate Run(cfg: Config, run: seq<World>) {
    && run != []
    && run[0] == World(OnRestart(), map[], Totals(0, 0, 0, 0, 0))
    && forall i :: 0 <= i < |run| - 1 ==> Next(cfg, run[i], run[i + 1])
  }

  ghost predicate Next(cfg: Config, w: World, w': World) {
    exists step :: Enabled(w, step) && w' == After(cfg, w, step)
  }

  // ------------------------------------------------------------------ what a grant is worth

  /** The value of a microtransaction fits 64 bits. */
  predicate Fits(cfg: Config) {
    cfg.Microtransaction() < U64_SIZE
  }

  lemma GrantWithoutWrap(cfg: Config, delta: U64)
    requires Fits(cfg) && cfg.Microtransaction() > 0
    ensures NewCredits(cfg, delta) == (delta / cfg.Microtransaction()) * cfg.requestsPerMicrotransaction
    ensures cfg.lovelacePerRequest * NewCredits(cfg, delta) ==
            cfg.Microtransaction() * (delta / cfg.Microtransaction())
    ensures cfg.lovelacePerRequest * NewCredits(cfg, delta) <= delta
  {
    var m, price, batch := cfg.Microtransaction(), cfg.lovelacePerRequest, cfg.requestsPerMicrotransaction;
    var n := delta / m;
    QuotientFits(delta, m);
    if delta < m {
      assert n == 0;
    }
    assert NewMicrotransactions(cfg, delta) == n;
    calc {
      price * (n * batch);
      price * batch * n;
      m * n;
    }
    assert n * batch <= price * (n * batch) by { MultiplyMonotone(n * batch, 1, price); }
  }

  /** No increase is credited with more than it is worth iff the value fits 64 bits, or wraps to nothing. */
  lemma GrantsAreCoveredIff(cfg: Config)
    requires cfg.Accepted()
    ensures (forall delta: U64 :: cfg.lovelacePerRequest * NewCredits(cfg, delta) <= delta) <==>
      Fits(cfg) || MicrotransactionValue(cfg) == 0
  {
    if Fits(cfg) {
      forall delta: U64 ensures cfg.lovelacePerRequest * NewCredits(cfg, delta) <= delta {
        GrantWithoutWrap(cfg, delta);
      }
    } else if MicrotransactionValue(cfg) != 0 {
      var value := MicrotransactionValue(cfg);
      ExactQuotient(value, 1);
      assert NewMicrotransactions(cfg, value) == 1;
      assert NewCredits(cfg, value) == cfg.requestsPerMicrotransaction;
      assert cfg.lovelacePerRequest * NewCredits(cfg, value) > value;
    }
  }

  // ------------------------------------------------------------------ pay before serve

  ghost predicate Inv(cfg: Config, w: World) {
    && w.meter.available + w.totals.served + w.totals.wiped <= w.totals.granted
    && (w.totals.granted < U64_SIZE ==>
         w.totals.granted == w.meter.available + w.totals.served + w.totals.wiped)
    && cfg.lovelacePerRequest * w.totals.granted <= w.totals.observed
  }

  lemma MonitorAdds(cfg: Config, m: Meter, balance: Option<U64>)
    ensures OnMonitor(cfg, m, balance).0.available == (m.available + NewCredits(cfg, Increase(m, balance))) % U64_SIZE
  {
    NothingForNothing(cfg);
  }

  /** What a poll does, for an increase of `up` worth `n` credits. */
  lemma MonitorCounts(cfg: Config, w: World, balance: Option<U64>, up: nat, n: nat)
    requires up == Increase(w.meter, balance) && n == NewCredits(cfg, up)
    ensures var next := After(cfg, w, Monitor(balance));
      && next.meter.available == (w.meter.available + n) % U64_SIZE
      && next.totals == w.totals.(granted := w.totals.granted + n, observed := w.totals.observed + up)
  {
    MonitorAdds(cfg, w.meter, balance);
  }

  lemma CoverAdds(price: nat, granted: nat, observed: nat, more: nat, up: nat)
    requires price * granted <= observed && price * more <= up
    ensures price * (granted + more) <= observed + up
  {
    Distribute(price, granted, more);
  }

  lemma MonitorKeepsInv(cfg: Config, w: World, balance: Option<U64>)
    requires Fits(cfg) && cfg.Microtransaction() > 0 && Inv(cfg, w)
    ensures Inv(cfg, After(cfg, w, Monitor(balance)))
  {
    var up := Increase(w.meter, balance);
    var n := NewCredits(cfg, up);
    GrantWithoutWrap(cfg, up);
    MonitorCounts(cfg, w, balance, up, n);
    CoverAdds(cfg.lovelacePerRequest, w.totals.granted, w.totals.observed, n, up);
  }

  lemma NextKeepsInv(cfg: Config, w: World, w': World)
    requires Fits(cfg) && cfg.Microtransaction() > 0 && Inv(cfg, w) && Next(cfg, w, w')
    ensures Inv(cfg, w')
  {
    var step :| Enabled(w, step) && w' == After(cfg, w, step);
    if step.Monitor? {
      MonitorKeepsInv(cfg, w, step.balance);
    }
  }

  /**
   In every interleaving the credits given out cover the available, served and wiped ones
   (exactly, while they fit 64 bits), and the price of what was served never exceeds the
   increases that the monitor has counted. `CreditCover` says when those are increases of the
   balance itself.
   */
  lemma {:induction false} PayBeforeServe(cfg: Config, run: seq<World>)
    requires Run(cfg, run) && cfg.Accepted() && Fits(cfg)
    ensures Inv(cfg, run[|run| - 1])
    ensures cfg.lovelacePerRequest * run[|run| - 1].totals.served <= run[|run| - 1].totals.observed
    decreases |run|
  {
    if |run| > 1 {
      var init := run[..|run| - 1];
      assert Run(cfg, init) by {
        forall i | 0 <= i < |init| - 1 ensures Next(cfg, init[i], init[i + 1]) {
          assert Next(cfg, run[i], run[i + 1]);
        }
      }
      PayBeforeServe(cfg, init);
      assert Next(cfg, run[|run| - 2], run[|run| - 2 + 1]);
      NextKeepsInv(cfg, run[|run| - 2], run[|run| - 1]);
    }
    var last := run[|run| - 1].totals;
    MultiplyMonotone(cfg.lovelacePerRequest, last.served, last.granted);
  }

  // ------------------------------------------------------------------ incremental crediting

  lemma NothingForNothing(cfg: Config)
    ensures NewMicrotransactions(cfg, 0) == 0 && NewCredits(cfg, 0) == 0
  {
  }

  /** A whole number of microtransactions is credited at its full value. */
  lemma WholeGrant(cfg: Config, delta: U64)
    requires Fits(cfg) && cfg.Microtransaction() > 0 && delta % cfg.Microtransaction() == 0
    ensures cfg.lovelacePerRequest * NewCredits(cfg, delta) == delta
  {
    GrantWithoutWrap(cfg, delta);
    assert delta == cfg.Microtransaction() * (delta / cfg.Microtransaction());
  }

  predicate Rising(base: U64, polls: seq<U64>)
    decreases |polls|
  {
    polls != [] ==> base <= polls[0] && Rising(polls[0], polls[1..])
  }

  function Final(base: U64, polls: seq<U64>): U64 {
    if polls == [] then base else polls[|polls| - 1]
  }

  /** Credits given over a schedule of polls; both ends of the channel apply this rule. */
  function Credited(cfg: Config, base: U64, polls: seq<U64>): nat
    decreases |polls|
  {
    if polls == [] then 0
    else
      (if polls[0] > base then NewCredits(cfg, polls[0] - base) else 0) + Credited(cfg, polls[0], polls[1..])
  }

  lemma {:induction false} RisingReaches(base: U64, polls: seq<U64>)
    requires Rising(base, polls)
    ensures base <= Final(base, polls)
    decreases |polls|
  {
    if polls != [] {
      RisingReaches(polls[0], polls[1..]);
    }
  }

  /** Polling in steps credits no more than one division of the whole increase. */
  lemma {:induction false} StepsCreditAtMostOneDivision(cfg: Config, base: U64, polls: seq<U64>)
    requires Fits(cfg) && cfg.Microtransaction() > 0 && Rising(base, polls)
    ensures base <= Final(base, polls)
    ensures Credited(cfg, base, polls) <=
      ((Final(base, polls) - base) / cfg.Microtransaction()) * cfg.requestsPerMicrotransaction
    decreases |polls|
  {
    var m, batch := cfg.Microtransaction(), cfg.requestsPerMicrotransaction;
    RisingReaches(base, polls);
    if polls == [] {
      assert Final(base, polls) - base == 0 && 0 / m == 0;
    } else {
      StepsCreditAtMostOneDivision(cfg, polls[0], polls[1..]);
      assert Final(polls[0], polls[1..]) == Final(base, polls);
      var first, rest := polls[0] - base, Final(base, polls) - polls[0];
      GrantWithoutWrap(cfg, first);
      NothingForNothing(cfg);
      BatchesCombine(first, rest, m, batch, NewCredits(cfg, first), Credited(cfg, polls[0], polls[1..]));
    }
  }

  /** Every increase between two polls is a whole number of microtransactions. */
  predicate WholePayments(cfg: Config, base: U64, polls: seq<U64>)
    requires cfg.Microtransaction() > 0
    decreases |polls|
  {
    polls != [] ==>
      base <= polls[0] && (polls[0] - base) % cfg.Microtransaction() == 0 && WholePayments(cfg, polls[0], polls[1..])
  }

  /** With whole payments the credits are worth the increase exactly, whatever the schedule of polls. */
  lemma {:induction false} WholePaymentsCreditExactly(cfg: Config, base: U64, polls: seq<U64>)
    requires Fits(cfg) && cfg.Microtransaction() > 0 && WholePayments(cfg, base, polls)
    ensures base <= Final(base, polls)
    ensures cfg.lovelacePerRequest * Credited(cfg, base, polls) == Final(base, polls) - base
    decreases |polls|
  {
    if polls != [] {
      WholePaymentsCreditExactly(cfg, polls[0], polls[1..]);
      assert Final(polls[0], polls[1..]) == Final(base, polls);
      var first := polls[0] - base;
      WholeGrant(cfg, first);
      NothingForNothing(cfg);
      ValuesCombine(cfg.lovelacePerRequest, NewCredits(cfg, first), Credited(cfg, polls[0], polls[1..]),
                    first, Final(base, polls) - polls[0]);
    }
  }

  /** So gateway and bridge, polling on their own schedules, count the same credits. */
  lemma SchedulesAgree(cfg: Config, base: U64, gateway: seq<U64>, bridge: seq<U64>)
    requires Fits(cfg) && cfg.Microtransaction() > 0
    requires WholePayments(cfg, base, gateway) && WholePayments(cfg, base, bridge)
    requires Final(base, gateway) == Final(base, bridge)
    ensures Credited(cfg, base, gateway) == Credited(cfg, base, bridge)
  {
    WholePaymentsCreditExactly(cfg, base, gateway);
    WholePaymentsCreditExactly(cfg, base, bridge);
    PriceIsInjective(cfg.lovelacePerRequest, Credited(cfg, base, gateway), Credited(cfg, base, bridge));
  }

  /** A poll credits its increase, and the next one does too unless it completes the session. */
  lemma MonitorStep(cfg: Config, m: Meter, balance: U64)
    requires m.headOpen && !m.closing
    requires var up := if balance > m.last then balance - m.last else 0; m.available + NewCredits(cfg, up) < U64_SIZE
    ensures var up := if balance > m.last then balance - m.last else 0;
      var n := OnMonitor(cfg, m, Some(balance)).0;
      && n.available == m.available + NewCredits(cfg, up) && n.last == balance
      && n.received == m.received + NewMicrotransactions(cfg, up) && n.headOpen
      && (n.closing <==> n.received >= cfg.microtransactionsPerFanout)
  {
    NothingForNothing(cfg);
  }

  /**
   While the head is open the monitor's counter gains what the schedule credits, up to and
   including the poll that completes the session.
   */
  lemma {:induction false} MonitorFollowsSchedule(cfg: Config, m: Meter, polls: seq<U64>)
    requires m.headOpen && !m.closing
    requires m.available + Credited(cfg, m.last, polls) < U64_SIZE
    requires |polls| > 1 ==> m.received + Received(cfg, m.last, polls[..|polls| - 1]) < cfg.microtransactionsPerFanout
    ensures var end := Monitored(cfg, m, polls);
      end.available == m.available + Credited(cfg, m.last, polls) && end.last == Final(m.last, polls) && end.headOpen
    decreases |polls|
  {
    if polls != [] {
      NothingForNothing(cfg);
      MonitorStep(cfg, m, polls[0]);
      var next := OnMonitor(cfg, m, Some(polls[0])).0;
      if |polls| > 1 {
        assert polls[..|polls| - 1][1..] == polls[1..][..|polls| - 2];
        assert Final(polls[0], polls[1..]) == Final(m.last, polls);
        MonitorFollowsSchedule(cfg, next, polls[1..]);
      }
    }
  }

  function Monitored(cfg: Config, m: Meter, polls: seq<U64>): Meter
    decreases |polls|
  {
    if polls == [] then m else Monitored(cfg, OnMonitor(cfg, m, Some(polls[0])).0, polls[1..])
  }

  function Received(cfg: Config, base: U64, polls: seq<U64>): nat
    decreases |polls|
  {
    if polls == [] then 0
    else
      (if polls[0] > base then NewMicrotransactions(cfg, polls[0] - base) else 0) + Received(cfg, polls[0], polls[1..])
  }
}
