/** The credits that a bridge counts for itself, and those that the gateway counts for it. */
module BridgeCredits {
  import opened Prelude
  import opened Arithmetic
  import opened HydraConfig
  import opened BridgeClient
  import HydraServer
  import opened Credits

  /** The bridge's poll reads this balance. */
  function Reading(balance: U64): BridgeClient.Answers {
    Answers(None, false, false, false, false, false, false, None, false, false, None, Some(balance),
            HydraServer.Unsent, None)
  }

  function Polled(c: BridgeClient.Setup, a: Core, polls: seq<U64>): Core
    decreases |polls|
  {
    if polls == [] then a else Polled(c, OnMonitorCredits(c, a, Reading(polls[0])).core, polls[1..])
  }

  /** The bridge is ready to count. */
  predicate Counting(a: Core) {
    a.headOpen && a.addressSet && a.paramsSet
  }

  lemma PollCredits(c: BridgeClient.Setup, a: Core, balance: U64)
    requires Counting(a)
    requires var up := if balance > a.lastBalance then balance - a.lastBalance else 0;
      a.credits + NewCredits(c.cfg, up) < U64_SIZE
    ensures var up := if balance > a.lastBalance then balance - a.lastBalance else 0;
      OnMonitorCredits(c, a, Reading(balance)).core
      == a.(credits := a.credits + NewCredits(c.cfg, up), lastBalance := balance)
  {
    NothingForNothing(c.cfg);
  }

  /** The bridge's counter, too, gains what the schedule of its polls credits. */
  lemma {:induction false} BridgeFollowsSchedule(c: BridgeClient.Setup, a: Core, polls: seq<U64>)
    requires Counting(a) && a.credits + Credited(c.cfg, a.lastBalance, polls) < U64_SIZE
    ensures Polled(c, a, polls)
         == a.(credits := a.credits + Credited(c.cfg, a.lastBalance, polls), lastBalance := Final(a.lastBalance, polls))
    decreases |polls|
  {
    if polls != [] {
      NothingForNothing(c.cfg);
      PollCredits(c, a, polls[0]);
      BridgeFollowsSchedule(c, OnMonitorCredits(c, a, Reading(polls[0])).core, polls[1..]);
      assert Final(polls[0], polls[1..]) == Final(a.lastBalance, polls);
    }
  }

  lemma WholeCreditsFit(cfg: Config, base: U64, polls: seq<U64>)
    requires Fits(cfg) && cfg.Microtransaction() > 0 && WholePayments(cfg, base, polls)
    ensures base <= Final(base, polls) && Credited(cfg, base, polls) < U64_SIZE
    ensures cfg.lovelacePerRequest * Credited(cfg, base, polls) == Final(base, polls) - base
  {
    WholePaymentsCreditExactly(cfg, base, polls);
    MultiplyMonotone(Credited(cfg, base, polls), 1, cfg.lovelacePerRequest);
    assert Credited(cfg, base, polls) * cfg.lovelacePerRequest == cfg.lovelacePerRequest * Credited(cfg, base, polls);
  }

  /** The polls of a gateway session: only the last one may complete it. */
  predicate OneSession(cfg: Config, base: U64, polls: seq<U64>) {
    |polls| > 1 ==> Received(cfg, base, polls[..|polls| - 1]) < cfg.microtransactionsPerFanout
  }

  /**
   Both machines open the head and poll the same whole payments on their own schedules, the gateway up to the
   poll that completes the session. The gateway starts from the balance it finds, the bridge from zero:
   they end with the same credits exactly when that balance was zero.
   */
  lemma MachinesAgreeIff(c: BridgeClient.Setup, a: Core, base: U64, gateway: seq<U64>, bridge: seq<U64>)
    requires Fits(c.cfg) && c.cfg.Microtransaction() > 0
    requires !a.openInitialized && a.addressSet && a.paramsSet
    requires WholePayments(c.cfg, base, gateway) && WholePayments(c.cfg, 0, bridge)
    requires OneSession(c.cfg, base, gateway) && Final(base, gateway) == Final(0, bridge)
    ensures Monitored(c.cfg, OnOpen(Credits.OnRestart(), Some(base)), gateway).available
         == Polled(c, HeadOpened(a).0, bridge).credits
       <==> base == 0
  {
    WholeCreditsFit(c.cfg, base, gateway);
    WholeCreditsFit(c.cfg, 0, bridge);
    MonitorFollowsSchedule(c.cfg, OnOpen(Credits.OnRestart(), Some(base)), gateway);
    BridgeFollowsSchedule(c, HeadOpened(a).0, bridge);
    if base == 0 {
      PriceIsInjective(c.cfg.lovelacePerRequest, Credited(c.cfg, base, gateway), Credited(c.cfg, 0, bridge));
    }
  }
}
