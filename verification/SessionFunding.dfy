/** Which configurations fund a session, with and without a backlog of requests. */
module SessionFunding {
  import opened Prelude
  import opened Arithmetic
  import opened HydraConfig
  import opened CoinSelection
  import opened Ledger
  import opened Funding
  import opened Session
  import opened Solvency

  function Repeat(amount: U64, n: nat): Plan {
    if n == 0 then [] else Repeat(amount, n - 1) + [amount]
  }

  lemma {:induction false} RepeatCosts(amount: U64, n: nat)
    ensures |Repeat(amount, n)| == n && Cost(Repeat(amount, n)) == amount * n
    ensures forall k :: 0 <= k < n ==> Repeat(amount, n)[k] == amount
  {
    if n > 0 {
      RepeatCosts(amount, n - 1);
      assert Repeat(amount, n)[..n - 1] == Repeat(amount, n - 1);
      Distribute(amount, n - 1, 1);
    }
  }

  /** A first payment, and microtransactions after it. */
  function BacklogPlan(first: U64, amount: U64, rest: nat): Plan {
    [first] + Repeat(amount, rest)
  }

  lemma {:induction false} BacklogCosts(first: U64, amount: U64, rest: nat)
    ensures |BacklogPlan(first, amount, rest)| == 1 + rest
    ensures Cost(BacklogPlan(first, amount, rest)) == first + amount * rest
    ensures forall k :: 0 < k <= rest ==> BacklogPlan(first, amount, rest)[k] == amount
  {
    RepeatCosts(amount, rest);
    var plan := BacklogPlan(first, amount, rest);
    if rest == 0 {
      assert plan[..0] == [] && Cost([]) == 0;
    } else {
      RepeatCosts(amount, rest - 1);
      BacklogCosts(first, amount, rest - 1);
      assert plan[..rest] == BacklogPlan(first, amount, rest - 1);
      Distribute(amount, rest - 1, 1);
    }
  }

  lemma EqualPaymentsSolventIff(t: Terms, amount: U64, n: nat, funds: U64)
    requires t.sender != t.receiver && LegalAmount(amount) && n >= 1
    ensures AlwaysSolvent(t, Repeat(amount, n), funds)
       <==> funds == amount * n || funds >= amount * n + MIN_LOVELACE
  {
    RepeatCosts(amount, n);
    AlwaysSolventIff(t, Repeat(amount, n), funds);
  }

  // ------------------------------------------------------------------ sessions without a backlog

  /**
   The target leaves a minimal coin after the payments of a session iff there is a fanout count, or it
   does after one.
   */
  lemma TargetCoversCapIff(cfg: Config)
    requires cfg.Accepted()
    ensures cfg.Target() >= cfg.Microtransaction() * cfg.Cap() + MIN_LOVELACE
       <==> cfg.microtransactionsPerFanout >= 1 || cfg.Target() >= cfg.Microtransaction() + MIN_LOVELACE
  {
    TargetCovers(cfg);
  }

  /** What acceptance means for the numbers of a session. */
  lemma AcceptedNumbers(cfg: Config)
    requires cfg.Accepted()
    ensures cfg.Microtransaction() >= MIN_LOVELACE && cfg.Cap() >= 1
    ensures if cfg.microtransactionsPerFanout >= 1
      then cfg.Target() >= cfg.Microtransaction() * cfg.Cap() + MIN_LOVELACE
      else cfg.Microtransaction() * cfg.Cap() == cfg.Microtransaction()
  {
    TargetCovers(cfg);
  }

  /** The funding target is solvent for a session of `Cap()` microtransactions. */
  predicate TargetSuffices(cfg: Config) {
    || cfg.microtransactionsPerFanout >= 1
    || cfg.Target() == cfg.Microtransaction()
    || cfg.Target() >= cfg.Microtransaction() + MIN_LOVELACE
  }

  predicate InRange(cfg: Config) {
    cfg.Microtransaction() + MIN_LOVELACE < U64_SIZE && 0 <= cfg.Target() < U64_SIZE
  }

  function SessionPlan(cfg: Config): Plan
    requires InRange(cfg)
  {
    Repeat(cfg.Microtransaction(), cfg.Cap())
  }

  /**
   From every split of exactly the target, all payments of a session find inputs iff there is
   a fanout count, or the target is one payment or leaves a minimal coin after it.
   */
  lemma TargetIsSolventIff(cfg: Config, t: Terms)
    requires cfg.Accepted() && InRange(cfg) && t.sender != t.receiver
    ensures AlwaysSolvent(t, SessionPlan(cfg), cfg.Target()) <==> TargetSuffices(cfg)
  {
    AcceptedNumbers(cfg);
    EqualPaymentsSolventIff(t, cfg.Microtransaction(), cfg.Cap(), cfg.Target());
  }

  /** With a fanout count, every head that holds at least the target is solvent, whatever it holds beyond it. */
  lemma FundedSessionIsSolvent(cfg: Config, t: Terms, funds: U64)
    requires cfg.Accepted() && InRange(cfg) && t.sender != t.receiver && cfg.microtransactionsPerFanout >= 1
    requires funds >= cfg.Target()
    ensures AlwaysSolvent(t, SessionPlan(cfg), funds)
  {
    AcceptedNumbers(cfg);
    EqualPaymentsSolventIff(t, cfg.Microtransaction(), cfg.Cap(), funds);
  }

  /** Every head that holds at least the target is solvent. */
  ghost predicate FundingSuffices(cfg: Config, t: Terms)
    requires InRange(cfg)
  {
    forall funds: U64 :: funds >= cfg.Target() ==> AlwaysSolvent(t, SessionPlan(cfg), funds)
  }

  /** The commit takes all of the wallet, so any funds from the target on: they suffice iff a minimal coin is left. */
  lemma FundingSufficesIff(cfg: Config, t: Terms)
    requires cfg.Accepted() && InRange(cfg) && t.sender != t.receiver
    ensures FundingSuffices(cfg, t)
       <==> cfg.microtransactionsPerFanout >= 1 || cfg.Target() >= cfg.Microtransaction() + MIN_LOVELACE
  {
    AcceptedNumbers(cfg);
    var amount := cfg.Microtransaction();
    if cfg.microtransactionsPerFanout >= 1 {
      forall funds: U64 | funds >= cfg.Target()
        ensures AlwaysSolvent(t, SessionPlan(cfg), funds)
      {
        FundedSessionIsSolvent(cfg, t, funds);
      }
    } else {
      forall funds: U64
        ensures AlwaysSolvent(t, SessionPlan(cfg), funds) <==> funds == amount || funds >= amount + MIN_LOVELACE
      {
        EqualPaymentsSolventIff(t, amount, cfg.Cap(), funds);
      }
      var short: U64 := if cfg.Target() == amount then amount + 1 else cfg.Target();
      assert AlwaysSolvent(t, SessionPlan(cfg), short) <==> short == amount || short >= amount + MIN_LOVELACE;
    }
  }

  // ------------------------------------------------------------------ sessions with a backlog

  /** A session whose first payment is for `n` requests, the others for one microtransaction each. */
  function PlanWithBacklog(cfg: Config, n: nat): Plan
    requires InRange(cfg) && n * cfg.lovelacePerRequest < U64_SIZE
  {
    BacklogPlan(n * cfg.lovelacePerRequest, cfg.Microtransaction(), cfg.Cap() - 1)
  }

  /**
   With a backlog, the session is solvent from every split of its funds iff they equal the price
   of the backlog and of the remaining microtransactions, or leave a minimal coin.
   */
  lemma BacklogIsSolventIff(cfg: Config, t: Terms, n: nat, funds: U64)
    requires cfg.Accepted() && InRange(cfg) && t.sender != t.receiver
    requires n >= cfg.requestsPerMicrotransaction && n * cfg.lovelacePerRequest + MIN_LOVELACE < U64_SIZE
    ensures var cost := n * cfg.lovelacePerRequest + cfg.Microtransaction() * (cfg.Cap() - 1);
      AlwaysSolvent(t, PlanWithBacklog(cfg, n), funds) <==> funds == cost || funds >= cost + MIN_LOVELACE
  {
    BacklogIsLegal(cfg, n);
    BacklogPaymentsSolventIff(t, n * cfg.lovelacePerRequest, cfg.Microtransaction(), cfg.Cap() - 1, funds);
  }

  lemma BacklogIsLegal(cfg: Config, n: nat)
    requires cfg.Microtransaction() >= MIN_LOVELACE && cfg.Microtransaction() + MIN_LOVELACE < U64_SIZE
    requires n >= cfg.requestsPerMicrotransaction && n * cfg.lovelacePerRequest + MIN_LOVELACE < U64_SIZE
    ensures LegalAmount(n * cfg.lovelacePerRequest) && LegalAmount(cfg.Microtransaction()) && cfg.Cap() >= 1
  {
    MultiplyMonotone(cfg.lovelacePerRequest, cfg.requestsPerMicrotransaction, n);
  }

  lemma BacklogPaymentsSolventIff(t: Terms, first: U64, amount: U64, rest: nat, funds: U64)
    requires t.sender != t.receiver && LegalAmount(first) && LegalAmount(amount)
    ensures AlwaysSolvent(t, BacklogPlan(first, amount, rest), funds)
       <==> funds == first + amount * rest || funds >= first + amount * rest + MIN_LOVELACE
  {
    var plan := BacklogPlan(first, amount, rest);
    BacklogCosts(first, amount, rest);
    forall k | 0 <= k < |plan|
      ensures LegalAmount(plan[k])
    {
      assert k > 0 ==> plan[k] == amount;
    }
    AlwaysSolventIff(t, plan, funds);
  }

  // ------------------------------------------------------------------ where funding falls short

  /**
   With a fanout count of zero the check in `new` passes, yet a session still
   sends one microtransaction, and the funding target does not cover it.
   */
  lemma ZeroFanoutIsUnderfunded(t: Terms) returns (cfg: Config)
    requires t.sender != t.receiver
    ensures cfg.Accepted() && cfg.microtransactionsPerFanout == 0 && InRange(cfg)
    ensures !AlwaysSolvent(t, SessionPlan(cfg), cfg.Target())
  {
    cfg := Config(0.8488545, 840_450, 1, 0);
    assert cfg.Microtransaction() == 840_450;
    assert cfg.commitAda * 1_000_000.0 + 0.5 == 848_855.0;
    assert cfg.Target() == 848_855;
    TargetIsSolventIff(cfg, t);
  }

  /**
   A payment covers every accounted request, so a backlog gathered before the
   head opened can ask for more than an accepted configuration commits.
   */
  lemma BacklogOverdraws(t: Terms) returns (cfg: Config, n: nat)
    requires t.sender != t.receiver
    ensures cfg.Accepted() && cfg.microtransactionsPerFanout == 1 && InRange(cfg)
    ensures n > cfg.requestsPerMicrotransaction && n * cfg.lovelacePerRequest < U64_SIZE
    ensures !AlwaysSolvent(t, PlanWithBacklog(cfg, n), cfg.Target())
  {
    cfg := Config(1.8588545, 1_000_000, 1, 1);
    assert cfg.Microtransaction() == 1_000_000;
    assert cfg.commitAda * 1_000_000.0 + 0.5 == 1_858_855.0;
    assert cfg.Target() == 1_858_855;
    n := 2;
    BacklogIsSolventIff(cfg, t, n, cfg.Target());
  }
}
