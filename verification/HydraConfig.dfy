/** The settings that decide what a session costs and how it is funded. */
module HydraConfig {
  import opened Prelude

  /** The `[hydra_platform]` settings that decide the funding of a session. */
  datatype Config = Config(
    commitAda: real,
    lovelacePerRequest: U64,
    requestsPerMicrotransaction: U64,
    microtransactionsPerFanout: U64)
  {
    function Microtransaction(): nat {
      lovelacePerRequest * requestsPerMicrotransaction
    }

    /** `HydrasManager::new` accepts the configuration. */
    predicate Accepted() {
      && !(commitAda < 1.01 * (Microtransaction() * microtransactionsPerFanout + MIN_LOVELACE) as real / 1_000_000.0)
      && !(Microtransaction() < MIN_LOVELACE)
    }

    /** What `FundCommitAddr` waits for, in lovelace: `round` goes half up on positive numbers. */
    function Target(): int {
      (commitAda * 1_000_000.0 + 0.5).Floor
    }

    /** A session ends with the microtransaction that reaches the fanout count, the first if that is zero. */
    function Cap(): nat {
      Max(1, microtransactionsPerFanout)
    }
  }

  /** The funding target of an accepted configuration covers its microtransactions and a minimal coin. */
  lemma TargetCovers(cfg: Config)
    requires cfg.Accepted()
    ensures cfg.Target() >= cfg.Microtransaction() * cfg.microtransactionsPerFanout + MIN_LOVELACE
  {
    var owed := cfg.Microtransaction() * cfg.microtransactionsPerFanout + MIN_LOVELACE;
    assert cfg.commitAda * 1_000_000.0 >= 1.01 * owed as real;
    assert 1.01 * owed as real >= owed as real;
  }
}
