/** What the machine does for the funds of a head before it opens one. */
module HydraFunding {
  import opened Prelude
  import opened HydraConfig
  import opened CoinSelection
  import opened HydraServer
  import opened HydraRuntime

  // ------------------------------------------------------------------ what is read

  /** The balances of both wallets have been read, and there is fuel. */
  predicate Reads(s: System, step: Step) {
    && step.Deliver? && s.actor.mailbox != [] && NextEvent(s) == FundCommitAddr
    && step.ans.fuel.Some? && step.ans.fuel.value > 0 && step.ans.walletReady && step.ans.balance.Some?
  }

  predicate Enough(c: Setup, s: System, step: Step) {
    Reads(s, step) && step.ans.balance.value >= c.Target()
  }

  predicate Short(c: Setup, s: System, step: Step) {
    Reads(s, step) && step.ans.balance.value < c.Target()
  }

  /** A balance suffices iff it reaches the configured target, or the greatest amount there is. */
  lemma TargetIsReachedIff(c: Setup, balance: U64)
    ensures balance >= c.Target() <==> balance >= c.cfg.Target() || balance == U64_SIZE - 1
  {
  }

  /** A head of an accepted configuration is opened on no less than all of its microtransactions and a minimal coin. */
  lemma EnoughCoversSession(c: Setup, s: System, step: Step)
    requires c.cfg.Accepted() && Enough(c, s, step)
    ensures var need := c.cfg.Microtransaction() * c.cfg.microtransactionsPerFanout + MIN_LOVELACE;
      step.ans.balance.value >= need || step.ans.balance.value == U64_SIZE - 1
  {
    TargetIsReachedIff(c, step.ans.balance.value);
    TargetCovers(c.cfg);
  }

  // ------------------------------------------------------------------ no head without funds

  /** A lifecycle event past the funding. */
  predicate Beyond(e: Event) {
    Of(Lifecycle, e) && !e.FundCommitAddr?
  }

  /** The head is open, or something is pending that opens, closes or fans out one. */
  predicate PastFunding(s: System) {
    || s.actor.core.headOpen
    || (exists e <- s.actor.mailbox :: Beyond(e))
    || (exists e <- s.landing :: Beyond(e))
    || (exists x <- s.actor.timers :: Beyond(x.event))
  }

  ghost predicate HasRead(c: Setup, run: Run)
    requires |run.states| == |run.steps| + 1
  {
    exists i :: 0 <= i < |run.steps| && Enough(c, run.states[i], run.steps[i])
  }

  /** An event leads past the funding only from there, or from a balance that suffices. */
  lemma HandlingLeadsOn(c: Setup, s: System, ans: Answers)
    requires Enabled(s, Deliver(ans))
    ensures var o, event := Outcomes(c, s, ans), NextEvent(s);
      o.core.headOpen || (o.now.Some? && Beyond(o.now.value)) || (o.later.Some? && Beyond(o.later.value)) ==>
        Enough(c, s, Deliver(ans)) || s.actor.core.headOpen || Beyond(event)
  {
    var a, event := s.actor.core, NextEvent(s);
    if event == AccountOneRequest {
      RequestLeadsOn(c, a, ans);
    } else if event.WaitForL2Tx? {
      PollLeadsOn(c, a, event, ans);
    }
  }

  lemma RequestLeadsOn(c: Setup, a: Core, ans: Answers)
    ensures var o := OnAccount(c, a, ans);
      && o.core.headOpen == a.headOpen && (o.now.Some? ==> !Beyond(o.now.value))
      && (o.later.Some? && Beyond(o.later.value) ==> a.headOpen)
  {
  }

  lemma PollLeadsOn(c: Setup, a: Core, event: Event, ans: Answers)
    requires event.WaitForL2Tx?
    ensures var o := Handle(c, a, event, ans);
      && o.core.headOpen == a.headOpen
      && (o.now.Some? ==> !Beyond(o.now.value)) && (o.later.Some? ==> !Beyond(o.later.value))
  {
  }

  lemma StepLeadsOn(c: Setup, s: System, step: Step)
    requires Enabled(s, step) && PastFunding(After(c, s, step))
    ensures PastFunding(s) || Enough(c, s, step)
  {
    if step.Deliver? {
      HandlingLeadsOn(c, s, step.ans);
      DeliveryLeadsOn(c, s, step.ans);
    } else {
      SurroundingsLeadNowhere(c, s, step);
    }
  }

  lemma DeliveryLeadsOn(c: Setup, s: System, ans: Answers)
    requires Enabled(s, Deliver(ans)) && PastFunding(After(c, s, Deliver(ans)))
    ensures var o := Outcomes(c, s, ans);
      PastFunding(s) || o.core.headOpen || (o.now.Some? && Beyond(o.now.value))
      || (o.later.Some? && Beyond(o.later.value))
    ensures Beyond(NextEvent(s)) ==> PastFunding(s)
  {
    var o, next := Outcomes(c, s, ans), After(c, s, Deliver(ans));
    assert NextEvent(s) in s.actor.mailbox;
    assert forall e <- next.actor.mailbox :: e in s.actor.mailbox || e in ToSeq(o.now);
    assert forall x <- next.actor.timers :: x in s.actor.timers || x in Timed(o.later, o.core.generation);
  }

  lemma SurroundingsLeadNowhere(c: Setup, s: System, step: Step)
    requires Enabled(s, step) && !step.Deliver? && PastFunding(After(c, s, step))
    ensures PastFunding(s)
  {
    var next := After(c, s, step);
    assert forall e <- next.actor.mailbox :: e in s.actor.mailbox || e in s.landing || !Beyond(e);
    assert forall e <- next.landing ::
      e in s.landing || !Beyond(e) || exists x <- s.actor.timers :: x.event == e;
    assert forall x <- next.actor.timers :: x in s.actor.timers;
  }

  /**
   In every run: before anything is done about opening a head, a balance at or above the target has been read,
   with fuel to pay for it.
   */
  lemma {:induction false} OpensOnlyWhenFunded(c: Setup, run: Run)
    requires run.Valid(c) && run.First() == Start() && PastFunding(run.Last())
    ensures HasRead(c, run)
    decreases |run.steps|
  {
    if run.steps != [] {
      InitValid(c, run);
      var n := |run.steps| - 1;
      StepLeadsOn(c, run.Init().Last(), run.steps[n]);
      if Enough(c, run.Init().Last(), run.steps[n]) {
        assert Enough(c, run.states[n], run.steps[n]);
      } else {
        OpensOnlyWhenFunded(c, run.Init());
        var i :| 0 <= i < n && Enough(c, run.Init().states[i], run.Init().steps[i]);
        assert Enough(c, run.states[i], run.steps[i]);
      }
    }
  }

  // ------------------------------------------------------------------ one top-up

  /** What an event adds to the top-ups, and whether one is known to be on its way. */
  predicate TopUpShape(c: Setup, a: Core, b: Core, short: bool, enough: bool, ans: Answers) {
    if short && !a.fundTxSent && !ans.funding.Lost? then
      && ans.balance.Some? && |b.topUps| == |a.topUps| + 1 && b.topUps[..|a.topUps|] == a.topUps
      && b.topUps[|a.topUps|] + ans.balance.value >= c.Target() && b.topUps[|a.topUps|] >= 840_450
      && (b.topUps[|a.topUps|] + ans.balance.value == c.Target() || b.topUps[|a.topUps|] == 840_450)
      && b.fundTxSent == ans.funding.Delivered?
    else
      b.topUps == a.topUps && (b.fundTxSent <==> a.fundTxSent && !enough)
  }

  lemma FundingTopsUp(c: Setup, a: Core, ans: Answers)
    ensures var read := ans.fuel.Some? && ans.fuel.value > 0 && ans.walletReady && ans.balance.Some?;
      TopUpShape(c, a, OnFund(c, a, ans).core, read && ans.balance.value < c.Target(),
                 read && ans.balance.value >= c.Target(), ans)
  {
  }

  lemma OthersTopUpNothing(c: Setup, a: Core, event: Event, ans: Answers)
    requires !event.FundCommitAddr?
    ensures var b := Handle(c, a, event, ans).core; b.topUps == a.topUps && b.fundTxSent == a.fundTxSent
  {
    if event == AccountOneRequest {
      RequestTopsUpNothing(c, a, ans);
    } else if event.WaitForL2Tx? {
      PollTopsUpNothing(c, a, event, ans);
    }
  }

  lemma StepTopsUp(c: Setup, s: System, step: Step)
    requires Enabled(s, step)
    ensures var a, b := s.actor.core, After(c, s, step).actor.core;
      if step.Deliver? then TopUpShape(c, a, b, Short(c, s, step), Enough(c, s, step), step.ans)
      else b.topUps == a.topUps && b.fundTxSent == a.fundTxSent
  {
    if step.Deliver? {
      if NextEvent(s) == FundCommitAddr {
        FundingTopsUp(c, s.actor.core, step.ans);
      } else {
        OthersTopUpNothing(c, s.actor.core, NextEvent(s), step.ans);
      }
    }
  }

  lemma RequestTopsUpNothing(c: Setup, a: Core, ans: Answers)
    ensures var b := OnAccount(c, a, ans).core; b.topUps == a.topUps && b.fundTxSent == a.fundTxSent
  {
  }

  lemma PollTopsUpNothing(c: Setup, a: Core, event: Event, ans: Answers)
    requires event.WaitForL2Tx?
    ensures var b := Handle(c, a, event, ans).core; b.topUps == a.topUps && b.fundTxSent == a.fundTxSent
  {
  }

  /** A wallet that is short was topped up, and the call reported it. */
  predicate TopsUp(c: Setup, s: System, step: Step) {
    Short(c, s, step) && step.ans.funding.Delivered?
  }

  /** No balance that suffices is read, and every top-up that goes out is reported. */
  ghost predicate StaysShort(c: Setup, run: Run)
    requires |run.states| == |run.steps| + 1
  {
    forall i :: 0 <= i < |run.steps| ==>
      !Enough(c, run.states[i], run.steps[i])
      && (Short(c, run.states[i], run.steps[i]) ==> !run.steps[i].ans.funding.Unreported?)
  }

  ghost predicate EverTopsUp(c: Setup, run: Run)
    requires |run.states| == |run.steps| + 1
  {
    exists i :: 0 <= i < |run.steps| && TopsUp(c, run.states[i], run.steps[i])
  }

  lemma LastOfShort(c: Setup, run: Run)
    requires run.Valid(c) && run.steps != [] && StaysShort(c, run)
    ensures StaysShort(c, run.Init())
    ensures var n := |run.steps| - 1;
      && !Enough(c, run.Init().Last(), run.steps[n])
      && (Short(c, run.Init().Last(), run.steps[n]) ==> !run.steps[n].ans.funding.Unreported?)
      && (EverTopsUp(c, run) <==> EverTopsUp(c, run.Init()) || TopsUp(c, run.Init().Last(), run.steps[n]))
  {
    var init, n := run.Init(), |run.steps| - 1;
    forall i | 0 <= i < n
      ensures init.states[i] == run.states[i] && init.steps[i] == run.steps[i]
    {
    }
    assert init.Last() == run.states[n];
    assert EverTopsUp(c, init) ==> EverTopsUp(c, run) by {
      if i :| 0 <= i < n && TopsUp(c, init.states[i], init.steps[i]) {
        assert TopsUp(c, run.states[i], run.steps[i]);
      }
    }
    assert TopsUp(c, init.Last(), run.steps[n]) ==> TopsUp(c, run.states[n], run.steps[n]);
    if i :| 0 <= i < |run.steps| && TopsUp(c, run.states[i], run.steps[i]) && i < n {
      assert TopsUp(c, init.states[i], init.steps[i]);
    }
  }

  /**
   As long as no sufficient balance is read, restarts included: exactly one top-up is sent, as soon as the
   wallet is seen short and the call succeeds, and none if one was on its way already.
   */
  lemma {:induction false} OneTopUpUntilFunded(c: Setup, run: Run)
    requires run.Valid(c) && StaysShort(c, run)
    ensures var a, b := run.First().actor.core, run.Last().actor.core;
      && |b.topUps| == |a.topUps| + (if !a.fundTxSent && EverTopsUp(c, run) then 1 else 0)
      && (b.fundTxSent <==> a.fundTxSent || EverTopsUp(c, run))
    decreases |run.steps|
  {
    if run.steps != [] {
      InitValid(c, run);
      LastOfShort(c, run);
      OneTopUpUntilFunded(c, run.Init());
      StepTopsUp(c, run.Init().Last(), run.steps[|run.steps| - 1]);
    }
  }

  /** A wallet without fuel, or below the target, is looked at again; one that suffices leads to a head. */
  lemma FundingGoesOn(c: Setup, s: System, step: Step)
    requires Enabled(s, step) && step.Deliver? && NextEvent(s) == FundCommitAddr
    ensures var next := After(c, s, step);
      var g := next.actor.core.generation;
      && (!next.owed ==>
            if Enough(c, s, step) then Timer(TryToInitHead, g) in next.actor.timers
            else Timer(FundCommitAddr, g) in next.actor.timers)
      && (Enough(c, s, step) ==> !next.owed)
      && (Short(c, s, step) ==> (next.owed <==> !s.actor.core.fundTxSent && !step.ans.funding.Delivered?))
  {
    var o := Outcomes(c, s, step.ans);
    assert o.later.Some? ==> Timer(o.later.value, o.core.generation) in Timed(o.later, o.core.generation);
  }
}
