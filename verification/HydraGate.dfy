/** The gate that lets one L2 payment out at a time, and the polling that opens it again. */
module HydraGate {
  import opened Prelude
  import opened HydraConfig
  import opened CoinSelection
  import opened HydraServer
  import opened HydraRuntime
  import opened HydraBilling

  /** The loop has met an error and its Restart is still to come. */
  predicate RestartOwed(s: System) {
    s.owed || Restart in s.actor.mailbox
  }

  /** At most one poll is pending, and the gate is shut exactly for it or for a Restart that will open it. */
  predicate GateInv(s: System) {
    && Pending(s, Poll) <= 1
    && (Pending(s, Poll) == 1 ==> s.actor.core.awaiting)
    && (s.actor.core.awaiting ==> Pending(s, Poll) == 1 || RestartOwed(s))
  }

  /** A request shuts an open gate with one poll, or leaves the gate alone. */
  lemma RequestAndGate(c: Setup, a: Core, ans: Answers)
    ensures var o := OnAccount(c, a, ans);
      || (o.core.awaiting == a.awaiting && Emitted(o, Poll) == 0)
      || (!a.awaiting && o.core.awaiting && Emitted(o, Poll) == 1)
  {
  }

  /** A poll is replaced by one successor, or ends: by opening the gate or by an error. */
  lemma PollAndGate(c: Setup, a: Core, event: Event, ans: Answers)
    requires event.WaitForL2Tx?
    ensures var o := Handle(c, a, event, ans);
      || (o.ok && o.core.awaiting == a.awaiting && Emitted(o, Poll) == 1)
      || (o.ok && !o.core.awaiting && Emitted(o, Poll) == 0)
      || (!o.ok && o.core == a && Emitted(o, Poll) == 0)
  {
  }

  lemma OthersLeaveGate(c: Setup, a: Core, event: Event, ans: Answers)
    requires !event.Restart? && !event.AccountOneRequest? && !event.WaitForL2Tx?
    requires !(event.WaitForIdleAfterClose? && ans.tag == Some(Idle))
    ensures var o := Handle(c, a, event, ans); o.core.awaiting == a.awaiting && Emitted(o, Poll) == 0
  {
  }

  lemma DeliveryKeepsGate(c: Setup, s: System, step: Step)
    requires step.Deliver? && Enabled(s, step) && !Resets(s, step) && GateInv(s)
    ensures GateInv(After(c, s, step))
  {
    DeliveryCounts(c, s, step, Poll);
    if NextEvent(s).AccountOneRequest? {
      RequestAndGate(c, s.actor.core, step.ans);
    } else if NextEvent(s).WaitForL2Tx? {
      PollAndGate(c, s.actor.core, NextEvent(s), step.ans);
    } else {
      OthersLeaveGate(c, s.actor.core, NextEvent(s), step.ans);
    }
    assert s.actor.mailbox == [NextEvent(s)] + Taken(s).mailbox;
    assert Restart in s.actor.mailbox ==> Restart in Taken(s).mailbox;
  }

  /** Every step that does not reset the session keeps the gate invariant. */
  lemma StepKeepsGate(c: Setup, s: System, step: Step)
    requires Enabled(s, step) && !Resets(s, step) && GateInv(s)
    ensures GateInv(After(c, s, step))
  {
    if step.Deliver? {
      DeliveryKeepsGate(c, s, step);
    } else {
      SurroundingsCount(c, s, step, Poll);
    }
  }

  ghost predicate ResetFree(run: Run)
    requires |run.states| == |run.steps| + 1
  {
    forall i :: 0 <= i < |run.steps| ==> !Resets(run.states[i], run.steps[i])
  }

  lemma ResetFreeInit(run: Run)
    requires |run.states| == |run.steps| + 1 && run.steps != [] && ResetFree(run)
    ensures ResetFree(run.Init())
    ensures !Resets(run.Init().Last(), run.steps[|run.steps| - 1])
  {
    var init := run.Init();
    forall i | 0 <= i < |init.steps| ensures !Resets(init.states[i], init.steps[i]) {
      assert !Resets(run.states[i], run.steps[i]);
    }
    assert !Resets(run.states[|run.steps| - 1], run.steps[|run.steps| - 1]);
  }

  /** Between two resets: a stretch that starts with no poll pending and an open gate keeps the invariant. */
  lemma {:induction false} GateHoldsBetweenResets(c: Setup, run: Run)
    requires run.Valid(c) && ResetFree(run)
    requires Pending(run.First(), Poll) == 0 && !run.First().actor.core.awaiting
    ensures GateInv(run.Last())
    decreases |run.steps|
  {
    if run.steps != [] {
      InitValid(c, run);
      ResetFreeInit(run);
      GateHoldsBetweenResets(c, run.Init());
      StepKeepsGate(c, run.Init().Last(), run.steps[|run.steps| - 1]);
    }
  }

  lemma ResetClears(c: Setup, a: Core, event: Event, ans: Answers)
    requires event.Restart? || (event.WaitForIdleAfterClose? && ans.tag == Some(Idle))
    ensures !Handle(c, a, event, ans).core.awaiting
  {
  }

  /** A reset opens the gate; the invariant is back at once iff no poll survived the reset. */
  lemma ResetOpensGate(c: Setup, s: System, step: Step)
    requires Enabled(s, step) && Resets(s, step)
    ensures !After(c, s, step).actor.core.awaiting
    ensures GateInv(After(c, s, step)) <==> Pending(After(c, s, step), Poll) == 0
  {
    ResetClears(c, s.actor.core, NextEvent(s), step.ans);
  }

  /** The polls that survive a reset are those past the generation check, and after Idle all of them. */
  lemma PollsAfterReset(c: Setup, s: System, step: Step)
    requires Enabled(s, step) && Resets(s, step) && TimersInv(s.actor)
    ensures Pending(After(c, s, step), Poll) ==
      if NextEvent(s).Restart? then Count(s.actor.mailbox[1..], Poll) + Count(s.landing, Poll) else Pending(s, Poll)
  {
    if NextEvent(s).Restart? {
      RestartCounts(c, s, step, Poll);
    } else {
      DeliveryCounts(c, s, step, Poll);
    }
  }

  // ------------------------------------------------------------------ the polling chain ends

  /** Handling `e` in some state sends `e'`, at once or delayed. */
  ghost predicate Follows(c: Setup, e: Event, e': Event) {
    exists a: Core, ans: Answers :: Sends(Handle(c, a, e, ans), e')
  }

  predicate Sends(o: Outcome, e: Event) {
    o.now == Some(e) || o.later == Some(e)
  }

  /** How many more polls an event stands for. */
  function PollsLeft(e: Event): int
    requires e.WaitForL2Tx?
  {
    (L2_TX_MAX_POLL_ATTEMPTS + 1) * e.retriesLeft + (L2_TX_MAX_POLL_ATTEMPTS + 1 - e.attempts)
  }

  /** A successor is the next attempt of the same payment, or the first attempt of a resend. */
  lemma SuccessorIsNextAttempt(c: Setup, e: Event, e': Event)
    requires e.WaitForL2Tx? && Follows(c, e, e')
    ensures e'.WaitForL2Tx? && e'.amount == e.amount
    ensures if e.attempts < L2_TX_MAX_POLL_ATTEMPTS
      then e' == e.(attempts := e.attempts + 1)
      else e'.attempts == 0 && e'.retriesLeft == e.retriesLeft - 1
  {
    var a: Core, ans :| Sends(Handle(c, a, e, ans), e');
  }

  /** A chain of polls as it starts with a payment: no attempts yet and all retries left. */
  ghost predicate Chain(c: Setup, polls: seq<Event>) {
    && polls != [] && polls[0].WaitForL2Tx?
    && polls[0].attempts == 0 && polls[0].retriesLeft == L2_TX_MAX_RETRIES
    && forall i :: 0 <= i < |polls| - 1 ==> Follows(c, polls[i], polls[i + 1])
  }

  lemma {:induction false} ChainPosition(c: Setup, polls: seq<Event>, i: nat)
    requires Chain(c, polls) && i < |polls|
    ensures polls[i].WaitForL2Tx? && polls[i].amount == polls[0].amount
    ensures polls[i].attempts <= L2_TX_MAX_POLL_ATTEMPTS && polls[i].retriesLeft <= L2_TX_MAX_RETRIES
    ensures PollsLeft(polls[i]) == PollsLeft(polls[0]) - i
  {
    if i > 0 {
      ChainPosition(c, polls, i - 1);
      assert Follows(c, polls[i - 1], polls[i - 1 + 1]);
      SuccessorIsNextAttempt(c, polls[i - 1], polls[i]);
    }
  }

  /** The polls of a chain that start a resend. */
  function Resends(polls: seq<Event>): nat {
    if |polls| <= 1 then 0
    else
      Resends(polls[..|polls| - 1]) +
      if polls[|polls| - 1].WaitForL2Tx? && polls[|polls| - 1].attempts == 0 then 1 else 0
  }

  lemma ChainPrefix(c: Setup, polls: seq<Event>)
    requires Chain(c, polls) && |polls| > 1
    ensures Chain(c, polls[..|polls| - 1])
    ensures Follows(c, polls[|polls| - 2], polls[|polls| - 1])
  {
    var init := polls[..|polls| - 1];
    forall i | 0 <= i < |init| - 1 ensures Follows(c, init[i], init[i + 1]) {
      assert Follows(c, polls[i], polls[i + 1]);
    }
    var k := |polls| - 2;
    assert Follows(c, polls[k], polls[k + 1]);
  }

  lemma {:induction false} ResendsSpendRetries(c: Setup, polls: seq<Event>)
    requires Chain(c, polls)
    ensures polls[|polls| - 1].WaitForL2Tx?
    ensures Resends(polls) + polls[|polls| - 1].retriesLeft == L2_TX_MAX_RETRIES
  {
    if |polls| > 1 {
      ChainPrefix(c, polls);
      ResendsSpendRetries(c, polls[..|polls| - 1]);
      SuccessorIsNextAttempt(c, polls[|polls| - 2], polls[|polls| - 1]);
    }
  }

  /** Every payment is polled for at most 64 times and sent again at most three times. */
  lemma ChainIsBounded(c: Setup, polls: seq<Event>)
    requires Chain(c, polls)
    ensures |polls| <= 64 && Resends(polls) <= 3
  {
    ChainPosition(c, polls, |polls| - 1);
    ResendsSpendRetries(c, polls);
  }

  /** A poll without a successor opens the gate or fails; the last possible one has no successor. */
  lemma ChainEndsByOpening(c: Setup, a: Core, e: Event, ans: Answers)
    requires e.WaitForL2Tx?
    ensures var o := Handle(c, a, e, ans); (exists e' :: Sends(o, e')) || !o.ok || !o.core.awaiting
    ensures e.attempts >= L2_TX_MAX_POLL_ATTEMPTS && e.retriesLeft == 0 ==>
      var o := Handle(c, a, e, ans); !o.ok || !o.core.awaiting
  {
    var o := Handle(c, a, e, ans);
    if o.now.Some? {
      assert Sends(o, o.now.value);
    }
    if o.later.Some? {
      assert Sends(o, o.later.value);
    }
  }

  // ------------------------------------------------------------------ what a poll reads

  /** None of the inputs is in the snapshot; what is not an object holds none. */
  predicate Gone(spent: seq<Ref>, seen: Option<Snapshot>) {
    seen.Some? ==> forall e <- seen.value :: e.ref !in spent
  }

  lemma PresentIff(spent: seq<Ref>, seen: Snapshot)
    ensures StillPresent(spent, seen) <==> !Gone(spent, Some(seen))
  {
    if e :| e in seen && e.ref in spent {
      var i :| 0 <= i < |spent| && spent[i] == e.ref;
      assert Contains(seen, spent[i]);
    }
  }

  lemma PollOpensUnlessPresent(c: Setup, a: Core, e: Event, ans: Answers)
    requires e.WaitForL2Tx? && ans.poll.Some? && a.awaiting
    ensures !Handle(c, a, e, ans).core.awaiting
       <==> ans.poll.value.None? || !StillPresent(e.spent, ans.poll.value.value)
            || (e.attempts >= 15 && e.retriesLeft == 0)
  {
  }

  /** A poll that can be read opens the gate iff the inputs are gone, or all attempts and retries are used up. */
  lemma PollOpensGateIff(c: Setup, a: Core, e: Event, ans: Answers)
    requires e.WaitForL2Tx? && ans.poll.Some? && a.awaiting
    ensures !Handle(c, a, e, ans).core.awaiting
       <==> Gone(e.spent, ans.poll.value) || (e.attempts >= 15 && e.retriesLeft == 0)
  {
    if ans.poll.value.Some? {
      PresentIff(e.spent, ans.poll.value.value);
    }
    PollOpensUnlessPresent(c, a, e, ans);
  }

  /** The first poll of a payment, or of a resend, looks for the inputs that were selected for its amount. */
  predicate LooksForInputs(c: Setup, e: Event, ans: Answers) {
    && e.WaitForL2Tx? && e.attempts == 0 && ans.pick.Some?
    && Select(ans.pick.value, c.wallet, e.amount).Ok?
    && e.spent == Select(ans.pick.value, c.wallet, e.amount).value.inputs
  }

  lemma SentAreSelected(c: Setup, amount: U64, ans: Answers)
    requires Pay(c, amount, ans).Some?
    ensures ans.pick.Some? && Select(ans.pick.value, c.wallet, amount).Ok?
    ensures Pay(c, amount, ans).value == Select(ans.pick.value, c.wallet, amount).value.inputs
  {
  }

  lemma RequestPollsInputs(c: Setup, a: Core, ans: Answers)
    ensures OnAccount(c, a, ans).now.Some? ==>
      var amount := c.Amount(a.accounted + 1);
      && Pay(c, amount, ans).Some?
      && OnAccount(c, a, ans).now.value == WaitForL2Tx(Pay(c, amount, ans).value, 0, amount, L2_TX_MAX_RETRIES)
  {
    if PaymentDue(c, a) {
      DuePays(c, a, a.(accounted := a.accounted + 1), ans);
    }
  }

  lemma OnlyResendsSend(c: Setup, a: Core, e: Event, ans: Answers)
    requires e.WaitForL2Tx? && Handle(c, a, e, ans).now.Some?
    ensures ResendDue(e, ans)
  {
  }

  lemma ResendSends(c: Setup, a: Core, e: Event, ans: Answers, paid: Option<seq<Ref>>)
    requires ResendDue(e, ans) && paid == Pay(c, e.amount, ans)
    ensures Handle(c, a, e, ans).now
         == if paid.Some? then Some(WaitForL2Tx(paid.value, 0, e.amount, e.retriesLeft - 1)) else None
  {
  }

  lemma ResendPollsInputs(c: Setup, a: Core, e: Event, ans: Answers)
    requires e.WaitForL2Tx?
    ensures Handle(c, a, e, ans).now.Some? ==>
      && Pay(c, e.amount, ans).Some? && e.retriesLeft > 0
      && Handle(c, a, e, ans).now.value == WaitForL2Tx(Pay(c, e.amount, ans).value, 0, e.amount, e.retriesLeft - 1)
  {
    if Handle(c, a, e, ans).now.Some? {
      OnlyResendsSend(c, a, e, ans);
      ResendSends(c, a, e, ans, Pay(c, e.amount, ans));
    }
  }

  lemma PollsLookForInputs(c: Setup, a: Core, event: Event, ans: Answers)
    ensures Handle(c, a, event, ans).now.Some? ==> LooksForInputs(c, Handle(c, a, event, ans).now.value, ans)
  {
    var o := Handle(c, a, event, ans);
    if o.now.Some? {
      if event == AccountOneRequest {
        RequestPollsInputs(c, a, ans);
      } else if event.WaitForL2Tx? {
        ResendPollsInputs(c, a, event, ans);
      }
      SentAreSelected(c, o.now.value.amount, ans);
    }
  }
}
