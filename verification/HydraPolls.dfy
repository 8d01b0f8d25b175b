/** Which polls can still be delivered, and how many a payment gets. */
module HydraPolls {
  import opened Prelude
  import opened CoinSelection
  import opened HydraServer
  import opened HydraRuntime
  import opened HydraGate
  import opened HydraBilling

  // ------------------------------------------------------------------ the polls that are pending

  function PollsOf(events: seq<Event>): set<Event> {
    set e | e in events && e.WaitForL2Tx?
  }

  /** The polls that can still be delivered; timers of another generation never deliver theirs. */
  function PendingPolls(s: System): set<Event> {
    PollsOf(s.actor.mailbox) + PollsOf(s.landing)
    + set x | x in s.actor.timers && x.generation == s.actor.core.generation && x.event.WaitForL2Tx? :: x.event
  }

  /** The system while the next event is being handled. */
  function Handling(s: System): System
    requires s.actor.mailbox != []
  {
    s.(actor := Taken(s))
  }

  lemma {:induction false} NoneCounted(s: seq<Event>)
    requires Count(s, Poll) == 0
    ensures PollsOf(s) == {}
  {
    if s != [] {
      NoneCounted(s[..|s| - 1]);
      assert PollsOf(s) == PollsOf(s[..|s| - 1]);
    }
  }

  lemma {:induction false} NoneTimed(s: seq<Timer>, generation: nat)
    requires CountTimers(s, generation, Poll) == 0
    ensures forall x <- s | x.generation == generation :: !x.event.WaitForL2Tx?
  {
    if s != [] {
      NoneTimed(s[..|s| - 1], generation);
    }
  }

  lemma NoneArePending(s: System)
    requires Pending(s, Poll) == 0
    ensures PendingPolls(s) == {}
  {
    NoneCounted(s.actor.mailbox);
    NoneCounted(s.landing);
    NoneTimed(s.actor.timers, s.actor.core.generation);
  }

  /** A poll that is being handled was the only one. */
  lemma HandledPollIsLast(s: System)
    requires s.actor.mailbox != [] && NextEvent(s).WaitForL2Tx? && Pending(s, Poll) <= 1
    ensures PendingPolls(Handling(s)) == {}
  {
    TakingRemoves(s, Poll);
    NoneArePending(Handling(s));
  }

  lemma TakingKeepsPolls(s: System)
    requires s.actor.mailbox != []
    ensures PendingPolls(Handling(s)) <= PendingPolls(s)
  {
    assert forall e <- s.actor.mailbox[1..] :: e in s.actor.mailbox;
  }

  /** A delivery leaves the other polls, and those it emits. */
  lemma DeliveryLeavesPolls(c: Setup, s: System, ans: Answers)
    requires Enabled(s, Deliver(ans)) && !NextEvent(s).Restart?
    ensures var o := Outcomes(c, s, ans);
      PendingPolls(After(c, s, Deliver(ans))) <= PendingPolls(Handling(s)) + PollsOf(ToSeq(o.now) + ToSeq(o.later))
  {
    OnlyRestartMovesGeneration(c, s.actor.core, NextEvent(s), ans);
    var o, next := Outcomes(c, s, ans), After(c, s, Deliver(ans));
    forall e <- next.actor.mailbox
      ensures e in s.actor.mailbox[1..] || e in ToSeq(o.now) + ToSeq(o.later)
    {
    }
    forall x <- next.actor.timers
      ensures x in s.actor.timers || x.event in ToSeq(o.now) + ToSeq(o.later)
    {
      assert x in s.actor.timers || x in Timed(o.later, o.core.generation);
    }
  }

  /** The surroundings move polls, and make none. */
  lemma SurroundingsLeavePolls(c: Setup, s: System, step: Step)
    requires Enabled(s, step) && !step.Deliver?
    ensures PendingPolls(After(c, s, step)) <= PendingPolls(s)
  {
    var next := After(c, s, step);
    assert forall e <- next.actor.mailbox ::
      e in s.actor.mailbox || e in s.landing || !e.WaitForL2Tx?;
    assert forall e <- next.landing ::
      e in s.landing || !e.WaitForL2Tx?
      || exists x <- s.actor.timers :: x.generation == s.actor.core.generation && x.event == e;
    assert forall x <- next.actor.timers :: x in s.actor.timers;
  }

  // ------------------------------------------------------------------ how many polls a payment gets

  /** Polls delivered, and attempts to send the payment again, since the last payment was made. */
  datatype Tally = Tally(polls: nat, resends: nat)

  function Tallied(t: Tally, event: Event, sent: nat, o: Outcome, ans: Answers): Tally {
    if event.AccountOneRequest? && o.core.sent == sent + 1 then Tally(0, 0)
    else if event.WaitForL2Tx? then Tally(t.polls + 1, t.resends + if ResendDue(event, ans) then 1 else 0)
    else t
  }

  function Polled(c: Setup, run: Run): Tally
    requires run.Valid(c)
    decreases |run.steps|
  {
    if run.steps == [] then Tally(0, 0)
    else
      InitValid(c, run);
      var s, step := run.Init().Last(), run.steps[|run.steps| - 1];
      if step.Deliver? then
        Tallied(Polled(c, run.Init()), NextEvent(s), s.actor.core.sent, Outcomes(c, s, step.ans), step.ans)
      else Polled(c, run.Init())
  }

  /** What the poll stands for is still within the bounds. */
  predicate WithinBounds(t: Tally, e: Event) {
    e.WaitForL2Tx? ==>
      && e.attempts <= L2_TX_MAX_POLL_ATTEMPTS
      && t.polls + PollsLeft(e) <= 64 && t.resends + e.retriesLeft <= L2_TX_MAX_RETRIES
  }

  predicate TallyInv(s: System, t: Tally) {
    && t.polls <= 64 && t.resends <= L2_TX_MAX_RETRIES
    && forall e <- PendingPolls(s) :: WithinBounds(t, e)
  }

  /** The successors of a poll stay within the bounds. */
  lemma PollTallies(c: Setup, a: Core, event: Event, ans: Answers, t: Tally)
    requires event.WaitForL2Tx? && WithinBounds(t, event)
    ensures var o := Handle(c, a, event, ans);
      var next := Tallied(t, event, a.sent, o, ans);
      && next.polls <= 64 && next.resends <= L2_TX_MAX_RETRIES
      && forall e <- PollsOf(ToSeq(o.now) + ToSeq(o.later)) :: WithinBounds(next, e)
  {
  }

  /** A payment starts a new count; a request that makes none starts no poll. */
  lemma RequestTallies(c: Setup, a: Core, ans: Answers, t: Tally)
    ensures var o := OnAccount(c, a, ans);
      var next := Tallied(t, AccountOneRequest, a.sent, o, ans);
      && (next == t || next == Tally(0, 0))
      && (forall e <- PollsOf(ToSeq(o.now) + ToSeq(o.later)) :: WithinBounds(next, e))
      && (next != t ==> !a.awaiting)
  {
    RequestOutcome(c, a, ans);
    RequestAndGate(c, a, ans);
  }

  lemma OthersTally(c: Setup, a: Core, event: Event, ans: Answers)
    requires !event.AccountOneRequest? && !event.WaitForL2Tx?
    ensures var o := Handle(c, a, event, ans); PollsOf(ToSeq(o.now) + ToSeq(o.later)) == {}
  {
  }

  lemma DeliveryKeepsTally(c: Setup, s: System, ans: Answers, t: Tally)
    requires Enabled(s, Deliver(ans)) && !Resets(s, Deliver(ans)) && GateInv(s) && TallyInv(s, t)
    ensures TallyInv(After(c, s, Deliver(ans)), Tallied(t, NextEvent(s), s.actor.core.sent, Outcomes(c, s, ans), ans))
  {
    var event := NextEvent(s);
    DeliveryLeavesPolls(c, s, ans);
    TakingKeepsPolls(s);
    if event.WaitForL2Tx? {
      assert event in PendingPolls(s);
      HandledPollIsLast(s);
      PollTallies(c, s.actor.core, event, ans, t);
    } else if event == AccountOneRequest {
      RequestTallies(c, s.actor.core, ans, t);
      if !s.actor.core.awaiting {
        NoneArePending(s);
      }
    } else {
      OthersTally(c, s.actor.core, event, ans);
    }
  }

  /**
   In every run without a reset that starts with an open gate and no poll pending: since the last payment
   was made, at most 64 polls have been delivered, and sending it again has been tried at most three times.
   */
  lemma {:induction false} PollsPerPaymentAreBounded(c: Setup, run: Run)
    requires run.Valid(c) && ResetFree(run)
    requires Pending(run.First(), Poll) == 0 && !run.First().actor.core.awaiting
    ensures Polled(c, run).polls <= 64 && Polled(c, run).resends <= 3
    ensures TallyInv(run.Last(), Polled(c, run))
    decreases |run.steps|
  {
    if run.steps == [] {
      NoneArePending(run.First());
    } else {
      InitValid(c, run);
      ResetFreeInit(run);
      PollsPerPaymentAreBounded(c, run.Init());
      GateHoldsBetweenResets(c, run.Init());
      var s, step := run.Init().Last(), run.steps[|run.steps| - 1];
      if step.Deliver? {
        DeliveryKeepsTally(c, s, step.ans, Polled(c, run.Init()));
      } else {
        SurroundingsLeavePolls(c, s, step);
      }
    }
  }
}
