/**
 The event machine at run time: callers and timers put events into the mailbox
 while the loop takes them out one by one and owes a Restart after an error.
 */
module HydraRuntime {
  import opened Prelude
  import opened HydraConfig
  import opened CoinSelection
  import opened HydraServer

  /**
   What became of the requests that callers reported: `paid` for, written off when a session ended, or
   lost to a restart. `unreported` adds up the requests of the payments that went out although their call
   failed; `submitted` is the lovelace of all first submissions.
   */
  datatype Books = Books(received: nat, paid: nat, writtenOff: nat, lost: nat, unreported: nat, submitted: nat)

  /**
   `landing` holds events of tasks that have passed the generation check and
   not yet reached the mailbox. After an error the loop sleeps and owes a
   Restart; it stops for good after Terminate.
   */
  datatype System = System(actor: Actor, landing: seq<Event>, owed: bool, running: bool, books: Books)

  datatype Step =
    | RequestArrives
    | TerminateAsked
    | Deliver(ans: Answers)
    | Recover
    | TimerExpires(timer: nat)
    | Lands(task: nat)
    | NodeExits

  function Start(): System {
    System(Fresh(), [], false, true, Books(0, 0, 0, 0, 0, 0))
  }

  predicate Enabled(s: System, step: Step) {
    && s.running
    && match step
       case RequestArrives => true
       case TerminateAsked => true
       case Deliver(_) => !s.owed && s.actor.mailbox != []
       case Recover => s.owed
       case TimerExpires(i) => i < |s.actor.timers|
       case Lands(i) => i < |s.landing|
       case NodeExits => s.actor.core.watchdog.Some?
  }

  /** The event that the loop takes next. */
  function NextEvent(s: System): Event
    requires s.actor.mailbox != []
  {
    s.actor.mailbox[0]
  }

  function Post(a: Actor, e: Event): Actor {
    a.(mailbox := a.mailbox + [e])
  }

  /** The state in which the handler of the next event runs. */
  function Taken(s: System): Actor
    requires s.actor.mailbox != []
  {
    s.actor.(mailbox := s.actor.mailbox[1..])
  }

  /** What handling the next event does. */
  function Outcomes(c: Setup, s: System, ans: Answers): Outcome
    requires s.actor.mailbox != []
  {
    Handle(c, s.actor.core, NextEvent(s), ans)
  }

  /** The books after an event, read off the change of the fields and the event sent at once. */
  function Booked(b: Books, event: Event, before: Actor, o: Outcome): Books {
    if event.AccountOneRequest? && o.core.sent == before.core.sent + 1 then
      b.(paid := b.paid + before.core.accounted + 1,
         submitted := b.submitted + if o.now.Some? && o.now.value.WaitForL2Tx? then o.now.value.amount else 0)
    else if event.WaitForIdleAfterClose? && o.core.accounted < before.core.accounted then
      b.(writtenOff := b.writtenOff + before.core.accounted - o.core.accounted)
    else if event.Restart? then
      b.(lost := b.lost + before.core.accounted + CountTimers(before.timers, before.core.generation, Billable))
    else b
  }

  /** A payment that went out although its call failed is still submitted; its requests stay in the backlog. */
  function Noted(c: Setup, b: Books, event: Event, a: Core, sending: Sending): Books {
    if event.AccountOneRequest? && sending.Escaped? then
      b.(unreported := b.unreported + a.accounted + 1, submitted := b.submitted + c.Amount(a.accounted + 1))
    else b
  }

  /** What comes of the payment that the next event asks for. */
  function Attempt(c: Setup, s: System, ans: Answers): Sending
    requires s.actor.mailbox != []
  {
    Sends(c, s.actor.core, NextEvent(s), ans)
  }

  function After(c: Setup, s: System, step: Step): System
    requires Enabled(s, step)
  {
    match step
    case RequestArrives =>
      s.(actor := Post(s.actor, AccountOneRequest), books := s.books.(received := s.books.received + 1))
    case TerminateAsked =>
      s.(actor := Post(s.actor, Terminate))
    case Deliver(ans) =>
      var o := Outcomes(c, s, ans);
      s.(actor := Perform(Taken(s), o), owed := !o.ok, running := !NextEvent(s).Terminate?,
         books := Noted(c, Booked(s.books, NextEvent(s), s.actor, o), NextEvent(s), s.actor.core, Attempt(c, s, ans)))
    case Recover =>
      s.(actor := Post(s.actor, Restart), owed := false)
    case TimerExpires(i) =>
      var t := s.actor.timers[i];
      s.(actor := s.actor.(timers := RemoveAt(s.actor.timers, i)),
         landing := if t.generation == s.actor.core.generation then s.landing + [t.event] else s.landing)
    case Lands(i) =>
      s.(actor := Post(s.actor, s.landing[i]), landing := RemoveAt(s.landing, i))
    case NodeExits =>
      s.(actor := s.actor.(core := s.actor.core.(watchdog := None)),
         landing := if s.actor.core.watchdog.value == s.actor.core.generation then s.landing + [Restart] else s.landing)
  }

  predicate Next(c: Setup, s: System, step: Step, s': System) {
    Enabled(s, step) && s' == After(c, s, step)
  }

  /** A stretch of a run: the states and the steps between them. */
  datatype Run = Run(states: seq<System>, steps: seq<Step>)
  {
    predicate Valid(c: Setup) {
      && |states| == |steps| + 1
      && forall i :: 0 <= i < |steps| ==> Next(c, states[i], steps[i], states[i + 1])
    }

    function First(): System
      requires states != []
    {
      states[0]
    }

    function Last(): System
      requires states != []
    {
      states[|states| - 1]
    }

    /** The run without its last step. */
    function Init(): Run
      requires states != [] && steps != []
    {
      Run(states[..|states| - 1], steps[..|steps| - 1])
    }
  }

  lemma InitValid(c: Setup, run: Run)
    requires run.Valid(c) && run.steps != []
    ensures run.Init().Valid(c) && run.Init().First() == run.First()
    ensures Next(c, run.Init().Last(), run.steps[|run.steps| - 1], run.Last())
  {
    var init := run.Init();
    forall i | 0 <= i < |init.steps| ensures Next(c, init.states[i], init.steps[i], init.states[i + 1]) {
      assert Next(c, run.states[i], run.steps[i], run.states[i + 1]);
    }
    var k := |run.steps| - 1;
    assert Next(c, run.states[k], run.steps[k], run.states[k + 1]);
  }

  /** One step more. */
  lemma Extend(c: Setup, run: Run, step: Step) returns (longer: Run)
    requires run.Valid(c) && Enabled(run.Last(), step)
    ensures longer.Valid(c) && longer.First() == run.First() && longer.Last() == After(c, run.Last(), step)
  {
    longer := Run(run.states + [After(c, run.Last(), step)], run.steps + [step]);
    forall i | 0 <= i < |longer.steps| ensures Next(c, longer.states[i], longer.steps[i], longer.states[i + 1]) {
      if i < |run.steps| {
        assert Next(c, run.states[i], run.steps[i], run.states[i + 1]);
      }
    }
  }

  /** The step hands the next event to the handler, and it is a Restart. */
  predicate Restarts(s: System, step: Step) {
    step.Deliver? && s.actor.mailbox != [] && NextEvent(s).Restart?
  }

  /** The step clears the session: a Restart, or the head found Idle after its fanout. */
  predicate Resets(s: System, step: Step) {
    step.Deliver? && s.actor.mailbox != [] &&
    (NextEvent(s).Restart? || (NextEvent(s).WaitForIdleAfterClose? && step.ans.tag == Some(Idle)))
  }

  // ------------------------------------------------------------------ counting pending events

  /** Lifecycle events drive the head from funding to fanout; polls wait for a payment; billables are requests. */
  datatype Kind = Lifecycle | Poll | Billable

  predicate Of(kind: Kind, e: Event) {
    match kind
    case Poll => e.WaitForL2Tx?
    case Billable => e.AccountOneRequest?
    case Lifecycle => !e.WaitForL2Tx? && !e.AccountOneRequest? && !e.Restart? && !e.Terminate?
  }

  function One(kind: Kind, e: Event): nat {
    if Of(kind, e) then 1 else 0
  }

  function Count(s: seq<Event>, kind: Kind): nat {
    if s == [] then 0 else Count(s[..|s| - 1], kind) + One(kind, s[|s| - 1])
  }

  /** Timers of another generation never deliver their events. */
  function CountTimers(s: seq<Timer>, generation: nat, kind: Kind): nat {
    if s == [] then 0
    else
      CountTimers(s[..|s| - 1], generation, kind) +
      if s[|s| - 1].generation == generation then One(kind, s[|s| - 1].event) else 0
  }

  function Held(a: Actor, kind: Kind): nat {
    Count(a.mailbox, kind) + CountTimers(a.timers, a.core.generation, kind)
  }

  function Pending(s: System, kind: Kind): nat {
    Held(s.actor, kind) + Count(s.landing, kind)
  }

  lemma CountAppend(s: seq<Event>, e: Event, kind: Kind)
    ensures Count(s + [e], kind) == Count(s, kind) + One(kind, e)
  {
    assert (s + [e])[..|s|] == s;
  }

  lemma {:induction false} CountSplit(s: seq<Event>, t: seq<Event>, kind: Kind)
    ensures Count(s + t, kind) == Count(s, kind) + Count(t, kind)
  {
    if t == [] {
      assert s + t == s;
    } else {
      assert s + t == (s + t[..|t| - 1]) + [t[|t| - 1]];
      CountAppend(s + t[..|t| - 1], t[|t| - 1], kind);
      CountSplit(s, t[..|t| - 1], kind);
    }
  }

  lemma CountOne(e: Event, kind: Kind)
    ensures Count([e], kind) == One(kind, e)
  {
    assert [e][..0] == [];
  }

  lemma CountRemove(s: seq<Event>, i: nat, kind: Kind)
    requires i < |s|
    ensures Count(s, kind) == Count(RemoveAt(s, i), kind) + One(kind, s[i])
  {
    assert s == s[..i] + ([s[i]] + s[i + 1..]);
    CountSplit(s[..i], [s[i]] + s[i + 1..], kind);
    CountSplit([s[i]], s[i + 1..], kind);
    CountSplit(s[..i], s[i + 1..], kind);
    CountOne(s[i], kind);
  }

  lemma {:induction false} TimersSplit(s: seq<Timer>, t: seq<Timer>, g: nat, kind: Kind)
    ensures CountTimers(s + t, g, kind) == CountTimers(s, g, kind) + CountTimers(t, g, kind)
  {
    if t == [] {
      assert s + t == s;
    } else {
      assert (s + t)[..|s + t| - 1] == s + t[..|t| - 1];
      TimersSplit(s, t[..|t| - 1], g, kind);
    }
  }

  lemma TimersAppend(s: seq<Timer>, t: Timer, g: nat, kind: Kind)
    ensures CountTimers(s + [t], g, kind) ==
            CountTimers(s, g, kind) + if t.generation == g then One(kind, t.event) else 0
  {
    assert (s + [t])[..|s|] == s;
  }

  lemma TimersRemove(s: seq<Timer>, i: nat, g: nat, kind: Kind)
    requires i < |s|
    ensures CountTimers(s, g, kind) ==
            CountTimers(RemoveAt(s, i), g, kind) + if s[i].generation == g then One(kind, s[i].event) else 0
  {
    assert s == s[..i] + ([s[i]] + s[i + 1..]);
    TimersSplit(s[..i], [s[i]] + s[i + 1..], g, kind);
    TimersSplit([s[i]], s[i + 1..], g, kind);
    TimersSplit(s[..i], s[i + 1..], g, kind);
    TimersAppend([], s[i], g, kind);
    assert [] + [s[i]] == [s[i]];
  }

  function OneOf(kind: Kind, o: Option<Event>): nat {
    match o
    case None => 0
    case Some(e) => One(kind, e)
  }

  /** The events of an outcome that are of the kind. */
  function Emitted(o: Outcome, kind: Kind): nat {
    OneOf(kind, o.now) + OneOf(kind, o.later)
  }

  lemma PostCounts(a: Actor, e: Event, kind: Kind)
    ensures Held(Post(a, e), kind) == Held(a, kind) + One(kind, e)
  {
    CountAppend(a.mailbox, e, kind);
  }

  /** Within a generation, an outcome adds exactly the events it emits. */
  lemma PerformCounts(a: Actor, o: Outcome, kind: Kind)
    requires o.core.generation == a.core.generation
    ensures Held(Perform(a, o), kind) == Held(a, kind) + Emitted(o, kind)
  {
    var g := o.core.generation;
    if o.now.Some? {
      CountAppend(a.mailbox, o.now.value, kind);
    } else {
      assert a.mailbox + [] == a.mailbox;
    }
    if o.later.Some? {
      TimersAppend(a.timers, Timer(o.later.value, g), g, kind);
    } else {
      assert a.timers + [] == a.timers;
    }
  }

  lemma TakingRemoves(s: System, kind: Kind)
    requires s.actor.mailbox != []
    ensures Held(s.actor, kind) == Held(Taken(s), kind) + One(kind, NextEvent(s))
  {
    CountRemove(s.actor.mailbox, 0, kind);
    assert RemoveAt(s.actor.mailbox, 0) == s.actor.mailbox[1..];
  }

  /** A step of the surroundings changes the pending events by what it brings along. */
  lemma SurroundingsCount(c: Setup, s: System, step: Step, kind: Kind)
    requires Enabled(s, step) && !step.Deliver?
    ensures Pending(After(c, s, step), kind) == Pending(s, kind) +
      (if step.RequestArrives? then One(kind, AccountOneRequest) else 0)
  {
    match step
    case RequestArrives => PostCounts(s.actor, AccountOneRequest, kind);
    case TerminateAsked => PostCounts(s.actor, Terminate, kind);
    case Recover => PostCounts(s.actor, Restart, kind);
    case TimerExpires(i) =>
      TimersRemove(s.actor.timers, i, s.actor.core.generation, kind);
      CountAppend(s.landing, s.actor.timers[i].event, kind);
    case Lands(i) =>
      PostCounts(s.actor, s.landing[i], kind);
      CountRemove(s.landing, i, kind);
    case NodeExits =>
      CountAppend(s.landing, Restart, kind);
  }

  lemma OnlyRestartMovesGeneration(c: Setup, a: Core, event: Event, ans: Answers)
    ensures Handle(c, a, event, ans).core.generation == if event.Restart? then a.generation + 1 else a.generation
  {
  }

  /** A delivery takes one event and adds the emitted ones. */
  lemma DeliveryCounts(c: Setup, s: System, step: Step, kind: Kind)
    requires step.Deliver? && Enabled(s, step) && !NextEvent(s).Restart?
    ensures Pending(After(c, s, step), kind) + One(kind, NextEvent(s)) ==
            Pending(s, kind) + Emitted(Outcomes(c, s, step.ans), kind)
  {
    TakingRemoves(s, kind);
    OnlyRestartMovesGeneration(c, s.actor.core, NextEvent(s), step.ans);
    PerformCounts(Taken(s), Outcomes(c, s, step.ans), kind);
  }

  lemma {:induction false} StaleTimersSilent(s: seq<Timer>, g: nat, kind: Kind)
    requires forall i :: 0 <= i < |s| ==> s[i].generation != g
    ensures CountTimers(s, g, kind) == 0
  {
    if s != [] {
      StaleTimersSilent(s[..|s| - 1], g, kind);
    }
  }

  /** No timer is ahead of the current generation. */
  predicate TimersInv(a: Actor) {
    forall i :: 0 <= i < |a.timers| ==> a.timers[i].generation <= a.core.generation
  }

  lemma StepKeepsTimers(c: Setup, s: System, step: Step)
    requires Enabled(s, step) && TimersInv(s.actor)
    ensures TimersInv(After(c, s, step).actor)
  {
    if step.Deliver? {
      OnlyRestartMovesGeneration(c, s.actor.core, NextEvent(s), step.ans);
    }
  }

  /** A restart leaves the events past the generation check, and the new chain if the node starts. */
  lemma RestartCounts(c: Setup, s: System, step: Step, kind: Kind)
    requires Enabled(s, step) && Restarts(s, step) && TimersInv(s.actor)
    ensures Pending(After(c, s, step), kind) ==
      Count(s.actor.mailbox[1..], kind) + Count(s.landing, kind)
      + (if step.ans.nodeStarts then One(kind, FundCommitAddr) else 0)
  {
    var g := s.actor.core.generation + 1;
    StaleTimersSilent(s.actor.timers, g, kind);
    var renewed := Actor(s.actor.core.(generation := g), s.actor.mailbox[1..], s.actor.timers);
    PerformCounts(renewed, Outcomes(c, s, step.ans), kind);
  }
}
