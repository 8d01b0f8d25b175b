/** The bridge's event machine at run time, with a record of what it paid. */
module BridgeRuntime {
  import opened Prelude
  import opened CoinSelection
  import opened BridgeClient

  /**
   A payment made for the first time: for how many requests, whether it was overdue, that is, a payment's
   call had failed since the count of requests was last zero, and whether its own call succeeded. A
   prepayment is never overdue.
   */
  datatype Payment = Payment(amount: U64, requests: nat, overdue: bool, reported: bool)

  /**
   What became of the requests that were reported: `paid` for, `dropped` because the terms or the wallet were
   missing, `cleared` when the head opened, or `lost` to a restart.
   */
  datatype Books = Books(received: nat, paid: nat, dropped: nat, cleared: nat, lost: nat)

  /**
   `landing` holds events past the generation check that are still on their way to the mailbox.
   `resent` are the amounts submitted again, `overlaps` counts the prepayments sent while
   another payment was unconfirmed.
   */
  datatype System = System(
    core: Core,
    mailbox: seq<Event>,
    timers: seq<Timer>,
    landing: seq<Event>,
    owed: bool,
    overdue: bool,
    payments: seq<Payment>,
    resent: seq<U64>,
    overlaps: nat,
    books: Books)

  datatype Step =
    | RequestArrives
    | TerminateAsked
    | KexArrives(done: bool)
    | Deliver(ans: Answers)
    | Recover
    | TimerExpires(timer: nat)
    | Lands(task: nat)
    | NodeExits
    | CreditSpent

  function Start(): System {
    System(FreshCore(), [Restart], [], [], false, false, [], [], 0, Books(0, 0, 0, 0, 0))
  }

  predicate Enabled(s: System, step: Step) {
    match step
    case RequestArrives | TerminateAsked | KexArrives(_) => true
    case Deliver(_) => !s.owed && s.mailbox != []
    case Recover => s.owed
    case TimerExpires(i) => i < |s.timers|
    case Lands(i) => i < |s.landing|
    case NodeExits => s.core.watchdog.Some?
    case CreditSpent => s.core.credits > 0
  }

  function Post(s: System, e: Event): System {
    s.(mailbox := s.mailbox + [e])
  }

  /** How many requests the payment of an event is for. */
  function Requests(c: Setup, a: Core, event: Event): nat {
    if event.SendPrepay? then c.cfg.requestsPerMicrotransaction else a.accounted + 1
  }

  /** The requests in timers that a restart makes stale. */
  function Waiting(s: System): nat {
    multiset(s.timers)[Timer(AccountOneRequest, s.core.generation)]
  }

  /** The books after an event, read off the change of the fields and the events sent. */
  function Entered(s: System, event: Event, o: Outcome): Books {
    var a, b := s.core, o.core;
    if event.AccountOneRequest? then
      if o.paid.Some? && o.ok then s.books.(paid := s.books.paid + a.accounted + 1)
      else if b.accounted == a.accounted && o.later == [] then s.books.(dropped := s.books.dropped + 1)
      else s.books
    else if event.Restart? then
      s.books.(lost := s.books.lost + Waiting(s) + if b.accounted < a.accounted then a.accounted - b.accounted else 0)
    else if b.accounted < a.accounted then s.books.(cleared := s.books.cleared + a.accounted - b.accounted)
    else s.books
  }

  /** The records after an event. */
  function Recorded(c: Setup, s: System, event: Event, o: Outcome): System {
    s.(payments := if o.paid.Some? && !event.WaitForL2Tx?
         then s.payments
              + [Payment(o.paid.value, Requests(c, s.core, event), event.AccountOneRequest? && s.overdue, o.ok)]
         else s.payments,
       resent := if o.paid.Some? && event.WaitForL2Tx? then s.resent + [o.paid.value] else s.resent,
       overdue := o.core.accounted != 0 && (s.overdue || (event.AccountOneRequest? && !o.ok)),
       overlaps := if event.SendPrepay? && o.paid.Some? && o.ok && s.core.awaiting then s.overlaps + 1 else s.overlaps,
       books := Entered(s, event, o))
  }

  function Delivered(c: Setup, s: System, o: Outcome): System
    requires s.mailbox != []
  {
    Recorded(c, s, s.mailbox[0], o).(
      core := o.core, mailbox := s.mailbox[1..] + o.now, timers := s.timers + Timed(o.later, o.core.generation),
      owed := !o.ok)
  }

  function After(c: Setup, s: System, step: Step): System
    requires Enabled(s, step)
  {
    match step
    case RequestArrives => Post(s, AccountOneRequest).(books := s.books.(received := s.books.received + 1))
    case TerminateAsked => Post(s, Terminate)
    case KexArrives(done) => Post(s, KeyExchangeResponse(done))
    case Deliver(ans) => Delivered(c, s, Handle(c, s.core, s.mailbox[0], ans))
    case Recover => Post(s, Restart).(owed := false)
    case TimerExpires(i) =>
      s.(timers := RemoveAt(s.timers, i),
         landing := if s.timers[i].generation == s.core.generation then s.landing + [s.timers[i].event] else s.landing)
    case Lands(i) => Post(s, s.landing[i]).(landing := RemoveAt(s.landing, i))
    case NodeExits =>
      s.(core := s.core.(watchdog := None),
         landing := if s.core.watchdog.value == s.core.generation then s.landing + [Restart] else s.landing)
    case CreditSpent => s.(core := s.core.(credits := s.core.credits - 1))
  }

  ghost predicate Next(c: Setup, s: System, next: System) {
    exists step :: Enabled(s, step) && next == After(c, s, step)
  }

  ghost predicate Run(c: Setup, run: seq<System>) {
    && run != [] && run[0] == Start()
    && forall i :: 0 <= i < |run| - 1 ==> Next(c, run[i], run[i + 1])
  }

  lemma RunPrefix(c: Setup, run: seq<System>)
    requires Run(c, run) && |run| > 1
    ensures Run(c, run[..|run| - 1]) && Next(c, run[|run| - 2], run[|run| - 1])
  {
    var init := run[..|run| - 1];
    forall i | 0 <= i < |init| - 1
      ensures Next(c, init[i], init[i + 1])
    {
      assert Next(c, run[i], run[i + 1]);
    }
    assert Next(c, run[|run| - 2], run[|run| - 2 + 1]);
  }

  lemma Follow(c: Setup, run: seq<System>, step: Step) returns (longer: seq<System>)
    requires Run(c, run) && Enabled(run[|run| - 1], step)
    ensures Run(c, longer) && longer[|longer| - 1] == After(c, run[|run| - 1], step)
  {
    var next := After(c, run[|run| - 1], step);
    longer := run + [next];
    assert Next(c, run[|run| - 1], next);
    forall i | 0 <= i < |longer| - 1
      ensures Next(c, longer[i], longer[i + 1])
    {
      if i < |run| - 1 {
        assert Next(c, run[i], run[i + 1]);
      }
    }
  }
}
