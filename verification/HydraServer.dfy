/**
 The gateway's event machine for one platform: `State::process_event` with its
 mailbox and its generation-stamped timers. Foreign calls are answers that the
 environment chooses.
 */
module HydraServer {
  import opened Prelude
  import opened HydraConfig
  import opened CoinSelection

  const L2_TX_MAX_POLL_ATTEMPTS: nat := 15
  const L2_TX_MAX_RETRIES: nat := 3

  datatype Event =
    | Restart
    | Terminate
    | FundCommitAddr
    | TryToInitHead
    | WaitForInitial(retries: nat)
    | TryToCommit
    | WaitForOpen
    | AccountOneRequest
    | WaitForL2Tx(spent: seq<Ref>, attempts: nat, amount: U64, retriesLeft: nat)
    | WaitForUtxoCount
    | TryToClose
    | WaitForClosed(reclose: nat)
    | WaitForFanoutReady
    | DoFanout
    | WaitForIdleAfterClose(refanout: nat)

  /** The head status; `Other` is every tag the machine does not look for. */
  datatype Tag = Idle | Initial | Open | Closed | Other

  datatype Timer = Timer(event: Event, generation: nat)

  /**
   How a message to the head goes, or a top-up to the chain. `Lost` and `Unreported` are errors of the call,
   the latter after the message has gone out: the connection is kept open for a while, and closing it can fail.
   */
  datatype Delivery = Lost | Unreported | Delivered

  /** What comes of a payment: nothing in the head, one that the call reports as an error, or one that it reports. */
  datatype Sending = Unsent | Escaped | Sent(inputs: seq<Ref>)

  /**
   What the foreign calls of one event return; `None` and `false` are errors.
   `poll` is the confirmation snapshot (`Some(None)` when it is not an object),
   `pick` the one that a payment selects its inputs from, `survey` the one that
   is counted.
   */
  datatype Answers = Answers(
    nodeStarts: bool,
    fuel: Option<U64>,
    walletReady: bool,
    balance: Option<U64>,
    funding: Delivery,
    peersConnected: bool,
    delivery: Delivery,
    tag: Option<Tag>,
    committed: bool,
    pick: Option<Snapshot>,
    poll: Option<Option<Snapshot>>,
    survey: Option<Snapshot>,
    fanoutReady: Option<bool>)

  /** The fields of the state; `topUps` records the amounts sent to the commit wallet. */
  datatype Core = Core(
    generation: nat,
    headOpen: bool,
    peersConnected: bool,
    accounted: nat,
    sent: nat,
    fundTxSent: bool,
    isClosing: bool,
    awaiting: bool,
    watchdog: Option<nat>,
    topUps: seq<int>)

  /** The state with its mailbox and the timers it has started. */
  datatype Actor = Actor(core: Core, mailbox: seq<Event>, timers: seq<Timer>)

  /** What handling an event does: new fields, an event sent at once, one sent after a delay, `Ok` or an error. */
  datatype Outcome = Outcome(core: Core, now: Option<Event>, later: Option<Event>, ok: bool)

  /** The wallet that pays and the settings; both are fixed for a controller. */
  datatype Setup = Setup(cfg: Config, wallet: Address)
  {
    /** The `u64` product wraps around. */
    function Amount(requests: nat): U64 {
      (requests * cfg.lovelacePerRequest) % U64_SIZE
    }

    /** The cast of the target to `u64` saturates. */
    function Target(): int {
      if cfg.Target() < U64_SIZE then cfg.Target() else U64_SIZE - 1
    }
  }

  function Fresh(): Actor {
    Actor(Core(0, false, false, 0, 0, false, false, false, None, []), [Restart], [])
  }

  // ------------------------------------------------------------------ specification

  function Quiet(core: Core): Outcome {
    Outcome(core, None, None, true)
  }

  function Later(core: Core, e: Event): Outcome {
    Outcome(core, None, Some(e), true)
  }

  function Failed(core: Core): Outcome {
    Outcome(core, None, None, false)
  }

  function ToSeq<T>(o: Option<T>): seq<T> {
    match o
    case None => []
    case Some(x) => [x]
  }

  function Timed(o: Option<Event>, generation: nat): seq<Timer> {
    match o
    case None => []
    case Some(e) => [Timer(e, generation)]
  }

  /** Puts the events of an outcome on their way; a timer carries the generation of its start. */
  function Perform(a: Actor, o: Outcome): Actor {
    Actor(o.core, a.mailbox + ToSeq(o.now), a.timers + Timed(o.later, o.core.generation))
  }

  /** `send_hydra_transaction`: chooses inputs, and hands the payment to the head. */
  function Submit(c: Setup, amount: U64, ans: Answers): Sending {
    if ans.pick.None? then Unsent
    else
      match Select(ans.pick.value, c.wallet, amount)
      case Err(_) => Unsent
      case Ok(sel) =>
        if ans.delivery.Delivered? then Sent(sel.inputs) else if ans.delivery.Unreported? then Escaped else Unsent
  }

  /** The inputs of a payment that the call reports as sent. */
  function Pay(c: Setup, amount: U64, ans: Answers): Option<seq<Ref>> {
    match Submit(c, amount, ans)
    case Sent(inputs) => Some(inputs)
    case _ => None
  }

  predicate Contains(snapshot: Snapshot, r: Ref) {
    exists i :: 0 <= i < |snapshot| && snapshot[i].ref == r
  }

  predicate StillPresent(spent: seq<Ref>, snapshot: Snapshot) {
    exists i :: 0 <= i < |spent| && Contains(snapshot, spent[i])
  }

  function Cleared(a: Core): Core {
    a.(generation := a.generation + 1, headOpen := false, peersConnected := false, isClosing := false,
       awaiting := false, sent := 0, accounted := 0, watchdog := None)
  }

  function OnRestart(a: Core, ans: Answers): Outcome {
    var b := Cleared(a);
    if ans.nodeStarts then Later(b.(watchdog := Some(b.generation)), FundCommitAddr) else Failed(b)
  }

  /** What is missing, but no less than an output may hold. */
  function TopUp(c: Setup, balance: U64): int {
    Max(c.Target() - balance, MIN_LOVELACE)
  }

  function OnFund(c: Setup, a: Core, ans: Answers): Outcome {
    if ans.fuel.None? then Failed(a)
    else if ans.fuel.value == 0 then Later(a, FundCommitAddr)
    else if !ans.walletReady || ans.balance.None? then Failed(a)
    else if ans.balance.value < c.Target() then
      if a.fundTxSent then Later(a, FundCommitAddr)
      else if ans.funding.Lost? then Failed(a)
      else
        var b := a.(topUps := a.topUps + [TopUp(c, ans.balance.value)]);
        if ans.funding.Delivered? then Later(b.(fundTxSent := true), FundCommitAddr) else Failed(b)
    else Later(a.(fundTxSent := false), TryToInitHead)
  }

  function OnInit(a: Core, ans: Answers): Outcome {
    if !ans.peersConnected then Later(a, TryToInitHead)
    else if !ans.delivery.Delivered? then Failed(a.(peersConnected := true))
    else Later(a.(peersConnected := true), WaitForInitial(10))
  }

  function OnWaitForInitial(a: Core, retries: nat, ans: Answers): Outcome {
    match ans.tag
    case None => Failed(a)
    case Some(Initial) => Later(a, TryToCommit)
    case Some(Open) => Later(a, WaitForOpen)
    case Some(_) => Later(a, if retries <= 1 then TryToInitHead else WaitForInitial(retries - 1))
  }

  function OnCommit(c: Setup, a: Core, ans: Answers): Outcome {
    if ans.balance.None? then Failed(a)
    else if ans.balance.value as real >= 0.99 * c.cfg.commitAda * 1_000_000.0 && ans.committed then
      Later(a, WaitForOpen)
    else Later(a, TryToCommit)
  }

  function OnWaitForOpen(a: Core, ans: Answers): Outcome {
    match ans.tag
    case None => Failed(a)
    case Some(Open) => Quiet(a.(headOpen := true))
    case Some(_) => Later(a, WaitForOpen)
  }

  /** Books a payment that has been sent, and starts closing at the fanout count. */
  function Paid(c: Setup, a: Core, amount: U64, inputs: seq<Ref>): Outcome {
    var closing := a.sent + 1 >= c.cfg.microtransactionsPerFanout;
    Outcome(
      a.(accounted := 0, sent := a.sent + 1, awaiting := true, isClosing := a.isClosing || closing),
      Some(WaitForL2Tx(inputs, 0, amount, L2_TX_MAX_RETRIES)),
      if closing then Some(WaitForUtxoCount) else None,
      true)
  }

  /** Pays for all accounted requests at once. */
  function OnMicrotransaction(c: Setup, a: Core, ans: Answers): Outcome {
    var amount := c.Amount(a.accounted);
    match Pay(c, amount, ans)
    case None => Failed(a)
    case Some(inputs) => Paid(c, a, amount, inputs)
  }

  function OnAccount(c: Setup, a: Core, ans: Answers): Outcome {
    if a.awaiting then Later(a, AccountOneRequest)
    else
      var b := a.(accounted := a.accounted + 1);
      if b.accounted < c.cfg.requestsPerMicrotransaction || b.isClosing || !b.headOpen then Quiet(b)
      else OnMicrotransaction(c, b, ans)
  }

  function OnL2Poll(c: Setup, a: Core, spent: seq<Ref>, attempts: nat, amount: U64, retriesLeft: nat, ans: Answers)
    : Outcome
  {
    if ans.poll.None? then Failed(a)
    else if ans.poll.value.None? || !StillPresent(spent, ans.poll.value.value) then Quiet(a.(awaiting := false))
    else if attempts < L2_TX_MAX_POLL_ATTEMPTS then
      Later(a, WaitForL2Tx(spent, attempts + 1, amount, retriesLeft))
    else if retriesLeft == 0 then Quiet(a.(awaiting := false))
    else
      match Pay(c, amount, ans)
      case None => Failed(a)
      case Some(inputs) => Outcome(a, Some(WaitForL2Tx(inputs, 0, amount, retriesLeft - 1)), None, true)
  }

  function OnUtxoCount(a: Core, ans: Answers): Outcome {
    match ans.survey
    case None => Failed(a)
    case Some(snapshot) => Later(a, if |snapshot| >= 1 + a.sent then TryToClose else WaitForUtxoCount)
  }

  function OnWaitForClosed(a: Core, retries: nat, ans: Answers): Outcome {
    match ans.tag
    case None => Failed(a)
    case Some(Closed) => Later(a, WaitForFanoutReady)
    case Some(_) => Later(a, if retries <= 1 then TryToClose else WaitForClosed(retries - 1))
  }

  function OnFanoutReady(a: Core, ans: Answers): Outcome {
    match ans.fanoutReady
    case None => Failed(a)
    case Some(ready) => Later(a, if ready then DoFanout else WaitForFanoutReady)
  }

  function OnWaitForIdle(a: Core, retries: nat, ans: Answers): Outcome {
    match ans.tag
    case None => Failed(a)
    case Some(Idle) =>
      Later(a.(headOpen := false, isClosing := false, awaiting := false, sent := 0, accounted := 0), FundCommitAddr)
    case Some(_) => Later(a, if retries <= 1 then DoFanout else WaitForIdleAfterClose(retries - 1))
  }

  function Handle(c: Setup, a: Core, event: Event, ans: Answers): Outcome {
    match event
    case Restart => OnRestart(a, ans)
    case Terminate => Quiet(a.(watchdog := None))
    case FundCommitAddr => OnFund(c, a, ans)
    case TryToInitHead => OnInit(a, ans)
    case WaitForInitial(retries) => OnWaitForInitial(a, retries, ans)
    case TryToCommit => OnCommit(c, a, ans)
    case WaitForOpen => OnWaitForOpen(a, ans)
    case AccountOneRequest => OnAccount(c, a, ans)
    case WaitForL2Tx(spent, attempts, amount, retriesLeft) => OnL2Poll(c, a, spent, attempts, amount, retriesLeft, ans)
    case WaitForUtxoCount => OnUtxoCount(a, ans)
    case TryToClose => if ans.delivery.Delivered? then Later(a, WaitForClosed(10)) else Failed(a)
    case WaitForClosed(retries) => OnWaitForClosed(a, retries, ans)
    case WaitForFanoutReady => OnFanoutReady(a, ans)
    case DoFanout => if ans.delivery.Delivered? then Later(a, WaitForIdleAfterClose(10)) else Failed(a)
    case WaitForIdleAfterClose(retries) => OnWaitForIdle(a, retries, ans)
  }

  // ------------------------------------------------------------------ payments that go out

  /** A payment falls due with the next request. */
  predicate PaymentDue(c: Setup, a: Core) {
    a.headOpen && !a.isClosing && !a.awaiting && a.accounted + 1 >= c.cfg.requestsPerMicrotransaction
  }

  /** The poll has found the payment unconfirmed once too often, and sends it again. */
  predicate ResendDue(event: Event, ans: Answers) {
    && event.WaitForL2Tx? && event.attempts >= L2_TX_MAX_POLL_ATTEMPTS && event.retriesLeft > 0
    && ans.poll.Some? && ans.poll.value.Some? && StillPresent(event.spent, ans.poll.value.value)
  }

  /** The amount that handling the event asks to be paid. */
  function Due(c: Setup, a: Core, event: Event, ans: Answers): Option<U64> {
    if event.AccountOneRequest? && PaymentDue(c, a) then Some(c.Amount(a.accounted + 1))
    else if ResendDue(event, ans) then Some(event.amount)
    else None
  }

  /** What comes of the payment that handling the event asks for. */
  function Sends(c: Setup, a: Core, event: Event, ans: Answers): Sending {
    match Due(c, a, event, ans)
    case None => Unsent
    case Some(amount) => Submit(c, amount, ans)
  }

  // ------------------------------------------------------------------ the state object

  class HydraState {
    const setup: Setup
    var generation: nat
    var headOpen: bool
    var peersConnected: bool
    var accounted: nat
    var sent: nat
    var fundTxSent: bool
    var isClosing: bool
    var awaiting: bool
    var watchdog: Option<nat>
    var topUps: seq<int>
    var mailbox: seq<Event>
    var timers: seq<Timer>

    ghost function View(): Actor
      reads this
    {
      Actor(Fields(), mailbox, timers)
    }

    ghost function Fields(): Core
      reads this
    {
      Core(generation, headOpen, peersConnected, accounted, sent, fundTxSent, isClosing, awaiting, watchdog, topUps)
    }

    /** The handler's return value and the new state are what the outcome says. */
    ghost predicate Became(before: Actor, o: Outcome, ok: bool)
      reads this
    {
      View() == Perform(before, o) && ok == o.ok
    }

    constructor (setup: Setup)
      ensures this.setup == setup && View() == Fresh()
    {
      this.setup := setup;
      generation, accounted, sent := 0, 0, 0;
      headOpen, peersConnected, fundTxSent, isClosing, awaiting := false, false, false, false, false;
      watchdog, topUps, mailbox, timers := None, [], [Restart], [];
    }

    method Send(e: Event)
      modifies this`mailbox
      ensures mailbox == old(mailbox) + [e]
    {
      mailbox := mailbox + [e];
    }

    method SendDelayed(e: Event)
      modifies this`timers
      ensures timers == old(timers) + [Timer(e, generation)]
    {
      timers := timers + [Timer(e, generation)];
    }

    /** `send_hydra_transaction`: choose the inputs and hand the payment to the head. */
    method SendHydraTransaction(amount: U64, ans: Answers) returns (r: Option<seq<Ref>>)
      ensures r == Pay(setup, amount, ans)
    {
      if ans.pick.None? {
        return None;
      }
      var sel := SelectInputs(ans.pick.value, setup.wallet, amount);
      if sel.Err? || !ans.delivery.Delivered? {
        return None;
      }
      return Some(sel.value.inputs);
    }

    method ProcessEvent(event: Event, ans: Answers) returns (ok: bool)
      modifies this
      ensures Became(old(View()), Handle(setup, old(Fields()), event, ans), ok)
    {
      match event
      case Restart => ok := ProcessRestart(ans);
      case Terminate =>
        watchdog := None;
        return true;
      case FundCommitAddr => ok := ProcessFunding(ans);
      case TryToInitHead | WaitForInitial(_) | TryToCommit | WaitForOpen => ok := ProcessOpening(event, ans);
      case AccountOneRequest => ok := ProcessRequest(ans);
      case WaitForL2Tx(spent, attempts, amount, retriesLeft) =>
        ok := ProcessPoll(spent, attempts, amount, retriesLeft, ans);
      case WaitForUtxoCount | TryToClose | WaitForClosed(_) => ok := ProcessClosing(event, ans);
      case WaitForFanoutReady | DoFanout => ok := ProcessFanout(event, ans);
      case WaitForIdleAfterClose(retries) => ok := ProcessIdle(retries, ans);
    }

    /** What a restart forgets; the funding goes on where it was. */
    method ClearSession()
      modifies this
      ensures Fields() == Cleared(old(Fields())) && mailbox == old(mailbox) && timers == old(timers)
    {
      generation := generation + 1;
      headOpen := false;
      peersConnected := false;
      isClosing := false;
      awaiting := false;
      sent := 0;
      accounted := 0;
      watchdog := None;
    }

    method ProcessRestart(ans: Answers) returns (ok: bool)
      modifies this
      ensures Became(old(View()), OnRestart(old(Fields()), ans), ok)
    {
      ClearSession();
      if !ans.nodeStarts {
        return false;
      }
      watchdog := Some(generation);
      SendDelayed(FundCommitAddr);
      return true;
    }

    method ProcessFunding(ans: Answers) returns (ok: bool)
      modifies this
      ensures Became(old(View()), OnFund(setup, old(Fields()), ans), ok)
    {
      if ans.fuel.None? {
        return false;
      }
      if ans.fuel.value == 0 {
        SendDelayed(FundCommitAddr);
        return true;
      }
      if !ans.walletReady || ans.balance.None? {
        return false;
      }
      if ans.balance.value < setup.Target() {
        if fundTxSent {
          SendDelayed(FundCommitAddr);
          return true;
        }
        if ans.funding.Lost? {
          return false;
        }
        var missing := setup.Target() - ans.balance.value;
        topUps := topUps + [if missing > MIN_LOVELACE then missing else MIN_LOVELACE];
        if ans.funding.Unreported? {
          return false;
        }
        fundTxSent := true;
        SendDelayed(FundCommitAddr);
      } else {
        fundTxSent := false;
        SendDelayed(TryToInitHead);
      }
      return true;
    }

    method ProcessOpening(event: Event, ans: Answers) returns (ok: bool)
      requires event.TryToInitHead? || event.WaitForInitial? || event.TryToCommit? || event.WaitForOpen?
      modifies this
      ensures Became(old(View()), Handle(setup, old(Fields()), event, ans), ok)
    {
      match event
      case TryToInitHead =>
        if ans.peersConnected {
          peersConnected := true;
          if !ans.delivery.Delivered? {
            return false;
          }
          SendDelayed(WaitForInitial(10));
        } else {
          SendDelayed(TryToInitHead);
        }
        return true;
      case WaitForInitial(retries) =>
        if ans.tag.None? {
          return false;
        }
        if ans.tag.value == Initial {
          SendDelayed(TryToCommit);
        } else if ans.tag.value == Open {
          SendDelayed(WaitForOpen);
        } else if retries <= 1 {
          SendDelayed(TryToInitHead);
        } else {
          SendDelayed(WaitForInitial(retries - 1));
        }
        return true;
      case TryToCommit =>
        if ans.balance.None? {
          return false;
        }
        var needed := 0.99 * setup.cfg.commitAda * 1_000_000.0;
        if ans.balance.value as real >= needed {
          if ans.committed {
            SendDelayed(WaitForOpen);
          } else {
            SendDelayed(TryToCommit);
          }
        } else {
          SendDelayed(TryToCommit);
        }
        return true;
      case WaitForOpen =>
        if ans.tag.None? {
          return false;
        }
        if ans.tag.value == Open {
          headOpen := true;
        } else {
          SendDelayed(WaitForOpen);
        }
        return true;
    }

    method ProcessRequest(ans: Answers) returns (ok: bool)
      modifies this
      ensures Became(old(View()), OnAccount(setup, old(Fields()), ans), ok)
    {
      if awaiting {
        SendDelayed(AccountOneRequest);
        return true;
      }
      accounted := accounted + 1;
      if accounted >= setup.cfg.requestsPerMicrotransaction {
        if isClosing {
          // A payment would be due, but the head is closing: the request stays in the backlog.
        } else if headOpen {
          ok := SendMicrotransaction(ans);
          return;
        }
      }
      return true;
    }

    method SendMicrotransaction(ans: Answers) returns (ok: bool)
      modifies this
      ensures Became(old(View()), OnMicrotransaction(setup, old(Fields()), ans), ok)
    {
      var amount := setup.Amount(accounted);
      var inputs := SendHydraTransaction(amount, ans);
      if inputs.None? {
        return false;
      }
      BookPayment(amount, inputs.value);
      return true;
    }

    method BookPayment(amount: U64, inputs: seq<Ref>)
      modifies this
      ensures Became(old(View()), Paid(setup, old(Fields()), amount, inputs), true)
    {
      accounted := 0;
      sent := sent + 1;
      awaiting := true;
      Send(WaitForL2Tx(inputs, 0, amount, L2_TX_MAX_RETRIES));
      if sent >= setup.cfg.microtransactionsPerFanout {
        isClosing := true;
        SendDelayed(WaitForUtxoCount);
      }
    }

    method ProcessPoll(spent: seq<Ref>, attempts: nat, amount: U64, retriesLeft: nat, ans: Answers) returns (ok: bool)
      modifies this
      ensures Became(old(View()), OnL2Poll(setup, old(Fields()), spent, attempts, amount, retriesLeft, ans), ok)
    {
      if ans.poll.None? {
        return false;
      }
      var present := false;
      if ans.poll.value.Some? {
        present := AnyPresent(spent, ans.poll.value.value);
      }
      if !present {
        awaiting := false;
      } else if attempts >= L2_TX_MAX_POLL_ATTEMPTS {
        if retriesLeft > 0 {
          ok := SendAgain(amount, retriesLeft, ans);
          return;
        }
        awaiting := false;
      } else {
        SendDelayed(WaitForL2Tx(spent, attempts + 1, amount, retriesLeft));
      }
      return true;
    }

    method SendAgain(amount: U64, retriesLeft: nat, ans: Answers) returns (ok: bool)
      requires retriesLeft > 0
      modifies this`mailbox
      ensures var inputs := Pay(setup, amount, ans);
        && ok == inputs.Some?
        && mailbox == old(mailbox)
             + if ok then [WaitForL2Tx(inputs.value, 0, amount, retriesLeft - 1)] else []
    {
      var inputs := SendHydraTransaction(amount, ans);
      if inputs.None? {
        assert mailbox == mailbox + [];
        return false;
      }
      Send(WaitForL2Tx(inputs.value, 0, amount, retriesLeft - 1));
      return true;
    }

    method AnyPresent(spent: seq<Ref>, snapshot: Snapshot) returns (present: bool)
      ensures present == StillPresent(spent, snapshot)
    {
      for i := 0 to |spent|
        invariant forall j :: 0 <= j < i ==> !Contains(snapshot, spent[j])
      {
        if Contains(snapshot, spent[i]) {
          return true;
        }
      }
      return false;
    }

    method ProcessClosing(event: Event, ans: Answers) returns (ok: bool)
      requires event.WaitForUtxoCount? || event.TryToClose? || event.WaitForClosed?
      modifies this
      ensures Became(old(View()), Handle(setup, old(Fields()), event, ans), ok)
    {
      match event
      case WaitForUtxoCount =>
        var expected := 1 + sent;
        if ans.survey.None? {
          return false;
        }
        if |ans.survey.value| >= expected {
          SendDelayed(TryToClose);
        } else {
          SendDelayed(WaitForUtxoCount);
        }
        return true;
      case TryToClose =>
        if !ans.delivery.Delivered? {
          return false;
        }
        SendDelayed(WaitForClosed(10));
        return true;
      case WaitForClosed(retries) =>
        if ans.tag.None? {
          return false;
        }
        if ans.tag.value == Closed {
          SendDelayed(WaitForFanoutReady);
        } else if retries <= 1 {
          SendDelayed(TryToClose);
        } else {
          SendDelayed(WaitForClosed(retries - 1));
        }
        return true;
    }

    method ProcessFanout(event: Event, ans: Answers) returns (ok: bool)
      requires event.WaitForFanoutReady? || event.DoFanout?
      modifies this
      ensures Became(old(View()), Handle(setup, old(Fields()), event, ans), ok)
    {
      match event
      case WaitForFanoutReady =>
        if ans.fanoutReady.None? {
          return false;
        }
        if ans.fanoutReady.value {
          SendDelayed(DoFanout);
        } else {
          SendDelayed(WaitForFanoutReady);
        }
        return true;
      case DoFanout =>
        if !ans.delivery.Delivered? {
          return false;
        }
        SendDelayed(WaitForIdleAfterClose(10));
        return true;
    }

    method ProcessIdle(retries: nat, ans: Answers) returns (ok: bool)
      modifies this
      ensures Became(old(View()), OnWaitForIdle(old(Fields()), retries, ans), ok)
    {
      if ans.tag.None? {
        return false;
      }
      if ans.tag.value == Idle {
        headOpen := false;
        isClosing := false;
        awaiting := false;
        sent := 0;
        accounted := 0;
        SendDelayed(FundCommitAddr);
      } else if retries <= 1 {
        SendDelayed(DoFanout);
      } else {
        SendDelayed(WaitForIdleAfterClose(retries - 1));
      }
      return true;
    }
  }
}
