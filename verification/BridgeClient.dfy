/**
 The SDK bridge's side of a payment channel: the event machine of
 `hydra_client`, which pays the gateway ahead and mirrors its credits.
 */
module BridgeClient {
  import opened Prelude
  import opened HydraConfig
  import opened CoinSelection
  import Credits
  import HydraServer

  const MIN_FUEL: nat := 15_000_000

  datatype Event =
    | Restart
    | Terminate
    | KeyExchangeResponse(done: bool)
    | FundCommitAddr
    | TryToCommit
    | WaitForOpen
    | MonitorStates
    | AccountOneRequest
    | SendPrepay
    | MonitorCredits
    | WaitForL2Tx(spent: seq<Ref>, attempts: nat, amount: U64, retriesLeft: nat)

  /** The head status; `Blank` is none yet. */
  datatype Tag = Blank | Idle | Initial | Open | Closed | Other

  datatype Timer = Timer(event: Event, generation: nat)

  /**
   What the foreign calls of one event return; `None` and `false` are errors. `sending` is what comes
   of the payment that `send_hydra_transaction` makes.
   */
  datatype Answers = Answers(
    fuel: Option<U64>,
    keysReady: bool,
    requestSent: bool,
    addressDerived: bool,
    portsFree: bool,
    nodeStarts: bool,
    walletReady: bool,
    walletBalance: Option<U64>,
    fundingSent: bool,
    committed: bool,
    tag: Option<Tag>,
    gatewayBalance: Option<U64>,
    sending: Sending,
    poll: Option<Option<Snapshot>>)

  datatype Core = Core(
    generation: nat,
    kexGeneration: nat,
    paramsSet: bool,
    addressSet: bool,
    lastTag: Tag,
    headOpen: bool,
    openInitialized: bool,
    credits: U64,
    lastBalance: U64,
    accounted: nat,
    sent: nat,
    prepaySent: bool,
    awaiting: bool,
    watchdog: Option<nat>)

  /**
   New fields, the events sent at once and after a delay, the amount that has gone out to the head, whatever the
   call reports, and `Ok` or an error.
   */
  datatype Outcome = Outcome(core: Core, now: seq<Event>, later: seq<Event>, paid: Option<U64>, ok: bool)

  /** The commit wallet and the terms that the gateway announces. */
  type Setup = HydraServer.Setup

  type Sending = HydraServer.Sending

  function FreshCore(): Core {
    Core(0, 0, false, false, Blank, false, false, 0, 0, 0, 0, false, false, None)
  }

  // ------------------------------------------------------------------ specification

  function Quiet(a: Core): Outcome {
    Outcome(a, [], [], None, true)
  }

  function Later(a: Core, e: Event): Outcome {
    Outcome(a, [], [e], None, true)
  }

  function Failed(a: Core): Outcome {
    Outcome(a, [], [], None, false)
  }

  /** The session fields are cleared only once the key exchange has been asked for. */
  function OnRestart(a: Core, ans: Answers): Outcome {
    var b := a.(generation := a.generation + 1, kexGeneration := a.generation + 1, watchdog := None);
    if ans.fuel.None? || ans.fuel.value < MIN_FUEL || !ans.keysReady || !ans.requestSent then Failed(b)
    else
      Quiet(b.(headOpen := false, credits := 0, lastBalance := 0, accounted := 0, sent := 0, prepaySent := false,
               openInitialized := false, awaiting := false, lastTag := Blank))
  }

  function OnKex(a: Core, done: bool, ans: Answers): Outcome {
    if a.generation != a.kexGeneration then Quiet(a)
    else if done then OnKexDone(a, ans)
    else OnKexOffer(a.(paramsSet := true), ans)
  }

  /** The gateway proposes ports: accept them, or ask again. */
  function OnKexOffer(a: Core, ans: Answers): Outcome {
    var b := a.(addressSet := true);
    if !a.addressSet && !ans.addressDerived then Failed(a)
    else if !ans.portsFree then Outcome(b, [Event.Restart], [], None, true)
    else if ans.keysReady && ans.requestSent then Quiet(b)
    else Failed(b)
  }

  function OnKexDone(a: Core, ans: Answers): Outcome {
    var b := a.(paramsSet := true, addressSet := true);
    if !a.addressSet && !ans.addressDerived then Failed(a)
    else if ans.nodeStarts then Later(b.(watchdog := Some(b.generation)), FundCommitAddr)
    else Failed(b.(watchdog := None))
  }

  function OnFund(c: Setup, a: Core, ans: Answers): Outcome {
    if !ans.walletReady || !a.paramsSet || ans.walletBalance.None? then Failed(a)
    else if ans.walletBalance.value < c.Target() && !ans.fundingSent then Failed(a)
    else Later(a, TryToCommit)
  }

  function OnCommit(c: Setup, a: Core, ans: Answers): Outcome {
    match ans.tag
    case Some(Open) => Later(a, WaitForOpen)
    case Some(Initial) =>
      if ans.walletBalance.None? || !a.paramsSet then Failed(a)
      else if ans.walletBalance.value as real >= 0.99 * c.cfg.commitAda * 1_000_000.0 && ans.committed then
        Later(a, WaitForOpen)
      else Later(a, TryToCommit)
    case _ => Later(a, TryToCommit)
  }

  /** The first time the head is seen open, the session starts over, and a prepayment is due. */
  function HeadOpened(a: Core): (Core, seq<Event>) {
    if a.openInitialized then (a.(headOpen := true), [])
    else
      (a.(openInitialized := true, headOpen := true, credits := 0, lastBalance := 0, accounted := 0, sent := 0,
          prepaySent := false),
       [MonitorCredits, SendPrepay])
  }

  function OnWaitForOpen(a: Core, ans: Answers): Outcome {
    match ans.tag
    case None => Failed(a)
    case Some(Open) =>
      var (b, more) := HeadOpened(a.(lastTag := Tag.Open));
      Outcome(b, [], [MonitorStates] + more, None, true)
    case Some(_) => Later(a, WaitForOpen)
  }

  function OnStateSeen(a: Core, tag: Tag): Outcome {
    var fund := if tag != a.lastTag && tag == Initial then [FundCommitAddr] else [];
    var b := a.(lastTag := tag);
    if tag == Tag.Open then
      var (d, more) := HeadOpened(b);
      Outcome(d, [], fund + more + [MonitorStates], None, true)
    else
      Outcome(b.(headOpen := false, credits := 0, lastBalance := 0, openInitialized := false),
              [], fund + [MonitorStates], None, true)
  }

  function OnMonitorStates(a: Core, ans: Answers): Outcome {
    match ans.tag
    case None => Failed(a)
    case Some(tag) => OnStateSeen(a, tag)
  }

  /** The same rule as the gateway's, except for the baseline and the fanout count. */
  function Observed(c: Setup, a: Core, balance: U64): Core {
    if balance <= a.lastBalance then a.(lastBalance := balance)
    else
      a.(credits := (a.credits + Credits.NewCredits(c.cfg, balance - a.lastBalance)) % U64_SIZE,
         lastBalance := balance)
  }

  function OnMonitorCredits(c: Setup, a: Core, ans: Answers): Outcome {
    if !a.headOpen then Quiet(a)
    else if !a.addressSet || !a.paramsSet || ans.gatewayBalance.None? then Later(a, MonitorCredits)
    else Later(Observed(c, a, ans.gatewayBalance.value), MonitorCredits)
  }

  /** Books a payment of `amount` and starts to poll for it. */
  function Submitted(a: Core, amount: U64, inputs: seq<Ref>): Outcome {
    Outcome(a.(sent := a.sent + 1, awaiting := true),
            [WaitForL2Tx(inputs, 0, amount, HydraServer.L2_TX_MAX_RETRIES)], [], Some(amount), true)
  }

  /** The call has failed; the payment may have gone out all the same. */
  function NotSent(a: Core, amount: U64, sending: Sending): Outcome {
    Outcome(a, [], [], if sending.Escaped? then Some(amount) else None, false)
  }

  /** `sending` is what comes of the payment, if one is due. */
  function Account(c: Setup, a: Core, sending: Sending): Outcome {
    if a.awaiting then Later(a, AccountOneRequest)
    else if !a.paramsSet then Quiet(a)
    else if !a.headOpen then Later(a, AccountOneRequest)
    else if !a.addressSet then Quiet(a)
    else Counted(c, a.(accounted := a.accounted + 1), sending)
  }

  function Counted(c: Setup, a: Core, sending: Sending): Outcome {
    if a.accounted < c.cfg.requestsPerMicrotransaction then Quiet(a)
    else if !sending.Sent? then NotSent(a, c.Amount(a.accounted), sending)
    else Submitted(a.(accounted := 0), c.Amount(a.accounted), sending.inputs)
  }

  /** The prepayment does not look at `awaiting`. */
  function Prepay(c: Setup, a: Core, sending: Sending): Outcome {
    var amount := c.Amount(c.cfg.requestsPerMicrotransaction);
    if a.prepaySent then Quiet(a)
    else if !a.paramsSet then Failed(a)
    else if !a.addressSet then Quiet(a)
    else if !sending.Sent? then NotSent(a, amount, sending)
    else Submitted(a.(prepaySent := true), amount, sending.inputs)
  }

  function OnL2Poll(a: Core, spent: seq<Ref>, attempts: nat, amount: U64, retriesLeft: nat, ans: Answers): Outcome {
    if ans.poll.None? then Failed(a)
    else if ans.poll.value.None? || !HydraServer.StillPresent(spent, ans.poll.value.value) then
      Quiet(a.(awaiting := false))
    else Poll(a, spent, attempts, amount, retriesLeft, ans.sending)
  }

  /** The payment is not confirmed yet: ask again, send it again, or give up. */
  function Poll(a: Core, spent: seq<Ref>, attempts: nat, amount: U64, retriesLeft: nat, sending: Sending)
    : Outcome
  {
    if attempts < HydraServer.L2_TX_MAX_POLL_ATTEMPTS then
      Later(a, WaitForL2Tx(spent, attempts + 1, amount, retriesLeft))
    else if retriesLeft == 0 then Quiet(a.(awaiting := false))
    else if !sending.Sent? then NotSent(a, amount, sending)
    else Outcome(a, [WaitForL2Tx(sending.inputs, 0, amount, retriesLeft - 1)], [], Some(amount), true)
  }

  function Handle(c: Setup, a: Core, event: Event, ans: Answers): Outcome {
    match event
    case Restart => OnRestart(a, ans)
    case Terminate => Quiet(a.(watchdog := None))
    case KeyExchangeResponse(done) => OnKex(a, done, ans)
    case FundCommitAddr => OnFund(c, a, ans)
    case TryToCommit => OnCommit(c, a, ans)
    case WaitForOpen => OnWaitForOpen(a, ans)
    case MonitorStates => OnMonitorStates(a, ans)
    case AccountOneRequest => Account(c, a, ans.sending)
    case SendPrepay => Prepay(c, a, ans.sending)
    case MonitorCredits => OnMonitorCredits(c, a, ans)
    case WaitForL2Tx(spent, attempts, amount, retriesLeft) => OnL2Poll(a, spent, attempts, amount, retriesLeft, ans)
  }

  // ------------------------------------------------------------------ the state object

  function Timed(events: seq<Event>, generation: nat): seq<Timer> {
    seq(|events|, i requires 0 <= i < |events| => Timer(events[i], generation))
  }

  class ClientState {
    const setup: Setup
    var core: Core
    var mailbox: seq<Event>
    var timers: seq<Timer>
    var payments: seq<U64>

    /** The handler's return value and the new state are what the outcome says. */
    ghost predicate Became(mail: seq<Event>, timed: seq<Timer>, paid: seq<U64>, o: Outcome, ok: bool)
      reads this
    {
      && core == o.core && ok == o.ok
      && mailbox == (if o.now == [] then mail else mail + o.now)
      && timers == (if o.later == [] then timed else timed + Timed(o.later, o.core.generation))
      && payments == if o.paid.Some? then paid + [o.paid.value] else paid
    }

    constructor (setup: Setup)
      ensures this.setup == setup && core == FreshCore()
      ensures mailbox == [Restart] && timers == [] && payments == []
    {
      this.setup := setup;
      core, mailbox, timers, payments := FreshCore(), [Restart], [], [];
    }

    method SendDelayed(e: Event)
      modifies this`timers
      ensures timers == old(timers) + [Timer(e, core.generation)]
    {
      timers := timers + [Timer(e, core.generation)];
    }

    /** Chooses inputs for the amount and hands the payment to the head; it may go out although the call fails. */
    method SendHydraTransaction(amount: U64, ans: Answers) returns (inputs: Option<seq<Ref>>)
      modifies this`payments
      ensures inputs == if ans.sending.Sent? then Some(ans.sending.inputs) else None
      ensures payments == if ans.sending.Unsent? then old(payments) else old(payments) + [amount]
    {
      if !ans.sending.Unsent? {
        payments := payments + [amount];
      }
      inputs := if ans.sending.Sent? then Some(ans.sending.inputs) else None;
    }

    /** Books a payment that has been delivered. */
    method Book(amount: U64, inputs: seq<Ref>)
      modifies this`core, this`mailbox
      ensures core == Submitted(old(core), amount, inputs).core
      ensures mailbox == old(mailbox) + Submitted(old(core), amount, inputs).now
    {
      core := core.(sent := core.sent + 1, awaiting := true);
      mailbox := mailbox + [WaitForL2Tx(inputs, 0, amount, HydraServer.L2_TX_MAX_RETRIES)];
    }

    method AccountRequest(ans: Answers) returns (ok: bool)
      modifies this
      ensures Became(old(mailbox), old(timers), old(payments), Account(setup, old(core), ans.sending), ok)
    {
      if core.awaiting {
        SendDelayed(AccountOneRequest);
        return true;
      }
      if !core.paramsSet {
        return true;
      }
      if !core.headOpen {
        SendDelayed(AccountOneRequest);
        return true;
      }
      if !core.addressSet {
        return true;
      }
      core := core.(accounted := core.accounted + 1);
      ok := CountRequest(ans);
    }

    method CountRequest(ans: Answers) returns (ok: bool)
      modifies this
      ensures Became(old(mailbox), old(timers), old(payments),
                     Counted(setup, old(core), ans.sending), ok)
    {
      if core.accounted >= setup.cfg.requestsPerMicrotransaction {
        var amount := setup.Amount(core.accounted);
        var inputs := SendHydraTransaction(amount, ans);
        if inputs.None? {
          return false;
        }
        core := core.(accounted := 0);
        Book(amount, inputs.value);
      }
      return true;
    }

    method SendPrepayMicrotransaction(ans: Answers) returns (ok: bool)
      modifies this
      ensures Became(old(mailbox), old(timers), old(payments), Prepay(setup, old(core), ans.sending), ok)
    {
      if core.prepaySent {
        return true;
      }
      if !core.paramsSet {
        return false;
      }
      if !core.addressSet {
        return true;
      }
      var amount := setup.Amount(setup.cfg.requestsPerMicrotransaction);
      var inputs := SendHydraTransaction(amount, ans);
      if inputs.None? {
        return false;
      }
      core := core.(prepaySent := true);
      Book(amount, inputs.value);
      return true;
    }

    method PollL2Tx(spent: seq<Ref>, attempts: nat, amount: U64, retriesLeft: nat, ans: Answers) returns (ok: bool)
      modifies this
      ensures Became(old(mailbox), old(timers), old(payments),
                     OnL2Poll(old(core), spent, attempts, amount, retriesLeft, ans), ok)
    {
      if ans.poll.None? {
        return false;
      }
      var present := ans.poll.value.Some? && HydraServer.StillPresent(spent, ans.poll.value.value);
      if !present {
        core := core.(awaiting := false);
      } else if attempts >= HydraServer.L2_TX_MAX_POLL_ATTEMPTS {
        if retriesLeft > 0 {
          var inputs := SendHydraTransaction(amount, ans);
          if inputs.None? {
            return false;
          }
          mailbox := mailbox + [WaitForL2Tx(inputs.value, 0, amount, retriesLeft - 1)];
        } else {
          core := core.(awaiting := false);
        }
      } else {
        SendDelayed(WaitForL2Tx(spent, attempts + 1, amount, retriesLeft));
      }
      return true;
    }

    method MonitorGatewayCredits(ans: Answers) returns (ok: bool)
      modifies this
      ensures Became(old(mailbox), old(timers), old(payments), OnMonitorCredits(setup, old(core), ans), ok)
    {
      if core.headOpen {
        if core.addressSet && core.paramsSet && ans.gatewayBalance.Some? {
          var current := ans.gatewayBalance.value;
          if current < core.lastBalance {
            core := core.(lastBalance := current);
          } else {
            var delta := current - core.lastBalance;
            if delta > 0 {
              var value := Credits.MicrotransactionValue(setup.cfg);
              if value != 0 && delta >= value {
                core := core.(credits := (core.credits + Credits.NewCredits(setup.cfg, delta)) % U64_SIZE);
              }
              core := core.(lastBalance := current);
            }
          }
        }
        SendDelayed(MonitorCredits);
      }
      return true;
    }

    /** `on_head_open`: the session starts over the first time. */
    method HeadOpen()
      modifies this`core, this`timers
      ensures core == HeadOpened(old(core)).0
      ensures timers == if old(core).openInitialized then old(timers)
                        else old(timers) + Timed(HeadOpened(old(core)).1, old(core).generation)
    {
      if core.openInitialized {
        core := core.(headOpen := true);
        return;
      }
      core := core.(openInitialized := true, headOpen := true, credits := 0, lastBalance := 0, accounted := 0,
                    sent := 0, prepaySent := false);
      SendDelayed(MonitorCredits);
      SendDelayed(SendPrepay);
      assert timers == old(timers) + Timed([MonitorCredits, SendPrepay], core.generation);
    }

    method ProcessEvent(event: Event, ans: Answers) returns (ok: bool)
      modifies this
      ensures Became(old(mailbox), old(timers), old(payments), Handle(setup, old(core), event, ans), ok)
    {
      match event
      case AccountOneRequest => ok := AccountRequest(ans);
      case SendPrepay => ok := SendPrepayMicrotransaction(ans);
      case MonitorCredits => ok := MonitorGatewayCredits(ans);
      case WaitForL2Tx(spent, attempts, amount, retriesLeft) =>
        ok := PollL2Tx(spent, attempts, amount, retriesLeft, ans);
      case WaitForOpen | MonitorStates => ok := WatchHead(event, ans);
      case Restart => ok := ProcessRestart(ans);
      case Terminate =>
        core := core.(watchdog := None);
        return true;
      case KeyExchangeResponse(done) => ok := ProcessKex(done, ans);
      case FundCommitAddr | TryToCommit => ok := PrepareHead(event, ans);
    }

    method ProcessRestart(ans: Answers) returns (ok: bool)
      modifies this
      ensures Became(old(mailbox), old(timers), old(payments), OnRestart(old(core), ans), ok)
    {
      core := core.(generation := core.generation + 1);
      core := core.(kexGeneration := core.generation);
      core := core.(watchdog := None);
      if ans.fuel.None? || ans.fuel.value < MIN_FUEL || !ans.keysReady || !ans.requestSent {
        return false;
      }
      core := core.(headOpen := false, credits := 0, lastBalance := 0, accounted := 0, sent := 0,
                    prepaySent := false, openInitialized := false, awaiting := false, lastTag := Blank);
      return true;
    }

    method ProcessKex(done: bool, ans: Answers) returns (ok: bool)
      modifies this
      ensures Became(old(mailbox), old(timers), old(payments), OnKex(old(core), done, ans), ok)
    {
      if core.generation != core.kexGeneration {
        return true;
      }
      if done {
        ok := FinishKex(ans);
      } else {
        core := core.(paramsSet := true);
        ok := AcceptOffer(ans);
      }
    }

    method AcceptOffer(ans: Answers) returns (ok: bool)
      modifies this
      ensures Became(old(mailbox), old(timers), old(payments), OnKexOffer(old(core), ans), ok)
    {
      if !core.addressSet {
        if !ans.addressDerived {
          return false;
        }
        core := core.(addressSet := true);
      }
      if !ans.portsFree {
        mailbox := mailbox + [Event.Restart];
        return true;
      }
      return ans.keysReady && ans.requestSent;
    }

    method FinishKex(ans: Answers) returns (ok: bool)
      modifies this
      ensures Became(old(mailbox), old(timers), old(payments), OnKexDone(old(core), ans), ok)
    {
      if !core.addressSet {
        if !ans.addressDerived {
          return false;
        }
        core := core.(addressSet := true);
      }
      core := core.(paramsSet := true, watchdog := None);
      if !ans.nodeStarts {
        return false;
      }
      core := core.(watchdog := Some(core.generation));
      SendDelayed(FundCommitAddr);
      return true;
    }

    method PrepareHead(event: Event, ans: Answers) returns (ok: bool)
      requires event.FundCommitAddr? || event.TryToCommit?
      modifies this
      ensures Became(old(mailbox), old(timers), old(payments), Handle(setup, old(core), event, ans), ok)
    {
      if event.FundCommitAddr? {
        if !ans.walletReady || !core.paramsSet || ans.walletBalance.None? {
          return false;
        }
        if ans.walletBalance.value < setup.Target() {
          if !ans.fundingSent {
            return false;
          }
        }
        SendDelayed(TryToCommit);
        return true;
      }
      if ans.tag == Some(Tag.Open) {
        SendDelayed(WaitForOpen);
        return true;
      }
      if ans.tag == Some(Initial) {
        if ans.walletBalance.None? || !core.paramsSet {
          return false;
        }
        if ans.walletBalance.value as real >= 0.99 * setup.cfg.commitAda * 1_000_000.0 && ans.committed {
          SendDelayed(WaitForOpen);
          return true;
        }
      }
      SendDelayed(TryToCommit);
      return true;
    }

    method WatchHead(event: Event, ans: Answers) returns (ok: bool)
      requires event.WaitForOpen? || event.MonitorStates?
      modifies this
      ensures Became(old(mailbox), old(timers), old(payments), Handle(setup, old(core), event, ans), ok)
    {
      if ans.tag.None? {
        return false;
      }
      if event.WaitForOpen? {
        if ans.tag.value == Tag.Open {
          core := core.(lastTag := Tag.Open);
          SendDelayed(MonitorStates);
          HeadOpen();
        } else {
          SendDelayed(WaitForOpen);
        }
      } else {
        WatchState(ans.tag.value);
      }
      return true;
    }

    method WatchState(tag: Tag)
      modifies this`core, this`timers
      ensures var o := OnStateSeen(old(core), tag);
        core == o.core && timers == old(timers) + Timed(o.later, o.core.generation)
    {
      if tag != core.lastTag {
        core := core.(lastTag := tag);
        if tag == Initial {
          SendDelayed(FundCommitAddr);
        }
      }
      if tag == Tag.Open {
        HeadOpen();
      } else {
        core := core.(headOpen := false, credits := 0, lastBalance := 0, openInitialized := false);
      }
      SendDelayed(MonitorStates);
    }
  }
}
