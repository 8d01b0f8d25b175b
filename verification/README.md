# Verified models of the Blockfrost platform's Hydra engine and its workers

These modules model the parts of the repository that move money, bytes and requests between concurrent tasks, and
prove what those parts are there for. Code that changes state is modelled by classes and methods, each proved
against a specification function of the old state; the laws are lemmas about those functions, over every
interleaving where there is concurrency. Foreign calls (the `hydra-node`, the chain, sockets, child processes,
clocks) are answers chosen by the environment.

**Hydra micropayments.** `CoinSelection` chooses the inputs of an L2 payment; `CoinSelectionLaws` and
`SelectionOutcomes` characterise when that succeeds and why it does not, and `Funding` which balances suffice.
`Ledger`, `Session`, `EqualPrices`, `LateResends` and `Solvency` put payments on a UTxO ledger; `HydraConfig` and
`SessionFunding` say which configurations fund a session. `HydraServer` is the gateway's event machine for one
platform, `HydraRuntime` its mailbox, timers and restarts; `HydraFunding`, `HydraStages`, `HydraLifecycle`,
`HydraGate`, `HydraPolls`, `HydraBilling` and `HydraOverdue` prove its invariants. `SessionEngine` runs machine and
ledger together, `SessionPayments` and `RepeatedPayments` say what that gives, and `SessionSteps` builds the runs of
`SessionCases` that go wrong. `Credits` is the gateway's prepaid side for SDK bridges, `CreditMonitor` its polling,
`CreditCover` measures it against the balance of the head. `BridgeClient` is the bridge's own machine, with
`BridgeRuntime`, `BridgeStages`, `BridgePayments`, `BridgeBilling`, `BridgeGate` and `BridgeCredits`.
`GatewayAdmission` and `BridgeAdmission` limit concurrent sessions.

**TCP tunnel.** `Tunnel` is one end of the multiplexer. `TunnelStream` is a single stream, a much smaller machine;
`TunnelStreamLaws` proves its invariant, and `TunnelFidelity` shows that two whole ends, seen through any one id, do
nothing but steps of that stream.

**Workers.** `RequestTable` and `RequestLaws` (the gateway's request table and billing), `RoundRobin` (choice of a
relay), `Testgen`, `TestgenLaws` and `TestgenReplies` (the child process worker), `Forwarder` (changing
destinations), `Supervisor` and `SupervisorLaws` (gateway connections), `Pagination` and `PaginationQueries` (parser
and printer).

`Prelude` and `Arithmetic` hold shared datatypes and facts. `dafny verify dfyconfig.toml` checks everything.

## Findings

Where a hoped-for property does not hold of the code, the model keeps the code and a lemma gives the case.

- A configuration with `microtransactions_per_fanout = 0` can be accepted but underfunded
  (`ZeroFanoutIsUnderfunded`); `TargetIsSolventIff` and `FundingSufficesIff` say exactly which ones are funded.
- A backlog gathered before the head opens is paid for at once and can exceed the funds (`BacklogOverdraws`);
  `BacklogIsPaidIff` and `BacklogIsSolventIff` say exactly when it does not.
- A resend whose payment was applied between the poll and the resend pays again (`LateResendPaysAgain`). With equal
  amounts this is the only way (`OnlyAppliedAreLate`); with unequal ones the resend may also choose other inputs
  than an original that can still apply (`UnequalResendPaysTwice`). `ResendPaysTwiceIff` is the exact condition for
  both.
- A payment can reach the head although its call reports an error. It is not polled for or counted, and a queued
  request pays for the same requests again (`UnreportedPaymentPaysTwice`); `RequestPaidTwiceIff` says exactly when
  that happens.
- A payment that is given up is counted as sent but may never be applied, and the close test then waits for a coin
  that never comes, in a head with funds left (`GivenUpPaymentBlocksClose`, `CountTestPassesIff`). A machine that
  starts on a head still open finds the coins of earlier payments, and closes before its own are applied
  (`EarlierPaymentsCount`).
- Requests that are queued when a payment fails are handled before the owed restart, so that the next payment is for
  more than a microtransaction; in the gateway (`HydraOverdue`) and in the bridge (`BridgePayments`) alike.
- A top-up whose call fails after it went out is sent again, after the restart (`StepTopsUp`).
- A timer event past the generation check survives a restart, and can leave two lifecycle chains
  (`LeftoverMakesTwoChains`).
- The product of price and batch size wraps in the credit monitor; grants are covered iff it fits
  (`GrantsAreCoveredIff`).
- An opening that cannot read the balance counts from zero and can credit the same payment twice
  (`UnreadableOpeningServesTwice`); `OpeningIsSafeIff` is the exact condition.
- The bridge counts credits from zero, the gateway from the balance it finds (`MachinesAgreeIff`).
- The bridge's prepayment ignores the confirmation gate (`OnlyPrepayIgnoresGate`, `PollsAreBounded`).
- Session admission may turn away everyone at the last place (`BothTurnedAway`), and a bridge's own pending offer
  can block its new request (`FirstRequestIsAdmittedIff`).
- Both tunnel callers set `id_prefix_bit`, against the advice beside the field, so ids collide (`EqualBitsCollide`);
  bytes and refusals that arrive before the opener's route is in place are lost (`EarlyDataIsLost`,
  `EarlyCloseIsLost`, `CloseReachesIff`).
- Responses that arrive after a relay's connection broke are passed on but not billed (`BilledIff`).
- A testgen request fetched between two children gets one attempt (`FetchedGetsOneAttempt`), and requests that
  arrive in a last pause are dropped (`QueueIsDroppedIff`).
- Round robin is uneven across the counter's wrap-around unless the relays divide 2^64 (`FairAcrossWrapIff`).
- The page parser calls an overlong number too large, the count parser calls it no integer (`ErrorsOfNumbers`); an
  empty page is too large as well (`EmptyPageIsTooLarge`).

## Model

| member | source | states |
|---|---|---|
| CoinSelection.CollectCandidates | crates/gateway/src/hydra_server_platform/verifications.rs:386-404 | filtering and collecting in two loops: an amount below the minimum, or one unreadable value of the sender, is the error; otherwise exactly the sender's entries come out in key order |
| CoinSelection.AggregateInputs | crates/gateway/src/hydra_server_platform/verifications.rs:435-445 | the accumulating loop stops at the first prefix that is enough, or at the first sum beyond 64 bits |
| CoinSelection.ChooseInputs | crates/gateway/src/hydra_server_platform/verifications.rs:416-445 | exact match before large entry before aggregation |
| CoinSelection.PickInputs | crates/gateway/src/hydra_server_platform/verifications.rs:447-454 | the chosen inputs, or the two final errors |
| CoinSelection.SelectInputs | crates/gateway/src/hydra_server_platform/verifications.rs:386-454 | the loops compute the specified selection, error cases and their order included |
| CoinSelection.SortIsSorted | crates/gateway/src/hydra_server_platform/verifications.rs:410 | the stable sort of a key-ordered list is ordered by value, then by key |
| CoinSelectionLaws.CandidatesAreSenderEntries | crates/sdk_bridge/src/hydra_client/verifications.rs:389-411 | the bridge's copy of the same rule: the candidates are precisely the sender's entries, each once |
| CoinSelectionLaws.SelectionIsSound | crates/gateway/src/hydra_server_platform/verifications.rs:393-454 | the inputs are distinct coins of the sender that sum to amount plus change, and the change is zero or a legal output |
| CoinSelectionLaws.SelectionSucceedsIff | crates/gateway/src/hydra_server_platform/verifications.rs:393-454 | a selection exists iff the amount is legal with room for change in 64 bits, all values are readable, and one coin or the first sufficient prefix (within 64 bits) is enough |
| CoinSelectionLaws.SelectionSucceedsWithinRangeIff | crates/sdk_bridge/src/hydra_client/verifications.rs:396-452 | without overflow: iff a coin equals the amount, or the total covers amount and minimum, or a prefix of the ascending order hits the amount |
| CoinSelectionLaws.AggregationIsShortest | crates/gateway/src/hydra_server_platform/verifications.rs:435-445 | when no single coin is enough the inputs are the shortest sufficient prefix, at least two of them |
| CoinSelectionLaws.AscendingListingUnique | crates/gateway/src/hydra_server_platform/verifications.rs:387 | equal maps are iterated alike |
| CoinSelectionLaws.SelectionReadsSenderOnly | crates/gateway/src/hydra_server_platform/verifications.rs:386-445 | two snapshots with the same entries of the sender give the same selection |
| SelectionOutcomes.RefusedBeforeChoiceIff | crates/gateway/src/hydra_server_platform/verifications.rs:386-415 | the refusals that come before any coin is looked at: which snapshot and amount gives which of the four, and their order |
| SelectionOutcomes.RefusedByChoiceIff | crates/gateway/src/hydra_server_platform/verifications.rs:416-454 | an askable amount is refused for overflow, too little funds, or too little change exactly as the running sums of the ascending coins say |
| SelectionOutcomes.ExactCoinIsChosen | crates/gateway/src/hydra_server_platform/verifications.rs:423-428 | a coin of exactly the amount is spent alone, whatever larger ones there are, and of several the one with the least key |
| Ledger.CandidatesOfLedger | crates/gateway/src/hydra_server_platform/verifications.rs:386-404 | what a snapshot offers for selection is the sender's balance on the ledger it shows |
| Ledger.SelectedPaymentBalanced | crates/gateway/src/hydra_server_platform/verifications.rs:416-454 | a selected payment spends the sender's own unspent coins and moves exactly their worth |
| Ledger.ApplyBalanced | crates/gateway/src/hydra_server_platform/verifications.rs:451-454 | applying a payment to another owner lowers the sender's balance by the amount, the change comes back |
| Funding.PayableFromEverySplitIff | crates/gateway/src/hydra_server_platform/verifications.rs:393-454 | an amount can be paid from every split of the funds into coins iff it is legal and the funds equal it or exceed it by a minimal change |
| Funding.OneCoinPaysIff | crates/gateway/src/hydra_server_platform/verifications.rs:423-454 | a single coin pays a legal amount iff it is exact or leaves a minimal change |
| Funding.LargeCoinIsChosen | crates/gateway/src/hydra_server_platform/verifications.rs:429-434 | without an exact coin the smallest one that leaves a minimal change is spent |
| HydraConfig.TargetCovers | crates/gateway/src/hydra_server_platform/mod.rs:47-67 | the funding target of a configuration with a fanout count covers all microtransactions and one minimal coin |
| Session.LandingEndsRivals | crates/gateway/src/hydra_server_platform/mod.rs:879-903 | once a submission is applied, no other submission of its microtransaction can apply, unless that was resent late |
| Session.NextKeepsInv | crates/gateway/src/hydra_server_platform/mod.rs:779-924 | every start, resend and application, of any amounts, keeps the session invariant: who can still apply, whose coins there are, and where the funds went |
| Session.RunKeepsInv | crates/gateway/src/hydra_server_platform/mod.rs:779-924 | the invariant holds in every state of every run, and the balance accounts for every applied payment |
| EqualPrices.LandingEndsAll | crates/gateway/src/hydra_server_platform/mod.rs:879-903 | with equal amounts, an application ends every submission made before |
| EqualPrices.EarlyResendIsSamePayment | crates/gateway/src/hydra_server_platform/mod.rs:879-903 | with equal amounts, a resend while an earlier submission can apply names the same inputs and change |
| EqualPrices.OnlyAppliedAreLate | crates/gateway/src/hydra_server_platform/mod.rs:879-903 | with equal amounts, only the resend of an applied payment is late |
| Solvency.PaidAtMostOnce | crates/gateway/src/hydra_server_platform/mod.rs:879-903 | a microtransaction of any amount is paid twice only if it was resent late: after it was applied, or with inputs that an applicable submission does not share |
| LateResends.ResendPaysTwiceIff | crates/gateway/src/hydra_server_platform/mod.rs:879-903 | in every run, for a microtransaction that is not late: sending it again lets it be paid twice, by what has been sent alone, iff it has been applied or the resend goes astray; before the resend it cannot be |
| Solvency.PlanSolvency | crates/gateway/src/hydra_server_platform/mod.rs:779-924 | with funds that cover the plan of payments, in every state of every run without late resends the next payment and every resend of an unpaid one finds inputs |
| Solvency.AlwaysSolventIff | crates/gateway/src/hydra_server_platform/mod.rs:779-924 | no payment of a plan is ever refused, from every split and in every order, iff the funds equal its cost or exceed it by a minimal coin |
| Solvency.SessionCanComplete | crates/gateway/src/hydra_server_platform/mod.rs:926-947 | from any split a covered plan can be carried through, and with a coin left over the close test then passes |
| Solvency.CountTestIff | crates/gateway/src/hydra_server_platform/mod.rs:926-947 | the head holds enough coins iff the sender's and the others' coins outnumber the payments not applied |
| Solvency.OneCoinCountTestIff | crates/gateway/src/hydra_server_platform/mod.rs:926-947 | from a single coin, while funds are left: iff every payment started has been applied |
| SessionFunding.TargetCoversCapIff | crates/gateway/src/hydra_server_platform/mod.rs:47-67 | an accepted target leaves a minimal coin after a session iff there is a fanout count, or it does after one payment |
| SessionFunding.TargetIsSolventIff | crates/gateway/src/hydra_server_platform/mod.rs:47-67 | from every split of exactly the target all payments of a session succeed iff there is a fanout count, or the target is one payment or leaves a minimal coin after it |
| SessionFunding.FundedSessionIsSolvent | crates/gateway/src/hydra_server_platform/mod.rs:579-614 | with a fanout count, every head that holds at least the target pays for all microtransactions of a session, whatever it holds beyond the target and however it is split |
| SessionFunding.FundingSufficesIff | crates/gateway/src/hydra_server_platform/mod.rs:579-614 | any funds from the target on suffice for a session iff there is a fanout count, or the target leaves a minimal coin after one payment |
| SessionFunding.BacklogIsSolventIff | crates/gateway/src/hydra_server_platform/mod.rs:786-812 | a session whose first payment is for a backlog is solvent from every split iff the funds equal the price of the backlog and the remaining microtransactions, or leave a minimal coin |
| SessionFunding.ZeroFanoutIsUnderfunded | crates/gateway/src/hydra_server_platform/mod.rs:47-67 | an accepted configuration with a fanout count of zero whose target cannot always pay the one payment of its session |
| SessionFunding.BacklogOverdraws | crates/gateway/src/hydra_server_platform/mod.rs:786-812 | an accepted configuration and a backlog that its target cannot always pay |
| SessionCases.LateResendPaysAgain | crates/gateway/src/hydra_server_platform/mod.rs:847-903 | from any split of funds for two payments, a run of the machine from its start that pays the first one twice: applied between the poll's and the resend's snapshot |
| SessionCases.UnequalResendPaysTwice | crates/gateway/src/hydra_server_platform/mod.rs:879-912 | a run of the machine from its start in which a backlog payment is given up and applied late, and the resend of the next payment takes its change and is applied beside the original |
| SessionCases.GivenUpPaymentIsLost | crates/gateway/src/hydra_server_platform/mod.rs:905-912 | from any split, a run of the machine from its start in which a payment is given up after all polls and resends, the next one takes its coins, and nothing that was sent can apply any more |
| SessionCases.GivenUpPaymentBlocksClose | crates/gateway/src/hydra_server_platform/mod.rs:926-947 | from a single coin the close test then fails whenever it is made, however the run goes on without a reset, with funds left |
| SessionCases.DeadForever | crates/gateway/src/hydra_server_platform/mod.rs:926-947 | once the head is closing, no poll is pending and nothing that was sent can apply, no run without a reset changes the session or the count of payments sent |
| SessionCases.EarlierPaymentsCount | crates/gateway/src/hydra_server_platform/mod.rs:926-947 | a machine that starts on a head that is still open closes it although its payment is not applied, as soon as an earlier one was |
| SessionCases.UnreportedPaymentPaysTwice | crates/gateway/src/hydra_server_platform/verifications.rs:697-714 | from any split, a run of the machine from its start in which the call of a payment fails after the payment went out, and the queued request pays for all its requests again |
| SessionEngine.MachineRunsSession | crates/gateway/src/hydra_server_platform/mod.rs:435-924 | every run of the event machine on the ledger, without a reset, continues the session of the head: payments that went out, reported or not, are its starts and resends, the machine counts the reported ones and polls for the last of them only |
| SessionPayments.BacklogIsPaidIff | crates/gateway/src/hydra_server_platform/mod.rs:789-812 | the due request is paid for from every split of the funds iff the price of all accounted requests is legal and covered |
| SessionPayments.NextPaymentGoesOut | crates/gateway/src/hydra_server_platform/mod.rs:779-824 | in every run of the machine on a ledger that covers the plan the next payment is never refused |
| SessionPayments.ResendGoesOut | crates/gateway/src/hydra_server_platform/mod.rs:879-903 | nor is the resend of its last payment while that is not applied |
| SessionPayments.FundedMachinePays | crates/gateway/src/hydra_server_platform/mod.rs:779-824 | on a fresh head that holds at least the funding target of an accepted configuration with a fanout count: in every run of the machine without a missed payment or a late resend, a due payment is one microtransaction and goes out |
| SessionPayments.FundedMachineResends | crates/gateway/src/hydra_server_platform/mod.rs:879-903 | in the same runs every resend of a payment that is not applied goes out |
| SessionPayments.CountTestPassesIff | crates/gateway/src/hydra_server_platform/mod.rs:926-947 | in every run of the machine on the ledger closing follows the count iff the wallet's and the others' coins and the payments applied since the head opened outnumber the payments sent |
| SessionPayments.OneCoinCountTestPassesIff | crates/gateway/src/hydra_server_platform/mod.rs:926-947 | for a head opened with one coin: iff at least as many payments have been applied as the machine has sent |
| RepeatedPayments.RequestPaidTwiceIff | crates/gateway/src/hydra_server_platform/mod.rs:786-815 | in every run of the machine on the ledger a request is paid for twice iff one payment was applied twice, or one whose call failed was applied and so was a later one, up to the next one reported |
| RepeatedPayments.RequestsArePaidOnce | crates/gateway/src/hydra_server_platform/mod.rs:786-815 | without late resends, and as long as no payment is applied whose call failed, every request is paid for at most once |
| RepeatedPayments.PaymentsAreWorth | crates/gateway/src/hydra_server_platform/mod.rs:789-801 | in every run each payment is for the price of the requests it covers |
| HydraServer.HydraState.ProcessEvent | crates/gateway/src/hydra_server_platform/mod.rs:507-1089 | every event changes fields, mailbox and timers as the event's rule says, and returns the rule's success or error |
| HydraServer.HydraState.ProcessRestart | crates/gateway/src/hydra_server_platform/mod.rs:509-526 | a restart moves the generation, clears the session and owes a funding check if the node starts |
| HydraServer.HydraState.ProcessFunding | crates/gateway/src/hydra_server_platform/mod.rs:531-625 | the funding check changes fields, top-ups and timers as its rule says; the laws of `HydraFunding` say what that achieves |
| HydraServer.HydraState.ProcessOpening | crates/gateway/src/hydra_server_platform/mod.rs:626-778 | the four states on the way to an open head |
| HydraServer.HydraState.ProcessRequest | crates/gateway/src/hydra_server_platform/mod.rs:779-837 | a request is deferred, joins the backlog, or is paid for with all of it |
| HydraServer.HydraState.ProcessPoll | crates/gateway/src/hydra_server_platform/mod.rs:839-924 | a poll confirms, asks again, resends or gives up |
| HydraServer.HydraState.ProcessClosing | crates/gateway/src/hydra_server_platform/mod.rs:926-994 | counting, closing, and closing again after ten polls |
| HydraServer.HydraState.ProcessIdle | crates/gateway/src/hydra_server_platform/mod.rs:1034-1089 | finding the head idle starts the session over; ten polls lead to another fanout |
| HydraServer.HydraState.AnyPresent | crates/gateway/src/hydra_server_platform/mod.rs:855-866 | whether any spent input is still in the snapshot |
| HydraServer.HydraState.SendDelayed | crates/gateway/src/hydra_server_platform/mod.rs:471-489 | a delayed event carries the generation of its start |
| HydraFunding.OpensOnlyWhenFunded | crates/gateway/src/hydra_server_platform/mod.rs:531-624 | in every run nothing past the funding is pending, and no head open, unless an earlier funding check read fuel and a balance at or above the target |
| HydraFunding.EnoughCoversSession | crates/gateway/src/hydra_server_platform/mod.rs:47-67 | for an accepted configuration that balance covers all microtransactions of a session and a minimal coin |
| HydraFunding.StepTopsUp | crates/gateway/src/hydra_server_platform/mod.rs:563-612 | a top-up goes out iff the wallet is read short, none is known to be on its way, and the call is not lost; it is the missing amount or a minimal coin if that is more |
| HydraFunding.OneTopUpUntilFunded | crates/gateway/src/hydra_server_platform/mod.rs:569-610 | over whole runs, restarts included, exactly one top-up is sent until a sufficient balance is read |
| HydraFunding.FundingGoesOn | crates/gateway/src/hydra_server_platform/mod.rs:531-624 | a wallet without fuel or below the target is looked at again, or a restart is owed; a sufficient one leads to opening a head |
| HydraStages.EveryEventHasItsCause | crates/gateway/src/hydra_server_platform/mod.rs:507-1089 | in every run each pending lifecycle event was caused by an earlier delivery whose answers and fields call for it: opening by funds, closing by the last payment, fanout by a closed and ready head, another try by ten looks |
| HydraStages.OpenIsRead | crates/gateway/src/hydra_server_platform/mod.rs:763-778 | the head is taken to be open only when its status was read as open |
| HydraStages.RestartIsOwedIff | crates/gateway/src/hydra_server_platform/mod.rs:436-456 | a restart is owed after an event iff one of the calls it needs has failed |
| HydraStages.FlagsFollowEvents | crates/gateway/src/hydra_server_platform/mod.rs:377-389 | in every run the flags for an open head, connected peers and a watched node are what the deliveries so far say |
| HydraRuntime.DeliveryCounts | crates/gateway/src/hydra_server_platform/mod.rs:435-489 | a delivery consumes one pending event and adds the emitted ones, for each kind of event |
| HydraRuntime.SurroundingsCount | crates/gateway/src/hydra_server_platform/mod.rs:471-489 | callers, timers, landings and a node's exit move pending events around without changing their number, except for a new request |
| HydraRuntime.RestartCounts | crates/gateway/src/hydra_server_platform/mod.rs:476-489 | a restart keeps exactly the events past the generation check and adds the new chain if the node starts |
| HydraLifecycle.ChainsNeverRise | crates/gateway/src/hydra_server_platform/mod.rs:507-1089 | no step but a restart adds a lifecycle chain, an open head that is not closing counting as one |
| HydraLifecycle.RestartLeaves | crates/gateway/src/hydra_server_platform/mod.rs:509-525 | a restart leaves the lifecycle events it can no longer drop, and one chain more if the node starts |
| HydraLifecycle.AtMostOneChain | crates/gateway/src/hydra_server_platform/mod.rs:435-489 | in every run whose restarts find no lifecycle event past the check there is at most one chain |
| HydraLifecycle.ChainIsNeverLost | crates/gateway/src/hydra_server_platform/mod.rs:435-489 | in the same runs the machine never stalls: one lifecycle event is pending or the head is open and not closing, a restart is owed or pending, or the machine was told to end |
| HydraLifecycle.ChainsBoundedByRestarts | crates/gateway/src/hydra_server_platform/mod.rs:435-489 | in every run the chains are no more than the restarts |
| HydraLifecycle.LeftoverMakesTwoChains | crates/gateway/src/hydra_server_platform/mod.rs:480 | a node exit that meets a firing timer really leaves two chains |
| HydraGate.StepKeepsGate | crates/gateway/src/hydra_server_platform/mod.rs:779-924 | every step between resets keeps: at most one poll pending, and the gate shut exactly for it or for an owed restart |
| HydraGate.GateHoldsBetweenResets | crates/gateway/src/hydra_server_platform/mod.rs:779-924 | the same for every stretch of a run that starts without a poll |
| HydraGate.ResetOpensGate | crates/gateway/src/hydra_server_platform/mod.rs:1045-1060 | a reset opens the gate, and restores the invariant iff no poll survived it |
| HydraGate.PollOpensGateIff | crates/gateway/src/hydra_server_platform/mod.rs:847-912 | a readable poll opens the gate iff none of its inputs is in the snapshot, or its attempts and retries are used up |
| HydraGate.PollsLookForInputs | crates/gateway/src/hydra_server_platform/mod.rs:807-816 | a payment and a resend are polled for by the inputs selected for that very amount |
| HydraGate.PollsAfterReset | crates/gateway/src/hydra_server_platform/mod.rs:476-489 | the polls that survive: those past the check after a restart, all of them after idle |
| HydraGate.SuccessorIsNextAttempt | crates/gateway/src/hydra_server_platform/mod.rs:867-921 | a poll is followed by the next attempt of the same payment, or by the first attempt of a resend |
| HydraGate.ChainIsBounded | crates/gateway/src/hydra_server_platform/mod.rs:867-921 | at most 64 polls and three resends in every chain of polls |
| HydraPolls.PollsPerPaymentAreBounded | crates/gateway/src/hydra_server_platform/mod.rs:842-924 | over whole runs between resets: since the last payment at most 64 polls have been delivered and at most three resends tried |
| HydraGate.ChainEndsByOpening | crates/gateway/src/hydra_server_platform/mod.rs:867-921 | a chain ends with the gate open or with an error |
| HydraBilling.RequestsAreConserved | crates/gateway/src/hydra_server_platform/mod.rs:779-837 | over whole runs, restarts included, requests received are pending, backlogged, paid, written off or lost |
| HydraBilling.PaymentsMatchPrices | crates/gateway/src/hydra_server_platform/mod.rs:789-824 | the lovelace of all first submissions is the price of the paid requests and of those that payments with a failed call were for, while the total fits 64 bits |
| HydraBilling.IdleWritesOffBacklog | crates/gateway/src/hydra_server_platform/mod.rs:1045-1065 | requests are written off only when the head is found idle, then all that were accounted for, and the next session starts with none |
| HydraBilling.SessionIsCapped | crates/gateway/src/hydra_server_platform/mod.rs:818-830 | the head is closing iff the session has sent max(1, fanout count) payments |
| HydraBilling.NothingStartsWhileClosing | crates/gateway/src/hydra_server_platform/mod.rs:779-807 | nothing is paid while closing or while a payment is unconfirmed |
| HydraOverdue.OverdueIff | crates/gateway/src/hydra_server_platform/mod.rs:779-837 | over whole runs a microtransaction's worth of requests is left iff a payment was missed since the backlog was last empty |
| HydraOverdue.PaymentIsWholeIff | crates/gateway/src/hydra_server_platform/mod.rs:786-812 | over whole runs the next payment is one microtransaction iff none was missed before it |
| HydraOverdue.FailureSpoilsNextPayment | crates/gateway/src/hydra_server_platform/mod.rs:435-456 | a run from the start in which a payment fails and the request queued before the restart pays for one request too many |
| Credits.TryConsumeCredit | crates/gateway/src/hydra_server_bridge/mod.rs:326-343 | a credit is taken only where the counter still holds the positive value read just before, and refused only at zero |
| Credits.CreditMeter.WaitForOpen | crates/gateway/src/hydra_server_bridge/mod.rs:610-637 | the baseline is the balance at opening, or zero if unreadable |
| Credits.CreditMeter.MonitorCredits | crates/gateway/src/hydra_server_bridge/mod.rs:639-717 | a poll credits whole microtransactions of the increase and starts closing at the fanout count |
| Credits.GrantsAreCoveredIff | crates/gateway/src/hydra_server_bridge/mod.rs:660-690 | no increase is credited above its worth iff the microtransaction value fits 64 bits or wraps to zero |
| Credits.PayBeforeServe | crates/gateway/src/hydra_server_bridge/mod.rs:326-343 | in every interleaving of loads, exchanges, polls and restarts: granted covers available, served and wiped (exactly, within 64 bits), and the price of what was served never exceeds the increases the monitor has counted |
| CreditCover.SafeRunsAreCovered | crates/gateway/src/hydra_server_bridge/mod.rs:610-717 | on one head whose balance only grows, what was served costs no more than the balance has grown since the first baseline, as long as every opening is safe |
| CreditCover.OpeningsAreSafeIff | crates/gateway/src/hydra_server_bridge/mod.rs:620-629 | an opening is safe iff it reads the balance, or is the first, or the first baseline was zero and no credit is held |
| CreditCover.OpeningIsSafeIff | crates/gateway/src/hydra_server_bridge/mod.rs:616-632 | everything served stays paid for, whatever follows an opening, iff its baseline is not below what the held credits have cost |
| CreditCover.UnreadableOpeningServesTwice | crates/gateway/src/hydra_server_bridge/mod.rs:624-629 | a run in which a restart and an unreadable opening serve one microtransaction twice |
| Credits.StepsCreditAtMostOneDivision | crates/gateway/src/hydra_server_bridge/mod.rs:656-698 | polling in steps credits no more than one division of the whole increase |
| Credits.WholePaymentsCreditExactly | crates/gateway/src/hydra_server_bridge/mod.rs:656-698 | whole payments are credited exactly, whatever the schedule |
| Credits.SchedulesAgree | crates/gateway/src/hydra_server_bridge/mod.rs:656-698 | two schedules over the same whole payments from the same baseline credit the same |
| Credits.MonitorFollowsSchedule | crates/gateway/src/hydra_server_bridge/mod.rs:656-698 | the monitor's counter gains what the schedule rule says, up to and including the poll that completes the session |
| CreditMonitor.MonitorGoesOn | crates/gateway/src/hydra_server_bridge/mod.rs:639-717 | in every run that leaves no event behind a restart, an open session is polled for and a session that is over has one close on its way |
| CreditMonitor.PollEndsSessionIff | crates/gateway/src/hydra_server_bridge/mod.rs:700-717 | a poll ends the session iff the payments received reach the fanout count, and is followed by another one, readable or not |
| CreditMonitor.SessionsShareOnlyCredits | crates/gateway/src/hydra_server_bridge/mod.rs:610-637 | whatever came before, an opened or idle meter is the same, but for the credits |
| BridgeClient.ClientState.ProcessEvent | crates/sdk_bridge/src/hydra_client/mod.rs:358-861 | every event of the bridge changes fields, mailbox, timers and payments as its rule says |
| BridgeClient.ClientState.ProcessRestart | crates/sdk_bridge/src/hydra_client/mod.rs:360-406 | the session fields are cleared only after the key exchange was asked for |
| BridgeClient.ClientState.AccountRequest | crates/sdk_bridge/src/hydra_client/mod.rs:728-785 | a request is deferred, dropped, counted, or completes a payment |
| BridgeClient.ClientState.SendPrepayMicrotransaction | crates/sdk_bridge/src/hydra_client/mod.rs:863-903 | the prepayment goes out once per opening, whatever the gate says |
| BridgeClient.ClientState.PollL2Tx | crates/sdk_bridge/src/hydra_client/mod.rs:791-858 | a poll confirms, asks again, resends or gives up |
| BridgeClient.ClientState.MonitorGatewayCredits | crates/sdk_bridge/src/hydra_client/mod.rs:661-726 | the bridge's copy of the crediting rule |
| BridgeClient.ClientState.HeadOpen | crates/sdk_bridge/src/hydra_client/mod.rs:905-928 | the first sight of an open head zeroes the session and schedules credits and prepayment |
| BridgeStages.EveryEventHasItsCause | crates/sdk_bridge/src/hydra_client/mod.rs:358-928 | in every run each pending event that drives the bridge was caused by an earlier one whose answers call for it: commit by funds, monitoring and prepayment by a head seen open |
| BridgeStages.RestartIsOwedIff | crates/sdk_bridge/src/hydra_client/mod.rs:280-316 | a restart is owed after an event iff one of the calls it needs has failed |
| BridgeStages.OfferStartsOverIff | crates/sdk_bridge/src/hydra_client/mod.rs:412-466 | an offer is answered by starting over iff the wallet is known and its ports are taken |
| BridgeStages.OpeningStartsOver | crates/sdk_bridge/src/hydra_client/mod.rs:905-928 | the first sight of an open head, and no other, zeroes the session and makes credits and prepayment due |
| BridgeStages.SeenClosedIff | crates/sdk_bridge/src/hydra_client/mod.rs:632-659 | an open head stays open iff its status is read as open, and is looked at again either way |
| BridgeStages.RestartForgets | crates/sdk_bridge/src/hydra_client/mod.rs:360-406 | a restart that reaches the gateway leaves nothing of the session |
| BridgeStages.OpenHeadIsWatched | crates/sdk_bridge/src/hydra_client/mod.rs:618-928 | in every run an open head is monitored, its credits counted and its prepayment made or due, unless a restart is owed |
| BridgePayments.RunKeepsInv | crates/sdk_bridge/src/hydra_client/mod.rs:302-313 | in every run a microtransaction's worth of requests is left iff the call of a payment has failed since their count was zero, and each payment that went out is for at least one microtransaction |
| BridgePayments.ResendsRepeat | crates/sdk_bridge/src/hydra_client/mod.rs:812-838 | in every run each payment sent again has the amount of one made before |
| BridgePayments.PaymentIsWholeIff | crates/sdk_bridge/src/hydra_client/mod.rs:757-785 | in every run a payment is exactly one microtransaction iff none had failed since the count of requests was zero; prepayments always are |
| BridgePayments.FailureSpoilsNextPayment | crates/sdk_bridge/src/hydra_client/mod.rs:302-313 | a run from the start in which a payment fails and the request queued before the restart pays for one request too many; if the failed one had gone out, all its requests are paid for again |
| BridgePayments.PaidAndConfirmed | crates/sdk_bridge/src/hydra_client/mod.rs:728-816 | a run from the start, with a wallet that can answer, that pays and whose gate is opened by the confirmation |
| BridgePayments.NextRequestIsCounted | crates/sdk_bridge/src/hydra_client/mod.rs:728-785 | the next request of such a run is counted, not put off |
| BridgeBilling.RequestsAreConserved | crates/sdk_bridge/src/hydra_client/mod.rs:728-785 | in every run, restarts included, requests received are pending, counted, paid for, dropped, cleared by a new session or lost in a restart |
| BridgeBilling.RequestFateIff | crates/sdk_bridge/src/hydra_client/mod.rs:728-756 | a request is put off while a payment is unconfirmed or the head is not open, dropped only for want of terms or a wallet, and counted otherwise, each exactly when |
| BridgeGate.PollsAreBounded | crates/sdk_bridge/src/hydra_client/mod.rs:776-903 | between resets at most one payment is polled for, and one more for each prepayment sent while another was unconfirmed |
| BridgeGate.ShutGateIsPolled | crates/sdk_bridge/src/hydra_client/mod.rs:776-861 | in every run, restarts included, a shut gate has a poll pending or a restart owed |
| BridgeGate.PollOpensGateIff | crates/sdk_bridge/src/hydra_client/mod.rs:798-858 | a readable poll opens the gate iff none of its inputs is in the snapshot, or its attempts and retries are used up |
| BridgeGate.PollSuccessor | crates/sdk_bridge/src/hydra_client/mod.rs:818-858 | a poll is followed by its next attempt, or by the first attempt of a resend of the same amount, for the inputs of that resend |
| BridgeGate.PaymentPollsInputs | crates/sdk_bridge/src/hydra_client/mod.rs:757-785 | a payment that goes out is polled for by its own inputs and amount, with three retries, and nothing else is |
| BridgeGate.OnlyPrepayIgnoresGate | crates/sdk_bridge/src/hydra_client/mod.rs:863-901 | while a payment is unconfirmed an event other than a poll starts to poll iff a prepayment goes through |
| BridgeCredits.BridgeFollowsSchedule | crates/sdk_bridge/src/hydra_client/mod.rs:661-726 | the bridge's counter gains what the schedule rule says |
| BridgeCredits.MachinesAgreeIff | crates/sdk_bridge/src/hydra_client/mod.rs:911-917 | gateway and bridge machine end with the same credits for the same whole payments, a completed session included, iff the gateway's baseline was zero |
| GatewayAdmission.AdmissionIsCapped | crates/gateway/src/hydra_server_platform/mod.rs:157-191 | in every interleaving of clone, count, decide, spawn and drop, no more than the maximum are past the check, and the counter counts the holders |
| GatewayAdmission.TurnedAwayIff | crates/gateway/src/hydra_server_platform/mod.rs:157-165 | an attempt is turned away iff the attempts under way, itself included, exceeded the maximum when it counted |
| GatewayAdmission.BothTurnedAway | crates/gateway/src/hydra_server_platform/mod.rs:157-165 | two attempts at the only place can turn each other away |
| BridgeAdmission.Connection.KexRequested | crates/gateway/src/sdk_bridge_ws.rs:164-259 | a request drops the old controller first, then takes a permit, consumes the pending offer, or is refused |
| BridgeAdmission.Connection.KexInitialized | crates/gateway/src/sdk_bridge_ws.rs:247-258 | the offer replaces an earlier one and frees its permit; a failure gives the permit back |
| BridgeAdmission.Connection.KexFinalized | crates/gateway/src/hydra_server_bridge/mod.rs:138-184 | the permit goes to the controller or back |
| BridgeAdmission.PermitsAreConserved | crates/gateway/src/hydra_server_bridge/mod.rs:82-90 | in every interleaving pending exchanges, controllers and free permits add up to the maximum |
| BridgeAdmission.PermitsReturn | crates/gateway/src/hydra_server_bridge/mod.rs:240-247 | once nothing is held, all permits are free again |
| BridgeAdmission.OfferIsUsedOnce | crates/gateway/src/sdk_bridge_ws.rs:189-245 | a second request proceeds iff it matches the pending offer, which is used up either way |
| BridgeAdmission.EveryStartHadItsOffer | crates/gateway/src/sdk_bridge_ws.rs:188-258 | in every interleaving a controller starts only from an offer made on its connection, and each offer starts at most one |
| BridgeAdmission.FirstRequestIsAdmittedIff | crates/gateway/src/sdk_bridge_ws.rs:246-258 | a first request gets a permit iff one is free or its own controller gives one up; its pending offer is no help |
| BridgeAdmission.OnlyTheStandingOfferCounts | crates/gateway/src/sdk_bridge_ws.rs:188-258 | in every interleaving a second request proceeds iff it repeats the request of the offer that stands on its connection and accepts the port this offer named |
| BridgeAdmission.RefusedAtOnceIff | crates/gateway/src/sdk_bridge_ws.rs:179-259 | in every interleaving: when a request is refused at once, and with which error |
| BridgeAdmission.RepliesNameThePort | crates/gateway/src/sdk_bridge_ws.rs:247-258 | the bridge is told the port that its connection remembers, and the one that its controller was started for |
| RequestTable.RelayConnection.PassOnRequest | crates/gateway/src/load_balancer.rs:1171-1183 | a request is filed before it is sent |
| RequestTable.RelayConnection.RequestSent | crates/gateway/src/load_balancer.rs:1185-1213 | a sent request counts and the connection serves on; one that cannot be sent is failed unless it has expired, and ends the connection |
| RequestTable.RelayConnection.PassOnResponse | crates/gateway/src/load_balancer.rs:1130-1167 | the waiting requester gets the response and leaves the table |
| RequestTable.RelayConnection.OnResponse | crates/gateway/src/load_balancer.rs:761-774 | the response is passed on, and billed if billable |
| RequestTable.RelayConnection.CleanUpExpired | crates/gateway/src/load_balancer.rs:940-953 | exactly the entries past expiry and margin leave the table |
| RequestTable.RelayConnection.FailRemaining | crates/gateway/src/load_balancer.rs:882-891 | every remaining entry is failed once, and the table is empty |
| RequestLaws.AnsweredAndBilledOnce | crates/gateway/src/load_balancer.rs:761-774 | in every interleaving with the clean-up each request is answered at most once and billed at most once, never if a health check or unknown |
| RequestLaws.SentIsConserved | crates/gateway/src/load_balancer.rs:1169-1213 | between events sent = received + in progress + expired, off by one only after a request expired before failing to be sent |
| RequestLaws.NothingIsForgotten | crates/gateway/src/load_balancer.rs:854-891 | at the end the table is empty and every request taken was answered once or had expired |
| RequestLaws.StrayResponseIsIgnored | crates/gateway/src/load_balancer.rs:1158-1165 | a response to an unknown, answered, failed or expired request changes nothing |
| RequestLaws.BilledIff | crates/gateway/src/load_balancer.rs:766-773 | a response is billed iff it answers a user's request with a billable code while serving with a controller |
| RequestLaws.ServesIffHealthy | crates/gateway/src/load_balancer.rs:617-624 | in every interleaving a connection serves iff no send has failed and it has not broken, and until then it fails no request |
| RequestLaws.HealthyResponseIsBilled | crates/gateway/src/load_balancer.rs:761-774 | until then a billable response to a user's unanswered, unexpired request is passed on and billed, and the connection serves on |
| RequestLaws.FailedSendEndsConnection | crates/gateway/src/load_balancer.rs:1196-1213 | the send that fails ends the connection, and its request is answered with 400 unless it has expired |
| RequestLaws.EndedConnectionAnswers502 | crates/gateway/src/load_balancer.rs:861-891 | what waits when a connection is over, and what still comes, is answered with 502 |
| RequestLaws.NothingExpiresEarly | crates/gateway/src/load_balancer.rs:938-951 | in every interleaving a request expires no earlier than ten seconds after its expiry |
| RequestLaws.CleanUpIsComplete | crates/gateway/src/load_balancer.rs:938-951 | after a clean-up exactly the requests are left whose expiry and ten seconds lie ahead |
| RoundRobin.Balancer.RelayForAny | crates/gateway/src/load_balancer.rs:171-201 | the relay at the counter's index in key order, or none; the counter wraps around |
| RoundRobin.WindowsAreFair | crates/gateway/src/load_balancer.rs:185-195 | any k consecutive calls without wrap-around pick each of n relays k/n times, rounded down or up |
| RoundRobin.FairAcrossWrapIff | crates/gateway/src/load_balancer.rs:185-188 | windows across the wrap-around are fair too iff n divides 2^64 |
| Tunnel.TunnelEnd.AllocLocalId | crates/common/src/tcp_mux_tunnel.rs:251-259 | the next id in the half of the prefix bit, the counter wrapping around |
| Tunnel.TunnelEnd.AttachStreamWithId | crates/common/src/tcp_mux_tunnel.rs:261-281 | the new task takes over the route; an older one is told to close |
| Tunnel.TunnelEnd.Accept | crates/common/src/tcp_mux_tunnel.rs:200-219 | an accepted connection is announced before it has a route; a dead link ends the listener |
| Tunnel.TunnelEnd.OnMsg | crates/common/src/tcp_mux_tunnel.rs:136-192 | open connects or refuses, data goes to the route or is lost, close removes the route and is not echoed |
| Tunnel.TunnelEnd.OnCommand | crates/common/src/tcp_mux_tunnel.rs:308-325 | a write goes to the socket, or ends the loop with the peer to be told; a close ends it with its own notification flag |
| Tunnel.TunnelEnd.NotifyPeer | crates/common/src/tcp_mux_tunnel.rs:332-336 | a close is sent unless the peer closed the stream |
| TunnelStreamLaws.StepKeepsInv | crates/common/src/tcp_mux_tunnel.rs:136-341 | every step of either end keeps the order of messages and the flow of bytes of a stream |
| TunnelFidelity.OpenerMoves | crates/common/src/tcp_mux_tunnel.rs:136-341 | seen through one id, every move of the opening end of the whole tunnel is one step of that stream or nothing |
| TunnelFidelity.AcceptorMoves | crates/common/src/tcp_mux_tunnel.rs:136-341 | the same for the accepting end |
| TunnelFidelity.StreamsAreFaithful | crates/common/src/tcp_mux_tunnel.rs:136-341 | in every interleaving with different prefix bits: bytes written by the acceptor are a prefix of those read by the opener, all of them after the peer's close; the other way the bytes before the route was in place are missing; at most one close from each end, none in answer to one |
| TunnelFidelity.ClosesAreSent | crates/common/src/tcp_mux_tunnel.rs:280-336 | in every interleaving with different prefix bits, a task that is done has sent one close, unless the peer's had come or the link is down, and a refused stream has been closed |
| TunnelFidelity.ListenerEndsIff | crates/common/src/tcp_mux_tunnel.rs:200-219 | a listener ends iff it is told to, or its Open cannot be sent |
| TunnelFidelity.AnsweredAtOnceIff | crates/common/src/tcp_mux_tunnel.rs:141-171 | a message is answered with a close iff it is a refused open or unreadable data |
| TunnelFidelity.StreamsNeverCollide | crates/common/src/tcp_mux_tunnel.rs:264-270 | with different prefix bits no task loses its route to another stream |
| TunnelFidelity.IdsAreDisjointIff | crates/common/src/tcp_mux_tunnel.rs:63-65 | the ids of the two ends never meet, over 2^63 connections each, iff the prefix bits differ |
| TunnelFidelity.EqualBitsCollide | crates/gateway/src/load_balancer.rs:681 | with equal bits, as both callers pass them, one client at each end is enough to cut off one of them |
| TunnelStreamLaws.EarlyDataIsLost | crates/common/src/tcp_mux_tunnel.rs:209-222 | data that arrives before the opener's route is in place is lost |
| TunnelStreamLaws.EarlyCloseIsLost | crates/common/src/tcp_mux_tunnel.rs:209-222 | so is a refusal: the opener's task stays up |
| TunnelFidelity.CloseReachesIff | crates/common/src/tcp_mux_tunnel.rs:183-237 | over whole runs a close reaches the opener's task iff it arrives after the route was attached |
| Testgen.WorkerThread.ProcessRequests | crates/testgen/src/testgen.rs:341-384 | the serving loop takes, writes and replies as specified over any sequence of arrivals and answers, up to the first failure |
| Testgen.WorkerThread.SpawnInner | crates/testgen/src/testgen.rs:117-156 | the restart loop behaves as specified over any sequence of children |
| TestgenLaws.NothingIsLost | crates/testgen/src/testgen.rs:117-156 | answered requests, the unfulfilled one and the queue are the submitted sequence in order, whatever the children do |
| TestgenReplies.RepliesRepeatTheChild | crates/testgen/src/testgen.rs:341-381 | whatever the children do, each requester is told the child's answer to the last attempt at its request, word for word, or that it failed |
| TestgenReplies.WaitingIsUnanswered | crates/testgen/src/testgen.rs:341-381 | a request that is held or queued has had no answer from any child |
| TestgenLaws.AttemptsAreBounded | crates/testgen/src/testgen.rs:341-381 | each payload is written at most twice, and a failure reply comes after exactly the attempts allowed |
| TestgenLaws.FetchedGetsOneAttempt | crates/testgen/src/testgen.rs:137-139 | a request fetched between two children is failed after a single attempt |
| TestgenLaws.StopsWithoutSenders | crates/testgen/src/testgen.rs:130-154 | the worker stops only with nothing held and no sender left |
| TestgenLaws.QueueIsDroppedIff | crates/testgen/src/testgen.rs:148-154 | the worker stops with requests queued iff they came, and the last sender went, during the pause after an idle failure |
| Forwarder.StepKeepsInv | crates/platform/src/icebreakers/manager.rs:72-109 | every step of publisher, destinations, source and forwarder keeps the invariant |
| Forwarder.NothingIsLost | crates/platform/src/icebreakers/manager.rs:72-109 | accepted messages, the one in hand and the rest of the source are the source stream, and destinations are tried in publication order |
| Forwarder.BlockedIff | crates/platform/src/icebreakers/manager.rs:92-105 | the forwarder blocks iff the newest version is seen and more may come, and then it has tried that version in vain |
| Forwarder.EndsOnlyInVain | crates/platform/src/icebreakers/manager.rs:93-105 | it ends at the end of the source, or with a message that no destination will ever take |
| Forwarder.OpenDestinationIsFound | crates/platform/src/icebreakers/manager.rs:79-107 | with an open newest destination the message in hand is delivered within four of its own steps |
| Forwarder.StandsStillIff | crates/platform/src/icebreakers/manager.rs:72-109 | it stands still iff there is no message, nothing new to try, or nothing more to do |
| Forwarder.UselessDestinationIsGivenUp | crates/platform/src/icebreakers/manager.rs:79-107 | with a useless newest destination it rests within six of its own steps, the message still in hand, and ends only if no other can come |
| Supervisor.ConnectionSupervisor.ReconcileConnections | crates/platform/src/load_balancer.rs:137-196 | the three loops leave the specified tasks, aborts and spawns |
| SupervisorLaws.ReconcileMatchesConfigs | crates/platform/src/load_balancer.rs:137-196 | active gateways are the configured ones, running survivors keep their tasks, the rest is new, and dropped ones are aborted |
| SupervisorLaws.DuplicatesSpawnOnce | crates/platform/src/load_balancer.rs:173-193 | tasks spawned together are for different gateways |
| SupervisorLaws.NoTaskIsForgotten | crates/platform/src/load_balancer.rs:149-171 | over whole runs each spawned task is active, was aborted or was found finished |
| SupervisorLaws.KexIsHandedOutOnce | crates/platform/src/load_balancer.rs:75-130 | over whole runs the endpoint goes to the very first task alone, and there is always an active connection after the first non-empty registration |
| Pagination.Url.ApplyPagination | crates/common/src/pagination.rs:205-233 | the appended pairs are the printed parameters, after whatever was there |
| Pagination.ParsedIsValid | crates/common/src/pagination.rs:53-95 | what the parser returns satisfies all bounds, and the range is not reversed |
| Pagination.AcceptedIffValid | crates/common/src/pagination.rs:53-95 | the parser returns exactly the valid parameters |
| Pagination.ParserUndoesPrinter | crates/common/src/pagination.rs:205-233 | printing and parsing gives the parameters back iff they are valid |
| Pagination.RoundTrip | crates/common/src/pagination.rs:53-95 | for every query the parser accepts, printing and parsing its result changes nothing |
| Pagination.ErrorsOfNumbers | crates/common/src/pagination.rs:108-151 | how a plain number fares as a page and as a count, and with which error |
| PaginationQueries.MissingParameters | crates/common/src/pagination.rs:98-144 | a missing parameter stands for page 1, 100 entries, ascending order or no bound |
| PaginationQueries.ParameterAlone | crates/common/src/pagination.rs:53-95 | a query with one parameter is taken, or refused, just as that parameter's own parser says |
| PaginationQueries.FirstWrongParameterDecides | crates/common/src/pagination.rs:53-86 | a query is refused for the first parameter that is refused alone, in the order count, page, order, from, to, and else only for a reversed range |
| PaginationQueries.PageIsItsDigits | crates/common/src/pagination.rs:108-128 | a page text is accepted iff it is digits alone of a value within bounds, and then it is that value |
| PaginationQueries.EmptyPageIsTooLarge | crates/common/src/pagination.rs:111-117 | an empty page is called too large, an empty count no integer |
| PaginationQueries.SignedNumbers | crates/common/src/pagination.rs:130-151 | a count may carry a sign, a page may not |
| PaginationQueries.RangeOfOne | crates/common/src/pagination.rs:159-177 | a range text without a colon is accepted iff it is a height |
| PaginationQueries.RangeOfTwo | crates/common/src/pagination.rs:178-191 | with one colon iff both parts are |
| PaginationQueries.RangeOfThree | crates/common/src/pagination.rs:192 | with two colons never |

## Left out

- Rounding of `f64`: the funding checks are computed in exact reals, and `round` goes half up.
- Bounded mailboxes and channels: sends never block, so deadlock by a full mailbox is not captured.
- Real time: timers fire in any order; `CleanUpExpired` gets the clock as a parameter.
- Foreign code: sockets, HTTP, processes, key files, signing, CBOR, JSON, base64, UUIDs. Their results are
  parameters; base64 that does not decode is a case of its own.
- Snapshot keys are numbers in the order of the keys' bytes, which is how the JSON map is iterated; L2 entries carry
  lovelace only, no native assets.
- The 64-bit counters of accounted and sent requests in `HydraServer`, of received microtransactions in `Credits`
  and of `RequestTable` are unbounded; products and prices wrap as in the code.
- HydraConfig.TargetCovers: in exact reals and with an unbounded product, where `new` computes an `f64` from a
  `u128` product that three large settings can overflow.
- Solvency.PlanSolvency: needs that nothing was resent late; `LateResendPaysAgain` and `UnequalResendPaysTwice` show
  that it fails otherwise.
- EqualPrices.LandingEndsAll: for equal amounts only, since with unequal ones it is false; `LandingEndsRivals` holds
  for all.
- Solvency.CountTestIff: nobody but the sender spends coins in the head; both machines only ever pay from their own
  wallet.
- SessionEngine.MachineRunsSession: one stretch between resets, from whatever state of the session the last one
  left, and with no poll left over; `PollsAfterReset` says which are.
- HydraBilling.PaymentsMatchPrices: for runs whose total price fits 64 bits, because `Amount` wraps around beyond.
- CreditCover.OpeningIsSafeIff: away from the 64-bit limit of the counters, and while no close has begun, when the
  monitor still polls.
- BridgePayments.PaymentIsWholeIff: for prices that fit 64 bits, because `Amount` wraps around beyond; so does
  HydraOverdue.PaymentIsWholeIff.
- CreditCover.SafeRunsAreCovered: for one head; a fanout starts another one with a balance of its own.
- BridgeClient.ClientState.ProcessEvent: fixes the payment terms, which every key-exchange offer replaces in the
  code; the gateway announces the terms of its own configuration, which does not change while it runs.
- BridgeClient.ClientState.SendHydraTransaction: takes the outcome of selection and submission as an answer, because
  the selection rule is the one of `CoinSelection` and its law rows cite both copies.
- The gateway's close and fanout cycle towards bridges (`hydra_server_bridge`, from `TryToClose` on) only appears as
  the steps that change credits; its chain has the shape of the one in `HydraServer`.
- Cloned gateway controllers: the code never clones one, so a connection holds at most one reference.
- Request ids are taken to be unique, as random UUIDs are; requests still in the channel before the event mailbox
  are not part of the table.
- Uniqueness of a relay's registration under interleaving, because removal is by prefix in separate steps.
- Key-exchange staleness in the bridge: both generation fields move together, so the code never discards a response,
  and neither does the model.
- Tunnels across repeated key exchanges, `attach_stream`, close codes and messages, and chunk sizes. One pair of
  ends is modelled, with up to 2^63 connections from each.
- Forwarder: is modelled as a state machine over its steps, since every await may interleave with the publisher.
- Pings, tokens, REST routes, configuration loading, health checks' interpretation and metrics, which would only add
  easy members.
