# Payment-channel node: a verified model

The repository is a node of a payment-channel network on TON. Two nodes share a channel and agree, off
chain, on numbered states: what each side owes (send actions) and what it may come to owe (conditionals).
This project models the parts where money could be lost and proves what they keep, for every input and every run.

| file | models |
|---|---|
| `Payments`, `Channel` | conditionals, send states, rented deposits; the proposer's and the receiver's transition for every action kind |
| `Links` | the meta records two nodes write, and why both find the same linked conditional |
| `LiveChannel`, `NodeStore` | the same transitions as in-place edits of a channel object; the row with its version check, the pending states under byte keys |
| `StepTheorems` | what one agreed step does to a channel, in the amounts it carries |
| `Protocol`, `ProtocolTheorems` | two nodes and a lossy network as a state machine, its invariant, what holds in every run |
| `Payout`, `VirtualChannel`, `Rent` | coins paid on chain against coins added off chain; prepaying and executing; the fee of rented capacity |
| `Balance`, `BalanceTheorems` | balance emulation, and how agreed operations move it |
| `RowData`, `RowSettlement` | what stored conditionals, action states and deposits keep in every run of the protocol, and what settling such a row does |
| `Settlement`, `Phases` | splitting settlement into chained messages; phases of an uncooperative close and their tasks |
| `Derivatives`, `Monitor` | settling a linked pair at a price; the price monitor as a fold over history |
| `TaskQueue`, `TaskRuns`, `MetaIndex`, `Keys` | the persistent queue, what workers can rely on over its runs, the index of watched records, the byte order both rely on |
| `Codec`, `Tunnel` | the integer push instruction and the conditional built from it; tunnel instructions and what every hop earns |
| `Prelude`, `Arith` | results, minimum and maximum, division |

Code that edits things in place is a class or a method with loops, proved equal to a function of the old state;
the theorems are then about those functions. Amounts and seqnos are unbounded integers, except where the width
matters: 64-bit keys in the store, 32-bit sums in the close schedule, 257-bit integers in the codec.
A serialized cell is identified with its content, so hashing is injective; a signature is a fact about who signed
what; the clock, oracle prices and key generation are parameters.

## What turned out differently

Each of these has the exact condition under which the expected property holds, and a lemma at an input, a run or a whole
family of inputs that shows it failing.

- Counting single signatures, a seqno can get two bodies signed by both nodes: each has an offer denied and loses the
  empty update that follows, then one offer is retried (`SameLostProposalIsSignedTwice`). Bodies for which a record with
  both signatures was assembled are unique per seqno; `BothSignedExactly` says which bodies are in the gap.
- A proposer that lost a reply catches up exactly when it proposes the same body again (`RetryCatchesUpExactly`,
  `OtherRetryIsRefused`).
- A new conditional sent with the action code of another, unregistered action breaks the mirror (`StepsKeepMirror`,
  `ForeignCodeBreaksTheMirror`); so do meta stores that lead to different linked conditionals, which the stores the nodes
  write, each on its own, never do for what both recorded (`RecordedLinksAgree`).
- On the paying side alone, a known resolve above the capacity shields older states from the size check
  (`LetThroughExactly`). A node that passes a virtual channel on knows such a resolve exactly when what it receives is
  more than one coin larger than what it passes on (`OutgoingIsCoveredExactly`, `LargerIncomingLetsThrough`). The
  proposer's own validation has no such gap (`ProposedExecutionIsWithinCapacity`).
- If the second side's state appears while a commit of the first is in flight, the contract can pay too much
  (`LateCounterStateBreaksConservation`, `CoinsAreConservedExactly`).
- A state committed as prepaid in full is refused by the contract whenever the fee is positive (`CommittedStateOnChain`);
  cooperative settlement of a derivative at zero drops the initiator's fee the contract would add
  (`DerivativeAgreesWithContract`).
- Two conditionals on one action in one settlement message: the expected action dictionary misses what the first adds
  (`TwoOnOneActionFallShort`, `ExpectedIsSequentialExactly`).
- A conditional with a resolver sender that fails to execute leaves the sender on the next plain message
  (`FailedSenderTagsTheNext`, `TagsAreRightExactly`). It takes inconsistent stored data: stored resolves are validated and
  every agreed conditional has a state for its action, so no row a run leads to comes to it
  (`ReachableSettlementIsComplete`).
- "The order opened" is not "the entry was crossed" on the side that is not linked (`OpenedIsCrossed`,
  `CrossedButNotOpened`).
- Two tasks with the same due time and queue share an index key, so the later one pushes the earlier one out
  (`TaskDb.CreateTask`, `SameKeyIsRival`), and finishing the earlier one drops the later one's entry
  (`TaskDb.CompleteTask`).
- A valid conditional can be one bit too long for a cell (`CodeFitsCellExactly`, `CornerIsOneBitTooLong`).
- A node named twice in a row in a tunnel takes itself for the destination (`RepeatedTargetEndsEarly`).
- Without the counterparty's state the settling phases never come, but their tasks are scheduled
  (`NothingToSettleWithoutTheirState`); a start time that wraps at 32 bits falls in the wrong phase
  (`WrappedStartIsTooEarly`).

## Model

| member | source | states |
|---|---|---|
| `Channel.StepsKeepMirror` | tonpayments/state.go:33-782 | for every action kind, if proposer and receiver both carry it out from mirrored channels, dictionaries, deposits, pending transfers and pending commit are mirrored again, if and only if no foreign action code has to be registered and both meta stores lead to the same linked conditional |
| `Channel.ForeignCodeBreaksTheMirror` | tonpayments/process.go:1458-1515 | a conditional of one coin sent with the action code of another: both ends carry it out and are no longer mirrored |
| `Links.WritesKeep` | tonpayments/worker.go:281-310 | whatever records the two nodes write, each on its own (plain ones, an initiator's half of a derivative before it is offered, an acceptor's half, halves shared with a third node), every key one holds as incoming and the other as outgoing is linked alike |
| `Links.RecordedLinksAgree` | tonpayments/process.go:581-618 | with records so written, unmatched ones included, removal and execution find the same linked conditional on both nodes, and it is a derivative |
| `Links.RecordedStepKeepsMirror` | tonpayments/process.go:157-395 | removing or executing anything recorded, derivatives included, leaves the channels mirrored |
| `Links.DeniedOfferIsRecorded` | tonpayments/worker.go:438-478 | a half kept after a denied offer is among the series of writes covered |
| `Links.AcceptedOfferIsRecorded` | tonpayments/process.go:581-618 | so is the acceptor's half added later |
| `Links.PairIsLinked` | tonpayments/worker.go:438-478 | the records of a derivative lead from each half to the other |
| `Channel.HonestProposalIsConfirmed` | tonpayments/process.go:40-1188 | an honest proposal on mirrored channels passes the hash check, is co-signed, its reply is confirmed, and both rows mirror each other at the next seqno |
| `Channel.RequestsAgree` | tonpayments/process.go:903-994 | both ends build the same payout message for a cooperative commit without fee |
| `StepTheorems.CommitMessageSays` | tonpayments/api.go:1195-1286 | the payout message is for the next seqno and names the left side first and the right side second, each with everything that side owes through the action |
| `StepTheorems.CommitRequestExactly` | tonpayments/api.go:1195-1286 | it can be built if and only if some side has a state of the action and none was committed at that seqno or later |
| `StepTheorems.CommitPaysTheDifference` | pkg/payments/actions/sendTonInsured.go:154-178 | on it the contract pays left to right exactly what the left side owes more than the right one, once |
| `StepTheorems.CommitStepsExactly` | tonpayments/state.go:549-623 | each end carries a payout out if and only if nothing is pending, it can be built, and the signature on it is the proposer's |
| `StepTheorems.ProposedCommitMovesToHold` | tonpayments/state.go:549-623 | the whole step at its proposer: on each side, in every coin, owed plus held stays what owed was, everything owed through the action is held, and nothing else changes |
| `StepTheorems.ReceivedCommitMovesToHold` | tonpayments/process.go:903-994 | the same at the receiver, with the proposer's signature on the same message |
| `StepTheorems.CommitMovesAvailable` | pkg/payments/types.go:508-521 | until it lands each side's Available falls by exactly what the other had been owing it through the action |
| `StepTheorems.ProposedExecutionExactly` | tonpayments/state.go:248-345 | a node can execute if and only if the resolve is validated as new, the deadline is not past, the record is there, and the conditional and the one linked to it settle |
| `StepTheorems.ReceivedExecutionExactly` | tonpayments/process.go:221-395 | the paying node accepts if and only if the resolve fits what it knows, in time, with both records there, and both settle; what is gone is left alone |
| `StepTheorems.SettlesExactly` | tonpayments/conditional_settlement.go:11-22 | a side settles a conditional if and only if it is there with a state for its action and the resolve is by its key, a derivative that claims nothing with any |
| `StepTheorems.LinkedSettlesExactly` | tonpayments/state.go:300-352 | the linked conditional stops an execution only if its own settlement is impossible: no price, no entry price, or a loss and no state to pay it from |
| `StepTheorems.ProposedExecutionPays` | tonpayments/state.go:248-345 | the conditional goes, its action grows by the payment and the rented deposit is used by as much; a virtual channel pays amount and fee less what is prepaid, a derivative at most one coin more than the loss at the price plus the initiator's fee, and when the price is not against it at most that coin and the fee |
| `StepTheorems.ReceivedExecutionPays` | tonpayments/process.go:221-340 | the same at the paying node |
| `StepTheorems.LinkedSettlesItsLoss` | tonpayments/derivatives_linked.go:124-177 | the linked derivative pays its own loss at the price when the first one claims nothing, and nothing otherwise |
| `StepTheorems.ProposedRentCharges` | tonpayments/state.go:456-548 | the proposer owes the fee, written out over rate, added capacity and added time, through the coin's own action; the other side's deposit is as ordered and keeps what was used |
| `StepTheorems.ReceivedRentCharges` | tonpayments/process.go:996-1120 | the side rented from is owed that fee, which is positive, for at most 366 days and an increase within its limit |
| `StepTheorems.ProposedRentExactly` | tonpayments/state.go:456-548 | a rent can be proposed if and only if the coin has a tariff and an active deposit grows and does not end earlier |
| `StepTheorems.RentIsAcceptedExactly` | tonpayments/process.go:996-1120 | a mirrored rent is accepted if and only if it is for a coin on offer, within term and limit, and costs something |
| `StepTheorems.ProposedSwapPays` | tonpayments/state.go:637-720 | the proposer owes the one coin and the other side the other, each through its own action and deposit |
| `StepTheorems.ReceivedSwapPays` | tonpayments/process.go:798-902 | the same seen from the other side |
| `StepTheorems.ProposedAddPuts` | tonpayments/state.go:35-124 | a conditional is added if and only if its stakes are positive, nothing is prepaid, there is time to settle on chain, it is new and its action is known or sent along; the other half of a derivative has the same stake and entry and the opposite direction and role |
| `StepTheorems.ReceivedAddPuts` | tonpayments/process.go:440-796 | it is accepted if and only if the same holds, a new action is between the channel's own addresses, and a derivative comes from its initiator |
| `StepTheorems.PrepayExactly` | pkg/payments/conditionals/channel.go:202-238 | a prepay is carried out if and only if only the prepaid part changes, not downwards; the action owes the difference at once |
| `StepTheorems.PrepaySteps` | tonpayments/state.go:125-168 | the proposer prepays its own conditional, the receiver the proposer's |
| `StepTheorems.ProposedRemovalDrops` | tonpayments/state.go:169-247 | the other side's conditional goes if its record is there, with the linked one of the own side, and nothing else |
| `StepTheorems.ReceivedRemovalDrops` | tonpayments/process.go:157-220 | the own conditional goes if both records are there, with the linked one of the other side |
| `StepTheorems.LinksAreRead` | tonpayments/state.go:185-215 | which conditional goes along is the one the record names: through its incoming side at the node that receives, its outgoing one at the node that pays |
| `LiveChannel.ChannelObject.UpdateOurStateWithAction` | tonpayments/state.go:26-797 | the in-place edits of the proposer give exactly the channel and the signed body of its transition, and an error otherwise |
| `LiveChannel.ChannelObject.ProcessAction` | tonpayments/process.go:38-1188 | the in-place edits of the receiver give exactly its transition: refusal, a repeat of the known state, or the co-signed new one |
| `NodeStore.PendingDb.SaveChannelPendingState` | tonpayments/db/channel.go:313-347 | data of a signed body is saved under seqno and hash; an entry already there is kept |
| `NodeStore.PendingDb.GetChannelPendingState` | tonpayments/db/channel.go:349-371 | finds exactly the data saved for that body |
| `NodeStore.PendingDb.ScannedExactly` | tonpayments/db/channel.go:373-406 | a scan in key order that stops at the first key not below the bound has visited exactly the keys below it |
| `NodeStore.PendingDb.CleanupChannelPendingStates` | tonpayments/db/channel.go:373-406 | removes exactly the confirmed body and every older seqno |
| `NodeStore.ServiceNode.UpdateChannel` | tonpayments/db/channel.go:202-233 | the row is written exactly when its version is the one that was read |
| `NodeStore.ProposeOn` | tonpayments/state.go:26-797 | editing a working copy in place computes exactly the proposer's transition |
| `NodeStore.ReceiveOn` | tonpayments/process.go:38-1151 | re-executing on a working copy computes exactly the receiver's answer |
| `NodeStore.ServiceNode.StartPropose` | tonpayments/service.go:1740-1790 | the node saves pending data and opens a call as the protocol's step does |
| `NodeStore.ServiceNode.EndProcess` | tonpayments/process.go:1124-1188 | the handler stores and replies as the protocol's step does |
| `NodeStore.ServiceNode.FinishPropose` | tonpayments/service.go:1790-1834 | a verified reply confirms the row and cleans pending states as the protocol's step does |
| `NodeStore.ServiceNode.RecoverFromChain` | tonpayments/service.go:1117-1162 | a published state that is not older and differs is adopted exactly when its data is saved |
| `Protocol.RunKeeps` | tonpayments/service.go:1740-1834 | every run of proposing, handling, losing, retrying, touching and recovering keeps the protocol's invariant |
| `ProtocolTheorems.ConfirmedStatesAgree` | tonpayments/process.go:40-128 | in every reachable state the confirmed seqnos differ by at most one, and equal seqnos mean equal bodies and mirrored dictionaries |
| `ProtocolTheorems.OneSignedBodyPerSeqno` | tonpayments/process.go:1124-1187 | no seqno ever gets two different bodies with a record carrying both signatures; every stored signed state is such a record |
| `ProtocolTheorems.SignedBodiesAreForever` | tonpayments/process.go:1124-1187 | whatever a run does next, the fully signed bodies only grow |
| `ProtocolTheorems.BothSignedExactly` | tonpayments/service.go:1740-1834 | both nodes signed a body if and only if it became a record or each proposed it on its own |
| `ProtocolTheorems.SameLostProposalIsSignedTwice` | tonpayments/worker.go:318-324 | a run of denied offers, lost empty updates and one retried offer after which one seqno has two bodies signed by both nodes |
| `ProtocolTheorems.LooseRecoveryWouldDisagree` | tonpayments/service.go:1117-1162 | in that state, recovering a record put together from two loose signatures would leave two bodies of one seqno confirmed |
| `ProtocolTheorems.ExposedBodiesAreSaved` | tonpayments/service.go:1746-1821 | every body a node signed and sent that the peer could still use has its data saved, with that body's hashes |
| `ProtocolTheorems.RecoveryFindsTheData` | tonpayments/service.go:1117-1162 | on-chain recovery of any newer or differing state that carries both signatures, ours being our own, succeeds, also when the peer never confirmed it; the recovered row hashes to it |
| `ProtocolTheorems.RecoveryExactly` | tonpayments/service.go:1117-1162 | recovery goes through if and only if the record has both signatures, is not older than the row, differs from it and its data is saved; the row then has that data and record on the sides it had them |
| `ProtocolTheorems.UndisturbedProposalCompletes` | tonpayments/service.go:1740-1834 | a call nobody disturbs ends with both rows mirrored at the next seqno and both locks free |
| `ProtocolTheorems.RetryCatchesUpExactly` | tonpayments/process.go:100-128 | after a lost reply, the next call levels the two rows if and only if it proposes the body the peer confirmed |
| `ProtocolTheorems.RetryOfLostReplyLevels` | tonpayments/process.go:100-128 | retrying the same action with the same inputs after a lost reply levels the two rows |
| `ProtocolTheorems.OtherRetryIsRefused` | tonpayments/process.go:100-128 | an empty update after an accepted offer whose reply was lost is refused |
| `Payout.CoinsAreConservedExactly` | pkg/payments/actions/send.go:146-213 | over every run of adding, signing and landing commits, paid plus still payable equals added plus fees if and only if the commit seqnos are in sync or the difference cannot matter |
| `Payout.CoinsAreConserved` | pkg/payments/actions/sendTonInsured.go:154-178 | runs whose commits are signed once both sides have a state conserve every coin |
| `Payout.LateCounterStateBreaksConservation` | pkg/payments/actions/sendTonInsured.go:154-178 | a three-step run in which coins are not conserved |
| `Payout.NetIsOwedDifference` | pkg/payments/actions/sendTonInsured.go:154-178 | with seqnos in sync, the contract's net payment is the difference of what the sides owe |
| `Payout.RemovableOwesNothing` | pkg/payments/actions/send.go:201-213 | in every run a state may be dropped if and only if all that was added on it was paid; when both may be, the contract pays nothing more |
| `Payout.MayCloseCooperatively` | tonpayments/api.go:1288-1393 | a cooperative close goes through if and only if no transfer is pending, all conditionals have expired and nothing is owed on either side |
| `VirtualChannel.CommitsTrackTheLargest` | pkg/payments/conditionals/channel.go:202-238 | after any series of prepay commits the prepaid part is the largest committed amount plus the fee, and the action grew by it |
| `VirtualChannel.PrepayThenExecuteAddsOnce` | pkg/payments/conditionals/channel.go:362-389 | however commits are split, commits and one execution add the larger of final and largest committed amount, plus the fee once |
| `VirtualChannel.ExecuteAgreesWithContract` | pkg/payments/conditionals/channel.go:445-489 | execution adds what the contract adds if and only if prepay <= amount <= capacity |
| `VirtualChannel.CommittedStateOnChain` | pkg/payments/conditionals/channel.go:629-647 | a state prepaid in full is refused on chain if and only if the fee is positive, and off chain costs nothing more |
| `VirtualChannel.DerivativeAgreesWithContract` | pkg/payments/conditionals/resolvable.go:532-600 | a derivative adds what its contract adds; cooperative settlement differs exactly at zero with an initiator's fee |
| `VirtualChannel.ConditionalRecord.AddKnownResolve` | tonpayments/db/types.go:459-473 | accepts exactly what validation lets through, for both kinds of conditional; an ignored older state changes nothing; the known amount of a virtual channel never shrinks |
| `VirtualChannel.ConditionalRecord.AddConditionalResolve` | tonpayments/api.go:484-548 | a resolve from outside is checked against the incoming form when there is one |
| `VirtualChannel.RecordLearns` | tonpayments/api.go:484-548 | a resolve that fits becomes the known one: from outside by the incoming form if there is one, with a request by the outgoing one |
| `VirtualChannel.RecordRefuses` | tonpayments/db/types.go:459-473 | one that does not fit or comes late changes nothing; it is an error unless it came with a request and is only older |
| `VirtualChannel.StateLetThroughExactly` | pkg/payments/conditionals/channel.go:415-443 | a state is let through if and only if it is signed by the channel's key, not negative, and within the capacity or below what is known; it fits if and only if it is within the capacity and not below what is known |
| `VirtualChannel.LetThroughExactly` | pkg/payments/conditionals/channel.go:415-443 | everything let through, also as ignored and older, is within the capacity if and only if the known amount is at most one above it |
| `VirtualChannel.OutgoingIsCoveredExactly` | tonpayments/process.go:221-240 | over every series of arriving resolves, what is let through for the outgoing form while it is open is within its capacity if and only if there is no incoming form more than one coin larger |
| `VirtualChannel.LargerIncomingLetsThrough` | tonpayments/api.go:497-540 | the series that lets a state above the outgoing capacity through while both forms are open |
| `Balance.CalcBalance` | tonpayments/db/types.go:285-380 | fails exactly when a conditional has an unknown coin or no usable price; otherwise every coin gets the sums of coins on chain, holds, action states, locks and pending amounts |
| `Balance.AddActions` | pkg/payments/actions/sendTonInsured.go:109-131 | the loop over action states subtracts what we owe and adds what we are owed, coin by coin |
| `Balance.AddConditionals` | pkg/payments/conditionals/channel.go:174-196 | the loop over conditionals locks what we may owe and shows what we may receive, coin by coin |
| `BalanceTheorems.SymmetricExactly` | pkg/payments/conditionals/resolvable.go:362-425 | what the other side sees pending is what the payer has locked if and only if the conditional is virtual, or its profit is its collateral, or its fee eats up both |
| `BalanceTheorems.ViewsAgree` | tonpayments/db/types.go:285-380 | the two sides' action parts cancel; one side's pending amount is the other's locked amount when every conditional is such |
| `BalanceTheorems.AvailableAddsUp` | pkg/payments/types.go:508-521 | the two Available values sum to the coins on chain minus holds minus locks |
| `BalanceTheorems.DerivativePendingIsNotLocked` | pkg/payments/conditionals/resolvable.go:362-425 | a fresh derivative locks its collateral and fee but shows only the fee as pending |
| `BalanceTheorems.ExecutionMovesAvailable` | tonpayments/state.go:248-345 | executing a conditional with the one linked to it moves both Available values by exactly the locks freed and the coins paid either way, in every coin |
| `BalanceTheorems.LockCoversState` | pkg/payments/conditionals/channel.go:174-196 | a signed state costs no more than was locked if and only if it is within the capacity or already prepaid |
| `BalanceTheorems.LockCovers` | pkg/payments/conditionals/resolvable.go:282-425 | a validated state costs no more than was locked, at any price |
| `BalanceTheorems.LinkLockCovers` | tonpayments/derivatives_linked.go:124-177 | what the linked derivative pays is covered by its own lock, at any price |
| `BalanceTheorems.EmulatedRoiIsWritten` | pkg/payments/conditionals/resolvable.go:362-425 | the emulated profit is the signed move times amount and leverage over the entry price, rounded down, written without a division |
| `BalanceTheorems.DerivativeLockIsWritten` | pkg/payments/conditionals/resolvable.go:362-425 | a derivative locks the larger of collateral and emulated loss, with the initiator's fee on top and the other's taken off |
| `BalanceTheorems.ProposedExecutionIsWithinCapacity` | tonpayments/state.go:248-268 | whatever execution a node proposes was validated: a signed amount is within the capacity |
| `BalanceTheorems.ProposedExecutionNeverLowersAvailable` | tonpayments/state.go:248-345 | the whole execution, linked conditional included, lowers neither side's Available in any coin |
| `BalanceTheorems.ReceivedExecutionIsWithinCapacity` | tonpayments/process.go:221-240 | the same of what the paying side accepts, under the exact guard on its known resolve |
| `BalanceTheorems.ReceivedExecutionNeverLowersAvailable` | tonpayments/process.go:221-340 | the whole execution on the paying side lowers neither Available |
| `BalanceTheorems.AgreedExecutionIsWithinCapacity` | tonpayments/process.go:221-240 | an execution both ends carry out from mirrored channels is within the capacity with no guard |
| `BalanceTheorems.AgreedExecutionNeverLowersAvailable` | tonpayments/process.go:221-340 | and lowers neither side's Available |
| `BalanceTheorems.PrepayMovesAvailable` | pkg/payments/conditionals/channel.go:202-238 | prepaying leaves the payer's Available unchanged but for what exceeds capacity and fee, and raises the other side's by the prepaid part |
| `BalanceTheorems.CommittingKeepsAvailable` | tonpayments/state.go:549-623 | signing a payout moves what is owed to hold: the payer's Available changes only if the prepared amount is negative |
| `BalanceTheorems.PayingMovesAvailable` | tonpayments/state.go:456-548 | a fee paid for rented capacity leaves one side's Available and enters the other's |
| `BalanceTheorems.AddingLocks` | tonpayments/state.go:35-124 | adding a virtual channel lowers the payer's Available by exactly capacity plus fee, and changes nothing for the other side |
| `BalanceTheorems.RemovingFrees` | tonpayments/state.go:169-247 | removing a conditional unpaid gives its payer the whole lock back, and the other side the lock of the linked one dropped with it |
| `RowData.ProposeKeepsSound` | tonpayments/state.go:33-782 | every proposed action keeps conditionals sane, nothing committed that is not owed, deposits used within their size, and a state for every conditional's action |
| `RowData.ReceiveKeepsSound` | tonpayments/process.go:132-1120 | every accepted action keeps conditionals sane, nothing committed that is not owed, and deposits used within their size |
| `RowData.AcceptedIsOk` | tonpayments/process.go:1124-1151 | an accepted row also has a state for every conditional's action, since its body seals the proposer's data |
| `RowData.PreparedIsOwed` | pkg/payments/actions/send.go:146-188 | what a payout prepares is never negative |
| `RowData.ReachableDataIsOk` | tonpayments/service.go:1740-1834 | in every run, of whatever a node stores, proposes, handles or saved: capacities and collaterals are positive, fees and prepays not negative, every conditional's action has a state, amount >= committed >= 0 for every action, and no rented deposit is used beyond its size |
| `RowData.ReachableExecutionIsCovered` | tonpayments/state.go:248-345 | at every reachable moment whatever execution a node proposes is within the capacity and lowers neither side's Available in any coin |
| `RowData.ReachableCommitKeepsAvailable` | tonpayments/state.go:549-623 | at every reachable moment a signed payout leaves the payer's Available exactly as it was |
| `RowData.ReachableBalanceFailsExactly` | tonpayments/db/types.go:285-380 | at every reachable moment the balance of a row can be computed unless it has a derivative without an entry price or with an asset that has no price |
| `RowData.ReachableSplitRentIsNeverCheaper` | tonpayments/db/types.go:382-457 | at every reachable moment a split rent charges the same before rounding and is never cheaper after it |
| `RowData.UsesAddUp` | pkg/payments/actions/send.go:230-255 | using a deposit in steps is using it once, of its own coin only, never beyond its size |
| `RowData.AgreedRentGrows` | tonpayments/process.go:996-1120 | a rent both ends agree on is strictly larger and not shorter than the one in force |
| `Settlement.SettleChannelConditionals` | tonpayments/api.go:1585-1759 | the loop with its running message, two dictionaries and flushes computes the fold the theorems are about |
| `Settlement.MessagesCoverEverything` | tonpayments/api.go:1585-1759 | the messages hold every executable conditional once and in order, one to thirty each, one with a sender alone, each proving the dictionaries the previous ones leave |
| `Settlement.ExpectedFallsShortBy` | tonpayments/api.go:1700-1735 | the expected action dictionary falls short of one-after-another execution by exactly what is overwritten within messages |
| `Settlement.LoopIsLabelled` | tonpayments/api.go:1674-1745 | the message every settled conditional ends up in is the one counted off the input |
| `Settlement.ExpectedIsSequentialExactly` | tonpayments/api.go:1700-1735 | the two are equal if and only if, counted off the input, no conditional that adds coins shares its action and message with a later one |
| `Settlement.TwoOnOneActionFallShort` | tonpayments/api.go:1700-1735 | two conditionals on one action in one message lose what the first adds |
| `Settlement.TagsAreRightExactly` | tonpayments/api.go:1674-1735 | every message names exactly the sender its conditional needs if and only if no failed conditional with a sender comes right before a settled one without |
| `Settlement.FailedSenderTagsTheNext` | tonpayments/api.go:1674-1735 | such a pair tags the wrong message |
| `RowSettlement.HeardResolveFits` | tonpayments/db/types.go:459-473 | whatever resolve a record has come to know fits its conditional |
| `RowSettlement.ReachableSettlementIsComplete` | tonpayments/api.go:1585-1759 | at every reachable moment settlement puts every conditional that has a resolve in exactly one message, and every message names the right sender |
| `RowSettlement.ReachableExpectationExactly` | tonpayments/api.go:1700-1735 | at every reachable moment the expected dictionary is the one of executing everything one after another if and only if none is overwritten within its message |
| `Derivatives.ExactlyOneSideSettles` | tonpayments/derivatives_linked.go:124-177 | at any positive price each side settles within 0 and the collateral: a long when the price is below its entry, a short when it is above, so exactly one of a pair unless the price is the entry; the linked resolve is the linked position's own |
| `Derivatives.LossIsCappedCeiling` | tonpayments/derivatives_resolve.go:65-110 | the settled loss is the ceiling of the stake over the entry price, capped by the collateral |
| `Derivatives.LossIsWritten` | tonpayments/derivatives_resolve.go:65-110 | an amount is the settled loss if and only if it is 0 with the price not against the position, or the collateral with amount * leverage * move >= entry * collateral, or the one with entry * (loss - 1) < amount * leverage * move <= entry * loss |
| `Derivatives.ResolveIsTheLoss` | tonpayments/derivatives_resolve.go:65-110 | a resolve at a price exists if and only if the position is sane and the price positive, and claims exactly that loss |
| `Derivatives.IncomingResolveIsTheProfit` | tonpayments/derivatives_resolve.go:18-63 | the incoming side's resolve claims exactly the outgoing side's profit, rounded down and capped, written the same way |
| `Derivatives.LinkedResolveIsTheLoss` | tonpayments/derivatives_linked.go:124-177 | the linked side settles exactly its own loss when the primary one settles nothing, and nothing otherwise |
| `Derivatives.DerivativeLetThroughExactly` | pkg/payments/conditionals/resolvable.go:282-360 | a derivative's resolve is let through if and only if none is known, it is by its key and not negative, its second is within the window of the latest one, and its amount is within one of the loss at that second's price |
| `Derivatives.RoiIsWritten` | tonpayments/derivatives_worker.go:498-525 | the return is the profit before any cap, rounded down, written without a division |
| `Derivatives.ProfitFormWithinOneOfLossForm` | tonpayments/derivatives_resolve.go:18-63 | the profit form is the loss form or one less, always accepted, and equal exactly when the division is exact or both are capped |
| `Derivatives.RoiReachesCollateral` | tonpayments/derivatives_worker.go:498-525 | the floored return reaches the collateral if and only if (price - entry) * leverage >= entry for a long, (entry - price) * leverage >= entry for a short |
| `Derivatives.LiquidationPaysTheCollateral` | tonpayments/derivatives_worker.go:238-249 | at any such price the linked side's capped loss is the whole collateral |
| `Monitor.DerivativeMonitor.Refresh` | tonpayments/derivatives_worker.go:82-171 | for whatever answers: the scan stops at the first second the source has not yet, at one that is too old, or at an error; the stored monitor is the fold up to there, too-old history is noted once and everything up to now counts as checked, an error stores nothing; liquidation is reported exactly by the call that finds it |
| `Monitor.ScanSeconds` | tonpayments/derivatives_worker.go:104-171 | the loop over seconds computes that monitor, finding and stop |
| `Monitor.SplitsDoNotMatter` | tonpayments/derivatives_worker.go:104-171 | however history is split over refresh calls the monitor is the same and liquidation is reported by exactly one call, if it happened |
| `Monitor.MonitorIsExact` | tonpayments/derivatives_worker.go:446-496 | checked exactly up to then; exact minimum and maximum, first crossing, and first liquidating sample, never before the crossing; blank otherwise |
| `Monitor.NothingCrossesWithoutEntry` | tonpayments/derivatives_worker.go:446-496 | without an entry price nothing crosses or is liquidated |
| `Monitor.OpenedIsCrossed` | tonpayments/derivatives_worker.go:354-417 | on the linked incoming side "opened" is "crossed"; on the other they agree exactly when prices lie on both sides of the entry |
| `Monitor.OpenedWithoutSamples` | tonpayments/derivatives_worker.go:354-417 | before any sample a position counts as opened if and only if it crossed or its history was too old to tell |
| `Monitor.CrossedButNotOpened` | tonpayments/derivatives_worker.go:354-417 | a position that has crossed and is not reported opened |
| `TaskQueue.TaskDb.CreateTask` | tonpayments/db/task.go:295-325 | a known id changes nothing; a new task is indexed and pushes out exactly the live task with the same due time and queue |
| `TaskQueue.SameKeyIsRival` | tonpayments/db/task.go:295-332 | a second task of the same due time and queue takes the index entry of the first |
| `TaskQueue.TaskDb.CompleteTask` | tonpayments/db/task.go:221-259 | the task is finished and leaves the index; the index still holds exactly the live tasks |
| `TaskQueue.TaskDb.RetryTask` | tonpayments/db/task.go:261-293 | the task stays indexed and blocks its queue exactly until the retry time |
| `TaskQueue.TaskDb.AcquireTask` | tonpayments/db/task.go:90-188 | a task is handed out only if due, unblocked, unexpired and the first unfinished one of its queue; none only if every due task is held back by a blocked one at or before it in its queue; only expired tasks leave the index |
| `TaskRuns.LockIsRespected` | tonpayments/db/task.go:90-188 | over every run in which nobody finishes or retries a locked task and everybody asks before its lock passes, it is not handed out again, nor is a later task of its queue while it is indexed; only a task of the same due time and queue can push it out |
| `TaskRuns.HandedOutIsInWork` | tonpayments/db/task.go:160-178 | a task just handed out is such a locked task, for at least five minutes |
| `TaskRuns.MayTakeExactly` | tonpayments/db/task.go:125-158 | field by field, who may be handed out: a lock binds until it passes or the service restarts |
| `TaskRuns.NothingIsSaidOnlyOfHeldTasks` | tonpayments/db/task.go:104-178 | when nothing is handed out, every due task has at or before it one of its queue that is locked by this run of the service or waits for its retry |
| `TaskRuns.ExpiredExactly` | tonpayments/db/task.go:104-178 | a scan drops only what is past its last moment and neither worked on nor waiting |
| `TaskQueue.Scan` | tonpayments/db/task.go:104-178 | the loop with its growing skip list: what it passed was expired, finished or held back, what it stopped at may be taken or is not due |
| `TaskQueue.DueIsHeld` | tonpayments/db/task.go:104-178 | with nothing found, a due unfinished task has a blocked task of its queue at or before it |
| `Codec.PushThenRead` | pkg/payments/vm/ops.go:10-49 | reading back an encoded integer below 2^256 in magnitude, whatever bits follow, gives it and exactly those bits |
| `Codec.PushIsLaid` | pkg/payments/vm/ops.go:10-49 | the code of an integer, bit by bit: opcode 0x80 and 8 bits, 0x81 and 16 bits, or 0x82, a 5-bit size and that many bits, in two's complement, padded with the sign where the size exceeds 257 bits |
| `Codec.ParseOfCode` | pkg/payments/conditionals/channel.go:51-168 | parsing serialized fields gives them back if and only if fee, capacity and prepay are in 0 .. 2^127 - 1, the deadline in 1 .. 2^32 - 1 and the action is known, and fails otherwise |
| `Codec.CodeFitsCellExactly` | pkg/payments/conditionals/channel.go:51-62 | valid fields fit 1023 bits unless hash and key reach 2^250, the deadline 2^26 and fee, capacity and prepay 2^122, all at once |
| `Codec.CornerIsOneBitTooLong` | pkg/payments/conditionals/channel.go:51-62 | the smallest valid fields that do not fit |
| `Tunnel.GenerateTunnel` | tonpayments/transport/types.go:396-465 | an empty chain is an error; otherwise every hop's instruction names its own and the next part and, after patching, the next instruction's key |
| `Tunnel.LastKeyIsTheSenders` | tonpayments/transport/types.go:412-430 | the last hop is keyed by the sender when it gave a key, every other hop by a fresh key |
| `Tunnel.TunnelOpensExactly` | tonpayments/process.go:500-690 | following the instructions re-creates the chain, and all hops accept if and only if every hop's terms are met by the chosen parts |
| `Tunnel.VisitFollows` | pkg/payments/conditionals/channel.go:264-360 | a hop forwards exactly the next part of the chain, with its key, fee, capacity, deadline and the action of its channel to the next target; ends exactly at the last; or refuses exactly when its terms are not met |
| `Tunnel.RepeatedTargetEndsEarly` | tonpayments/process.go:512-515 | a node named twice in a row never forwards |
| `Tunnel.OpenTunnelPromises` | pkg/payments/conditionals/channel.go:264-360 | between any two hops capacity never grows, deadlines shrink by every margin, and payments differ by what the nodes in between keep, at least their minimum fees |
| `Tunnel.AcceptedTunnelIsFair` | tonpayments/process.go:636-640 | in an accepted tunnel sender payment is receiver payment plus all margins, and every intermediary nets at least its minimum fee |
| `Tunnel.PaymentIsExecution` | pkg/payments/conditionals/channel.go:445-489 | the payment of a hop is what executing its conditional adds |
| `Rent.UnitsAreFreeGained` | tonpayments/db/types.go:382-457 | an accepted rent charges exactly the free coin-seconds it gains |
| `Rent.SplitRentChargesTheSame` | tonpayments/db/types.go:382-457 | before rounding, any growing series of rents made at one instant charges what the last alone would |
| `Rent.SplitRentIsNeverCheaper` | tonpayments/state.go:499-515 | after rounding and the fixed fee, splitting a rent is never cheaper |
| `Phases.PhaseNeverGoesBack` | pkg/payments/channel.go:192-213 | with the storage fixed, the phase never goes backwards |
| `Phases.OurSide.ProcessSideUpdate` | tonpayments/service.go:687-850 | the first closing update schedules a challenge if and only if a close by the counterparty at an older state can still be answered, and the task of every phase that is not over yet, each window ending as much after its phase as it starts; every other update schedules nothing |
| `Phases.PlanIsScheduled` | tonpayments/service.go:741-832 | the fall-through from the phase first seen schedules exactly that |
| `Phases.SettleStartsInPhaseExactly` | tonpayments/service.go:766-786 | settling starts in its phase if and only if the counterparty's state is there, the phase lasts over three seconds and the start does not wrap |
| `Phases.SettleActionsStartsInPhaseExactly` | tonpayments/service.go:787-809 | the same for executing actions |
| `Phases.FinalizeStartsInPhaseExactly` | tonpayments/service.go:810-832 | finalization starts in its phase if and only if its start does not wrap or, without the counterparty's state, the wrap takes off less than the phases waited out |
| `Phases.WrappedStartIsTooEarly` | tonpayments/service.go:766-786 | a start that wraps falls in the closure phase |
| `Phases.PlanStartsInPhase` | tonpayments/service.go:741-832 | whichever phase the close was first seen in, every scheduled task starts in the phase it needs |
| `Phases.NothingToSettleWithoutTheirState` | pkg/payments/channel.go:192-213 | without the counterparty's state the settling phases never come |
| `MetaIndex.MetaDb.CreateVirtualChannelMeta` | tonpayments/db/virtual-channel.go:24-51 | a new key is stored; the index holds exactly the active, incoming records with special details |
| `MetaIndex.MetaDb.UpdateVirtualChannelMeta` | tonpayments/db/virtual-channel.go:53-90 | a known key is replaced; the index stays exact |
| `MetaIndex.MetaDb.ClosePairMeta` | tonpayments/db/virtual-channel.go:146-224 | the record and its existing partner get the status, nothing else changes, the index stays exact |
| `MetaIndex.PartnerExactly` | tonpayments/db/virtual-channel.go:160-190 | the partner is whom the incoming side names, or else whom the outgoing side names, if recorded and not the record itself |
| `MetaIndex.MetaDb.IndexSays` | tonpayments/db/virtual-channel.go:226-250 | the index holds a key if and only if its record is active, has an incoming side and special details |
| `MetaIndex.MetaDb.SyncIndex` | tonpayments/db/virtual-channel.go:226-250 | the index gains the new record if watched and loses the old one otherwise |
| `MetaIndex.ClosingEitherSideIsTheSame` | tonpayments/db/virtual-channel.go:146-224 | closing either record of a pair gives the same table with both at the same status |
| `MetaIndex.PairsStayEqual` | tonpayments/db/virtual-channel.go:146-224 | pairs with one status keep one status over any series of closes |

## Left out

- Network transports, wallet, chain scanning, HTTP interface, webhooks, metrics, command line and configuration.
- Signatures, ciphers, Merkle proofs and cell encoding: assumed sound and injective.
- Encryption of instructions, padding and stub instructions.
- The cross-node lock watchdog: its single external lock is released without checking who holds it.
- Proposals made while holding another channel's lock (removing a conditional with an outgoing side in the worker).
- Requests handled after the proposer's call has ended: the protocol model has none.
- Vault actions: their balance emulation ignores the payer on purpose.
- Float display arithmetic, candles and price providers; a hop's proportional fee is a given function.
- Removing an action and executing a transaction for the peer: no agreed state changes hands.
- Actions that touch several coins: every modelled action is an insured send of one coin.
- Channel.StepsKeepMirror: cooperative commit is taken without fee, because the two ends choose the fee's side differently.
- Protocol.RunKeeps: recovery takes records that were assembled in the run, since one put together from two loose signatures breaks agreement (`LooseRecoveryWouldDisagree`).
- Links.WritesKeep: a key is generated for one conditional, so two nodes never write records of different conditionals under one key.
- RowData.ReachableExecutionIsCovered: the conditional and the derivative linked to it have a current price, without which there is no balance to report.
- Payout.CoinsAreConservedExactly: one commit pending at a time, as the node's own check demands.
- Monitor.SplitsDoNotMatter: answers are stable and never too old; `Refresh` covers all others, call by call.
- Codec.ParseOfCode: the code reference of the cell is taken as present and right.
- Balance.CalcBalance: known coins cover on-chain balances and pending transfers, as the code dereferences them unchecked.
- TaskQueue.TaskDb.AcquireTask: one pool; storage errors and undecodable records are not modelled; entries are deleted at the end of the transaction rather than during the scan.
