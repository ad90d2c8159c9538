# A verified model of the Counterfactual channel engine

Two people share a multisignature wallet. What each of them may take out of it is written in a *free
balance*: per token, a list of recipients and amounts, together with the set of active apps. Installing
an app moves deposits out of the free balance, uninstalling it moves its outcome back in, and a
withdrawal takes funds out of the wallet. Every change is signed by everyone concerned in a protocol of
several messages, each party computing the new channel from its own store. A *virtual* app is installed
between two people through an intermediary who puts up the opposite deposit in each of her channels.
`modules/cf-core` implements this; `modules/client` adds the retry of withdrawals that the node submits.

`dafny verify dfyconfig.toml` checks the whole project.

## How the model is laid out

| modules | what they hold |
|---|---|
| `OrderedMaps`, `Sorting` | maps that keep insertion order, because order reaches the hashes that are signed; the stable sort with a comparator that never says "equal" |
| `Models`, `FreeBalances`, `StateChannels` | the values, the mutable free-balance object, and every channel transition |
| `DirectTransitions`, `Withdrawals`, `ChannelRuns` | what install, uninstall and withdraw compute, and what every sequence of transitions keeps |
| `Conservation`, `Witnesses` | where the funds go over whole runs; reachable channels on which a transition fails its purpose |
| `Protocols`, `Choreography`, `ProtocolRuns`, `AbandonedRuns` | role generators as lists of opcodes run interleaved over a network that loses messages, with roles that may stop anywhere; what holds in every interleaving, and what an abandoned one can leave |
| `Countersigning`, `VirtualSignatures` | who signed what: the signatures, with their keys and contents, that whoever has persisted holds |
| `Scripts`, `StaticChecks` | the generators of all protocols, yield by yield, and the conditions under which the general theorems apply to them |
| `Setups` | the channel two people set up, and who signs for it |
| `Desync`, `AppDesync`, `Proposals`, `HubDesync` | how far two stores can drift apart over whole histories of runs |
| `VirtualApps`, `VirtualRuns`, `VirtualMoney`, `VirtualRemoval`, `VirtualRoundTrip` | the three views of a virtual app, their runs, who pays what, what an uninstall removes, and that it undoes the install |
| `Queues`, `QueueWitnesses` | the multi-lock queue, callback by callback, the object that implements it, and runs on which it fails |
| `Routing` | the table of open waits and the loop that drives a generator |
| `Lookup`, `Persistence` | orders that must not matter; the stored form of channels |
| `WithdrawalRetry` | the client's withdrawal retry with crashes and restarts |

## Assumptions

- Hashing and ABI encoding are injective: a digest is the list of the fields it covers, and a signature
  is a signer with a digest. The k-th address of an extended key is an injective function
  (`Environment.Valid`), as is the number an address parses to when addresses are sorted; the lemmas in
  `Sorting` and `Lookup` say exactly what happens when the latter is not.
- Outcomes and next states computed by contracts are deterministic functions of the contract and the state.
- Runs on one channel follow one another in `Desync`, `AppDesync`, `Proposals` and `HubDesync`. The engine does not
  enforce this for incoming protocol messages (`modules/cf-core/src/node.ts:357-377` dispatches them
  without any queue), so it is a hypothesis here.
- Token keys are checksummed wherever a free balance is read back after a change.

## Where the code does not do what its comments or its names promise

Each has a lemma with the exact condition, or one for all inputs of the kind; those in brackets give an
input that fails.

- An app's identity hash covers its number and participants only
  (`modules/cf-core/src/ethereum/utils/app-identity.ts:5-12`), although an identity also has a definition
  and a timeout. The refund app of a withdrawal reuses the number and keys of the latest proposal, so a
  withdrawal silently drops that proposal or installed app: `Withdrawals.WithdrawKeepsAppsIff`
  (`Witnesses.WithdrawalDropsAProposal`). What the app had locked is lost:
  `Conservation.WithdrawConservesIff` (`Witnesses.WithdrawalLosesFunds`).
- An install signs the conditional transaction of the app with the highest number, which need not be the
  one being installed: `ChannelRuns.InstallSignsForItsAppIff` (`Witnesses.InstallSignsForAnotherApp`).
- A token key that is not checksummed is renamed at the next read, and collides with its checksummed
  form: `FreeBalances.SerializationRoundTrip` (`Witnesses.RenamedTokenLoses`).
- A coin-transfer outcome that names one recipient twice pays only the second entry:
  `DirectTransitions.CoinTransferPaysItsSumIff` (`Witnesses.RepeatedRecipientLoses`).
- The outcome of a virtual app of the two-party fixed type is keyed by addresses that the uninstall never
  looks up, so nobody is paid: `VirtualMoney.FixedOutcomePaysNobody`.
- The comment on `runTaskWithMemoization` says the task runs once overall. It does if and only if calling
  it gives a promise: `Queues.ExactlyOnceIff` (`QueueWitnesses.NoPromiseRunsTwice`). A task that gives
  none can also start again while a later task holds its lock: `Queues.EarlierStartsAgainIff`
  (`QueueWitnesses.NoPromiseOverlaps`).
- A task that names a lock twice waits for itself for ever: `Queues.DrainedIffNoRepeats`
  (`QueueWitnesses.RepeatedLockIsStuck`).
- The proposer persists before it has sent anything, so abandoned proposals add up. From then on a
  proposal is accepted if and only if the counters are equal, which takes as many lone proposals of the
  side behind: `Proposals.AcceptedAfterHistoryIff` (`Proposals.DriftGrows`). The two stores may then hold
  different proposals under one hash: `Proposals.EqualCountersHideDifferentProposals`.
- In a virtual install the intermediary and the responder send before they persist, so any of the three
  parties may be the only one to persist: `VirtualRuns.VirtualInstallLeavesAnySubset`.
- A wait that times out leaves its deferral registered: `Routing.Node.CloseWait`. The message it throws
  speaks of 30 seconds, the timer of 60.
- Addresses are compared after rounding to a double; two that round to the same number keep their order of
  arrival: `Lookup.TwoPartyKeysIgnoreOrderIff`.
- The client looks for its withdrawal only if the recipient has ever sent a transaction itself:
  `WithdrawalRetry.SilentRecipientIsMissed`.
- A withdrawal that has failed three times should stop the client. It only stops the client from connecting: one
  that is up goes on, and its next withdrawal overwrites the stored one: `WithdrawalRetry.ExhaustedIsReplacedIff`
  (`WithdrawalRetry.NewWithdrawalOverwrites`).

## Model

| member | source | states |
|---|---|---|
| `Sorting.SortIsStable` | modules/cf-core/src/machine/xkeys.ts:18-26 | Elements with the same parsed key keep their order of arrival: the comparator never answers "equal" |
| `Sorting.OrderIndependentIff` | modules/cf-core/src/machine/xkeys.ts:18-20 | Sorting forgets the order of arrival if and only if no two different elements parse to the same number |
| `Models.AppInstance.SetState` | modules/cf-core/src/models/app-instance.ts:273-297 | Fails exactly when the state does not encode; keeps the identity hash; raises the version by one |
| `FreeBalances.ListMapRoundTrip` | modules/cf-core/src/models/free-balance.ts:287-303 | List to map to list is the identity exactly on lists without repeated recipients; map to list to map always is |
| `FreeBalances.SerializationRoundTrip` | modules/cf-core/src/models/free-balance.ts:245-283 | Reading back a written free balance gives the same active apps and ordered balances if and only if every token key is already checksummed |
| `FreeBalances.ReadsAsManyListsAsTokens` | modules/cf-core/src/models/free-balance.ts:245-265 | Reading throws if and only if there are fewer lists of balances than tokens; further lists are ignored |
| `FreeBalances.ReadsActiveAppsOnce` | modules/cf-core/src/models/free-balance.ts:260-263 | Reading lists every active app once |
| `FreeBalances.MergeAdds` | modules/cf-core/src/ethereum/utils/free-balance-app.ts:48-62 | Merging adds two maps address by address, a missing entry counting as zero |
| `FreeBalances.MergeTotal` | modules/cf-core/src/ethereum/utils/free-balance-app.ts:48-62 | Merging adds the totals |
| `FreeBalances.FlipTokens` | modules/cf-core/src/ethereum/utils/free-balance-app.ts:17-40 | Flipping negates every amount and every token total and keeps the order of tokens |
| `FreeBalances.IncrementEffect` | modules/cf-core/src/models/free-balance.ts:179-202 | One call to increment adds every increment to its balance and total and changes no other balance and no active app |
| `FreeBalances.IncrementSucceedsIff` | modules/cf-core/src/models/free-balance.ts:179-202 | increment succeeds if and only if no account of any token would be overdrawn |
| `FreeBalances.IncrementKeepsCanonical` | modules/cf-core/src/models/free-balance.ts:179-202 | increment keeps tokens and recipients unique, token keys checksummed and balances non-negative |
| `FreeBalances.BalanceNonNegative` | modules/cf-core/src/models/free-balance.ts:187-194 | No balance of a canonical free balance is negative |
| `FreeBalances.ActiveSets` | modules/cf-core/src/models/free-balance.ts:156-164 | Adding and removing an active app are set insertion and deletion; removing undoes adding |
| `FreeBalances.ActiveAppsKeepTheirOrder` | modules/cf-core/src/models/free-balance.ts:156-164 | The active apps, whose order is signed, are listed in the order of their activation |
| `FreeBalances.FreeBalanceClass.constructor` | modules/cf-core/src/models/free-balance.ts:69-76 | The object holds what it is built from |
| `FreeBalances.FreeBalanceClass.HasNegative` | modules/cf-core/src/models/free-balance.ts:187-194 | Finds an amount below zero exactly when there is one |
| `FreeBalances.FreeBalanceClass.Increment` | modules/cf-core/src/models/free-balance.ts:179-202 | The in-place loop computes the specified increment, or throws having written exactly the tokens before the failing one |
| `FreeBalances.FreeBalanceClass.AddActiveApp` | modules/cf-core/src/models/free-balance.ts:161-164 | In-place insertion into the active apps |
| `FreeBalances.FreeBalanceClass.RemoveActiveApp` | modules/cf-core/src/models/free-balance.ts:156-159 | In-place deletion from the active apps |
| `FreeBalances.FreeBalanceClass.ToAppInstance` | modules/cf-core/src/models/free-balance.ts:95-99 | The app instance whose state is the serialised object, one version later |
| `StateChannels.ReadsWhatItHolds` | modules/cf-core/src/models/state-channel.ts:195-197 | The free balance read from a channel is the one its app state holds |
| `StateChannels.AddActiveEffect` | modules/cf-core/src/models/state-channel.ts:247-254 | Activating an app with increments succeeds exactly when the increments do, applies both, and moves the free balance two versions on |
| `StateChannels.RemoveActiveEffect` | modules/cf-core/src/models/state-channel.ts:256-263 | The same for deactivating |
| `StateChannels.IncrementThroughObject` | modules/cf-core/src/models/state-channel.ts:223-229 | The channel method that works through the mutable object returns the specified channel, or fails leaving the channel untouched although the object is half written |
| `StateChannels.OnlyNegativeBalance` | modules/cf-core/src/models/free-balance.ts:187-194 | increment has one way to fail: a negative balance |
| `DirectTransitions.DecrementAmounts` | modules/cf-core/src/protocol/install.ts:366-386 | The two deposits are both taken, of one token or of two, and nothing else |
| `DirectTransitions.InstallLocksItsLimit` | modules/cf-core/src/protocol/install.ts:417-488 | Per token, what the install takes equals the most its interpreter may pay out, for all three outcome types, unless the limit is disabled |
| `DirectTransitions.InstallAppEffect` | modules/cf-core/src/models/state-channel.ts:420-460 | installApp fails exactly on wrong participants or an overdraft; otherwise it stores the app under its identity hash, drops the proposal, activates the app and applies the decrements |
| `DirectTransitions.InstallSucceedsIff` | modules/cf-core/src/protocol/install.ts:313-392 | An install succeeds if and only if the outcome type admits the two tokens, the participants extend the signing keys, and both depositors can afford their deposit |
| `DirectTransitions.InstallMovesDeposits` | modules/cf-core/src/protocol/install.ts:366-391 | An install lowers exactly the two depositors' balances by their deposits and the channel's total by the limit |
| `DirectTransitions.FixedOutcomePaysTheLimit` | modules/cf-core/src/protocol/utils/get-outcome-increments.ts:116-144 | Each of the three fixed outcomes pays out exactly the amount of the interpreter parameters in all, an odd amount included; who is paid is FixedOutcomePaysEachPlayer |
| `DirectTransitions.FixedAppReturnsItsDeposits` | modules/cf-core/src/protocol/utils/get-outcome-increments.ts:116-144 | Uninstalling a fixed-outcome app pays out what its install took, token by token |
| `DirectTransitions.FixedOutcomePaysEachPlayer` | modules/cf-core/src/protocol/utils/get-outcome-increments.ts:116-144 | Code zero pays all to the first player, one all to the second, and anything else half to the first, rounded toward zero, and the rest to the second; nobody else is paid, and no other token |
| `DirectTransitions.FixedAppPaysItsPlayers` | modules/cf-core/src/protocol/install.ts:431-449 | From install to uninstall, whatever states the app went through, the initiator pays its deposit and gets the first share of both, the responder its own and the second share, as the contract decides from the last state; no other balance changes |
| `DirectTransitions.CoinTransferPaysItsSumIff` | modules/cf-core/src/protocol/utils/get-outcome-increments.ts:165-182 | A coin-transfer outcome pays the sum of its amounts if and only if its recipients differ or the first amount is zero |
| `DirectTransitions.MultiAssetPays` | modules/cf-core/src/protocol/utils/get-outcome-increments.ts:146-163 | Each token of a multi-asset app is paid from its own list of transfers, in the order of the tokens |
| `DirectTransitions.UninstallAppEffect` | modules/cf-core/src/models/state-channel.ts:462-490 | uninstallApp removes the app and its active flag and applies the increments, or fails exactly when they overdraw |
| `DirectTransitions.UninstallAppSucceedsIff` | modules/cf-core/src/models/state-channel.ts:462-490 | An uninstall succeeds if and only if the app is there, under its own hash, and the increments overdraw nobody |
| `DirectTransitions.UninstallMovesPayout` | modules/cf-core/src/protocol/uninstall.ts:151-165 | An uninstall adds exactly the outcome's increments to the balances and totals, and two versions |
| `Withdrawals.MostRecentIsMax` | modules/cf-core/src/models/state-channel.ts:105-112 | The most recently installed app has the largest sequence number of all |
| `Withdrawals.MostRecentProposalIsMax` | modules/cf-core/src/models/state-channel.ts:114-121 | The most recently proposed instance is the one with the largest number |
| `Withdrawals.RefundAppIsMostRecent` | modules/cf-core/src/protocol/withdraw.ts:78-80 | The app a withdrawal uninstalls is the refund app it has just installed |
| `Withdrawals.WithdrawEffect` | modules/cf-core/src/protocol/withdraw.ts:206-209 | A completed withdrawal lowers the initiator's balance of the token by the amount in the signed withdrawal commitment and no other balance, adds four versions, and removes whatever was stored under the refund app's hash; it fails exactly on an overdraft |
| `Withdrawals.WithdrawKeepsAppsIff` | modules/cf-core/src/protocol/withdraw.ts:527-571 | Installed apps and proposals survive a withdrawal if and only if the latest proposal is neither pending nor installed |
| `Withdrawals.RefundGuardsTheWithdrawal` | modules/cf-core/src/protocol/withdraw.ts:543-564 | The refund app whose conditional transaction is signed has the recipient, wallet, amount and token of the withdrawal that is signed |
| `Withdrawals.RefundAppIs` | modules/cf-core/src/protocol/withdraw.ts:541-564 | The refund app is between the keys of the latest number, at version zero, with a timeout of 1008 blocks |
| `Withdrawals.ProposedDepositsAreTaken` | modules/cf-core/src/protocol/propose.ts:167-190 | Proposed and installed from the mirrored copy, each side pays the deposit and token the proposal named for it |
| `ChannelRuns.ProposalIsFresh` | modules/cf-core/src/protocol/propose.ts:52-79 | A new proposal gets a number above every other and a hash in use nowhere, and is the most recently proposed |
| `ChannelRuns.ProposeStores` | modules/cf-core/src/protocol/propose.ts:167-190 | Either side stores the new proposal under the next number, with its own view of the two deposits, which are in ether unless a token is named, and changes no other |
| `ChannelRuns.RejectRemoves` | modules/cf-core/src/models/state-channel.ts:324-334 | A rejection removes exactly that proposal |
| `ChannelRuns.ProposalNumbersDiffer` | modules/cf-core/src/models/state-channel.ts:311-322 | Pending proposals have pairwise different numbers |
| `ChannelRuns.UpdateKeeps` | modules/cf-core/src/models/state-channel.ts:361-373 | setState keeps the invariant and every app under its own identity hash |
| `ChannelRuns.InstallKeeps` | modules/cf-core/src/models/state-channel.ts:420-460 | Installing a pending proposal keeps the invariant |
| `ChannelRuns.UninstallKeeps` | modules/cf-core/src/models/state-channel.ts:462-490 | Uninstalling keeps the invariant and adds two versions |
| `ChannelRuns.AddAgreementKeeps` | modules/cf-core/src/models/state-channel.ts:375-395 | Adding an intermediary agreement keeps the invariant and adds two versions |
| `ChannelRuns.RemoveAgreementKeeps` | modules/cf-core/src/models/state-channel.ts:397-418 | Removing one keeps the invariant and adds two versions |
| `ChannelRuns.WithdrawKeeps` | modules/cf-core/src/protocol/withdraw.ts:527-571 | A withdrawal keeps the invariant and adds four versions |
| `ChannelRuns.InstallSignsForItsAppIff` | modules/cf-core/src/protocol/install.ts:508-525 | The conditional transaction signed in an install is for the app being installed if and only if no installed app has a higher number |
| `ChannelRuns.InstallSignsForWhatItLocks` | modules/cf-core/src/protocol/install.ts:508-547 | When it is for the app being installed, the signed transaction names this wallet, its owners and free balance, the outcome type proposed, and in every token the limit that the install takes |
| `ChannelRuns.EveryRunKeeps` | modules/cf-core/src/models/state-channel.ts:336-490 | In every reachable channel the active apps are the installed apps and agreement targets, apps sit under their own hashes, numbers stay below the counter, proposals and apps are disjoint, no balance is negative, and the version is twice the number of free-balance updates |
| `ChannelRuns.NoBalanceIsEverNegative` | modules/cf-core/src/models/free-balance.ts:187-194 | No account of any token is negative in any reachable channel |
| `ChannelRuns.VersionIdentifiesFreeBalance` | modules/cf-core/src/models/state-channel.ts:223-271 | Along any run versions never fall, and two channels with the same version hold the same free balance |
| `ChannelRuns.SetupIsOk` | modules/cf-core/src/models/state-channel.ts:273-292 | A channel fresh from setup satisfies the invariant at version zero |
| `Conservation.StepAccounts` | modules/cf-core/src/models/state-channel.ts:375-490 | After every transition, what is free, locked and withdrawn has fallen by exactly what that transition loses: unpaid locks, a second agreement for one target, the app a withdrawal drops |
| `Conservation.FundsAreAccountedFor` | modules/cf-core/src/models/state-channel.ts:375-490 | Over every run the total falls by exactly the sum of the losses, token by token, with no condition on payouts or withdrawals |
| `Conservation.FundsAreConservedIff` | modules/cf-core/src/models/state-channel.ts:375-490 | The total is the same at every point of a run if and only if no transition of it loses anything |
| `Conservation.WithdrawConservesIff` | modules/cf-core/src/protocol/withdraw.ts:527-571 | A withdrawal keeps the total if and only if nothing is locked under the hash the refund app shares with the latest proposal; in particular when that proposal is gone or only pending |
| `Conservation.WithdrawAfterInstallLoses` | modules/cf-core/src/protocol/withdraw.ts:527-571 | Installing the latest proposal and then withdrawing loses exactly the deposits of the install, for every channel, proposal and withdrawal |
| `Witnesses.WithdrawalLosesFunds` | modules/cf-core/src/protocol/withdraw.ts:527-571 | A channel reached from setup by a deposit, a proposal and its install, on which a withdrawal of one loses four |
| `Witnesses.WithdrawalDropsAProposal` | modules/cf-core/src/protocol/withdraw.ts:527-571 | A channel reached from setup by a deposit and a proposal, on which a withdrawal drops the proposal |
| `Witnesses.InstallSignsForAnotherApp` | modules/cf-core/src/protocol/install.ts:508-525 | A channel reached from setup by two proposals and the install of the second, on which installing the first signs for the second |
| `Witnesses.RenamedTokenLoses` | modules/cf-core/src/models/free-balance.ts:245-264 | A fresh channel credited under a token and under its unchecksummed form, whose next read has lost one of the two |
| `Witnesses.RepeatedRecipientLoses` | modules/cf-core/src/protocol/utils/get-outcome-increments.ts:165-182 | A coin transfer of five and then seven to one recipient pays seven |
| `Protocols.CountersignedPersistence` | modules/cf-core/src/protocol/utils/signature-validator.ts:5-25 | Whatever the other roles and the network do, forged messages included: a role that has persisted holds, for each state it saved, a signature on exactly that state under the key of the run's signer; whose key that is, in each protocol, is stated in Countersigning and VirtualSignatures |
| `Protocols.PersistedHoldsWhatItChecks` | modules/cf-core/src/protocol/utils/signature-validator.ts:5-25 | Whatever the others and the network do, a role that has persisted holds every signature its generator checks before persisting |
| `Protocols.BindSetsEveryVariable` | modules/cf-core/src/protocol/withdraw.ts:92-98 | Destructuring a reply sets each variable to the field in its place; one without a field is undefined afterwards, so that its check fails |
| `Protocols.OthersStayInFlight` | modules/cf-core/src/node.ts:242-263 | A message that is delivered or lost leaves every other one in flight |
| `Countersigning.OneRoundChecksAll` | modules/cf-core/src/protocol/take-action.ts:74-80 | In setup, update, take-action and uninstall both sides check every signature they receive before they persist |
| `Countersigning.InstallChecksAll` | modules/cf-core/src/protocol/install.ts:96-133 | The same for both sides of an install |
| `Countersigning.WithdrawInitiatorChecksAll` | modules/cf-core/src/protocol/withdraw.ts:111-204 | The same for the initiator of a withdrawal, the signature on the withdrawal itself included |
| `Countersigning.WithdrawResponderChecksAll` | modules/cf-core/src/protocol/withdraw.ts:329-484 | The same for its responder |
| `Countersigning.DeedIsCountersigned` | modules/cf-core/src/protocol/install.ts:129-133 | Whoever has persisted an install, uninstall or withdrawal holds a signature on the commitment to the free balance it persisted, made by the other party's free-balance account, which with different keys is not its own |
| `Countersigning.InstallIsConditional` | modules/cf-core/src/protocol/install.ts:96-100 | Whoever has persisted an install holds the other party's signature on the conditional transaction |
| `Countersigning.WithdrawalIsCountersigned` | modules/cf-core/src/protocol/withdraw.ts:200-228 | Whoever has persisted a withdrawal holds the other party's signatures on the withdrawal for the recipient, amount and token asked for, and on the refund app's conditional transaction and free balance |
| `Countersigning.ChangeIsCountersigned` | modules/cf-core/src/protocol/take-action.ts:74-80 | Whoever has persisted an update or action holds the other user's signature, with the key of the app's number, on the next version with exactly the new state |
| `Countersigning.ProposalIsCountersigned` | modules/cf-core/src/protocol/propose.ts:209-215 | A responder that has persisted a proposal holds the proposer's signature on the app's initial state |
| `Countersigning.ProposerIsAnswered` | modules/cf-core/src/protocol/propose.ts:122-128 | A proposer whose generator has ended holds the responder's |
| `Countersigning.ProposedIsInstalled` | modules/cf-core/src/protocol/propose.ts:83-99 | What both sign when an app is proposed is the commitment to the app that installing the proposal stores, which is the app proposed |
| `Setups.SetupStartsEmpty` | modules/cf-core/src/models/free-balance.ts:209-243 | A new channel owes nobody anything in any token, and has no apps, proposals or agreements |
| `Setups.FreeBalanceAppIs` | modules/cf-core/src/models/free-balance.ts:228-242 | The free balance app is between the two first addresses, pays by the multi-asset interpreter, and starts at version zero with a timeout of two days |
| `Setups.AccountsAreThePeoples` | modules/cf-core/src/models/state-channel.ts:181-193 | Exactly the two people have a free-balance account, at their first address |
| `Setups.SetupCommitmentIs` | modules/cf-core/src/protocol/setup.ts:39-44 | What is signed names the wallet, its two owners and the free balance app they take part in |
| `Setups.SetupIsCountersigned` | modules/cf-core/src/protocol/setup.ts:65-71 | Whoever has persisted the new channel holds the other's signature on exactly that |
| `Setups.HonestSetup` | modules/cf-core/src/protocol/setup.ts:22-127 | An undisturbed setup fails no check and is persisted by both; in no run does the initiator persist alone |
| `ProtocolRuns.SingleBaton` | modules/cf-core/src/node.ts:204-238 | At most one message is in flight; its receiver has an open wait for exactly that message or is started by it or has stopped; no reply is dropped or taken for an opening message |
| `ProtocolRuns.CheckFailsIffViewsDiffer` | modules/cf-core/src/protocol/utils/signature-validator.ts:5-25 | A signature check fails if and only if its recipient and its signer compute different documents |
| `ProtocolRuns.PersistedMeansAgreed` | modules/cf-core/src/protocol/utils/signature-validator.ts:5-25 | What a role persists, its counterparties have computed too |
| `ProtocolRuns.PersistedComputes` | modules/cf-core/src/machine/protocol-runner.ts:137-164 | A role whose computation of the new channel throws persists nothing |
| `ProtocolRuns.PersistOrder` | modules/cf-core/src/node.ts:253-263 | When one role persists before sending a message and another only after receiving it, the second never persists alone |
| `ProtocolRuns.FaultlessRunCompletes` | modules/cf-core/src/machine/protocol-runner.ts:137-164 | From agreeing views and without faults no check fails, every interleaving is bounded, and a run that cannot go on has persisted everywhere |
| `StaticChecks.OneRoundIsWellFormed` | modules/cf-core/src/protocol/update.ts:19-153 | The setup, update, take-action and uninstall generators exchange exactly the messages of one table, with its fields, and read no variable before it is set |
| `StaticChecks.OneRoundIsCountersigned` | modules/cf-core/src/protocol/take-action.ts:19-157 | Both sides persist only after the signature check |
| `StaticChecks.ProposeIsWellFormed` | modules/cf-core/src/protocol/propose.ts:25-246 | The same for propose |
| `StaticChecks.InstallIsWellFormed` | modules/cf-core/src/protocol/install.ts:49-297 | The same for install |
| `StaticChecks.InstallIsCountersigned` | modules/cf-core/src/protocol/install.ts:129-154 | Both sides of an install persist only after checking the free-balance signature |
| `StaticChecks.WithdrawIsWellFormed` | modules/cf-core/src/protocol/withdraw.ts:51-505 | The same for withdraw |
| `StaticChecks.WithdrawIsCountersigned` | modules/cf-core/src/protocol/withdraw.ts:224-274 | Both sides of a withdrawal persist only after checking the signature on the final free balance |
| `StaticChecks.InstallVirtualAppIsWellFormed` | modules/cf-core/src/protocol/install-virtual-app.ts:54-815 | The same for the three generators of a virtual install |
| `StaticChecks.InstallVirtualAppIsCountersigned` | modules/cf-core/src/protocol/install-virtual-app.ts:159-163 | All three persist only after the free-balance checks of every channel they save |
| `StaticChecks.UninstallVirtualAppIsWellFormed` | modules/cf-core/src/protocol/uninstall-virtual-app.ts:52-510 | The same for the three generators of a virtual uninstall |
| `StaticChecks.UninstallVirtualAppIsCountersigned` | modules/cf-core/src/protocol/uninstall-virtual-app.ts:156-169 | All three persist only after the free-balance checks of every channel they save |
| `StaticChecks.EveryProtocolIsWellFormed` | modules/cf-core/src/protocol/index.ts:1-44 | Every protocol's generators follow its message table, and every generator reaches a persist |
| `StaticChecks.CountersignedIffNotPropose` | modules/cf-core/src/protocol/propose.ts:77-116 | All roles persist only countersigned states if and only if the protocol is not propose |
| `StaticChecks.ProposerPersistsUnsigned` | modules/cf-core/src/protocol/propose.ts:77-81 | A one-step run in which the proposer has persisted and holds no signature |
| `StaticChecks.InstallInitiatorPersistsFirst` | modules/cf-core/src/protocol/install.ts:154-168 | The install initiator persists before it sends the message the responder needs to persist |
| `StaticChecks.UninstallResponderPersistsFirst` | modules/cf-core/src/protocol/uninstall.ts:129-144 | The uninstall responder persists before it sends its reply |
| `StaticChecks.WithdrawResponderPersistsFirst` | modules/cf-core/src/protocol/withdraw.ts:500-512 | The withdraw responder persists before the last message |
| `StaticChecks.VirtualUninstallOrder` | modules/cf-core/src/protocol/uninstall-virtual-app.ts:341-376 | In a virtual uninstall the responder persists before the intermediary and the intermediary before the initiator |
| `Desync.PostAdvances` | modules/cf-core/src/models/state-channel.ts:223-271 | Whatever is stored, install and uninstall move the free balance two versions on and withdraw four, changing nothing else of the app but state and timeout |
| `Desync.CommitmentIdentifies` | modules/cf-core/src/ethereum/set-state-commitment.ts:34-47 | Equal set-state commitments mean equal versions before the run, and equal free balances after it |
| `Desync.PersistingNeedsAgreement` | modules/cf-core/src/protocol/install.ts:129-154 | Either side persists only if both computed the same free balance from the same version; whose signature it holds is Countersigning.DeedIsCountersigned |
| `Desync.AheadPersistsFirst` | modules/cf-core/src/protocol/withdraw.ts:144-148 | The initiator of an install, and the responder of an uninstall or withdrawal, persists first |
| `Desync.OneRunFromAgreement` | modules/cf-core/src/protocol/install.ts:129-168 | One run from equal free balances, abandoned anywhere, leaves them equal or the first-persisting role exactly one run ahead |
| `Desync.NoRunAcrossVersions` | modules/cf-core/src/ethereum/set-state-commitment.ts:34-47 | Once the versions differ no run persists on either side |
| `Desync.DesyncIsBoundedAndFinal` | modules/cf-core/src/protocol/install.ts:129-168 | Over every history of runs one after the other the two free balances are equal or one run apart, and once apart no later run changes either store; HubDesync.HubDesyncIsBoundedAndFinal adds what happens between the runs |
| `Desync.HonestRunPersistsOnBothSides` | modules/cf-core/src/machine/protocol-runner.ts:137-164 | From stores that hold the same channel, up to the order of its keys, an undisturbed run persists the same channel on both sides |
| `AppDesync.PostEffect` | modules/cf-core/src/models/app-instance.ts:273-297 | Update and take-action move an app one version on, to the state the update names or the contract computes from the old state and the action, and their commitment fixes the new copy |
| `AppDesync.ChangeEffect` | modules/cf-core/src/protocol/take-action.ts:33-38 | A change fails exactly when there is no such app, the action is not allowed or the new state does not encode; otherwise only that app changes, to the named or computed state |
| `AppDesync.HonestChange` | modules/cf-core/src/protocol/update.ts:19-153 | From equal copies an undisturbed update or action that is possible is persisted by both sides, which hold equal copies again |
| `AppDesync.AppDesyncIsBoundedAndFinal` | modules/cf-core/src/protocol/take-action.ts:19-157 | Over every history of updates and actions the two copies of an app are equal or one version apart, and once apart they stay as they are |
| `Proposals.OneProposal` | modules/cf-core/src/protocol/propose.ts:136-245 | The responder accepts only from equal counters and never without the proposer; equal counters stay equal or the proposer gets one ahead |
| `Proposals.CopiesMirror` | modules/cf-core/src/protocol/propose.ts:167-190 | From equal counters the two copies are the same proposal with the deposits and their tokens swapped, and the two commitments are equal |
| `Proposals.HonestProposal` | modules/cf-core/src/protocol/propose.ts:25-245 | From equal counters an undisturbed proposal is persisted by both |
| `Proposals.DriftMoves` | modules/cf-core/src/protocol/propose.ts:77-81 | Every run moves the difference of the two counters by one towards its proposer when only the proposer stores the proposal, and not otherwise; both store it only from equal counters |
| `Proposals.UndisturbedIsAcceptedIff` | modules/cf-core/src/protocol/propose.ts:192-221 | An undisturbed proposal of either side is accepted if and only if the counters are equal; otherwise it moves their difference by one |
| `Proposals.DriftOverHistories` | modules/cf-core/src/protocol/propose.ts:77-81 | Over every history of both sides' proposals the difference changes by the lone proposals of one side less those of the other |
| `Proposals.AcceptedAfterHistoryIff` | modules/cf-core/src/protocol/propose.ts:192-221 | After any history the next undisturbed proposal is accepted if and only if the lone proposals of the two sides balance |
| `Proposals.OwnProposalsNeverRecover` | modules/cf-core/src/protocol/propose.ts:192-215 | While only the side that is ahead proposes, none of its proposals is accepted and it gets no less far ahead |
| `Proposals.SideBehindRecovers` | modules/cf-core/src/protocol/propose.ts:192-215 | Undisturbed proposals of the side behind are refused but close the gap by one each |
| `Proposals.RecoveryTakesAsManyRuns` | modules/cf-core/src/protocol/propose.ts:77-81 | No history shorter than the difference of the counters makes them equal |
| `Proposals.OneAbandonedEachRecovers` | modules/cf-core/src/protocol/propose.ts:77-81 | One abandoned proposal of each side leaves equal counters, and the next undisturbed one is accepted |
| `Proposals.EqualCountersHideDifferentProposals` | modules/cf-core/src/protocol/propose.ts:60-67 | After that the two stores hold different proposals under one hash |
| `Proposals.DriftGrows` | modules/cf-core/src/protocol/propose.ts:77-81 | Abandoned proposals add up: n of them put the proposer n further ahead |
| `Desync.PostIgnoresKeys` | modules/cf-core/src/models/state-channel.ts:141-151 | What a party computes for an install, uninstall or withdrawal does not depend on the order in which its store lists the keys |
| `AbandonedRuns.AnySubsetMayPersist` | modules/cf-core/src/protocol/install-virtual-app.ts:559-579 | When every generator persists last of all, a run without faults can be abandoned with any given set of roles having persisted and the others not |
| `AbandonedRuns.LosingTheMessageStalls` | modules/cf-core/src/node.ts:222-236 | The message in flight can always be lost, and when every role waits for it nothing can then happen but that the waits time out |
| `VirtualApps.InstallViewsAgree` | modules/cf-core/src/protocol/install-virtual-app.ts:1067-1364 | From stores in sync, up to the order in which they list keys, the three separate computations of a virtual install agree on every shared channel, and the intermediary's succeeds if and only if both users' do |
| `VirtualApps.UninstallViewsAgree` | modules/cf-core/src/protocol/uninstall-virtual-app.ts:529-877 | From stores in sync holding an unexpired coin-transfer app the three computations of a virtual uninstall agree when the proposed outcome is the computed one; otherwise the responder refuses |
| `VirtualApps.ReadOutcomeAgrees` | modules/cf-core/src/protocol/uninstall-virtual-app.ts:587-611 | The three computations agree whenever the proposed outcome is the computed one and all three read the same outcome at the block where each of them looks |
| `VirtualApps.ExpiredViewsAgree` | modules/cf-core/src/protocol/uninstall-virtual-app.ts:600-611 | So they do from the block at which the pass-through switches, when its contract then gives the default outcome it holds |
| `VirtualApps.OtherTokenCannotBeSettled` | modules/cf-core/src/protocol/uninstall-virtual-app.ts:613-622 | An agreement in another token than the app pays in cannot be settled |
| `VirtualApps.ResponderRefuses` | modules/cf-core/src/protocol/uninstall-virtual-app.ts:697-705 | A proposed outcome other than the computed one is refused by the responder |
| `VirtualApps.InstallIsHeld` | modules/cf-core/src/protocol/install-virtual-app.ts:1227-1271 | A completed virtual install leaves stores in sync that hold the virtual app |
| `VirtualApps.UpdatesAreHeld` | modules/cf-core/src/models/state-channel.ts:361-373 | Any number of updates to the virtual app by its users keep that |
| `VirtualApps.UpdateReachesBothUsers` | modules/cf-core/src/models/state-channel.ts:361-373 | An update that encodes reaches both users' copies, one version on |
| `VirtualApps.InstallUpdatesUninstallAgree` | modules/cf-core/src/protocol/uninstall-virtual-app.ts:587-637 | Through install, any updates and uninstall the three parties agree |
| `VirtualApps.FourChannels` | modules/cf-core/src/store.ts:226-251 | The four channels of three different people have four different owner sets |
| `VirtualRuns.AgreeingViewsAreInSync` | modules/cf-core/src/protocol/install-virtual-app.ts:88-163 | When the computations agree, whoever checks a signature in a virtual protocol computes the document that was signed |
| `VirtualRuns.SwitchOffSupersedes` | modules/cf-core/src/protocol/uninstall-virtual-app.ts:80-86 | The pass-through commitment of an uninstall has a higher version than the one of the install, for the same app |
| `VirtualRuns.HonestInstall` | modules/cf-core/src/protocol/install-virtual-app.ts:54-292 | From stores in sync an undisturbed virtual install persists agreeing channels at all three parties |
| `VirtualRuns.HonestUninstall` | modules/cf-core/src/protocol/uninstall-virtual-app.ts:52-185 | The same for a virtual uninstall; what the stores then no longer hold is VirtualRemoval.HonestUninstallRemoves |
| `VirtualRemoval.InitiatingRemoves` | modules/cf-core/src/protocol/uninstall-virtual-app.ts:587-637 | The initiator's uninstall takes exactly the app out of the users' channel, the pass-through out of the three-party channel and the agreement out of the hub channel |
| `VirtualRemoval.RespondingRemoves` | modules/cf-core/src/protocol/uninstall-virtual-app.ts:707-757 | The same for the responder's |
| `VirtualRemoval.IntermediaryRemoves` | modules/cf-core/src/protocol/uninstall-virtual-app.ts:824-877 | The intermediary's takes out the pass-through, and the agreement from both of her channels |
| `VirtualRemoval.UninstallRemoves` | modules/cf-core/src/models/state-channel.ts:349-359 | Once all three have persisted, no copy of any channel holds the app, its pass-through or an agreement for it, and every other app, proposal and agreement is what it was |
| `VirtualRemoval.HonestUninstallRemoves` | modules/cf-core/src/protocol/uninstall-virtual-app.ts:52-185 | An undisturbed virtual uninstall ends with that, and with stores in sync |
| `VirtualRoundTrip.UpdatesTouchOnlyTheApp` | modules/cf-core/src/models/state-channel.ts:361-373 | Updates of the virtual app change nothing else in any store |
| `VirtualRoundTrip.UninstallUndoesInstall` | modules/cf-core/src/protocol/uninstall-virtual-app.ts:529-877 | Through install, any updates and uninstall every channel of the three is back as it was, but for the free balances of the hub channels and two counters that are one higher |
| `VirtualSignatures.VirtualAppIs` | modules/cf-core/src/protocol/install-virtual-app.ts:898-944 | The virtual app is between the users' two keys, in its initial state at version zero, and may pay at most both deposits, in their token |
| `VirtualSignatures.PassThroughIs` | modules/cf-core/src/protocol/install-virtual-app.ts:962-1028 | The pass-through is between the three, targets the app, never expires by itself and has the same limit |
| `VirtualSignatures.CreatedForStrangers` | modules/cf-core/src/protocol/install-virtual-app.ts:1047-1065 | People without a channel get one at the wallet generated for their first keys, with nothing in it; the first app in it has number one |
| `VirtualSignatures.InstallAddsOnlyItsApps` | modules/cf-core/src/protocol/install-virtual-app.ts:1120-1155 | In channels that the store holds already an install adds its two apps and raises the counters, and changes nothing else |
| `VirtualSignatures.InstallInitiatorHolds` | modules/cf-core/src/protocol/install-virtual-app.ts:133-246 | An initiator that has persisted holds the intermediary's signatures on their agreement, for the capital of both deposits, and on their free balance, both others' on the pass-through and the responder's on the app's first state |
| `VirtualSignatures.InstallIntermediaryHolds` | modules/cf-core/src/protocol/install-virtual-app.ts:348-544 | An intermediary that has persisted holds both users' signatures on the agreements, the free balances and the pass-through |
| `VirtualSignatures.InstallResponderHolds` | modules/cf-core/src/protocol/install-virtual-app.ts:647-753 | A responder that has persisted holds the intermediary's signatures on their agreement and free balance, both others' on the pass-through and the initiator's on the app's first state |
| `VirtualSignatures.UninstallUserHolds` | modules/cf-core/src/protocol/uninstall-virtual-app.ts:113-160 | A user that has persisted an uninstall holds the intermediary's signature on the new free balance and both others' on the switched-off pass-through with the proposed outcome |
| `VirtualSignatures.UninstallIntermediaryHolds` | modules/cf-core/src/protocol/uninstall-virtual-app.ts:229-339 | The intermediary holds each user's on that channel's free balance and on the switched-off pass-through |
| `VirtualRuns.PersistedHubsAgree` | modules/cf-core/src/protocol/install-virtual-app.ts:703-707 | From any stores, abandoned anywhere: whoever has persisted shares the free balance of each of its hub channels with that channel's other party |
| `VirtualRuns.VirtualInstallLeavesAnySubset` | modules/cf-core/src/protocol/install-virtual-app.ts:559-579 | In a virtual install any of the three parties, alone or together, may be the only ones to persist |
| `HubDesync.VirtualPersistingNeedsAgreement` | modules/cf-core/src/protocol/install-virtual-app.ts:703-707 | On a hub channel, user or intermediary persists a virtual run only when both computed the same free balance |
| `HubDesync.QuietKeepsFreeBalance` | modules/cf-core/src/models/state-channel.ts:311-371 | Proposals, rejections, updates and actions leave the free balance of a store alone, however many there are |
| `HubDesync.EventKeeps` | modules/cf-core/src/protocol/uninstall-virtual-app.ts:341-376 | A direct or virtual run, or proposals, rejections, updates and actions of either side, keep the free balances equal or one of them what a single run computes from a channel with the other; once the versions differ a run changes nothing |
| `HubDesync.HubDesyncIsBoundedAndFinal` | modules/cf-core/src/protocol/install-virtual-app.ts:559-579 | Over every history of direct and virtual runs on a hub channel, with proposals, rejections, updates and actions between them, the free balances are equal or one of them is what a single run computes from a channel with the other; once the versions differ, the rest of the history does what it would do without its runs, and neither free balance changes again |
| `HubDesync.HonestVirtualRun` | modules/cf-core/src/protocol/install-virtual-app.ts:559-579 | An undisturbed virtual run moves both copies of a hub channel to what their owners compute, two versions on, with the same free balance |
| `HubDesync.ProposalIsQuiet` | modules/cf-core/src/protocol/propose.ts:77-81 | Any run of propose, complete or abandoned, is one of those events between runs |
| `HubDesync.ChangeIsQuiet` | modules/cf-core/src/protocol/update.ts:19-153 | So is any run of update or take-action |
| `VirtualMoney.AddAgreementBalances` | modules/cf-core/src/models/state-channel.ts:375-395 | Adding an agreement takes exactly the decrements |
| `VirtualMoney.RemoveAgreementBalances` | modules/cf-core/src/models/state-channel.ts:397-418 | Removing one pays exactly the increments |
| `VirtualMoney.AddAgreementSucceedsIff` | modules/cf-core/src/models/state-channel.ts:375-395 | An agreement can be added if and only if both sides can afford what it takes from them |
| `VirtualMoney.VirtualInstallSucceedsIff` | modules/cf-core/src/protocol/install-virtual-app.ts:1158-1272 | The intermediary can compute a virtual install if and only if the outcome type is supported and in each channel the user can afford the user's deposit and she the other user's |
| `VirtualMoney.VirtualUninstallSucceeds` | modules/cf-core/src/protocol/uninstall-virtual-app.ts:802-877 | An installed virtual app can be uninstalled when the outcome that counts decodes and pays nothing negative |
| `VirtualMoney.InstallTakes` | modules/cf-core/src/protocol/install-virtual-app.ts:1232-1268 | A virtual install takes each user's deposit from that user and the other user's from the intermediary |
| `VirtualMoney.UninstallPays` | modules/cf-core/src/protocol/uninstall-virtual-app.ts:841-866 | A virtual uninstall pays each user its part, and the intermediary the other user's part, of the proposed outcome, or of the pass-through's default from the block at which that switches |
| `VirtualMoney.IntermediaryIsNeutralIff` | modules/cf-core/src/protocol/uninstall-virtual-app.ts:841-866 | The intermediary ends with what she began with if and only if the outcome pays the users the capital provided, and exactly then the initiator loses what the responder gains |
| `VirtualMoney.CoinTransferPays` | modules/cf-core/src/protocol/utils/get-outcome-increments.ts:165-182 | A coin-transfer outcome pays the two users its two amounts, in either order |
| `VirtualMoney.FixedOutcomePaysNobody` | modules/cf-core/src/protocol/uninstall-virtual-app.ts:609-619 | A two-party fixed outcome of a virtual app pays nobody |
| `Queues.SubmittedQueue` | modules/cf-core/src/methods/queued-execution.ts:42-55 | Submitting appends a task's entries to its queues behind everything already there |
| `Queues.NextKeeps` | modules/cf-core/src/methods/queued-execution.ts:13-58 | Every callback keeps the invariant of queues and tasks |
| `Queues.ConflictingTasksRunInOrder` | modules/cf-core/src/methods/queued-execution.ts:39-57 | Of two tasks that share a lock the later starts only after the earlier has settled, and has run exactly once if calling it gives a promise |
| `Queues.EarlierStartsAgainIff` | modules/cf-core/src/methods/queued-execution.ts:23-57 | Once the later task has started, a callback starts the earlier one again if and only if calling the earlier one gives no promise and the callback is one of its own |
| `Queues.PromisedTasksNeverOverlap` | modules/cf-core/src/methods/queued-execution.ts:23-57 | From the moment the later task has started, an earlier conflicting task that gives a promise is settled and never starts again, whatever happens |
| `QueueWitnesses.NoPromiseOverlaps` | modules/cf-core/src/methods/queued-execution.ts:23-57 | Two tasks with one lock: the first, which gives no promise, starts a second time while the second has started and not settled |
| `QueueWitnesses.NoPromiseRunsTwice` | modules/cf-core/src/methods/queued-execution.ts:23-57 | One task with one lock and no promise: its body has run twice when it returns |
| `QueueWitnesses.RepeatedLockIsStuck` | modules/cf-core/src/process-queue.ts:30-35 | One task with locks [0, 0]: nothing can happen and it has not run |
| `Queues.StartsAtEveryHead` | modules/cf-core/src/methods/queued-execution.ts:39-55 | A task starts only while it heads every queue it is in |
| `Queues.ExactlyOnceIff` | modules/cf-core/src/methods/queued-execution.ts:23-26 | A task with locks has run exactly once when it returns if and only if calling it gives a promise; otherwise it has run once per lock and once more |
| `Queues.EveryRunDrains` | modules/cf-core/src/methods/queued-execution.ts:39-55 | Without repeated lock names every run is bounded by the work left and ends with every task returned |
| `Queues.RepeatedLockDeadlocks` | modules/cf-core/src/process-queue.ts:30-35 | A task that lists a lock twice never starts and never returns |
| `Queues.DrainedIffNoRepeats` | modules/cf-core/src/process-queue.ts:30-35 | A run that cannot go on has returned every task if and only if no task lists a lock twice |
| `Queues.ProcessQueue.GetOrCreateLockQueue` | modules/cf-core/src/process-queue.ts:37-55 | Queues are created on demand and otherwise left alone |
| `Queues.StartingInsideAddCommutes` | modules/cf-core/src/methods/queued-execution.ts:42-55 | Starting idle queues while the entries are still being added leads where adding them all and starting the queues afterwards leads |
| `Queues.IdleQueuesStartAtOnce` | modules/cf-core/src/methods/queued-execution.ts:39-55 | Of a submitted task's entries exactly those are started at once whose queue was empty and that no earlier entry of the task entered |
| `Queues.ProcessQueue.AddTask` | modules/cf-core/src/process-queue.ts:30-35 | The two loops create the queues and add one entry to each; an entry whose queue was idle has its deferred resolved on the way |
| `Queues.ProcessQueue.AddToManyQueues` | modules/cf-core/src/methods/queued-execution.ts:39-55 | Adds one entry per lock, in order, without interruption |
| `Queues.ProcessQueue.Add` | modules/cf-core/src/methods/queued-execution.ts:50-53 | Appends an entry and starts it at once if its queue was idle |
| `Queues.ProcessQueue.SettleTask` | modules/cf-core/src/methods/queued-execution.ts:24-25 | The promise of a started task settles |
| `Queues.ProcessQueue.ReturnToSubmitter` | modules/cf-core/src/methods/queued-execution.ts:57-57 | The submitter makes the memoised call once more |
| `Queues.ProcessQueue.RunHead` | modules/cf-core/src/methods/queued-execution.ts:50-53 | A queue runs its head, which resolves that entry's deferred in place |
| `Queues.ProcessQueue.ResolveDeferred` | modules/cf-core/src/deferred.ts:20-22 | Resolves exactly one deferred |
| `Queues.ProcessQueue.RunMemoised` | modules/cf-core/src/methods/queued-execution.ts:23-26 | Starts the task exactly when nothing is memoised |
| `Queues.ProcessQueue.Rendezvous` | modules/cf-core/src/methods/queued-execution.ts:52-52 | Runs the memoised task for one entry once all deferreds are resolved |
| `Queues.ProcessQueue.MoveOn` | modules/cf-core/src/process-queue.ts:37-55 | A settled head leaves its queue |
| `Lookup.SigningKeysIgnoreOrder` | modules/cf-core/src/machine/xkeys.ts:52-57 | Derived owners and participants do not depend on the order of the extended keys |
| `Lookup.SigningKeysAre` | modules/cf-core/src/machine/xkeys.ts:52-57 | The signing keys for a number are the addresses derived for it, one for each extended key, in ascending order |
| `Lookup.TwoPartyKeysIgnoreOrderIff` | modules/cf-core/src/machine/xkeys.ts:18-20 | For two parties they do not exactly when the addresses are equal or parse to different numbers |
| `Lookup.ChannelIgnoresKeyOrder` | modules/cf-core/src/models/state-channel.ts:141-151 | Owners, signing keys and identity hashes of a channel survive a reordering of its keys |
| `Lookup.SignedTransactionIgnoresOrder` | modules/cf-core/src/utils.ts:111-122 | The signed transaction does not depend on the order in which signatures were collected |
| `Lookup.SignedTransactionCarriesAll` | modules/cf-core/src/utils.ts:111-122 | A signed transaction carries exactly the signatures collected, in ascending order of their signers |
| `Lookup.BothPartiesStoreTheSame` | modules/cf-core/src/protocol/uninstall.ts:76-79 | Initiator and responder, who list the two signatures in opposite orders, store the same transaction, with the lower signer first |
| `Lookup.SortedEqualIff` | modules/cf-core/src/store.ts:233-237 | Sorted key lists are equal exactly when they are permutations of each other |
| `Lookup.Sort` | modules/cf-core/src/store.ts:235-236 | Sorts an array of keys in place into a permutation |
| `Lookup.SameOwners` | modules/cf-core/src/store.ts:234-237 | Compares two key arrays by sorting both in place, also when they are the same array |
| `Lookup.FindOwned` | modules/cf-core/src/store.ts:233-240 | The search finds the first channel with these owners and leaves every key array it sorted a permutation of itself |
| `Lookup.GetMultisigAddressWithCounterparty` | modules/cf-core/src/store.ts:226-251 | Returns the first channel with these owners in any order, or the generated address when that is accepted, or an error; every key array stays a permutation of itself |
| `Lookup.MultisigCache.GetCreate2MultisigAddress` | modules/cf-core/src/utils.ts:42-78 | The cached address is the generated one, whatever order of owners filled the cache |
| `Persistence.AppRoundTrip` | modules/cf-core/src/models/app-instance.ts:99-140 | An app instance reads back as it was written and hashes to the stored identity |
| `Persistence.SetStateIsDirect` | modules/cf-core/src/models/app-instance.ts:291-296 | setState through the plain form is the direct update of state, version and timeout |
| `Persistence.RoundTripIff` | modules/cf-core/src/models/state-channel.ts:506-568 | A channel reads back as it was written, with or without a free balance and whatever nulls the store adds, if and only if no map repeats a key |
| `Persistence.NullsAreDropped` | modules/cf-core/src/models/state-channel.ts:531-568 | A null among proposals or apps is as good as absent; one among agreements makes reading throw, and nothing else does |
| `Routing.Node.OpenWait` | modules/cf-core/src/node.ts:210-212 | Registers a pending deferral for the process |
| `Routing.Node.HandleIoSendDeferral` | modules/cf-core/src/node.ts:379-398 | Fulfils the registered deferral once; later messages change nothing |
| `Routing.Node.HandleReceivedMessage` | modules/cf-core/src/node.ts:357-377 | Dispatches by the deferral table, touching no other process |
| `Routing.Node.CloseWait` | modules/cf-core/src/node.ts:222-236 | A reply removes the deferral; a timeout throws and leaves it registered |
| `Routing.RegisteredWhileWaiting` | modules/cf-core/src/node.ts:204-238 | A deferral is registered exactly while the generator waits; opening and closing a wait keep the table in agreement with it |
| `Routing.DispatchDeliversAsModelled` | modules/cf-core/src/node.ts:357-377 | In every run without forged messages dispatch takes each message to the wait it answers or the generator it opens, and the table agrees with the receiver afterwards |
| `Routing.RunProtocol` | modules/cf-core/src/machine/protocol-runner.ts:137-164 | The opcode loop ends where the generator is driven to, and whatever the replies were, a persisted state is countersigned |
| `Routing.EachWaitTakesOneReply` | modules/cf-core/src/machine/protocol-runner.ts:137-164 | Every wait takes the next reply and goes on with the rest, without one it ends the generator, and no other opcode takes a reply |
| `Routing.LoopIsAnInterleaving` | modules/cf-core/src/machine/protocol-runner.ts:137-164 | What the loop does is one of the interleavings of the run model |
| `WithdrawalRetry.EveryRunIsBounded` | modules/client/src/connext.ts:911-977 | Over every run with crashes and restarts the counter stays in 0..3 and the stored withdrawal is submitted at most once more than the counter says and at most three times; it is gone only after a matching transaction was seen |
| `WithdrawalRetry.ClearedOnlyWhenSeen` | modules/client/src/connext.ts:930-943 | The entry is cleared only in a step that finds a matching transaction |
| `WithdrawalRetry.WatchEndsIff` | modules/client/src/connext.ts:500-517 | While watching, a block clears the entry if and only if it shows the transaction, and otherwise leads to a retry if and only if it is fifteen or more past the first |
| `WithdrawalRetry.RetrySubmitsAgain` | modules/client/src/connext.ts:952-977 | A retry raises the counter by one and leads to another submission, unless it was the third, which throws |
| `WithdrawalRetry.ConnectResumes` | modules/client/src/connext.ts:911-950 | A client that comes up clears its withdrawal if the node has submitted it, refuses when its retries are used up, and otherwise retries |
| `WithdrawalRetry.NeverMinedIsTriedThreeTimes` | modules/client/src/connext.ts:489-522 | A withdrawal that no block shows is submitted exactly three times, whatever the blocks; then the client goes on with the entry still stored |
| `WithdrawalRetry.SilentRecipientIsMissed` | modules/client/src/connext.ts:1017-1022 | A mined withdrawal to an account that has never sent a transaction is not found |
| `WithdrawalRetry.ExhaustedStaysDown` | modules/client/src/connext.ts:919-928 | A client that is down with its retries used up never connects again, whatever the node says |
| `WithdrawalRetry.ConnectIsRefusedIff` | modules/client/src/connext.ts:919-928 | Connecting is refused if and only if the stored withdrawal has used up its retries |
| `WithdrawalRetry.ExhaustedIsReplacedIff` | modules/client/src/connext.ts:963-973 | A stored withdrawal with its retries used up leaves the store in a step if and only if the step is a new withdrawal, which needs a client that a third failure outside connect has left up |
| `WithdrawalRetry.ExhaustedUntilReplaced` | modules/client/src/connext.ts:919-928 | Until there is a new withdrawal, it stays stored and used up over every run |
| `WithdrawalRetry.NewWithdrawalOverwrites` | modules/client/src/controllers/WithdrawalController.ts:40-46 | A new withdrawal overwrites a stored one that was never seen, counting from zero, and the client can connect again after a crash |
| `WithdrawalRetry.Client.CheckForUserWithdrawal` | modules/client/src/connext.ts:1009-1037 | Finds the stored transaction exactly when the recipient has ever sent one and the block contains it |
| `WithdrawalRetry.Client.WatchForUserWithdrawal` | modules/client/src/connext.ts:489-522 | Terminates by the retries left; follows the step model; returns only with the entry cleared, throws only with the retries used up; if no block shows the transaction and one is fifteen past the first, the counter is higher at the end or the client has crashed |
| `WithdrawalRetry.Client.RetryNodeSubmittedWithdrawal` | modules/client/src/connext.ts:952-977 | The same, counting up before it submits; the counter is higher at the end unless the client has crashed or the transaction was seen |
| `WithdrawalRetry.Client.SubmitAndWatch` | modules/client/src/connext.ts:975-976 | The same for one submission and its watch |
| `WithdrawalRetry.Client.Withdraw` | modules/client/src/controllers/WithdrawalController.ts:40-50 | A withdrawal is stored with counter zero before its first submission |
| `WithdrawalRetry.Client.ResubmitActiveWithdrawal` | modules/client/src/connext.ts:911-950 | On connecting: nothing stored, refused, found, or retried; a retry that throws leaves no client |

## Left out

- WRITE_COMMITMENT: what is written besides channels is not modelled, only what is persisted and which signatures are held.
- Persisting several channels is one step; the engine saves them one after the other, and a crash in between is not modelled.
- Real cryptography, key derivation, ABI encoding, CREATE2 addresses, contracts and the chain: injective or deterministic functions stand for them.
- parseInt in `modules/cf-core/src/machine/xkeys.ts` rounds to a double: the model has an arbitrary number per address, and states which order results need it to be injective.
- The generators compute the new channel where they first need it; the model lets a role that cannot compute it stop at the start of its generator, which only matters for how far it gets before it stops.
- The withdraw responder and initiator put intermediate channels into the run's own map; that map is discarded with the run and is not modelled.
- The outcome of a refund app that polls the chain (`modules/cf-core/src/protocol/utils/get-outcome-increments.ts:84-114`): uninstalling one by the uninstall protocol is an error in the model. Deposits, which use it, are not modelled.
- What the pass-through's contract computes after it has switched is a parameter: `VirtualApps.ExpiredViewsAgree` says what it has to be for the three views to agree.
- VirtualApps.UninstallViewsAgree: is stated for the single-asset coin-transfer outcome, because multi-asset virtual apps are rejected at install and fixed outcomes pay nobody; and before the pass-through switches, which an installed one does at the largest 256-bit number.
- Conservation.FundsAreConservedIff: counts a deposit, which is paid out without having been locked, as a negative loss; what an app's contract pays out is a parameter of the run.
- Agreements in `ChannelRuns` are for apps with a user outside the channel, as the virtual protocols make them.
- A receiver that is busy, or whose process identifier is reused by a second opening message, would start a second generator; `ProtocolRuns.SingleBaton` shows that this needs a forged message.
- The prefix test on extended keys, the JSON conversion of big numbers, and the event emitted for a received message: plumbing.
- The lock service with its time to live, and queues across processes: only the in-process queues of concurrency one.
- A task that throws before it returns its promise: the memo stays empty as for a task that returns nothing, but the error ends its queue entry.
- Block callbacks of the client that overlap while one of them is still reading the chain: blocks are handled one at a time.
- Messaging, RPC routing, the node service, migrations, the user interfaces and the payment bot.
