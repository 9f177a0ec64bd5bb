# A verified model of the node

A node of this network is a pipeline. A **leader** executes batches of transactions against an
account map, keeps the ones that succeed, and mixes them into a proof-of-history hash chain as
entries. Entries are written to an **on-disk ledger** that must survive a crash at any byte, and are
broadcast as numbered **blobs**. A **validator** puts blobs arriving in any order back into order in
a 2048-slot **window**, repairs gaps, and replays the entries. Nodes find one another by **gossip**.
Two programs run inside the processor: the **system program** and **FinPlan contracts**, which hold
tokens in escrow until witnesses arrive.

The project models that pipeline and proves the promises that hold it together. Each operation the
source performs by updating things in place is a method (mostly of a class with the source's fields)
proved equal to a function on values; the promises are then theorems about those functions, over all
inputs and all runs. The main ones:

- **End to end** (`Pipeline.ValidatorCatchesUp`): whatever order blobs arrive in, repeated, lost or
  repaired, a validator is fed a prefix of the leader's stream, accepts all of it, has the leader's
  accounts and ids whenever it has been fed what the leader had sent between two chunks, and is fed
  everything whose blobs it accepted, unless it is to take over first. The same from booting on, with
  the leader's own ledger (`Pipeline.BootedValidatorCatchesUp`).
- **Replay** (`LeaderThreads.TwoThreadsReplay`): the leader's two threads at the grain of their
  locks, with ticks falling anywhere inside a chunk; a validator accepts the stream if and only if
  every entry was recorded in time. `Replay` states the same for whole leader steps.
- **Crash recovery** (`LedgerFiles.CrashRecovery`, `LedgerFiles.LedgerRunRefinesList`) and **starting
  from what it leaves** (`Boot.Booter.Start`).
- **At most once for all time** (`AtMostOnce.AcceptedAtMostOnce`, and between the locks of the two
  threads `ThreadSignatures.AcceptedOnceByThreads`), **batch equals sequence**
  (`Batches.BatchEqualsSequence`), **conservation** (`Tokens`, for whole batches `BatchTotals`) and
  **ownership** (`Tokens`).
- **In-order, exactly-once delivery** (`ReceiveWindow.DeliveryInOrderOnce`), with nothing accepted
  lost (`ReceiveWindow.AcceptedAreDelivered`).
- **Delta gossip equals full transfer** (`GossipNetwork.EveryRunKeepsNotes`, `GossipNetwork.DeltaEqualsFull`),
  with **nothing made up** on the way (`GossipNetwork.NothingIsMadeUp`).
- **`Block::verify` accepts exactly what a recorder could have sent** (`HashChain.VerifiedExactlyWhenSent`).
- **Escrow safety** over runs of batches of all programs (`EscrowRuns.EscrowSafety`), exactly which
  batches keep it (`EscrowRaces.BatchSafeExactly`), that every payout was **earned** in the run and
  **reached** the account its plan named (`EscrowPayouts.PayoutWasEarned`, `EscrowPayouts.PayoutsArrive`),
  and **witness soundness and completeness** (`FinPlans`). A ledger whose plans the boot has checked
  keeps escrow (`BootLaws.BootedLedgerKeepsEscrow`).

Some promises are false of the code as stated. For those the project proves exactly when they hold,
and gives an input on which they fail:

| promise | holds exactly when | proved by | fails on |
|---|---|---|---|
| a recorded chunk replays | every kept transaction's last id is still known after the ticks that came between executing and recording | `LeaderThreads.TwoThreadsReplay`, `Replay.StepReplays` | a full ring and one tick: `Replay.ReplayCanFail` |
| an accepted transaction costs exactly its fee, whatever the program does | its keys are distinct | `Tokens.ConservationNeedsDistinctKeys`, `Transfers.LoadedProgramsConserveExactly` | `Tokens.RepeatedKeyMints` |
| a system transaction costs exactly its fee, whatever it says | later copies overwrite both of its first two keys or neither, and if both no fee is asked | `Transfers.SystemConservesExactly` | a transfer from an account to itself: `Transfers.SelfTransferMints` |
| a batch costs exactly the fees it accepted, whatever the programs do | no transaction lists a key twice, and every two share no account, unless the later writes over all of the earlier one's and the earlier pays no fee | `BatchTotals.BatchConservesExactly`; the change in every other case: `BatchTotals.BatchTotal` | one balance sent to two payees in one batch: `BatchTotals.SameBalanceSentTwice` |
| a settlement processed by itself spends its contract, so that it pays once | the contract's key is not listed again after the second place | `Escrow.PaysOnceExactly` | keys such as payer, contract, payee, contract: `Escrow.PaidTwice` |
| a batch of contract calls leaves every contract backed, opened once and paid once | each call that can act on an account other than its payer lists it once and opens it only with a plan that passes `verify_plan`, and no call lists a contract that an earlier one of the batch can act on beside it | `EscrowRaces.BatchSafeExactly` | a plan's witness and its payer's cancel in one batch, which pay one deposit twice: `EscrowRaces.CancelRacesWitness`, in a bank that `EscrowRaces.RaceHappens` gives |
| every payout of a batch of contract calls that keeps escrow reaches its payee in full | no call that can settle lists its payee again, and none lists the payee of an earlier one that can settle beside it | `EscrowPayouts.PayoutsArriveExactly`; for any batch: `EscrowPayouts.PayoutArrivesOrIsLost` | two contracts settled for one payee in one batch: both pay, and only the second payment is there afterwards, `EscrowPayouts.FirstPayoutIsLost` |
| a system transaction leaves escrow backed | every contract it charges or draws on keeps enough, and none is the target of a CreateAccount that goes ahead | `Escrow.SystemKeepsEscrowExactly` | CreateAccount without space on a contract account: `Escrow.ContractWiped` |
| packing a list of two or more transactions terminates | every transaction fits a blob by itself | `Packing.PackingEnds` | a first transaction with a blob's worth of userdata: `Packing.PackingSticks` |
| `Entry::new` verifies, for every hash function | the count passed in is zero | `Packing.NewEntryVerifies` | any other count, with hashing that appends a byte |
| an `And` plan pays once both conditions have their own witness | its conditions are not two times of one key, the earlier first | `FinPlans.AndCompleteness` | two such times, the later witness first |
| the write stage stops at the first height not scheduled to this node, for every schedule | every batch reaches no further than the second rotation height above its start, or the distance to the first divides the interval | `Handover.BatchesAreRightForAllSchedules`, `Handover.SearchIsRightForAllSchedules` | `Handover.MissedHeight`, `Handover.UnsafeBatchMisses` |
| repair keeps a waiting blob | the repaired range does not come round to its slot again | `ReceiveWindow.WaitingBlobSurvives` | any longer range |

What the node calls but this repository does not define is a parameter: the hash functions (`Rules`,
where the check on a transaction's plan is a parameter too, for which `BootLaws.NodeRules` puts
`verify_plan`), programs (`Runtime`, any deterministic function of the
transaction and its loaded accounts), the byte layout of contract states and instructions
(`Formats`, of which `ContractFormat` gives a concrete instance), the leader schedule, clocks, and
what other nodes send.

Where the code and its documentation differ, the code is followed: the contract serialiser's size
check leaves out its own 8-byte length, so a buffer a little too small panics instead of being
refused; a witness call checks for two keys and then uses the third; `Entry::new` computes the id
without the hash count it stores; the write stage's jump between rotation heights is computed from
the height the batch starts at; `verify_plan` is asked where a leader takes packets in and where a
ledger is booted from, but not by the processor and not by a validator replaying what it is sent, so
there a plan that fails it is opened like any other; a contract that is due at once pays the second
account, whoever its plan names; the stray token at src/ledger.rs:422 is ignored. A panic is modelled
as an outcome of its own. Inside a program it fails that one transaction, while in the source it
unwinds the whole batch before anything is stored and leaves the accounts lock poisoned.

## Model

| member | source | states |
|---|---|---|
| `Pipeline.ValidatorCatchesUp` | src/window_service.rs:174-208 | from the leader's two threads to the validator: over every interleaving recorded in time and every arrival order, with repeats, losses and repairs, what is delivered is a prefix of the stream and replays without a failure; between chunks it reproduces the leader's accounts and ids; and once the first n blobs have been accepted, n entries are delivered or this node's own handover height is reached |
| `Pipeline.StreamPrefix` | src/transaction_processoring_stage.rs:138-170 | stopping the leader early leaves a prefix of its stream, in time and with fresh ids if the whole was |
| `Pipeline.LeadersLedgerBoots` | src/transaction_processor.rs:476-577 | what the leader's ledger holds at any length boots another node: it is accepted as one chain that replays, starts from the same deposit, and leaves the bank the leader started with taken through what it has sent |
| `Pipeline.BootedValidatorCatchesUp` | src/window_service.rs:174-208 | so a validator booted from that ledger at any length and then fed blobs in any order is given a prefix of what the leader sent from there on, accepts it, follows the leader whenever it is level with it between two chunks, and is given all it accepted unless it is to take over first |
| `Replay.StepReplays` | src/transaction_processoring_stage.rs:138-170 | a validator with the leader's accounts and ids, and no signature the leader lacks, accepts the step's entries if and only if every kept transaction's last id is still known after the intervening ticks; and is then again in agreement |
| `Replay.RunReplays` | src/transaction_processor.rs:395-474 | agreement over every run of ticks and chunks recorded in time |
| `Replay.AtomicStepsReplay` | src/transaction_processoring_stage.rs:138-170 | executing and recording in one go always meets that condition |
| `Replay.AtomicRunReplays` | src/transaction_processor.rs:395-474 | so with atomic chunks every run replays, with no further condition |
| `Replay.RecordedBatchReplays` | src/transaction_processor.rs:395-474 | the recorded batch is all-Ok at the validator even though the leader ran it among failing transactions, and the accounts come out equal |
| `Replay.KeptExecuteTheSame` | src/transaction_processor.rs:240-283 | loaded as a batch of their own, the kept transactions give exactly the results they gave among the others |
| `Replay.ForgottenIdIsRefused` | src/transaction_processor.rs:148-172 | a kept transaction whose last id has left the ring makes the validator refuse the entry |
| `Replay.OneTickEvicts` | src/transaction_processor.rs:213-228 | on a full ring one tick between executing and recording makes a kept transaction on the oldest id too late |
| `Replay.ReplayCanFail` | src/transaction_processoring_stage.rs:138-170 | with a full ring of 32-byte ids and a system transaction whose instruction cannot be read: the leader sends an entry that a validator in full agreement refuses |
| `Replay.TicksReplay` | src/transaction_processor.rs:466-474 | replaying ticks registers their ids in order and cannot fail |
| `Leader.PodRecorder.constructor` | src/pod_recorder.rs:20-25 | the clock starts at the processor's last id, so an empty stream already verifies from there |
| `Leader.PodRecorder.DoHash` | src/pod_recorder.rs:27-31 | is the recorder's hash step |
| `Leader.PodRecorder.Tick` | src/pod_recorder.rs:33-45 | is the recorder's tick step, and the id sent is the one registered |
| `Leader.PodRecorder.Record` | src/pod_recorder.rs:47-59 | is the recorder's record step, and the id sent is the one registered |
| `Leader.PodRecorder.ProcessChunk` | src/transaction_processoring_stage.rs:138-170 | executing, filtering and recording a chunk moves bank and recorder as specified |
| `Leader.PodRecorder.ProcessChunks` | src/transaction_processoring_stage.rs:138-170 | the chunking loop terminates and moves bank and recorder as specified, whatever the transactions' sizes |
| `Leader.KeepOkay` | src/transaction_processoring_stage.rs:150-159 | keeps exactly the accepted transactions, in order |
| `Leader.FitCount` | src/transaction_processoring_stage.rs:138-148 | every turn of the loop makes progress, stays inside the list, and takes the longest prefix that fits |
| `Leader.ChunkIsLeaderStep` | src/transaction_processoring_stage.rs:138-170 | a chunk without ticks inside is one atomic leader step: same bank, same entries, chain unbroken |
| `Leader.StageIsLeaderRun` | src/transaction_processoring_stage.rs:138-170 | the loop by itself is a run of such steps, for any list of transactions |
| `Leader.StageOutputReplays` | src/transaction_processoring_stage.rs:138-170 | so its output by itself passes `Block::verify` and replays to the leader's accounts, with no condition; with ticks inside, the condition is that of `LeaderThreads.TwoThreadsReplay` |
| `Leader.VettedExactly` | src/transaction_processoring_stage.rs:201-212 | of the packets received, exactly those that decode, carry a plan that passes and a good signature are taken, each in its place |
| `Leader.PacketsReplay` | src/transaction_processoring_stage.rs:173-239 | so whatever packets come in, what the stage sends by itself verifies and replays |
| `Leader.ChunkAlone` | src/transaction_processoring_stage.rs:138-170 | the locked accesses of one chunk, in order, amount to the chunk as the stage's method computes it |
| `Leader.StageIsThreadRun` | src/transaction_processoring_stage.rs:138-170 | the stage's loop is a run of the fine-grained thread model, so the two-thread theorem is about the loop the source has |
| `LeaderThreads.TwoThreadsReplay` | src/transaction_processoring_stage.rs:108-170 | both threads interleaved in any way their locks allow, ticks between loads and status updates included: the stream verifies as one chain, its ids are registered in stream order, and a validator accepts all of it if and only if each entry was recorded while the last ids it names were known; between chunks the validator then has the leader's accounts and ids |
| `LeaderThreads.RunAgrees` | src/transaction_processor.rs:395-474 | up to the first late entry the validator agrees with the leader in the middle of any chunk; from there on it has failed |
| `LeaderThreads.StepAgrees` | src/transaction_processor.rs:240-283 | each locked access keeps that agreement |
| `LeaderThreads.RecordedReplays` | src/transaction_processor.rs:395-416 | a batch recorded in time is all-Ok on the validator though ticks fell between its loads, and leaves the leader's accounts |
| `LeaderThreads.LateIsRefused` | src/transaction_processor.rs:148-172 | a batch recorded too late is refused |
| `LeaderThreads.UnspentLoads` | src/transaction_processor.rs:240-283 | transactions with unseen distinct signatures under known ids load whole and add no signature but their own |
| `LeaderThreads.RunVerifies` | src/pod_recorder.rs:27-59 | whatever the interleaving, the recorder stays in step with its stream and the ids registered are the stream's, in order |
| `ThreadSignatures.AcceptedOnceByThreads` | src/transaction_processor.rs:148-228 | however ids are registered between a chunk's loads, its results and its statuses, no (last id, signature) pair is accepted twice, nor one seen before the run, even after its id has left the ring |
| `ThreadSignatures.StepKeepsOnce` | src/transaction_processor.rs:148-228 | each locked access keeps that: what is loaded or accepted stays taken for as long as its id is known |
| `LedgerFiles.CrashRecovery` | src/ledger.rs:144-216 | from any byte prefixes of index and data, recovery leaves exactly the files for the first k entries, k the lesser of whole offsets and whole entries; it fails if and only if k is zero |
| `LedgerFiles.RecoveryIsStable` | src/ledger.rs:144-216 | what recovery leaves passes the verifier and a second recovery changes nothing |
| `LedgerFiles.LedgerRunRefinesList` | src/ledger.rs:144-312 | over any run of writes, torn crashes and recoveries the two files are those of one list of entries, failing exactly when the list would be empty |
| `LedgerFiles.StepRefines` | src/ledger.rs:144-312 | the same for one operation |
| `LedgerFiles.VerifyLedger` | src/ledger.rs:77-142 | on arbitrary bytes, accepts if and only if the index lists exactly the places where a sequential reader finds entries and the reader reaches the end |
| `LedgerFiles.VerifiedIndexMatchesReader` | src/ledger.rs:39-75 | on accepted files `get_entry(i)` is the reader's i-th entry for every i, and nothing past the last |
| `LedgerFiles.EntryAtStaysInside` | src/ledger.rs:39-51 | an entry that reads lies wholly inside the file and took exactly its encoded size |
| `LedgerFiles.TornEntry` | src/ledger.rs:39-46 | entry j reads from a torn data file if and only if the file holds all of it, and then reads as written |
| `LedgerFiles.WholeEntriesExact` | src/ledger.rs:144-216 | the count used above is right: k entries are whole exactly when their bytes fit |
| `LedgerFiles.ScanOfWritten` | src/ledger.rs:319-328 | reading a written ledger from any entry on yields the rest, in order |
| `LedgerFiles.WrittenIsSound` | src/ledger.rs:77-142 | whatever the writer emits, the verifier accepts and the reader returns |
| `LedgerFiles.WriteExtends` | src/ledger.rs:267-292 | appending one entry appends its frame and the offset where the frame began |
| `LedgerFiles.Ledger.constructor` | src/ledger.rs:234-265 | opens the two files with whatever they hold; empty ones are the files of no entries |
| `LedgerFiles.Ledger.WriteEntry` | src/ledger.rs:267-299 | in place, one write of the run above |
| `LedgerFiles.Ledger.WriteEntries` | src/ledger.rs:301-311 | the files of a list become the files of the longer list |
| `LedgerFiles.Ledger.Recover` | src/ledger.rs:144-216 | the trimming loops terminate on any bytes and compute the recovery specified |
| `LedgerFiles.LedgerReader.constructor` | src/ledger.rs:331-344 | a reader starts at the front |
| `LedgerFiles.LedgerReader.Next` | src/ledger.rs:319-328 | yields the next entry of the scan and moves on, or ends it |
| `LedgerFiles.LedgerReader.Drain` | src/ledger.rs:319-344 | iterating to the end yields the whole scan |
| `EntryFormat.EntryCanonical` | src/entry.rs:35-47 | entries read back what was written, consume exactly that many bytes, and have one spelling only |
| `EntryFormat.TxCanonical` | src/transaction.rs:12-20 | the same for transactions |
| `EntryFormat.TxLayout` | src/transaction.rs:13-20 | the bytes of a transaction: signature, keys, program, last id, fee as two's complement, userdata, lists preceded by their lengths |
| `EntryFormat.EntryLayout` | src/entry.rs:36-47 | the bytes of an entry: hash count, id, number of transactions, transactions |
| `LittleEndian.ToLEDigit` | src/packet.rs:262-271 | byte i of an encoded number is its digit of weight 256 to the i |
| `EntryFormat.EntrySized` | src/entry.rs:101-108 | the encoded length of an entry is the size the packing code computes |
| `EntryFormat.TxSized` | src/transaction.rs:12-20 | the same for a transaction |
| `Codecs.StrictPrefixNeverDecodes` | src/ledger.rs:39-46 | a torn encoding never decodes, in any canonical format |
| `Codecs.DecodeIsLocal` | src/ledger.rs:39-51 | decoding looks only at the bytes it consumes |
| `HashChain.EveryInterleavingVerifies` | src/pod_recorder.rs:27-59 | any interleaving of hash, tick and record emits a stream `Block::verify` accepts from the starting hash, and leaves the bank with exactly the stream's ids registered in stream order |
| `HashChain.VerifiedExactlyWhenSent` | src/ledger.rs:355-370 | conversely, a list of entries that each count a hash verifies if and only if some run of hashing, ticking and recording transactions with good plans sends it |
| `HashChain.PlansAreChecked` | src/entry.rs:171-182 | every transaction of every entry of a verified list carries a plan that passes |
| `HashChain.StepKeepsChain` | src/pod.rs:24-54 | each such step keeps the chain |
| `HashChain.BlockVerifySplit` | src/ledger.rs:355-370 | verifying in two pieces with the id carried over is verifying the whole, at any split |
| `HashChain.BlockVerifyAppend` | src/ledger.rs:355-370 | one more entry verifies if and only if it follows from the last id |
| `HashChain.VerifyInBlocks` | src/transaction_processor.rs:506-529 | verifying in blocks of VERIFY_BLOCK_SIZE accepts exactly what verifying whole accepts |
| `HashChain.TamperingDetected` | src/entry.rs:171-214 | with collision-free hashing, any change to the list of signatures of an entry anywhere in a verified block makes it fail; emptying the list too, for an entry that counts at least one hash, as every recorded one does |
| `HashChain.ComputeNextHash` | src/entry.rs:198-214 | computed with a clock of its own, equals the chain function verification uses |
| `HashChain.Pod.constructor` | src/pod.rs:16-22 | a new clock has counted nothing |
| `HashChain.Pod.DoHash` | src/pod.rs:24-27 | one hash, counted; the count still measures the distance from the last entry |
| `HashChain.Pod.Record` | src/pod.rs:29-41 | the entry carries the distance since the last one, and counting restarts there |
| `HashChain.Pod.Tick` | src/pod.rs:43-54 | likewise without a mixin |
| `Packing.NumWillFit` | src/entry.rs:110-144 | the two-ended search returns the length of the longest fitting prefix, one when not even the first fits |
| `Packing.ChunkEnd` | src/ledger.rs:430-459 | the inner search terminates at the longest chunk that fits, an empty one when not even the first transaction does |
| `Packing.PackingEnds` | src/ledger.rs:429-468 | the loop over chunks reaches the end if and only if every transaction fits a blob by itself |
| `Packing.PackingSticks` | src/ledger.rs:429-468 | an input on which it never gets past its first transaction |
| `Packing.SingleFitsExactly` | src/entry.rs:101-108 | which transactions fit by themselves, in bytes |
| `Packing.NextEntries` | src/ledger.rs:417-474 | entries hold exactly the greedy chunks, each within a blob, chained from the start; from a zero count the block verifies; a lone transaction panics exactly when it is too large for a blob |
| `Packing.GreedyConcatenatesToInput` | src/ledger.rs:417-474 | packing drops, repeats and reorders nothing |
| `Packing.Longest` | src/entry.rs:101-108 | reference definition: it fits, and nothing longer does |
| `Packing.FitsPrefix` | src/entry.rs:101-108 | fitting is closed under prefixes, which is what lets a search work |
| `Packing.LongerStillDoesNotFit` | src/entry.rs:101-108 | the other direction: past a misfit nothing fits again |
| `Packing.NewEntryVerifies` | src/entry.rs:51-69 | a new entry verifies under every hash function if and only if the incoming count is zero |
| `Processor.TransactionProcessor.constructor` | src/transaction_processor.rs:91-103 | starts with no accounts, ids or signatures |
| `Processor.TransactionProcessor.RegisterEntryId` | src/transaction_processor.rs:213-228 | in place, the ring and signature map become those specified |
| `Processor.TransactionProcessor.ReserveSignature` | src/transaction_processor.rs:148-172 | refuses an unknown id or a seen signature, else marks it |
| `Processor.TransactionProcessor.LoadOne` | src/transaction_processor.rs:240-272 | the loading order of checks, with the signature reserved only after the balance check |
| `Processor.TransactionProcessor.LoadAccounts` | src/transaction_processor.rs:274-283 | all transactions load from the same accounts, reserving signatures in order |
| `Processor.TransactionProcessor.StoreAccounts` | src/transaction_processor.rs:370-392 | stores only what was accepted, removing emptied accounts |
| `Processor.TransactionProcessor.UpdateTransactionStatuses` | src/transaction_processor.rs:174-198 | records every status under its last id |
| `Processor.TransactionProcessor.ProcessBatch` | src/transaction_processor.rs:395-464 | the whole batch in place equals the batch function the theorems are about |
| `Processor.TransactionProcessor.ProcessOneEntry` | src/transaction_processor.rs:466-474 | an entry's id is registered only when all its transactions were accepted |
| `Processor.FirstFailure` | src/transaction_processor.rs:466-471 | is Ok exactly when every result is |
| `Batches.BatchEqualsSequence` | src/transaction_processor.rs:395-416 | on disjoint keys and distinct signatures, load-all, execute-all, store-all gives the same bank and results as one at a time |
| `Batches.StatusIsRecorded` | src/transaction_processor.rs:174-198 | after a batch with distinct signatures, looking up a signature under its id gives that transaction's own result |
| `AtMostOnce.AcceptedAtMostOnce` | src/transaction_processor.rs:148-228 | over every run with fresh ids, the ring is the last MAX_ENTRY_IDS ids, signatures are kept under exactly those, no (last id, signature) pair is ever accepted twice, even after eviction, and the transaction count is the number accepted |
| `AtMostOnce.BatchKeeps` | src/transaction_processor.rs:395-416 | a batch with any repeats inside it keeps that invariant |
| `AtMostOnce.NewIdKeeps` | src/transaction_processor.rs:213-228 | so does registering a fresh id |
| `AtMostOnce.RegisterKeepsOthers` | src/transaction_processor.rs:213-228 | registering forgets at most the oldest id and disturbs no other id's signatures |
| `Outcomes.LoadsExactly` | src/transaction_processor.rs:240-283 | each transaction of a batch loads from the accounts as they were, or is refused for exactly one reason: payer unknown, less than the fee, last id unknown, or signature seen before or taken earlier in the batch, tried in that order |
| `Outcomes.RefusalTells` | src/transaction_processor.rs:285-368 | when a transaction that loaded is refused the error is true: it is the program's own, or some account shows the offence named, or none does and the tokens do not add up |
| `SignatureFacts.LoadAllReserves` | src/transaction_processor.rs:148-172 | loading a batch only adds signatures, and never lets one pair through twice |
| `SignatureFacts.UpdateAllGrows` | src/transaction_processor.rs:174-198 | recording statuses loses no signature |
| `Tokens.BatchConserves` | src/transaction_processor.rs:395-416 | for a batch in which no key is listed twice, in one transaction or in two: the total of all balances drops by exactly the fees of the accepted transactions, whatever the programs do |
| `Tokens.OneTransactionConserves` | src/transaction_processor.rs:326-392 | the same for one transaction on distinct keys |
| `Tokens.RepeatedKeyMints` | src/transaction_processor.rs:370-392 | for every transaction with a repeated key and any fee, a program and a bank on which it is accepted and leaves more than the fee allows |
| `Tokens.ConservationNeedsDistinctKeys` | src/transaction_processor.rs:326-392 | for every transaction with its fee: it costs exactly the fee under every program and bank if and only if its keys are distinct |
| `Tokens.BatchKeepsPositive` | src/transaction_processor.rs:370-392 | stored balances stay positive through any batch, conflicting keys included |
| `Tokens.OnlyOwnersSpend` | src/transaction_processor.rs:285-392 | for any programs and any batch, an account ends poorer only through its owning program or the fee, and changes owner only from the system program by a system transaction |
| `Tokens.CheckedWrite` | src/transaction_processor.rs:285-306 | what the per-account check leaves possible |
| `Tokens.AcceptedAccounts` | src/transaction_processor.rs:326-368 | an accepted transaction passed the check on each account against its state at loading |
| `Tokens.LastWriter` | src/transaction_processor.rs:370-392 | after any batch an account is untouched or as its last accepted writer left it |
| `Tokens.AcceptedWrites` | src/transaction_processor.rs:370-392 | after an accepted transaction each of its keys holds what was written at its last position, none is negative, and no other key changes |
| `BatchAccounts.AcceptedAlone` | src/transaction_processor.rs:240-283 | what a batch accepts would be accepted by itself from the same bank, with the same result |
| `BatchAccounts.AcceptedInBatch` | src/transaction_processor.rs:240-283 | and what would be accepted by itself is accepted in any batch without repeated signatures |
| `BatchAccounts.BatchAccount` | src/transaction_processor.rs:370-392 | after any batch each account is as the last accepted transaction that lists it would have left it alone |
| `BatchTotals.BatchTotal` | src/transaction_processor.rs:370-416 | for any batch, programs and keys, the exact change of the total: each accepted transaction adds what it did to the accounts that nothing afterwards writes again |
| `BatchTotals.BatchConservesExactly` | src/transaction_processor.rs:370-416 | a batch lowers the total by the fees it accepted, under every program and in every bank, if and only if no transaction lists a key twice and every two share no account, unless the later writes over all of the earlier one's and the earlier pays no fee |
| `BatchTotals.OverlapMints` | src/transaction_processor.rs:370-416 | for every other pair of a batch, a program and a bank on which the total does not drop by the fees |
| `BatchTotals.SameBalanceSentTwice` | src/builtin_pgm.rs:50-96 | two transfers of one amount from one account to two others in one batch: both arrive, the sender is charged once, and the total rises |
| `Transfers.TransferMovesTokens` | src/builtin_pgm.rs:50-96 | through load, execute, check and store, for any two keys: a transfer is accepted if and only if it is loadable, leaves neither side negative and takes only from system-owned accounts; between two accounts exactly amount and fee move; from an account to itself the amount is made from nothing and no fee charged; no other account changes, and none at all when refused |
| `Transfers.AccountCreated` | src/builtin_pgm.rs:50-96 | CreateAccount on any two keys, in use or not, equal or not: accepted if and only if loadable and sound on both sides; when it goes ahead owner, size and balance are as asked; when it does not, only the fee moves |
| `Transfers.OwnerAssigned` | src/builtin_pgm.rs:77-82 | Assign on any keys: accepted whenever it can be loaded; a system-owned first account then belongs to the program asked for and pays the fee, unless it is listed again, when it stays as it was; no other account changes |
| `Transfers.SelfTransferMints` | src/builtin_pgm.rs:50-96 | for every system transaction naming one account twice, a bank on which it is accepted and raises the total |
| `Transfers.SystemTotal` | src/builtin_pgm.rs:50-96 | for every system instruction on any list of keys, the exact change of the total of all balances |
| `Transfers.SystemConservesExactly` | src/builtin_pgm.rs:50-96 | a system transaction costs exactly its fee in every bank and whatever it says, if and only if later copies overwrite both or neither of its first two keys, and no fee is asked if both |
| `Transfers.LoadedProgramsConserveExactly` | src/transaction_processor.rs:326-356 | through the node's own dispatch: a transaction for a loaded program costs exactly its fee whatever the program does, if and only if its keys are distinct |
| `Programs.SystemInPlace` | src/builtin_pgm.rs:50-96 | the in-place instructions equal the function above, panics included |
| `Programs.SystemPanics` | src/builtin_pgm.rs:50-96 | the system program panics exactly for want of an account it uses, and fails in no other way |
| `Programs.SystemBalances` | src/builtin_pgm.rs:50-96 | no system instruction makes or destroys tokens or touches a third account |
| `Programs.DispatchKeepsSlice` | src/transaction_processor.rs:326-356 | the real programs meet what the laws ask of any program |
| `ReceiveWindow.DeliveryInOrderOnce` | src/window.rs:186-303 | over every run of arrivals and repairs: the queue holds each index once, in order, from a blob that arrived with it; no non-zero multiple of the interval that is this node's has been passed; nothing deliverable is held back; and with no end set or a near one, every wanted index that arrived in the window is consumed or held |
| `ReceiveWindow.AcceptedAreDelivered` | src/window.rs:256-303 | once the first n indices have been accepted they are delivered, or a non-zero multiple of the interval that is this node's has come first |
| `ReceiveWindow.PassesExactly` | src/window.rs:257-269 | at such a multiple, with the next blob there and readable, consuming goes on if and only if the height is not this node's; at any other height it always does |
| `ReceiveWindow.StandsAtOwnTurn` | src/blockthread.rs:328-333 | with the node's schedule, over runs: no rotation height scheduled to it is passed, and once n indices have been accepted they are all reached or it stands at such a height |
| `ReceiveWindow.NothingPastTheEnd` | src/window_service.rs:186-188 | with an end set, no run consumes past it or keeps anything beyond it |
| `ReceiveWindow.EndIsReached` | src/window_service.rs:186-208 | once everything up to a near end has been accepted, delivery is exactly at it, or at this node's turn before it |
| `ReceiveWindow.ArrivalIsNoted` | src/window.rs:236-247 | a coding blob is kept in its slot beside the data; a new blob notes whether the leader was known; nothing else of any slot changes |
| `ReceiveWindow.AcceptedAreKept` | src/window.rs:194-303 | each of them is consumed or held at the end of the run, through arrivals and repairs |
| `ReceiveWindow.ArrivalIsKept` | src/window.rs:194-248 | a decodable data blob inside the window is held or consumed as soon as it is processed |
| `ReceiveWindow.StepKeepsWaiting` | src/window.rs:94-121 | no arrival and no repair drops a blob that waits |
| `ReceiveWindow.RunKeepsInv` | src/window_service.rs:174-208 | the invariant over every run, blobs decodable or not |
| `ReceiveWindow.HonestDelivery` | src/window.rs:258-302 | when all senders agree, the queue is exactly a prefix of the stream |
| `ReceiveWindow.ReceiveKeeps` | src/window_service.rs:174-202 | any blob whatever keeps the invariant |
| `ReceiveWindow.ProcessBlobKeeps` | src/window.rs:194-303 | a blob inside the window keeps it, and every waiting blob is accounted for |
| `ReceiveWindow.ConsumeKeeps` | src/window.rs:258-302 | the consuming loop keeps it and stops only at a gap, a handover or an undecodable blob |
| `ReceiveWindow.WaitingNeverDisplaced` | src/window.rs:194-303 | an accepted blob stays until consumed, is replaced only by another copy, and is dropped only when undecodable |
| `ReceiveWindow.SlotHoldsConsumedOrOlder` | src/window.rs:271-281 | the loop's `<` test is an equality test |
| `ReceiveWindow.ClearSlotsExact` | src/window.rs:80-92 | within a turn of the ring, exactly the missing indices are listed and only blobs already consumed are dropped |
| `ReceiveWindow.Missing` | src/window.rs:80-92 | reference definition of what is missing |
| `ReceiveWindow.WaitingBlobSurvives` | src/window.rs:94-121 | over any range, a waiting blob survives if and only if the range does not reach its slot again |
| `ReceiveWindow.RepairAsksForGaps` | src/window.rs:94-121 | with no end set a repair asks only for missing indices more than the patience behind some index heard of, and for every such index within a turn of the ring |
| `ReceiveWindow.RepairReachesEnd` | src/window.rs:94-121 | with a near end set it asks for exactly what is missing up to and including it |
| `ReceiveWindow.RepairKeeps` | src/window.rs:94-121 | repair over any range keeps the invariant |
| `ReceiveWindow.MaxRepair` | src/window.rs:306-329 | the limit lies within one turn of the ring and never past what was received |
| `ReceiveWindow.WindowService.constructor` | src/window_service.rs:228-253 | the service starts at the entry height with an empty queue |
| `ReceiveWindow.WindowService.ConsumeContiguous` | src/window.rs:258-302 | the loop in place computes the consuming function |
| `ReceiveWindow.WindowService.InsertBlob` | src/window.rs:194-248 | storing a blob in place, duplicates included, is the function above |
| `ReceiveWindow.WindowService.ReceiveBlob` | src/window.rs:331-362 | the window test and bookkeeping in place |
| `ReceiveWindow.WindowService.ReceiveAll` | src/window_service.rs:174-208 | a whole batch of blobs is a run of arrivals, one after the other, and keeps the invariant |
| `ReceiveWindow.WindowService.RepairWindow` | src/window.rs:80-121 | the clearing loop in place lists and clears as specified |
| `Boot.Booter.constructor` | src/transaction_processor.rs:555-559 | starts with an empty tail |
| `Boot.Booter.Remember` | src/transaction_processor.rs:476-497 | the overwritten ring always holds the most recent entries, in rotated order |
| `Boot.Booter.ProcessBlock` | src/transaction_processor.rs:476-497 | a block is replayed and remembered entry by entry |
| `Boot.Booter.ProcessBlocks` | src/transaction_processor.rs:506-529 | blocks of VERIFY_BLOCK_SIZE are accepted exactly when the whole chain verifies and replays |
| `Boot.Booter.ProcessLedger` | src/transaction_processor.rs:532-575 | panics exactly on a ledger that does not start with a deposit; otherwise accepts exactly one that verifies as one chain and replays, returns its length and last 2048 entries, and leaves what the next row says |
| `Boot.AcceptedLedgerLeaves` | src/transaction_processor.rs:532-575 | an accepted ledger leaves the ids of all its entries, the last one last; only plans that pass from the third entry on; with two entries, the mint up by exactly the deposit and no other account changed; and on separate accounts the total as before, plus the deposit, less all fees |
| `Boot.GenesisFunds` | src/transaction_processor.rs:540-560 | the first two entries add the deposit to the mint's account and to no other |
| `Boot.GenesisIs` | src/transaction_processor.rs:540-553 | a ledger starts with a deposit exactly when the first transaction of its second entry is a system transfer, and the deposit is for its payer |
| `Boot.RefusedEntryLeaves` | src/transaction_processor.rs:466-474 | a refused entry has a failed transaction, leaves its id unregistered, and its batch applied |
| `Boot.RefusedLedgerLeaves` | src/transaction_processor.rs:499-504 | a refused list leaves exactly the ids of the entries before the one that failed |
| `BootLaws.MintBoots` | src/mint.rs:55-65 | a mint's two entries verify from its seed and boot any node, which then has exactly the mint's tokens more, all in the mint's account |
| `BootLaws.BootedLedgerKeepsEscrow` | src/transaction_processor.rs:506-530 | a ledger of contract calls that boots, none listing a contract again, keeps escrow: its replay is a run of the escrow model, every contract is backed and has paid at most once |
| `BootLaws.VettedCallsAreProper` | src/transaction_processoring_stage.rs:201-212 | a call the leader has taken in needs only list its contract once to be proper |
| `Boot.Booter.Start` | src/fullnode.rs:505-516 | recovery, reading, replay and window as one: from the files of any written ledger torn at any byte, a node panics when no entry is whole and otherwise starts exactly as from the longest whole prefix, with a window fit to receive and every repair request answered from that prefix, whether or not the ledger file is open |
| `Boot.TailStep` | src/transaction_processor.rs:476-497 | one overwrite keeps the ring equal to the most recent entries |
| `Boot.RingStep` | src/transaction_processor.rs:476-497 | on a full ring, overwriting at the cursor is dropping the oldest and appending |
| `Boot.ReplayPrefix` | src/transaction_processor.rs:499-504 | a replayable ledger is replayable up to any point |
| `Boot.StopsHere` | src/transaction_processor.rs:499-504 | nothing after the first failing entry is applied |
| `Boot.InitializedWindow` | src/window.rs:368-432 | the window built from the tail holds each of its last entries in its own slot and nothing else |
| `Boot.BootWindowIsFresh` | src/window.rs:368-432 | such a window is a valid start for the delivery theorem |
| `Boot.RepairServesLedger` | src/blockthread.rs:937-1003 | a repair request for any index of the ledger gets that entry, from window or file, and past the end gets nothing; with no ledger file open, exactly the cached entries are served |
| `Blobs.Blob.constructor` | src/packet.rs:139-152 | a new blob is an empty buffer of BLOB_SIZE |
| `Blobs.Blob.Write` | src/packet.rs:320-325 | writes exactly the given bytes and nothing else |
| `Blobs.Blob.SetIndex` | src/packet.rs:261-272 | the index reads back, all other header fields and the payload unchanged |
| `Blobs.Blob.SetId` | src/packet.rs:274-283 | likewise for the sender |
| `Blobs.Blob.SetFlags` | src/packet.rs:285-296 | likewise for the flags |
| `Blobs.Blob.SetSize` | src/packet.rs:307-338 | likewise for the size, in header and blob alike |
| `Blobs.Blob.Pack` | src/entry.rs:71-99 | after packing, with or without an index and a sender, the receiver reconstructs exactly the entry, what was given reads back with the rest of the header as it was, and with an index the window sees that index's data blob |
| `Blobs.WrongLengthIsRefused` | src/packet.rs:326-333 | a blob whose received length is not the one in its header, or less than a header, reads as nothing |
| `Handover.SearchIsRightForAllSchedules` | src/write_stage.rs:34-75 | the jumping search finds the first height not scheduled to this node under every schedule if and only if the batch is safe |
| `Handover.SearchIsRightWhenVisited` | src/write_stage.rs:34-75 | for one schedule: right if and only if the first such height is one the search looks at |
| `Handover.SearchFindsFirstVisited` | src/write_stage.rs:34-75 | the search returns the first such height among those it looks at |
| `Handover.MissedHeight` | src/write_stage.rs:34-75 | for every unsafe batch, a schedule on which the search steps over the stop |
| `Handover.SafeSearch` | src/write_stage.rs:34-75 | on safe batches the search equals the reference definition |
| `Handover.AllowedIsFirstBad` | src/write_stage.rs:34-75 | the reference definition stops at the first height not scheduled to this node |
| `Handover.AllowedMeans` | src/write_stage.rs:34-77 | writing goes up to the first multiple of the interval not scheduled to this node, and stops just there |
| `Handover.AllowedSplit` | src/write_stage.rs:78-113 | splitting the entries into batches does not change where writing stops |
| `Handover.FindLeaderRotationIndex` | src/write_stage.rs:34-75 | the loop in place returns the prefix the search decides on |
| `Handover.WriteBatches` | src/write_stage.rs:78-133 | over any batches, exactly the prefix the searches let through is written and the height advances by as many; over safe batches that is everything up to the first height not scheduled to this node |
| `Handover.BatchesAreRightForAllSchedules` | src/write_stage.rs:78-113 | over any list of batches: writing stops where it must under every schedule if and only if every batch is safe |
| `Handover.SafeBatchesAreRight` | src/write_stage.rs:78-113 | over safe batches the searches let through exactly what the schedule allows |
| `Handover.UnsafeBatchMisses` | src/write_stage.rs:78-113 | with any batch unsafe, a schedule whose one stop is written past |
| `Handover.SingleEntriesAreSafe` | src/pod_recorder.rs:33-59 | the recorder's one-entry batches are always safe |
| `FinPlans.WitnessSoundness` | src/fin_plan.rs:100-136 | a plan comes to pay only one of its own payments, and only after satisfying witnesses from the keys named, two separate ones for `And` |
| `FinPlans.WitnessReduces` | src/fin_plan.rs:100-136 | a witness leaves the plan alone or strictly lowers its rank, and never changes the amount it spends |
| `FinPlans.AfterComplete` | src/fin_plan.rs:100-136 | one satisfying witness settles a one-condition plan |
| `FinPlans.OrSettledByFirst` | src/fin_plan.rs:100-136 | a two-branch plan is settled by the first witness either branch accepts, the first branch preferred |
| `FinPlans.AndPays` | src/fin_plan.rs:100-136 | two separate satisfying witnesses in any order pay an `And` plan without nested times |
| `FinPlans.AndCompleteness` | src/fin_plan.rs:100-136 | an `And` plan pays on every justified history if and only if its times are not nested |
| `FinPlans.ReduceKeepsAmount` | src/fin_plan.rs:92-136 | no history changes what a verified plan spends |
| `FinPlanProgram.StateRoundTrip` | src/fin_plan_program.rs:197-231 | a state that was written reads back, and the buffer keeps its size, in any format that reads back what it writes, several spellings of a date allowed |
| `FinPlanProgram.ProcessInPlace` | src/fin_plan_program.rs:101-250 | instruction handling in place equals the function the escrow theorems are about, errors and panics included |
| `FinPlanProgram.SaveInPlace` | src/fin_plan_program.rs:197-217 | saving a state in place, or the error it gives |
| `FinPlanProgram.OpenInPlace` | src/fin_plan_program.rs:136-155 | opening a contract in place, or the error it gives |
| `FinPlanProgram.ApplyInPlace` | src/fin_plan_program.rs:48-97 | applying a timestamp or signature in place, or the error it gives |
| `FinPlanProgram.ProcessKeepsSlice` | src/fin_plan_program.rs:238-250 | a contract call never changes how many accounts there are |
| `ContractFormat.LayoutIsGood` | src/fin_plan_program.rs:26-30 | a concrete layout for every plan whose numbers and keys fit their fields meets all that is asked of a format |
| `ContractFormat.DatesHaveTwoSpellings` | src/fin_plan.rs:13-17 | in it a date has two spellings that read as the same date |
| `EscrowRuns.EscrowSafety` | src/fin_plan_program.rs:48-196 | over any run of batches of all programs, with ids registered in between, each batch careful: a pending contract holds more than it will pay and is never already due; an account hosts one plan; each pays at most once and exactly its deposit less the fee. Careful means: each contract call proper (it lists its contract once, cancel calls with the payer as third key included, and opens it with a verified plan); each system transaction sparing contracts; any other naming no contract; and none that is accepted listing a contract which an earlier one of its batch has acted on |
| `EscrowRuns.BatchKeepsEscrow` | src/transaction_processor.rs:395-464 | one such batch, though all its transactions are loaded from the accounts as they were before it |
| `EscrowRuns.CallsAreCareful` | src/fin_plan_transaction.rs:217-225 | batches of contract calls alone are careful by their plans and keys, with nothing to look up |
| `EscrowRaces.BatchSafeExactly` | src/transaction_processor.rs:395-464 | a batch of contract calls of any kind keeps escrow in every bank if and only if each call is proper and none lists a contract that an earlier one can act on beside it; which calls can run together is read off their keys and instructions |
| `EscrowRaces.RaceBreaks` | src/transaction_processor.rs:370-392 | for any two calls of a batch that race so, a bank meeting the invariant in which they break it |
| `EscrowRaces.ImproperBreaks` | src/transaction_processor.rs:370-392 | and likewise for a call that lists its contract again, or opens it with a plan that fails `verify_plan` |
| `EscrowRaces.BothSettlementsPay` | src/fin_plan_program.rs:48-97 | any two calls that would each settle one contract both do so in one batch, which no book allows |
| `EscrowRaces.CancelRacesWitness` | src/fin_plan_transaction.rs:169-206 | the witness's call and the payer's cancel of one plan in one batch: both are accepted, payee and payer each gain the amount, and the contract loses it once |
| `EscrowRaces.RaceHappens` | src/fin_plan_transaction.rs:140-206 | for every cancellable plan the source builds, a bank meeting the invariant in which that happens, with both calls proper |
| `Escrow.PaysOnceExactly` | src/fin_plan_program.rs:48-97 | a settling transaction processed by itself spends its contract in every bank if and only if the contract's key is not listed again after the second place |
| `Escrow.PaidTwice` | src/transaction_processor.rs:370-392 | when it is, the same settlement signed again is accepted again: one contract pays twice |
| `Escrow.RepeatLeavesPending` | src/transaction_processor.rs:370-392 | because the stale copy stored last leaves the contract pending with no fewer tokens |
| `Escrow.SettlementAccepted` | src/fin_plan_program.rs:48-97 | a settlement that can be loaded, from a contract with the tokens and the room, is accepted and pays out |
| `Escrow.SystemKeepsEscrowExactly` | src/builtin_pgm.rs:50-96 | an accepted system transaction keeps every contract backed if and only if each contract it charges or draws on keeps enough and none is the target of a CreateAccount that goes ahead |
| `Escrow.OwnedContractsAreSpared` | src/transaction_processor.rs:285-306 | for contracts owned by the contract program that comes down to: no contract pays the fee, and none is the target of a CreateAccount without space |
| `Escrow.ContractWiped` | src/builtin_pgm.rs:62-79 | the latter does happen: it is accepted and empties the contract's userdata |
| `Escrow.OtherKeepsEscrow` | src/transaction_processor.rs:326-356 | another program that names no contract and writes nothing that reads as one keeps escrow |
| `EscrowRuns.PayoutsAreJustified` | src/fin_plan_program.rs:48-97 | every payout of such a run was earned by witnesses the original plan named |
| `EscrowPayouts.PayoutWasEarned` | src/fin_plan_program.rs:48-97 | every payout of such a run was earned in it: for each condition that led to it there is an accepted call on that contract by the key the condition names, its signature or a time not before the date |
| `EscrowPayouts.PaymentArrives` | src/fin_plan_program.rs:48-97 | a settlement by itself names its payee third and raises that account by exactly the payment, unless it lists the payee again, and then by nothing |
| `EscrowPayouts.PayoutArrivesOrIsLost` | src/transaction_processor.rs:370-392 | in any batch: a payout that nothing later disturbs arrives in full; otherwise the payee's account is as its last lister alone would leave it |
| `EscrowPayouts.PayoutsArrive` | src/transaction_processor.rs:395-464 | over runs of batches so undisturbed, every payout raised the balance of the account its plan named by exactly the payment |
| `EscrowPayouts.CallPayoutsArrive` | src/transaction_processor.rs:395-464 | for runs of contract calls the keys of each batch decide that |
| `EscrowPayouts.PayoutsArriveExactly` | src/transaction_processor.rs:395-464 | in a batch of calls that keeps escrow every payout arrives in every bank if and only if no call that can settle lists its payee again and none lists the payee of an earlier one that can settle beside it |
| `EscrowPayouts.FirstPayoutIsLost` | src/transaction_processor.rs:370-392 | two contracts settled for one payee in one batch: both pay, and the payee has only the second payment |
| `Escrow.TransactionKeepsEscrow` | src/fin_plan_program.rs:101-196 | one transaction by itself, of any program, accepted or refused |
| `Escrow.ProcessEffect` | src/fin_plan_program.rs:101-196 | a successful call opens, advances, settles or does nothing, touches no other account's contract, and moves tokens only so: a settlement from the contract to the third key, which is the one the plan pays; a deposit or payment at once from the first account to the second |
| `Escrow.PaidAtOnce` | src/fin_plan_program.rs:103-152 | a contract due at once is a payment: accepted exactly when it can be loaded and paid, it moves the deposit from the first account to the second, and from an account to itself makes it from nothing |
| `Escrow.CallOutcome` | src/fin_plan_program.rs:48-245 | exactly when a call succeeds (payer no contract and able to pay, contract there or not as it should be, payment to the third account, room for the state and its length), exactly when it panics (for want of an account it uses, or of the last few bytes of room), and that otherwise it is refused |
| `Escrow.ContractChangeBacked` | src/fin_plan_program.rs:101-196 | each such change is one the book allows, and leaves the contract backed |
| `Escrow.AcceptedCall` | src/transaction_processor.rs:326-392 | what the processor stores for an accepted call on any keys, repeated or not: each as written at its last position, and no other key changes |
| `GossipNetwork.EveryRunKeepsNotes` | src/blockthread.rs:721-732 | over every purge-free run with messages lost, repeated and reordered, a node knows at least at the peer's version every entry the peer had stamped by the update index the node has noted |
| `GossipNetwork.DeltaEqualsFull` | src/blockthread.rs:868-910 | in any such state, applying any reply ever sent leaves the receiver exactly as if sent the whole table, and knowing all of it |
| `GossipNetwork.NothingIsMadeUp` | src/blockthread.rs:363-424 | over every run, whatever a node holds of a peer is an entry some node started with or inserted, with at most its address filled in where none was given, and the version and last id of a vote seen for that peer |
| `GossipNetwork.StepKeeps` | src/blockthread.rs:1035-1134 | every network step keeps that invariant |
| `GossipNetwork.AnswerInvariant` | src/blockthread.rs:721-732 | an answer leaves out only what the asker's own claim covers |
| `GossipNetwork.ReplyCatchesUp` | src/blockthread.rs:868-910 | after applying a reply the receiver knows the sender's whole table as of that reply |
| `GossipNetwork.ReplyIsNews` | src/blockthread.rs:721-735 | what a reply carries was stamped after the index the asker had noted when it asked |
| `GossipNode.EveryHandlerKeeps` | src/blockthread.rs:404-483 | every handler with any arguments, and every purge, keeps: self known, table and stamps over the same keys, liveness only for known nodes, distinct stamps below the update index, rumours ahead of what was seen |
| `GossipNode.NoStaleRumours` | src/choose_gossip_peer_strategy.rs:101-107 | so the peer weighting's stale-vote branch is unreachable |
| `GossipNode.NewNodeInv` | src/blockthread.rs:251-269 | a new node starts within the invariant |
| `GossipNode.InsertKeeps` | src/blockthread.rs:404-430 | after an insert the id is known at no older a version, and nothing noted about peers is lost |
| `GossipNode.SetLeaderKeeps` | src/blockthread.rs:319-325 | the node follows the new leader, in a table of the same keys |
| `GossipNode.NewVoteKeeps` | src/blockthread.rs:804-815 | voting keeps the invariant |
| `GossipNode.InsertVoteKeeps` | src/blockthread.rs:363-393 | seeing a vote keeps the invariant |
| `GossipNode.VoteIsRecorded` | src/blockthread.rs:363-393 | a newer vote of a known key, under a contact version we have, becomes its entry's version and last id, under the next update index and heard of now; an older one only shows the voter is alive; any other changes nothing |
| `GossipNode.VotesAreTallied` | src/blockthread.rs:394-402 | after any list of votes, each known voter's entry is that of its highest vote, the first of equals, or unchanged if none is newer |
| `Votes.ReplayedVotesStand` | src/replicate_stage.rs:60-69 | so after the votes in the entries a validator has replayed, a known voter's entry has at least the version of each of its votes there that counts, and if changed, just the version and last id of one of them |
| `Votes.VotesOfExactly` | src/ledger.rs:384-392 | a vote is read off the entries exactly when some transaction of theirs is that vote |
| `GossipNode.InsertRecords` | src/blockthread.rs:404-424 | a newer entry is recorded whole under the next update index and heard of now; any other changes nothing |
| `GossipNode.LeaderIsRecorded` | src/blockthread.rs:319-325 | choosing a leader changes just that in the node's own entry, under its next version |
| `GossipNode.OwnVoteIsRecorded` | src/blockthread.rs:804-815 | voting does the same with its last id, as long as the leader is known |
| `GossipNode.AskerIsKnown` | src/blockthread.rs:1044-1122 | whoever asks for updates is known afterwards, at least at the version it gave, with an address, and alive |
| `GossipNode.ReplyIsNoted` | src/blockthread.rs:868-910 | after a reply its sender's update index is noted and no rumour about the sender left; of any other peer each claim in it that is news is kept, at least as high as made |
| `GossipNode.RumourKeeps` | src/blockthread.rs:868-910 | a peer's claim changes rumours alone and never leaves a stale one |
| `GossipNode.ApplyUpdatesKeeps` | src/blockthread.rs:868-910 | so does applying a whole reply, which drops the rumours it overtakes |
| `GossipNode.HearFromKeeps` | src/blockthread.rs:1044-1092 | so does answering a request |
| `GossipNode.ForgetKeeps` | src/blockthread.rs:467-482 | forgetting removes one node from every map |
| `GossipNode.PurgeOneKeeps` | src/blockthread.rs:467-482 | purging the leader also clears whom the node follows; other entries stay |
| `GossipNode.BlockThread.constructor` | src/blockthread.rs:251-269 | in place, a new node |
| `GossipNode.BlockThread.UpdateLiveness` | src/blockthread.rs:432-437 | in place, a liveness stamp |
| `GossipNode.BlockThread.InsertInfo` | src/blockthread.rs:404-430 | in place, an insert; the count says whether anything was new |
| `GossipNode.BlockThread.ChooseLeader` | src/blockthread.rs:319-325 | in place, the choice of leader |
| `GossipNode.BlockThread.RecordVote` | src/blockthread.rs:363-393 | in place, a vote |
| `GossipNode.BlockThread.RecordVotes` | src/blockthread.rs:394-402 | the loop over the votes, in place |
| `GossipNode.BlockThread.ReceiveUpdates` | src/blockthread.rs:868-910 | the loops in place compute the reply's effect |
| `GossipNode.BlockThread.HearRumour` | src/blockthread.rs:868-910 | in place, one claim of a reply |
| `GossipNode.BlockThread.Purge` | src/blockthread.rs:442-483 | forgets exactly the peers unheard of too long, in any order, leaving the others' entries alone and clearing a purged leader |
| `GossipNode.BlockThread.ForgetAll` | src/blockthread.rs:467-482 | the purge loop, for any set of peers |
| `GossipNode.BlockThread.ForgetOne` | src/blockthread.rs:467-482 | one turn of that loop |

## Left out

- Sockets, channels, timers, metrics, logging, JSON-RPC, the command line, faucet, thin client and full-node wiring.
- Threads other than the leader's two: the validator's and the window's steps are taken as atomic; a gossip handler takes one step for each lock it holds, so that other nodes' messages can fall between collecting a reply and noting who asked.
- Ed25519 and SHA-256: a signature is an opaque value and hashing a parameter.
- `src/erasure.rs` and the use of coding blobs: a foreign coder, off by default; coding blobs are stored in their slot and nothing more.
- `DynamicProgram`, `SystemProgram::Load` and the game programs: any deterministic program function stands for them.
- Weighted and random peer choice, repair back-off randomness, `top_leader` and `update_leader`: only the fact that the stale-vote branch is unreachable is kept.
- `FinPlanState::get_balance`: it decodes without the frame the serialiser writes.
- Wrap-around of tokens, versions and indices: these are mathematical integers, except that encoded lengths and offsets are required to fit eight bytes.
- The retransmit queue, the sender id chosen in a repair answer, and `clear_signatures`.
- Timestamps kept beside entry ids, transaction counters other than the accepted count, and error counters.
- LedgerFiles.VerifyLedger: says whether the ledger is accepted, not which I/O error is reported; reading an absurd length is an error here, not an exhausted memory.
- LedgerFiles.CrashRecovery: says that recovery fails, not what it has trimmed by then.
- Processor.TransactionProcessor.LoadOne: transactions without keys, on which the source panics, are excluded here and wherever batches are processed.
- Processor.TransactionProcessor.ProcessBatch: a program that panics fails its own transaction here and the rest of the batch is stored; in the source the panic unwinds the batch before anything is stored, with signatures reserved and the accounts lock poisoned, after which the node's next access panics too.
- AtMostOnce.AcceptedAtMostOnce: assumes registered ids are fresh, which is what a hash chain provides; a batch is one event here, and `ThreadSignatures.AcceptedOnceByThreads` takes it apart.
- ThreadSignatures.AcceptedOnceByThreads: assumes the same of the ids the leader sends.
- LeaderThreads.TwoThreadsReplay: assumes the same of the ids the leader sends.
- Packing.NextEntries: for two or more transactions, stated when each fits a blob by itself; `Packing.PackingEnds` shows that otherwise the loop never ends.
- EscrowRuns.EscrowSafety: programs other than the two built in are assumed never to write userdata that reads as a live contract; nothing in the processor checks userdata. For batches that mix programs the condition is sufficient; it is shown exact for contract calls and for one system transaction.
- Escrow.PaysOnceExactly: stated for formats that can write the plan its counterexample waits on.
- EscrowRaces.BatchSafeExactly: stated for formats that can write the plans its counterexamples wait on, and for batches in which no (last id, signature) pair repeats; of two that repeat one, only the first to load can be accepted.
- EscrowPayouts.PayoutsArriveExactly: stated for formats that can write the plans its counterexamples wait on; for batches that mix programs, `EscrowPayouts.PayoutArrivesOrIsLost` says what becomes of each payout.
- Boot.AcceptedLedgerLeaves: the first two entries are taken as they are, as in the source; their chain and plans are not checked.
- BatchTotals.BatchConservesExactly: stated for batches in which no such pair repeats.
- GossipNetwork.EveryRunKeepsNotes: excludes purging, after which a forgotten entry is deliberately unknown; messages are addressed by node id, not socket address.
- ReceiveWindow.AcceptedAreDelivered: with an end set more than a turn of the ring ahead, or blobs that do not decode, a waiting blob can be dropped; `ReceiveWindow.WaitingBlobSurvives` and `ReceiveWindow.WaitingNeverDisplaced` say exactly when.
- The byte layout of contract states and instructions is a parameter required to read back what it writes; dates are compared as numbers.
- FinPlans: a plan is replaced as a value, not through a mutable reference.
