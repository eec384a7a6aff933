# Dafny model of the DTD logistics platform's trust core

The platform moves goods and money on evidence. This project models the parts that evidence
rests on and proves what they promise, for every input, every run and every interleaving.

* **Custody and escrow** (`Custody`, `CustodyRights`, `EscrowModel`, `EscrowSafety`,
  `EscrowRights`, `EscrowContract`). Loader and driver co-sign a piece count, the receiver signs
  what arrived, and the escrow pays on a full delivery or on an arbiter's split. Every payment hands control to the recipient, who
  is a finite script of further contract calls, each with scripts of its own; a failed payment
  rolls everything back. The invariants hold at every call boundary inside such runs, not only
  between transactions. The signed prefix is EIP-191 version `0x45`.
* **GPS anchoring** (`Telemetry`, `Merkle`, `HexMerkle`, `TripLog`, `AnchorPipeline`,
  `AnchorAgreement`, `AnchorCoverage`, `AnchorRebuild`, `SameRoot`, `AnchorTies`, `AnchorService`,
  `ProofApi`). Pings become packed leaves (Solidity Contract ABI Specification, section
  "Non-standard Packed Mode"), a sorted-pair tree, a stored batch, a queued job, an on-chain root,
  and later a tree rebuilt from a time range. The hash is an arbitrary function; soundness is
  stated as collision extraction.
* **Scan queue and log** (`ScanLog`, `ScanQueue`, `ScanQueueSafety`, `ScreenCount`,
  `ScannerRuns`, `ScannerPage`, `Reconciliation`). An offline scanner with a queue in memory and in
  IndexedDB, lost, late and repeated posts, reloads at any moment, and a log that keeps one event
  per piece and nonce. Each stretch of code between two awaits is one step.
* **Payouts** (`Handoff`, `ReleaseGate`, `Payments`, `OrderIds`, `PayoutSafety`, `ForgedPayout`).
  Any number of interleaved build, confirm, payout and webhook requests, while anyone calls the
  custody contract and the gateway settles collections.
* **Data cores**: the fork detector (`ForkDetector`, `ForkMeaning`), entitlements (`ModuleCatalog`,
  `Entitlements`, `EntitlementService`), stops and journeys (`StopDetector`, `StopMeaning`,
  `Timeline`), the ledgers (`Reputation`, `Documents`), and manifests (`CanonicalManifest`,
  `ManifestBuilder`).

Code that updates state is a class whose methods are proved against value-level steps; the
theorems are about runs of those steps. Pure code is functions and lemmas. Where theorems lean on
a definition of the code's own, such as what counts as slow, late or signed, a lemma beside it says
what that is in units, positions and comparisons.

## What turned out not to hold

Each of these is proved with a concrete witness or an exact condition.

* A batch's mark goes to the oldest unmarked row, so a lost mark followed by a swallowed
  `TimeOverlap` retry mislabels rows (`LostMarkBreaksAgreement`). Database and chain agree
  exactly when every completed job finds its own row oldest (`RunAgreesIff`).
* A ping archived late into a closed window makes the rebuilt root differ, so no proof of that
  window verifies short of a hash collision (`VerifiesIffNothingLate`). A ping archived no later
  than the end of the last window, even into a gap between two, is itself never anchored
  (`LatePingIsNeverBatched`, and exactly which pings are: `BatchedIff`).
* The archive may hold two pings of one moment, and the range query leaves their order open. With
  nothing late a rebuild can then still give another root (`TiedPingsCanFail`). Every order is fine
  exactly if equal timestamps only occur between siblings of the tree (`EveryAnswerRebuildsIff`).
* The payout webhook does not check that its body's booking is its manifest's. Whoever holds the
  internal secret can therefore pay out a short delivery with another manifest's id
  (`ForgedBodyPaysShort`, from deployment: `ForgedPayoutIsReachable`), against the promise that no
  compromised service can force a payout the chain disagrees with. The promise holds for every run
  exactly as far as accepted bodies name their manifest's own booking
  (`TiedPayoutsNeedTheirOwnManifest`, `WebhookKeepsSettledIff`).
* The finish button waits for one flush and does not look at the queue. Offline, after a failed
  post, or with more than fifty items queued (`OneFlushSendsFifty`), the count it passes on can be
  above the count that is signed, and a COMPLETE screen can end in a SHORT signature
  (`CompleteScreenCanBeShort`; exactly when not: `CompleteScreenIsCompleteIff`). After a reload the
  page forgets the pieces it has already delivered, so the count can be below
  (`ReloadForgetsDelivered`). `ScreenCountIffAllSeen` says exactly when the two counts agree.
* A piece list in which every piece already carries its id is refused, because zero ids are then
  requested from the generator, which rejects zero (`ResolvesIff`).
* Piece rows are stored with their ids alone, uuid columns print in lower case, and the
  transporter is read back as the writing company. Re-hashing a stored manifest that has an sku,
  a weight, an upper-case booking id or another transporter looks like tampering
  (`RereadKeepsForm`).
* A failed collection can never be retried: its order id, taken from the booking id, stays taken
  (`FailedIsFinal`). Two bookings whose ids share their first fourteen hex digits share an order
  id, so only one of them can be collected (`SameOrderIff`, `SharedOrderBlocks`). A release answers "released" even if no row was paid out
  (`ReleaseTakesEffect`).
* Revoking QR_GOODS strands claims evidence, financing and reputation
  (`RevokeUnderModuleRequires`). A plan change and a cleared override check nothing; each keeps a
  company coherent exactly under its own condition (`PlanChangeCoherentIff`, `ClearCoherentIff`),
  and each can strand a module (`DowngradeCanStrand`, `ClearingCanStrand`).
* A late scan at the unloading dock, or a dispute, silences a theft alarm
  (`SightingStandsUnless`, `LateUnloadingSilencesTheft`), and DUPLICATE_LIFE is
  unreachable through the platform's own scan routes (`RoutesNeverYieldDuplicateLife`).
* A dwell that follows another halt with no moving ping between loses one ping and can be missed
  altogether (`JumpDropsTheFirstPing`): exactly when what lies on either side of the break is too
  short (`BrokenDwellMissedIff`, `UnbrokenDwellMissedIff`), so never once it lasts twice the
  minimum duration and twice the gap between its pings (`LongDwellIsSeen`).
* A journey's top speed ignores its first ping (`FirstPingIsIgnored`, `TopSpeedIsFastestIff`).

## Assumptions

* keccak256, ecrecover, the HMACs, the metric and the JSON hash are arbitrary functions.
* The tree library (merkletreejs, not part of this model) pairs neighbours, carries the odd last
  node up unchanged, and may return the proof of any equal leaf.
* Coordinates are already rounded micro-degrees; piece ids compare by their rank in id order.
* A manifest's trip id, which its schema fixes to lower-case hex, is the number it writes; its
  creation time is the ISO text the builder took from the clock, which the database gives back
  unchanged. Booking and transporter ids are texts, compared as uuid values by the database. The
  payout path, where they are always read back from uuid columns, uses their numbers.
* Jobs are worked per trip; agreement is claimed only where a trip's jobs run in creation order
  and anchoring and marking happen in one step.
* The scanner starts after its stored queue is loaded, its posts reach the unloading route, and
  its nonce arrives as the client nonce; fresh nonces are unused.
* Recipients' scripts may send from any address. Ether forced into the escrow outside `fund` is
  not modelled. Loader, driver and receiver may be the same address.
* The payout path's honest runs assume that only schema-valid manifests are anchored by the
  builder and that the internal webhook secret is kept; `LeakedSecretStillNeedsTheChain` drops
  both. The gate's body names a transporter where the webhook's type names a company; neither
  field is read for the payout.

## Model

| member | source | states |
|---|---|---|
| EscrowSafety.EveryBoundarySafe | chain/contracts/Escrow.sol:92-145 | Over any run of transactions with any re-entrant recipients, at every call boundary: balance plus payments equals deposits received, balance covers all funded deposits plus shares in flight, and each deposit's payments are those of one release or one split |
| EscrowSafety.EveryBoundarySafeFromDeployment | chain/contracts/Escrow.sol:75-145 | In particular for every run from deployment on |
| EscrowSafety.EveryBoundaryIsLogged | chain/contracts/Escrow.sol:109-145 | No boundary is left out of that: a payment logs when the recipient gets and gives back control, a script every call and all inside it |
| EscrowSafety.EveryTransactionIsLogged | chain/contracts/Escrow.sol:92-145 | A run logs the moment before each transaction, everything inside it, and the moment after the last |
| EscrowSafety.ExecSafe | chain/contracts/Escrow.sol:92-145 | One call, with everything its recipients do in it, keeps that safety and leaves closed deposits closed |
| EscrowSafety.RunSafe | chain/contracts/Escrow.sol:109-145 | So does any recipient script, however deeply it calls back |
| EscrowSafety.SendSafe | chain/contracts/Escrow.sol:113-118 | A payment attempt ends with the share sent, or with the world exactly as before |
| EscrowSafety.PaymentsMatchDeposit | chain/contracts/Escrow.sol:109-145 | Payments made and owed for a manifest add up to its deposit once closed and to nothing before, all by the operation that closed it, to its payee or payer |
| EscrowSafety.NothingMoreIsPaid | chain/contracts/Escrow.sol:109-145 | Once a deposit is closed no call, however it re-enters, pays again for it or changes it |
| EscrowSafety.NoDepositIsStuck | chain/contracts/Escrow.sol:109-145 | From every safe joint state a funded deposit is closed by at most three further calls when platform and arbiter act and recipients accept |
| EscrowRights.SplitPaysExactly | chain/contracts/Escrow.sol:124-145 | A split that goes through, whatever callbacks run, was asked for by the arbiter for a funded deposit of a short or disputed manifest, and all payments of the deposit are then: the stated part to its payee if it is positive, the rest to its payer if that is |
| EscrowRights.SplitReceived | chain/contracts/Escrow.sol:132-144 | Of two different parties the payee has received exactly the stated part and the payer exactly the rest |
| EscrowRights.EachAnswersForItsPart | chain/contracts/Escrow.sol:135-144 | A part of zero asks nobody, and a recipient that refuses its part undoes everything |
| EscrowRights.ReleasePaysExactly | chain/contracts/Escrow.sol:109-121 | A release that goes through was for a funded deposit of a manifest Delivered in full and has paid the whole deposit to its payee, once |
| EscrowRights.FundedIff | chain/contracts/Escrow.sol:92-106 | A deposit is taken exactly with ether, for a real payee, once per manifest, and names the sender as payer |
| EscrowRights.AdministeredIff | chain/contracts/Escrow.sol:79-88 | The arbiter is set exactly by the owner and to a real address; the owner hands over to anyone |
| EscrowRights.RunNeedsAuthority | chain/contracts/Escrow.sol:59-67 | Over any run with any callbacks: without the owner and the arbiter among the senders nobody splits a deposit or replaces them, and without the custody contract's owner and platforms nothing changes there |
| EscrowContract.EscrowObject.Fund | chain/contracts/Escrow.sol:92-106 | The contract method is the model's funding step, with the same errors in the same order |
| EscrowContract.EscrowObject.Release | chain/contracts/Escrow.sol:109-121 | Checks, closes the deposit, then calls the payee; a failed payment restores both contracts; equals the model's release with its callbacks |
| EscrowContract.EscrowObject.ResolveDispute | chain/contracts/Escrow.sol:124-145 | Pays the split's two parts with control handed over in between; equals the model's dispute resolution |
| EscrowContract.EscrowObject.PayBoth | chain/contracts/Escrow.sol:134-143 | The two parts of a split one after the other, the first payment's callbacks run before the second is made |
| EscrowContract.EscrowObject.PayPart | chain/contracts/Escrow.sol:136-143 | One part of a split; a zero part is skipped |
| EscrowContract.EscrowObject.Pay | chain/contracts/Escrow.sol:116-118 | The low-level call: balance check, transfer, recipient code, rollback on failure |
| EscrowContract.EscrowObject.Execute | chain/contracts/Escrow.sol:79-145 | Every escrow or custody call on the objects is the model's step, so all theorems apply to them |
| Custody.RunKeepsConsistent | chain/contracts/CustodyManifest.sol:140-256 | Over every run: statuses match signature flags and counts, Delivered and Short carry all three signatures with count equal to, or below, the piece count, parties and counts never change, and Disputed is absorbing |
| Custody.ReleasableLostForever | chain/contracts/CustodyManifest.sol:253-256 | A manifest that was releasable and no longer is never becomes releasable again |
| CustodyRights.OutsidersAreRefused | chain/contracts/CustodyManifest.sol:140-241 | A manifest call of anyone who is not a platform answers NotPlatform and changes nothing |
| CustodyRights.EveryWriteIsAPlatforms | chain/contracts/CustodyManifest.sol:140-241 | Behind every manifest change of a run stands an accepted call on it whose sender was a platform then, and which wrote the final value |
| CustodyRights.OnlyTheOwnerAdministers | chain/contracts/CustodyManifest.sol:96-104 | Administration by anyone but the owner answers NotOwner and changes nothing |
| CustodyRights.EveryAdminChangeIsTheOwners | chain/contracts/CustodyManifest.sol:96-104 | Behind every change of owner or platforms in a run stands a call of the owner of that moment |
| CustodyRights.CreatedIff | chain/contracts/CustodyManifest.sol:140-172 | Exactly when a manifest is created, and that it holds what was asked for |
| CustodyRights.CreatedForGood | chain/contracts/CustodyManifest.sol:155-170 | Parties, trip and count stay those of the creating call through any later calls |
| CustodyRights.LoadingSignedIff | chain/contracts/CustodyManifest.sol:175-208 | Exactly which loading signatures are taken, and that the second one starts custody at that moment |
| CustodyRights.ConfirmedIff | chain/contracts/CustodyManifest.sol:215-233 | Exactly which deliveries are confirmed, and that only a full count is Delivered |
| CustodyRights.DisputedIff | chain/contracts/CustodyManifest.sol:236-241 | Exactly who disputes what, and that only the status changes |
| CustodyRights.AdministeredIff | chain/contracts/CustodyManifest.sol:96-104 | Exactly the owner hands over and admits or removes one platform |
| CustodyRights.WalletSignatureRecovers | chain/contracts/CustodyManifest.sol:107-120 | r, s and v put together in that order recover to the key ecrecover finds over the EIP-191 text and the digest, with v from 27 or from 0 |
| CustodyRights.OtherLengthsDoNotRecover | chain/contracts/CustodyManifest.sol:112 | Bytes of any length but 65 are no signature of anyone |
| CustodyRights.LoadingLayout | chain/contracts/CustodyManifest.sol:124-126 | The signed loading bytes by position: tag, chain, contract, manifest |
| CustodyRights.DeliveryLayout | chain/contracts/CustodyManifest.sol:129-137 | The signed delivery bytes by position: tag, chain, contract, manifest, count |
| Custody.SignaturesOnRecord | chain/contracts/CustodyManifest.sol:175-233 | Every signature flag of every manifest is backed by a call of the run whose signature recovers to that party, for that manifest and count |
| Custody.LoadingPreimageBinds | chain/contracts/CustodyManifest.sol:124-126 | A loading signature fits one chain, one contract and one manifest only |
| Custody.DeliveryPreimageBinds | chain/contracts/CustodyManifest.sol:129-137 | A delivery signature fits one chain, one contract, one manifest and one count only |
| Custody.SharedDigestIsCollision | chain/contracts/CustodyManifest.sol:124-137 | Any digest serving two purposes, deployments, manifests or counts exhibits two different preimages with one hash |
| Custody.CustodyManifest.CreateManifest | chain/contracts/CustodyManifest.sol:140-172 | Creates exactly the stated manifest or reverts with the first failing check |
| Custody.CustodyManifest.SubmitLoaderSignature | chain/contracts/CustodyManifest.sol:175-187 | Records the loader's valid signature and starts custody if it is the second one |
| Custody.CustodyManifest.SubmitDriverSignature | chain/contracts/CustodyManifest.sol:190-208 | Records the driver's valid signature and starts custody if it is the second one |
| Custody.CustodyManifest.ConfirmDelivery | chain/contracts/CustodyManifest.sol:215-233 | Records the receiver's signed count and settles the manifest as Delivered or Short |
| Custody.CustodyManifest.MarkDisputed | chain/contracts/CustodyManifest.sol:236-241 | Disputes any existing manifest |
| Custody.CustodyManifest.IsReleasable | chain/contracts/CustodyManifest.sol:253-256 | The money condition, as the theorems use it |
| Handoff.ShortAlwaysBlamesDriver | custody/manifest/handoff.ts:96-141 | After any run of the contract, attribution names the driver, with at least one lost piece, exactly for manifests that are Short |
| Handoff.ShortVerdictIsFinal | custody/manifest/handoff.ts:96-141 | That verdict never changes afterwards unless the manifest is disputed |
| Handoff.WindowMeans | custody/manifest/handoff.ts:153-168 | The window a record names, exactly, from signatures and counts |
| Handoff.UpsertedMeans | custody/db/custody.store.pg.ts:28-48 | A synced row is the chain's record but for the piece count, which stays as first cached |
| Handoff.TransitionMeans | custody/manifest/handoff.ts:78-86 | Announced is exactly a changed status, critically exactly when it became Short |
| Handoff.HandoffService.Sync | custody/manifest/handoff.ts:56-90 | Returns the chain's view whatever the cache held, rewrites the cached row, and announces a changed status |
| Handoff.HandoffService.AttributeLoss | custody/manifest/handoff.ts:96-141 | The attribution is that of the freshly synced record |
| Handoff.HandoffService.AssertScannable | custody/manifest/handoff.ts:144-150 | Scan-in is allowed exactly while the chain says InCustody |
| Telemetry.PackedInjective | gps/batching/merkle-batcher.ts:41-55 | Equal leaf preimages agree on every anchored field except the device id, whose hashes agree |
| Telemetry.PackedLayout | gps/batching/merkle-batcher.ts:37-56 | The frozen leaf layout by position: trip, device hash, latitude and longitude in two's complement, time, tier, signature |
| Merkle.ProofFoldsToRoot | gps/batching/merkle-batcher.ts:61-73 | Every proof generated from a batch of any size, odd layers included, folds to the root |
| Merkle.AcceptedPingCommittedOrCollision | chain/contracts/TripLogAnchor.sol:114-129 | A ping accepted with any proof of any length against a batch's root is one of the batch's, or two different byte strings with one hash are computed from the ping, the proof and the batch |
| Merkle.ExtractSound | gps/batching/merkle-batcher.ts:41-64 | The extraction returns a genuine collision whenever the fold accepts an uncommitted ping |
| Merkle.CommittedPingHasProof | gps/batching/merkle-batcher.ts:70-73 | Every committed ping has an accepted proof |
| Merkle.BuildTreeSpec | gps/batching/merkle-batcher.ts:61-68 | The layered root is the value of a tree holding exactly the batch's pings |
| Merkle.SmallRoots | gps/batching/merkle-batcher.ts:61-68 | Roots of one, two and three leaves written out: the smaller number first, an odd leaf carried up |
| Merkle.FoldFromFront | chain/contracts/TripLogAnchor.sol:118-128 | The contract's loop from the proof's front, the smaller number first |
| HexMerkle.VerifyLocally | chain/sdk/merkle.ts:62-71 | The loop over lower-cased hex strings reaches the verdict of the on-chain fold for every leaf, proof and root |
| HexMerkle.HexWordOrder | chain/sdk/merkle.ts:65-70 | Lower-cased hex words compare, and are equal, exactly as the 32-byte words do |
| HexMerkle.HexOrderIsByteOrder | chain/sdk/merkle.ts:65-70 | The same for hex strings of any even length |
| HexMerkle.HexStepIsFoldStep | chain/sdk/merkle.ts:64-69 | One turn of the string loop is one turn of the contract's loop |
| TripLog.RunKeepsOrder | chain/contracts/TripLogAnchor.sol:72-95 | In every reachable state every trip's windows are ordered and disjoint |
| TripLog.RunOnlyAppends | chain/contracts/TripLogAnchor.sol:72-95 | Anchored batches are never changed or removed |
| TripLog.AcceptedForever | chain/contracts/TripLogAnchor.sol:114-129 | An accepted trip, index, leaf and proof stays accepted after any later calls |
| TripLog.AnchoredIff | chain/contracts/TripLogAnchor.sol:72-95 | Exactly which batches are anchored, by whom, and that they go to the end of their own trip |
| TripLog.EveryBatchIsAnAnchorers | chain/contracts/TripLogAnchor.sol:72-95 | Behind every batch a run adds stands the call of an anchorer of that moment for just that root and window |
| TripLog.EveryAdminChangeIsTheOwners | chain/contracts/TripLogAnchor.sol:59-67 | Owner and anchorers change only by the owner's call |
| TripLog.TripLogAnchor.AnchorBatch | chain/contracts/TripLogAnchor.sol:72-95 | Appends one batch and returns its index, or reverts without effect on the first failing check |
| TripLog.TripLogAnchor.VerifyPing | chain/contracts/TripLogAnchor.sol:114-129 | The loop computes the fold's verdict, or reverts for a missing batch |
| AnchorAgreement.RunAgreesIff | gps/workers/anchor-worker.ts:85-118 | For any job order, lost marks and dropped jobs: database and chain agree on every anchored row exactly if they did before and every mark landed on its own row |
| AnchorAgreement.MarkAgreesIff | gps/db/batch.store.pg.ts:49-58 | One mark keeps agreement exactly if the oldest unmarked row is that job's batch |
| AnchorAgreement.AttemptMeans | gps/workers/anchor-worker.ts:85-118 | What one attempt does, written out: append and mark, append without mark, end on an overlapping window, or nothing |
| AnchorAgreement.InOrderRunKeepsLockstep | gps/workers/anchor-worker.ts:56-118 | With jobs in creation order and marks kept, over any run of sweeps: the k-th stored and k-th on-chain batch agree on root and window, and windows are disjoint |
| AnchorAgreement.NextJobIsInOrder | chain/contracts/TripLogAnchor.sol:78-91 | Then the next job is never refused for its time range or overlap |
| AnchorAgreement.AnchoredRowsArePrefix | gps/db/batch.store.pg.ts:49-58 | Then the anchored rows are a prefix, each naming its own position on chain |
| AnchorAgreement.CloseKeepsRowsOrdered | gps/batching/merkle-batcher.ts:85-110 | A closed window starts strictly after every earlier one |
| AnchorAgreement.LostMarkBreaksAgreement | gps/workers/anchor-worker.ts:109-118 | A run from a trip's first ping, with one lost mark and its swallowed retry, after which no job is left and database and chain disagree for good |
| AnchorCoverage.BatchedIff | gps/batching/merkle-batcher.ts:85-110 | Over any run an archived ping ends up in a row exactly if every window stored when the run starts ends before it and some sweep drains it |
| AnchorCoverage.LatePingIsNeverBatched | gps/batching/merkle-batcher.ts:85-110 | A ping archived no later than the end of some stored window, in it or in a gap, is never anchored in any continuation |
| AnchorCoverage.BatchedOnce | gps/batching/merkle-batcher.ts:85-110 | A ping put into a row is put into no other row by any continuation |
| AnchorRebuild.ClosedWindowIsBatch | gps/batching/merkle-batcher.ts:85-106 | At close time the range query over the new window returns exactly the batched pings |
| AnchorRebuild.RunKeepsRebuild | gps/db/ping-source.store.pg.ts:16-40 | Over runs without late pings every stored window stays rebuildable, beside the lockstep with the chain |
| AnchorRebuild.NewTripStaysInOrder | gps/workers/anchor-worker.ts:56-118 | In particular from a trip's first ping on |
| AnchorRebuild.RebuiltIsBatch | gps/db/ping-source.store.pg.ts:16-40 | Then a rebuilt batch has the stored count and the stored root |
| AnchorRebuild.ProvedMomentVerifies | gps/query/proof-api.ts:51-76 | Then the proof for any covered moment is accepted by the on-chain batch and names the nearest ping |
| AnchorRebuild.CoveringRowUnique | gps/db/ping-source.store.pg.ts:16-30 | At most one anchored window covers a moment |
| AnchorRebuild.LatePingFailsOrCollides | gps/query/proof-api.ts:51-76 | A proof from a rebuilt batch holding an uncommitted ping verifies only with a hash collision |
| AnchorTies.VerifiesIffNothingLate | gps/db/ping-source.store.pg.ts:16-40 | For any archive, repeated timestamps included: a rebuilt proof verifies exactly if the rebuilt tree is the batch's up to sibling swaps, a collision aside; a late ping rules that out, and with nothing late it holds whenever equal timestamps only occur between siblings |
| AnchorTies.EveryAnswerRebuildsIff | gps/db/ping-source.store.pg.ts:31-40 | For a batch of different pings, every order the range query may answer in rebuilds the stored tree up to sibling swaps exactly if equal timestamps only occur between siblings |
| AnchorTies.SiblingTiesAreHarmless | gps/db/ping-source.store.pg.ts:31-40 | Where ties are siblings every order of the answer rebuilds the tree |
| AnchorTies.TiedPingsCanFail | gps/db/ping-source.store.pg.ts:31-40 | Three pings, the last two at one moment and nothing late: an answer of the query from which no proof verifies short of a collision |
| SameRoot.SameRootIff | gps/batching/merkle-batcher.ts:61-68 | Two batches with one tree up to sibling swaps have one root, and one root means that or a collision computed from the two trees |
| AnchorRebuild.NearestSpec | gps/query/proof-api.ts:56-60 | The reduce returns a ping at minimal distance from the moment |
| AnchorRebuild.NearestIsFirst | gps/query/proof-api.ts:56-60 | It is the first ping whose timestamp differs least, in absolute value, from the moment |
| AnchorService.BatchStore.Drain | gps/db/batch.store.pg.ts:19-29 | Returns the trip's archived pings up to the limit, in time order |
| AnchorService.BatchStore.PingsInWindow | gps/db/ping-source.store.pg.ts:42-53 | Returns the trip's archived pings of the window, in time order |
| AnchorService.BatchStore.SaveBatch | gps/db/batch.store.pg.ts:31-47 | Appends one row to one trip |
| AnchorService.BatchStore.MarkAnchored | gps/db/batch.store.pg.ts:49-58 | Marks the oldest unmarked row of the trip and no other |
| AnchorService.MerkleBatcher.CloseWindow | gps/batching/merkle-batcher.ts:85-110 | Stores one row over the usable pings, or nothing, and leaves other trips alone |
| AnchorService.MerkleBatcher.CloseAllDue | gps/batching/merkle-batcher.ts:113-121 | Closes every trip with telemetry once and lists what it closed |
| AnchorService.BatchScheduler.QueueAll | gps/workers/anchor-worker.ts:56-74 | Adds one job per new batch, none for a window already queued |
| AnchorService.BatchScheduler.Run | gps/workers/anchor-worker.ts:56-74 | An hourly sweep is one sweep step for every trip with telemetry and nothing for the others; it returns the number of trips for which a row was made |
| AnchorService.AnchorWorker.Process | gps/workers/anchor-worker.ts:85-120 | One attempt is the model's work step: anchor, then mark; TimeOverlap ends the job, any other failure leaves it queued |
| ProofApi.ProofApi.BatchPingsAt | gps/db/ping-source.store.pg.ts:16-40 | Rebuilds the latest anchored batch covering the moment from its time range |
| ProofApi.ProofApi.ProveMoment | gps/query/proof-api.ts:51-96 | Proves exactly if an archived ping of the latest covering window exists; the ping is the nearest of that window and the root the one on chain; for a trip in good order every covered moment verifies |
| ProofApi.ProofApi.ProveFrom | gps/query/proof-api.ts:56-95 | The nearest ping's leaf and proof from the rebuilt tree, and the contract's verdict on them |
| ProofApi.ProofApi.ProveWindow | gps/query/proof-api.ts:155-171 | The points are, in order, those of every step-th ping of the period whose moment is covered, with the least step whose samples fit the cap; truncated says exactly whether the period holds more than the cap; for a trip in good order each point is the sampled ping and verifies |
| ProofApi.StepIsLeast | gps/query/proof-api.ts:162-163 | The step is the least for which no more pings are sampled than the cap allows |
| ProofApi.StepFits | gps/query/proof-api.ts:162 | The step is the number of pings over the cap, rounded up |
| ProofApi.SamplesAreMultiples | gps/query/proof-api.ts:163 | As many pings are sampled as there are multiples of the step below their number |
| ProofApi.DueAre | gps/query/proof-api.ts:163-169 | Disclosed are the pings at multiples of the step whose moment lies in an anchored window |
| ProofApi.ProofApi.ProveSamples | gps/query/proof-api.ts:163-169 | The loop over every step-th ping yields the points due, in order |
| ProofApi.ProofApi.ProveSample | gps/query/proof-api.ts:166-169 | A sampled ping yields a point exactly if its moment is covered; in good order the point is that ping |
| ProofApi.NearestPing | gps/query/proof-api.ts:56-60 | The loop computes the nearest ping |
| ScanLog.ReflushStoresOnce | custody/doublescan/lifecycle-index.ts:71-81 | Flushing a batch again, with anything in between, changes nothing |
| ScanLog.AppendAllKeeps | custody/db/lifecycle.store.pg.ts:21-35 | A batch keeps one event per piece and nonce, holds every nonced item afterwards, and only appends |
| ScanLog.ReplayIsNoOp | custody/db/lifecycle.store.pg.ts:21-35 | Items the log already holds leave it unchanged |
| ScanLog.InsertedIff | custody/db/lifecycle.store.pg.ts:21-35 | An event is dropped exactly if the log has one of the same piece and the same nonce |
| ScanLog.HistoryIsWhole | custody/db/lifecycle.store.pg.ts:37-45 | A piece's history holds every scan of it as often as the log, in time order |
| ScanLog.ScannedGrows | custody/db/lifecycle.store.pg.ts:66-73 | The scanned set of a manifest only grows |
| ScanLog.LifecycleStore.Append | custody/db/lifecycle.store.pg.ts:21-35 | Inserts unless an event of the same piece and nonce exists, and says which |
| ScanLog.LifecycleIndex.Record | custody/doublescan/lifecycle-index.ts:32-56 | Appends one scan and returns the piece's whole history with it |
| ScanLog.LifecycleIndex.RecordBatch | custody/doublescan/lifecycle-index.ts:71-81 | Appends the batch; accepted counts the new events and the rest were duplicates |
| ScanQueueSafety.RunKeepsSound | custody/scanner/pwa/scanner.js:136-180 | In every interleaving of scan, save, send, ack, lost ack, failure, late delivery, resend and reload: one event per piece and nonce, every counted piece queued or on the server, every saved item stored or on the server, and the batch in flight the front of the queue |
| ScanQueueSafety.EveryRunIsSound | custody/scanner/pwa/scanner.js:136-180 | In particular in every run from a fresh device on, whatever the log held |
| ScanQueueSafety.ForgottenOnlyIfHeld | custody/scanner/pwa/scanner.js:173-177 | An item leaves IndexedDB only at the end of an acknowledged flush and only if the server holds it |
| ScanQueueSafety.FinishKeepsSound | custody/scanner/pwa/scanner.js:173-177 | A finished flush removes from memory exactly the batch it sent |
| ScanQueueSafety.ReplayChangesNothing | custody/db/lifecycle.store.pg.ts:21-35 | A post already processed changes nothing, however late it arrives again |
| ScreenCount.CountedIsReceivedOrQueued | custody/scanner/pwa/scanner.js:117-123 | At any moment of any run, whatever is still queued or in flight, every counted piece has been received or is queued, so over an empty queue the screen never counts more than will be signed |
| ScreenCount.CompleteScreenIsCompleteIff | custody/scanner/pwa/scanner.js:184-192 | When the screen says COMPLETE, reconciliation misses nothing exactly if every queued piece has been received, so nothing over an empty queue |
| ScreenCount.ScreenCountIffAllSeen | custody/scanner/pwa/scanner.js:182-192 | After any run, the count passed to the signing link against the reconciled count: not above it if every queued piece has been received, and then equal exactly if every received piece was scanned or listed since the last reload; not below it if those all were, and then equal exactly if every queued piece has been received; in general equal exactly if the two errors cancel out |
| ScreenCount.CountedIff | custody/scanner/pwa/scanner.js:95-97 | A piece is counted exactly if some scan or reload of the run showed it and no reload followed |
| ScreenCount.LonePageCountIff | custody/scanner/pwa/scanner.js:182-192 | A page that is never reloaded and alone unloads its manifest never counts too little, and counts what is signed exactly if every queued piece has been received |
| ScreenCount.OneFlushSendsFifty | custody/scanner/pwa/scanner.js:184-185 | The one flush the finish button waits for, even undisturbed, empties the queue exactly if it holds at most fifty items |
| ScannerRuns.CompleteScreenCanBeShort | custody/scanner/pwa/scanner.js:184-192 | A concrete run from a fresh device, offline, that ends with a COMPLETE screen and one piece missing |
| ScannerRuns.ReloadForgetsDelivered | custody/scanner/pwa/scanner.js:150-159 | A concrete run from a fresh device, ending in a reload, after which the screen counts nothing and the server has the piece |
| ScannerPage.Scanner.HandlePayload | custody/scanner/pwa/scanner.js:78-97 | Debounce, duplicate, stranger or accept; only an accepted piece is queued, and the new page is the model's step |
| ScannerPage.Scanner.Render | custody/scanner/pwa/scanner.js:117-123 | The missing count is zero exactly when the manifest's pieces are all counted |
| ScannerPage.Scanner.Save | custody/scanner/pwa/scanner.js:136-148 | Stores the item and starts a flush |
| ScannerPage.Scanner.StartFlush | custody/scanner/pwa/scanner.js:162-171 | Sends the first fifty items unless offline, empty or already flushing |
| ScannerPage.Scanner.Answered | custody/scanner/pwa/scanner.js:166-172 | A rejected post leaves everything queued; an accepted one goes on to the deletes |
| ScannerPage.Scanner.FlushFailed | custody/scanner/pwa/scanner.js:178-179 | A failed post leaves everything queued |
| ScannerPage.Scanner.FinishFlush | custody/scanner/pwa/scanner.js:172-179 | Deletes exactly the batch from the store and drops as many items from the queue |
| ScannerPage.Scanner.LoadQueue | custody/scanner/pwa/scanner.js:150-159 | The reloaded queue lists exactly the session's stored items, all of them counted |
| Reconciliation.ReconcileMeaning | custody/reconcile/counter.ts:40-63 | For any scans: missing, extra and scanned are the two differences and the intersection of the scanned and the manifest set, and complete means they are equal |
| Reconciliation.ScannedCountBounded | custody/reconcile/counter.ts:40-63 | Scanned plus missing is the piece count, so the signed count never exceeds it |
| Reconciliation.NoneMissing | custody/reconcile/counter.ts:48-50 | Nothing is missing exactly when every manifest piece was scanned |
| Reconciliation.NoneExtra | custody/reconcile/counter.ts:49-50 | Nothing is off-manifest exactly when every scanned piece is on the manifest |
| Reconciliation.Reconcile | custody/reconcile/counter.ts:31-64 | The counting loop computes that result |
| ReleaseGate.DecisionMeaning | custody/reconcile/release-gate.ts:97-129 | An uninterrupted evaluation is releasable exactly if the scans are the manifest and the chain says Delivered; the reason says so exactly then; divergence means Delivered with other scans |
| ReleaseGate.ReasonMeaning | custody/reconcile/release-gate.ts:103-109 | Each stated reason holds exactly under its own condition on the chain status, the scanned and the manifest set |
| ReleaseGate.InterruptedDecision | custody/reconcile/release-gate.ts:97-129 | With the chain moving between reads, releasable still implies the matching reason, and the exact exceptions to the converse |
| ReleaseGate.HonestCount | custody/reconcile/release-gate.ts:60-68 | Submitting a reconciliation's count never trips CountExceedsManifest; the chain then says Delivered exactly if nothing was missing, else Short |
| ReleaseGate.ReconciledSettles | custody/reconcile/release-gate.ts:60-68 | Whatever piece count the chain holds, a submitted reconciliation is settled by it, and CountExceedsManifest means more pieces were scanned than the chain knows |
| ReleaseGate.Gate.Evaluate | custody/reconcile/release-gate.ts:97-129 | The branches compute that decision; announced are exactly a changed status and, if the views disagree, the divergence |
| ReleaseGate.Gate.ConfirmAndSign | custody/reconcile/release-gate.ts:55-94 | Refused for an unknown document; else the chain makes the confirm step with the scanned count or nothing changes; success is Delivered or Short by the chain's own count, and by the reconciliation where the two counts agree; exactly the stated alerts are raised |
| ReleaseGate.Gate.AlertAnomalies | custody/reconcile/release-gate.ts:70-91 | Announced are exactly: off-manifest pieces if there are any, and if pieces are missing a changed status and the shortage with its liable party |
| ReleaseGate.AlertsMean | custody/reconcile/release-gate.ts:70-126 | Which alerts there are, each kind exactly under its condition and with its contents |
| ReleaseGate.Gate.RequestPayout | custody/reconcile/release-gate.ts:132-163 | The webhook is posted, once and for this manifest's booking, exactly if the evaluation says releasable |
| PayoutSafety.EveryPayoutIsEarned | custody/reconcile/release-gate.ts:132-163 | In every interleaving from genesis, every webhook sent and every payment released is for a manifest with all three signatures, signed count equal to piece count, and unloading scans that were exactly its pieces |
| PayoutSafety.RunKeepsSafe | custody/reconcile/release-gate.ts:55-163 | The invariant behind it, over any honest run from any safe state, with chain, log, documents and requests only growing |
| PayoutSafety.ConfirmedCountIsHonest | custody/reconcile/release-gate.ts:60-68 | Whatever happened since the reconciliation was read, its count is accepted or refused for other reasons than size, and Delivered means all pieces were scanned |
| PayoutSafety.ShortIsNeverPaid | custody/reconcile/release-gate.ts:132-136 | Once the chain says Short, no later run sends a webhook for the manifest or releases a payment of its booking |
| PayoutSafety.CompleteDeliveryIsPaid | custody/reconcile/release-gate.ts:55-163 | Complete scans, a valid signature and undisturbed requests end with the webhook sent and the paid row released |
| PayoutSafety.RowsOnlyMoveForward | platform/api/payments/payments.service.ts:53-125 | In every run rows leave PENDING once and never leave PAID, FAILED or RELEASED |
| PayoutSafety.TiedPayoutsNeedTheirOwnManifest | platform/api/payments/payments.service.ts:90-125 | Even if anyone can sign webhooks, no run releases a payment before the chain has settled that booking's own manifest in full, as long as every accepted body names the booking of its manifest |
| PayoutSafety.WebhookKeepsSettledIff | platform/api/payments/payments.service.ts:97-125 | One accepted webhook that finds a paid and held row keeps every payout settled exactly if the booking it names is settled |
| PayoutSafety.ForgedBodyPaysShort | platform/api/payments/payments.service.ts:97-125 | The code does not check that: a signed body with a delivered manifest and a short manifest's booking pays out the short delivery |
| ForgedPayout.ForgedPayoutIsReachable | platform/api/payments/payments.service.ts:97-125 | A run from deployment, honest up to its last two steps, after which the payment of a short delivery is released |
| PayoutSafety.LeakedSecretStillNeedsTheChain | platform/api/payments/payments.service.ts:97-113 | Without tied bodies all that remains is that the chain has settled some manifest in full before anything is released |
| Payments.CollectExactly | platform/api/payments/payments.service.ts:15-34 | A collection opens exactly if the booking exists and no row of any status holds its order id; it adds one pending, held row of that booking and amount |
| Payments.FailedIsFinal | platform/api/payments/payments.service.ts:20-34 | A failed collection stays failed and its booking can never be collected again |
| Payments.SettlesOneRow | platform/api/payments/payments.service.ts:71-87 | A gateway notice settles exactly the one pending row of its order: paid by a capture, failed by a failure |
| Payments.ReleaseTakesEffect | platform/api/payments/payments.service.ts:115-125 | A release turns exactly the booking's paid and held rows to released, so it changes rows exactly if there is one |
| OrderIds.SameOrderIff | platform/api/payments/payments.service.ts:27 | Two bookings have one order id exactly if the first fourteen hex digits of their ids agree |
| OrderIds.SharedOrderBlocks | platform/api/payments/payments.service.ts:20-34 | Once one of two such bookings has a payment, the other can never be collected |
| Payments.PaymentsService.CreateCollection | platform/api/payments/payments.service.ts:15-42 | Adds one pending row or reports the first failing check |
| Payments.PaymentsService.HandleGatewayWebhook | platform/api/payments/payments.service.ts:53-88 | Only a correctly signed body with an order id changes rows, and only pending ones of that order |
| Payments.PaymentsService.HandleReleaseGate | platform/api/payments/payments.service.ts:97-125 | Only a correctly signed body for a manifest the chain calls releasable releases, and only that booking's rows |
| ForkDetector.TwoDockManifestsNeverClean | custody/doublescan/fork-detector.ts:80-108 | Dock scans under two manifests always give NOT_ON_MANIFEST, or UNKNOWN_PIECE for an unminted id |
| ForkDetector.NotOnManifestIsPermanent | custody/doublescan/fork-detector.ts:92-108 | NOT_ON_MANIFEST survives any later scans and any chain state |
| ForkDetector.RoutesNeverYieldDuplicateLife | custody/doublescan/verify-page-api.ts:81-87 | With histories written by the dock routes and the public page, DUPLICATE_LIFE is never returned |
| ForkDetector.DuplicateLifeNeedsNamedSighting | custody/doublescan/fork-detector.ts:110-121 | DUPLICATE_LIFE implies a sighting that names a foreign manifest |
| ForkDetector.NamedSightingYieldsDuplicateLife | custody/doublescan/fork-detector.ts:110-121 | And such a sighting can produce it |
| ForkMeaning.VerdictMeans | custody/doublescan/fork-detector.ts:80-152 | Every verdict for any log, index and chain, each exactly under its own condition on scans, statuses and times |
| ForkMeaning.TheftAlarmIff | custody/doublescan/fork-detector.ts:123-152 | With route-written scans: the theft alarm is raised exactly if no dock scan is elsewhere, the home is Delivered or Short, a public or partner scan came over 60 seconds after the delivery time, and the piece was not unloaded at home |
| ForkMeaning.EarlySightingIsClean | custody/doublescan/fork-detector.ts:129-135 | A public scan hours before the delivery leaves the piece CLEAN |
| ForkDetector.PublicScanOnlyReveals | custody/doublescan/verify-page-api.ts:81-89 | A public scan changes no verdict except CLEAN to POST_CLOSURE_SIGHTING of its own piece |
| ForkDetector.SightingStandsUnless | custody/doublescan/fork-detector.ts:123-152 | Under any later route scans and contract calls a theft alarm stands exactly while the home manifest is undisputed and no dock scan but a loading at home comes in; it turns CLEAN exactly if no dock scan is foreign and the home is disputed or the piece is unloaded there |
| ForkDetector.LateUnloadingSilencesTheft | custody/doublescan/fork-detector.ts:184-190 | A concrete history in which a late unloading scan clears the alarm |
| ForkDetector.Detector.Analyze | custody/doublescan/fork-detector.ts:62-161 | The checks in order give the verdict, its severity and attribution, the timeline in scan order and the manifests it names; every verdict but CLEAN is announced |
| ForkDetector.Detector.ActiveAmong | custody/doublescan/fork-detector.ts:175-182 | The loop keeps the manifests in custody, in order |
| ForkDetector.Detector.Sweep | custody/doublescan/fork-detector.ts:164-171 | Reports exactly the pieces that are not clean, in order |
| Entitlements.RunServesTheStore | identity/subscriptions/entitlements.ts:38-133 | After any sequence of calls for any companies the service answers what the store implies, and companies do not affect each other |
| EntitlementService.AnyOrderIsEffective | identity/subscriptions/entitlements.ts:45-49 | Override rows applied in any order give plan modules plus granted minus revoked |
| Entitlements.OverlayMember | identity/subscriptions/entitlements.ts:45-49 | An override row decides about its module, the plan about all others |
| Entitlements.EntitledAfterGrant | identity/subscriptions/entitlements.ts:70-94 | A grant adds exactly the module unless it lacks a prerequisite |
| Entitlements.GrantKeepsCoherence | identity/subscriptions/entitlements.ts:70-94 | For any prerequisite table a grant keeps a coherent company coherent |
| Entitlements.EntitledAfterRevoke | identity/subscriptions/entitlements.ts:97-124 | A revocation removes the module and whatever then lacks a prerequisite, nothing else |
| Entitlements.LeftAfterRevoke | identity/subscriptions/entitlements.ts:97-124 | Module by module: what stays was there, is not the revoked one, and can do without it |
| Entitlements.RevokeCoherentIff | identity/subscriptions/entitlements.ts:97-124 | For any table the result is coherent exactly if no remaining module needs an auto-disabled one |
| Entitlements.RevokeUnderModuleRequires | shared/modules.schema.ts:94-112 | Under the real table that fails only for QR_GOODS, exactly when claims evidence, financing or reputation is on |
| ModuleCatalog.RemainingUnderModuleRequires | shared/modules.schema.ts:94-112 | The same for any coherent set of modules |
| Entitlements.PlanChangeCoherentIff | identity/subscriptions/entitlements.ts:59-63 | For any table and coherent plan, a plan change leaves the company coherent exactly if every granted module finds its needs granted or in the unrevoked plan and no untouched plan module needs a revoked one |
| Entitlements.ClearCoherentIff | identity/subscriptions/entitlements.ts:126-129 | For any table, clearing an override keeps a coherent company coherent exactly if a plan module coming back finds its needs and a granted extra going away is needed by nothing that stays |
| Entitlements.DowngradeCanStrand | identity/subscriptions/entitlements.ts:59-63 | Under the real table, analytics granted on Standard is stranded by a downgrade to Starter, for any such company in any store |
| Entitlements.ClearingCanStrand | identity/subscriptions/entitlements.ts:126-129 | Under the real table, clearing a QR_GOODS grant strands a granted goods verification on Starter, for any such company in any store |
| ModuleCatalog.PlansAreCoherent | shared/modules.schema.ts:38-80 | Every plan on the price list is coherent |
| ModuleCatalog.PlansInclude | shared/modules.schema.ts:38-80 | What each plan includes, module by module |
| ModuleCatalog.CoherentMeans | shared/modules.schema.ts:94-112 | Coherence under the real table as the list of its promises |
| ModuleCatalog.MissingPrerequisites | shared/modules.schema.ts:119-130 | The problem list names exactly the modules lacking something, each with exactly what it lacks |
| EntitlementService.Service.ModulesFor | identity/subscriptions/entitlements.ts:38-53 | Answers from the cache or computes and caches; without a plan it answers nothing and caches nothing |
| EntitlementService.Service.ApplyPlan | identity/subscriptions/entitlements.ts:59-63 | Stores the plan, drops the entry and answers from the store |
| EntitlementService.Service.Grant | identity/subscriptions/entitlements.ts:70-94 | Refuses a module lacking a prerequisite without touching the store, else grants it |
| EntitlementService.Service.Revoke | identity/subscriptions/entitlements.ts:97-124 | Switches off the module and the orphans it reports, and answers from the store |
| EntitlementService.Service.ClearOverride | identity/subscriptions/entitlements.ts:126-129 | Removes the row and drops the entry |
| StopDetector.StopsAreReal | gps/journey/stop-detector.ts:89-127 | Stops are disjoint runs of consecutive slow pings in time order, each within the radius of its first ping and long enough |
| StopMeaning.StopsMean | gps/journey/stop-detector.ts:89-139 | Every stop: two or more pings at no more than the threshold speed or without one, all within the radius of the first, lasting the minimum duration, ended by the trip or by a faster or farther ping |
| StopMeaning.HaltsAreStops | gps/journey/stop-detector.ts:89-139 | Conversely, such pings that start the trip or follow a faster one lie in one stop that begins with them |
| StopMeaning.StandingIsAStop | gps/journey/stop-detector.ts:57-62 | By default ten minutes at one place are one stop at up to 3 km/h and none above |
| StopDetector.StopsExactly | gps/journey/stop-detector.ts:89-127 | The reported stops are exactly the maximal break-free runs of pings that last the minimum duration |
| StopDetector.AtMostOneBreak | gps/journey/stop-detector.ts:121-125 | A dwell of slow, mutually near pings holds at most one break, so at most one of its pings is dropped |
| StopDetector.DwellBreaksIff | gps/journey/stop-detector.ts:104-125 | And that break is the first ping too far from the start of a halt already under way |
| StopDetector.UnbrokenDwellMissedIff | gps/journey/stop-detector.ts:89-127 | A dwell without a break touches no stop exactly if its whole cluster is too short |
| StopDetector.BrokenDwellMissedIff | gps/journey/stop-detector.ts:89-127 | A dwell with a break touches no stop exactly if the flushed head and the remaining tail are both too short |
| StopDetector.LongDwellIsSeen | gps/journey/stop-detector.ts:89-127 | A dwell with pings at most a gap apart that lasts twice the minimum duration and twice the gap always touches a stop |
| StopDetector.DwellIsReported | gps/journey/stop-detector.ts:121-140 | A dwell that starts the trip or follows a moving ping is reported from its first ping on as soon as it lasts the minimum duration |
| StopDetector.JumpDropsTheFirstPing | gps/journey/stop-detector.ts:121-125 | Three pings: a dwell right after another halt lasts the minimum duration and touches no stop |
| StopDetector.StoppedTimeFits | gps/journey/stop-detector.ts:89-127 | The stops' durations never exceed the journey |
| StopDetector.UnexplainedMeans | gps/journey/stop-detector.ts:147-161 | A stop is unexplained exactly if nothing scheduled or known is near and neither shape rule applies |
| StopDetector.FirstMatchDecides | gps/journey/stop-detector.ts:147-161 | The first scheduled stop nearby decides, else the first known place, else the shape |
| StopMeaning.ShapeMeans | gps/journey/stop-detector.ts:147-162 | With nothing scheduled within 300 metres and no known place around: exactly when rest, traffic or unexplained |
| StopMeaning.CentreIsMean | gps/journey/stop-detector.ts:101-102 | The reported centre is the mean of the positions in degrees |
| StopMeaning.StopRecordMeans | gps/journey/stop-detector.ts:98-115 | The reported times, duration, count and largest distance from the centre |
| StopDetector.Detector.Classify | gps/journey/stop-detector.ts:147-161 | The two loops and the shape rules compute the first matching kind |
| StopDetector.Detector.Detect | gps/journey/stop-detector.ts:89-127 | The loop reports exactly the stop ranges of the sorted pings, in order |
| Timeline.TimeAddsUp | gps/journey/timeline.ts:62-73 | For any journey stopped time fits, so the clamp is idle and moving plus stopped is the total |
| Timeline.TopSpeedIsFastestIff | gps/journey/timeline.ts:65-71 | The reported top speed is the fastest ping's exactly if the first ping stands still or some later ping is at least as fast |
| Timeline.FirstPingIsIgnored | gps/journey/timeline.ts:65-71 | A truck seen at 90 and then at 40 km/h is reported with 40 |
| Timeline.PathMeans | gps/journey/timeline.ts:64-71 | The path of two pings is their distance, and a longer path is the sum of its parts wherever it is cut |
| Timeline.SteadySpeedIsAverage | gps/journey/timeline.ts:88-90 | A truck that keeps v km/h for its moving time is reported with v |
| Timeline.TimelineBuilder.Build | gps/journey/timeline.ts:48-102 | The record accounts for every ping: truck and signer, bounds, times that add up, path length, average and top speed, stops, unexplained stops, gaps and whether it is anchored |
| Timeline.GapsAreTheHoles | gps/batching/merkle-batcher.ts:129-144 | A gap is listed exactly if two consecutive pings are more than the threshold apart |
| Timeline.GapsFit | gps/batching/merkle-batcher.ts:129-144 | Gaps fit into the journey and leave at most the threshold per interval |
| Timeline.DetectGaps | gps/batching/merkle-batcher.ts:129-144 | The loop over the sorted pings lists those gaps |
| Timeline.TimelineBuilder.SuspiciousWithin | gps/journey/timeline.ts:150-158 | Returns, in order, exactly the unexplained stops inside the custody window |
| Timeline.InsideCounts | gps/journey/timeline.ts:150-158 | Each suspicious stop is handed over as often as it was detected |
| Reputation.RunTotalsAreCardinalities | chain/contracts/ReputationLedger.sol:119-151 | After any run every driver's three totals are the sizes of the matching attestation sets |
| Reputation.PanicExactly | chain/contracts/ReputationLedger.sol:143-146 | An acceptable attestation is recorded, except a driver's 2^32nd, which reverts |
| Reputation.AttestationsAreFinal | chain/contracts/ReputationLedger.sol:119-141 | An attestation is never changed |
| Reputation.AttestationsAreSigned | chain/contracts/ReputationLedger.sol:119-141 | Every attestation is backed by a call of the run carrying both parties' signatures over exactly its outcome |
| Reputation.AttestPreimageBinds | chain/contracts/ReputationLedger.sol:97-116 | The signed bytes determine chain, contract, trip, both parties and both outcomes |
| Reputation.AttestLayout | chain/contracts/ReputationLedger.sol:97-116 | The signed attestation bytes by position |
| Reputation.AttestedIff | chain/contracts/ReputationLedger.sol:119-151 | Exactly which attestations are taken, from whom, and what is recorded |
| Reputation.EveryAttestationIsAPlatforms | chain/contracts/ReputationLedger.sol:119-141 | Behind every attestation of a run stands the call of a platform of that moment |
| Reputation.EveryAdminChangeIsTheOwners | chain/contracts/ReputationLedger.sol:70-78 | Owner and platforms change only by the owner's call |
| Reputation.ReputationLedger.Attest | chain/contracts/ReputationLedger.sol:119-151 | Records and counts one attestation, or reverts with the first failing check |
| Documents.RunKeepsPartition | chain/contracts/DocumentRegistry.sol:74-92 | Over any run registered hashes are partitioned without repeats over trip lists that agree with each document's trip; records are final and lists only grow |
| Documents.EveryRunIsPartitioned | chain/contracts/DocumentRegistry.sol:74-92 | In particular from deployment on |
| Documents.NeverTwice | chain/contracts/DocumentRegistry.sol:79-80 | A registered hash can never be registered again, by anyone, for any trip |
| Documents.RegisteredIff | chain/contracts/DocumentRegistry.sol:74-92 | Exactly which documents are registered, by whom, and what is recorded |
| Documents.EveryRecordIsARegistrars | chain/contracts/DocumentRegistry.sol:74-92 | Behind every record stands the call of its submitter, a registrar of that moment |
| Documents.EveryAdminChangeIsTheOwners | chain/contracts/DocumentRegistry.sol:63-71 | Owner and registrars change only by the owner's call |
| Documents.DocumentRegistry.RegisterDocument | chain/contracts/DocumentRegistry.sol:74-92 | Registers one document or reverts with the first failing check |
| CanonicalManifest.CanonicalIff | shared/manifest.schema.ts:57-76 | Two valid manifests have one canonical form exactly if their pieces are permutations and every other text agrees, addresses up to letter case |
| CanonicalManifest.EditChangesId | custody/manifest/builder.ts:72-74 | Piece order and the letter case of addresses never affect the id; any other edit of the text changes it or exhibits a collision |
| CanonicalManifest.FormMeans | shared/manifest.schema.ts:57-76 | The form field by field: every field in its place, pieces a permutation in id order, addresses in lower case |
| CanonicalManifest.SchemaMeans | shared/manifest.schema.ts:10-39 | What the schema admits, field by field and character by character |
| CanonicalManifest.RepeatedIdsShowOrder | shared/manifest.schema.ts:37-39 | With a repeated piece id the form would depend on order, so the schema's check is needed |
| CanonicalManifest.SameUuidIff | custody/db/manifest.store.pg.ts:47-56 | Two UUID texts are one value to the database exactly if they write the same 128-bit number |
| CanonicalManifest.RereadKeepsForm | custody/db/manifest.store.pg.ts:35-123 | A manifest read back from Postgres keeps its form exactly if no piece has an sku or a weight, its booking id was in lower case, and its transporter is the writing company in lower case |
| ManifestBuilder.ResolvesIff | custody/manifest/builder.ts:103-117 | Pieces resolve exactly if between one and ten thousand ids have to be minted |
| ManifestBuilder.ResolvedIdsDistinct | custody/manifest/builder.ts:103-115 | The counter hands out each minted id once; explicit ids, skus and weights stay with their pieces |
| ManifestBuilder.StoredDocsFitPayouts | custody/db/manifest.store.pg.ts:19-67 | Any two stored manifests are what the payout path assumes: valid lists of the count on chain, different booking numbers, no piece in both |
| ManifestBuilder.Builder.ResolvePieces | custody/manifest/builder.ts:103-117 | The labelling loop computes that resolution |
| ManifestBuilder.Builder.Build | custody/manifest/builder.ts:50-90 | The first obstacle decides the answer and nothing is stored; without one the manifest asked for is on chain, stored and indexed; the store always stays fully anchored |
| ManifestBuilder.Builder.VerifyIntegrity | custody/manifest/builder.ts:96-101 | An untouched manifest passes exactly if it survives storage in that sense, short of a collision |
| ManifestBuilder.ManifestStore.Put | custody/db/manifest.store.pg.ts:19-33 | Inserts unless the id or the booking is taken |
| ManifestBuilder.ManifestStore.IndexPieces | custody/db/manifest.store.pg.ts:61-67 | Indexes all pieces, or none if any id is taken or repeated |
| ManifestBuilder.ManifestStore.PutIndexed | custody/manifest/builder.ts:86-87 | Both inserts happen, exactly if id, booking and pieces are free, or neither |

## Left out

* Real cryptography, JSON text, key custody, OTP delivery, queue internals, camera and page
  rendering, row-level security, role checks, tenant scoping, labels and messaging.
* Rounding of coordinates, distances and speeds; `narrate`; the trust disclosure.
* `wasVehicleNear`, the reorg auditor, worker metrics and the alert table's filter on kinds.
* The SDK's own leaf layout (chain/sdk/merkle.ts:30-43) packs other fields than the one that is
  anchored; only the anchored layout is used, and `VerifyLocally` starts from a given leaf.
* `progress`, `summarize`, the verify page's texts and rate limiter, and the narrative and
  location hints that accompany a fork verdict.
* Cache agreement across interleaved awaits of the entitlement service: calls run one at a time.
* Trial expiry of module overrides, plan prices, and roles.
- EntitlementService.Service.ModulesFor: the returned list is modelled as a set, so its order is not captured.
- ManifestBuilder.Builder.Build: two builds for one booking are not interleaved; a persist that fails after anchoring leaves an unused manifest on chain, as in the source.
- Reconciliation.Reconcile: scans enter in arrival order; only the order of the listed off-manifest ids depends on it.
- Handoff.HandoffService.Sync: the foreign key from cached custody rows to stored manifests is not modelled.
- Payments.PaymentsService.CreateCollection: bookings and rows are those the caller may see; tenancy is not modelled.
- PayoutSafety.LeakedSecretStillNeedsTheChain: says only that some manifest was settled, because the stronger promise is false without tied bodies; with them it is `TiedPayoutsNeedTheirOwnManifest`.
- AnchorRebuild.RunKeepsRebuild: good order includes that no two pings of a trip share a timestamp; `AnchorTies` says what happens otherwise.
- Timeline.TimelineBuilder.Build: distance and average speed are exact reals where the record rounds them to two and one decimals; the disclosure text chosen by the signer tier and the echoed trip id are not modelled.
- StopDetector.Detector.Detect: distance is an abstract function, so nothing depends on the haversine formula.
