# Bootstrap ceremony, session watch, publication and command line: a Dafny model

The model follows the administrative core of the archive (`ea-admin`) and the
command line in front of it, in the program's own terms.

* **The twelve-step ceremony.** `Ceremony` is the transition system: what each step
  method judges, what is committed, what a store makes of it (refusals of the
  file store, failures before and after the rename), crashes, resumption and
  restart. `CeremonyInvariants` states the obligations of every step,
  `CeremonyRuns` proves them over whole runs, and `CeremonyAgreement` says exactly
  where memory, state file, pre-anchor and transcript agree and where they stop
  agreeing. `CeremonyWitness` finds behind every reachable state the calls that
  discharged it, `CeremonyProgress` says exactly what each call does, and
  `CeremonyCompletion` carries a ceremony from nothing to readiness. `BootstrapCoordinator` is the mutating object, each method proved to be
  one move of the transition system. `AnchorMedia` and `Trust` are its media port and
  the two anchor formats.
* **The state image.** `StateImage` specifies the length-prefixed image and proves
  it a faithful, prefix-free code; `ImageCoding` holds the pushing writer and
  the advancing reader.
* **The file store.** `FileStore` runs every effect on a disk that loses what was not
  flushed and refines the ceremony's store; `DiskRuns` carries whole histories of the
  coordinator over that disk back to runs of the transition system.
* **The session watch.** `SessionWatch` makes every atomic action of the callers
  and of the reader thread an event; the helper's output, the scheduling and the
  clock are adversarial. `SessionGaps` bounds the time between two presences.
* **The publication host.** `PublicationHost` interleaves the loop's sections under the
  mutex with outside runs, and holds the object with its wait and run loops.
* **Journals.** `Registry` and `Revocation`, `NetworkRegistration`, `GrantPublication`.
* **Grammars.** `Fingerprint`, `CommandLine`, `CommandLineLaws`, `CommandLineInverse`
  and, for the program's own names, `Spelling`.

Hashes, signatures, anchor and object encodings, key sources and spellings are
parameters (`TrustFormat`, `Digests`, `ObjectFormat`, `Vocabulary`). What is assumed of
them is written in their `Lawful` predicates: encodings are injective where the
program relies on it, and no pre-anchor shares its final-domain hash with a final
anchor. No hash is assumed injective.

`dafny verify dfyconfig.toml` checks the whole project.

## Where the code and its own documentation differ

The model follows the code.

* Restarting after an abort is documented as the remedy (`crates/ea-admin/src/bootstrap.rs:1236-1249`);
  over the file store it is always refused (`CeremonyRuns.RestartRefusedByFileStore`,
  `CeremonyAgreement.RestartOverAnyPort`).
* A repeated step 3 is described as a re-entry with identical pairs
  (`crates/ea-admin/src/bootstrap.rs:1421-1425`). Before the seal it accepts every list of two or more
  pairs with distinct hashes that can be encoded, and answers the fingerprint of a pre-anchor that no
  crash survives (`CeremonyProgress.PairsBeforeTheSeal`, `CeremonyCompletion.SecondListIsLost`); after
  the seal it accepts every list with the same certificates and the same bindings
  (`CeremonyProgress.RepeatedPairing`, `CeremonyAgreement.AnotherPairingIsAccepted`). Either way the
  list is kept in memory only (`CeremonyAgreement.AgreementAfterCall`).
* The store says it can read back every image today (`crates/ea-admin/src/bootstrap_store.rs:161-164`);
  it refuses one of a list paired anew after step 11 (`CeremonyAgreement.RepairedPairsAreNeverStored`).
* A presence is stamped with a second reading of the clock
  (`crates/ea-admin/src/native_watch.rs:166-176`), so two presences may be 300 seconds or more
  apart, by as much as the clock may advance in between (`SessionGaps.GapsExactly`).
* An attempt is counted when the delay is chosen, not when the run begins; exactly the waits settled
  from outside spend an attempt on a run that starts clean (`PublicationHost.AttemptsAreUncleanRuns`).

## Model

| member | source | states |
|---|---|---|
| `CeremonyRuns.EveryReachableStateIsGood` | crates/ea-admin/src/bootstrap.rs:1346-1909 | In every state any run reaches, over any port, with any faults, crashes, resumptions and restarts: the coordinator's state, the flushed state and every state a crash may leave carry all obligations of steps 1 to k and nothing of later steps; the state file is at the coordinator's step or one ahead; no step method can panic |
| `CeremonyRuns.OneCall` | crates/ea-admin/src/bootstrap.rs:2053-2068 | A successful call raises the step by at most one; a failing call leaves the state as it was, or sets only the abort flag, and that only after the seal |
| `CeremonyRuns.SealedCoordinatorIsFrozen` | crates/ea-admin/src/bootstrap.rs:1967-2022 | Over any sequence of calls on one coordinator, a sealed ceremony keeps its ids, root, exact pre-anchor bytes and fingerprint; an aborted one never changes again, in memory or in the store |
| `CeremonyRuns.DurableIsPermanent` | crates/ea-admin/src/bootstrap_store.rs:186-249 | Once a state was flushed, everything later found in memory, in the file or after any crash has no lower step and, if it was sealed, the same core; a flushed abort is never left |
| `CeremonyRuns.WhatIsDurableStays` | crates/ea-admin/src/bootstrap_store.rs:149-164 | The same for every split of a run that starts from nothing |
| `CeremonyRuns.VisibleStepMonotone` | crates/ea-admin/src/bootstrap_store.rs:212-216 | Over the file store the step a reader finds never falls on any event; only a crash that undoes a rename that was not flushed can lower it |
| `CeremonyRuns.RestartRefusedByFileStore` | crates/ea-admin/src/bootstrap.rs:1250-1281 | Over the file store a restart with new ids is refused in every good state and changes nothing in the store: the aborted state it must replace is past step 1 |
| `CeremonyRuns.VerdictKeepsCore` | crates/ea-admin/src/bootstrap.rs:1967-2010 | No verdict of any step method changes the sealed core, including a second pinning, whose confirmation must be over the same bytes |
| `CeremonyRuns.StepKeepsSane` | crates/ea-admin/src/bootstrap.rs:1155-1282 | Every event (begin, resume, restart, call, crash) keeps all states good and the file tracking the coordinator |
| `CeremonyRuns.SettleKeepsSane` | crates/ea-admin/src/bootstrap.rs:2012-2068 | Carrying out any sound verdict against a store that succeeds, fails early or fails after the rename keeps all states good |
| `CeremonyWitness.EveryClaimHasItsCall` | crates/ea-admin/src/bootstrap.rs:1445-1909 | Behind every state any run reaches, over any port and with any faults and crashes, stand calls of that same run: the pinning and the comparison that were confirmed over these bytes, for every published target a call that authorized it for this organization only, the final confirmation on the media, and, for a ready ceremony, a current recovery proof over this anchor and enough media |
| `CeremonyWitness.JudgeVouched` | crates/ea-admin/src/bootstrap.rs:1346-1909 | One accepted call keeps every earlier claim vouched for and vouches for its own |
| `CeremonyCompletion.CeremonyCompletes` | crates/ea-admin/src/bootstrap.rs:1155-1909 | For every workable set of inputs some run from nothing ends ready, with exactly these inputs recorded, held in memory and durable; over the file store this needs only that the finished state fits its image |
| `CeremonyCompletion.SecondListIsLost` | crates/ea-admin/src/bootstrap.rs:1404-1427 | For every workable ceremony and every other admissible list there is a run that answers the second list before the seal and, after a crash, resumes with the first |
| `CeremonyAgreement.EveryCallIsDecided` | crates/ea-admin/src/bootstrap.rs:1346-1909 | What every call does, by its inputs alone: it stores and holds exactly the stated new state, marks the abort, keeps a repeated root or list in memory, or fails and changes nothing; for every step, repeats and past steps included |
| `CeremonyProgress.EveryVerdictIsDecided` | crates/ea-admin/src/bootstrap.rs:1346-1909 | The verdict behind it: advances if and only if the step is due and its obligation is met by what it records; aborts if and only if sealed and given another root, other hashes or an anchor continuing another pre-anchor; accepted without storing if and only if the root is the recorded one or the list is admissible |
| `CeremonyProgress.PairsBeforeTheSeal` | crates/ea-admin/src/bootstrap.rs:1395-1430 | Before the seal step 3 accepts every list of two or more pairs with distinct hashes that can be encoded; the first is stored, a later one replaces list and pre-anchor in memory only; nothing else is accepted |
| `CeremonyProgress.RepeatedPairing` | crates/ea-admin/src/bootstrap.rs:1395-1430 | After the seal step 3 accepts a list if and only if it has the recorded certificates and the recorded bindings, in any order and pairing; it aborts if and only if the list can be encoded and has other hashes |
| `CeremonyProgress.PinOnFaithfulMedia` | crates/ea-admin/src/bootstrap.rs:1445-1470 | Over a port that writes and reads faithfully step 4 asks for the fingerprint of the pre-anchor bytes and two or more distinct media, and nothing more |
| `CeremonyProgress.FinalAnchorOnFaithfulMedia` | crates/ea-admin/src/bootstrap.rs:1798-1842 | Over such a port step 11 asks for an anchor that continues the held pre-anchor with this genesis, exactly the sealed media, the final fingerprint and the root's signature over the transcript |
| `CeremonyInvariants.OfflineRootSound` | crates/ea-admin/src/bootstrap.rs:1346-1377 | Step 2 keeps every obligation; a changed root after the seal can only abort |
| `CeremonyInvariants.AdminPairsSound` | crates/ea-admin/src/bootstrap.rs:1395-1430 | Step 3, first or repeated, keeps every obligation: two or more pairs, all hashes distinct, the pre-anchor is the encoding of the recorded fields |
| `CeremonyInvariants.PinSound` | crates/ea-admin/src/bootstrap.rs:1445-1470 | Step 4 records the hash of the exact pre-anchor bytes and two or more distinct, sorted media |
| `CeremonyInvariants.RecoveryAndHgaSound` | crates/ea-admin/src/bootstrap.rs:1480-1509 | Step 5 keeps root, recovery and grant-authority keys pairwise different |
| `CeremonyInvariants.ApproversSound` | crates/ea-admin/src/bootstrap.rs:1520-1544 | Step 6 records at least two different approver keys, none of them a key of the ceremony |
| `CeremonyInvariants.BackupsSound` | crates/ea-admin/src/bootstrap.rs:1556-1620 | Step 7 covers all four classes, each backup on two or more media and of the key the ceremony holds |
| `CeremonyInvariants.ComponentsSound` | crates/ea-admin/src/bootstrap.rs:1632-1643 | Step 8 keeps every obligation and records at least one component |
| `CeremonyInvariants.CompareSound` | crates/ea-admin/src/bootstrap.rs:1656-1687 | Step 9 keeps every obligation |
| `CeremonyInvariants.RootSignSound` | crates/ea-admin/src/bootstrap.rs:1719-1754 | Step 10 keeps every obligation and adds exactly one published target |
| `CeremonyInvariants.FinalAnchorSound` | crates/ea-admin/src/bootstrap.rs:1798-1842 | Step 11 records an anchor that continues the sealed pre-anchor and a transcript attributable to the root |
| `CeremonyInvariants.RecoveryTestSound` | crates/ea-admin/src/bootstrap.rs:1877-1909 | Step 12 makes the ceremony ready, exactly there, and only for a test on another machine |
| `CeremonyInvariants.PrecheckedAnchor` | crates/ea-admin/src/anchor_media.rs:79-87 | What the checks before the media let through: an anchor whose pre-stage bytes equal the held ones and whose genesis is the given one |
| `CeremonyAgreement.AnotherPairingIsAccepted` | crates/ea-admin/src/bootstrap.rs:1974-1987 | Every sealed ceremony accepts a list that pairs its certificates and bindings differently, because both lists are sorted on their own |
| `CeremonyAgreement.AgreementAfterCall` | crates/ea-admin/src/bootstrap.rs:1421-1427 | Memory and state file agree after a call if and only if it was not a repeated step 3 with another admissible list, and no late failure hit a call that advances to another state or aborts and that the store takes |
| `CeremonyAgreement.AgreementOverRuns` | crates/ea-admin/src/bootstrap.rs:1164-2068 | From nothing, over any port: memory and file agree at every point of a run while a coordinator lives if and only if no call repeats step 3 with another list and no late failure hits a call that replaces the state |
| `CeremonyAgreement.UnsealedRepairIsLost` | crates/ea-admin/src/bootstrap.rs:1404-1427 | From every agreeing system: a second list before the seal is answered and held in memory, and after a crash the first one is resumed |
| `CeremonyAgreement.TranscriptBindsPairs` | crates/ea-admin/src/bootstrap.rs:2235-2254 | From step 11 on the state reads back exactly while memory holds the list the root signed |
| `CeremonyAgreement.RepairedPairsAreNeverStored` | crates/ea-admin/src/bootstrap_store.rs:208-211 | After a re-pairing past step 11 no call but a repeated step 11 changes the state file |
| `CeremonyAgreement.FileHoldsOnlyReadableStates` | crates/ea-admin/src/bootstrap_store.rs:161-164 | Every state the file store ever holds, flushed or not, reads back and agrees with its signed transcript |
| `CeremonyAgreement.RetryAfterFailure` | crates/ea-admin/src/bootstrap.rs:2053-2068 | A call repeated after an early or late store failure ends, in memory and in the store, exactly where it would have ended without the failure, whether it stores a step or an abort |
| `CeremonyAgreement.NoAbortWhileFileIsAhead` | crates/ea-admin/src/bootstrap_store.rs:240-248 | After a late failure of a step forward the file is ahead, and the file store refuses to record an abort; nothing changes |
| `CeremonyAgreement.RestartOverAnyPort` | crates/ea-admin/src/bootstrap.rs:1250-1281 | Over a port without the file store's check a restart succeeds exactly for an aborted ceremony and two new ids, and begins a fresh one; every refusal changes nothing |
| `CeremonyAgreement.FinalAnchorOnSealedMedia` | crates/ea-admin/src/bootstrap.rs:2167-2200 | When step 11 commits over a port that reads honestly: exactly the media sealed in step 4 hold the final bytes and no other medium changed, all writes came before the first read, and the anchor continues the sealed pre-anchor |
| `BootstrapCoordinator.BootstrapCoordinator.GenerateOfflineRoot` | crates/ea-admin/src/bootstrap.rs:1346-1377 | The mutating step 2 leaves memory, store and answer exactly as the transition system says, for every fault |
| `BootstrapCoordinator.BootstrapCoordinator.CreateAdminPairs` | crates/ea-admin/src/bootstrap.rs:1395-1430 | The same for step 3; on success the answer is the hash of the pre-anchor now held |
| `BootstrapCoordinator.BootstrapCoordinator.PinPreAnchorOnMedia` | crates/ea-admin/src/bootstrap.rs:1445-1470 | The same for step 4 over a mutable media port |
| `BootstrapCoordinator.BootstrapCoordinator.GenerateRecoveryAndHgaKeys` | crates/ea-admin/src/bootstrap.rs:1480-1509 | The same for step 5, with its loop over three thumbprints |
| `BootstrapCoordinator.BootstrapCoordinator.EnrollKeyApprovers` | crates/ea-admin/src/bootstrap.rs:1520-1544 | The same for step 6 |
| `BootstrapCoordinator.BootstrapCoordinator.VerifyKeyBackups` | crates/ea-admin/src/bootstrap.rs:1556-1620 | The same for step 7, with its loop over the backups |
| `BootstrapCoordinator.BootstrapCoordinator.ProvisionComponentKeys` | crates/ea-admin/src/bootstrap.rs:1632-1643 | The same for step 8 |
| `BootstrapCoordinator.BootstrapCoordinator.CompareFingerprints` | crates/ea-admin/src/bootstrap.rs:1656-1687 | The same for step 9, over the two-medium mirror |
| `BootstrapCoordinator.BootstrapCoordinator.RootSignBootstrapTarget` | crates/ea-admin/src/bootstrap.rs:1719-1754 | The same for step 10 |
| `BootstrapCoordinator.BootstrapCoordinator.CreateGenesisAndFinalAnchor` | crates/ea-admin/src/bootstrap.rs:1798-1842 | The same for step 11; the media are untouched unless every earlier check passed, and the answer is the anchor in the bytes |
| `BootstrapCoordinator.BootstrapCoordinator.RecordFreshMachineRecoveryTest` | crates/ea-admin/src/bootstrap.rs:1877-1909 | The same for step 12; success means ready |
| `BootstrapCoordinator.BootstrapCoordinator.RebuildPreAnchor` | crates/ea-admin/src/bootstrap.rs:1967-2010 | Rebuilds the pre-anchor in place, or reports and leaves the state alone |
| `BootstrapCoordinator.BootstrapCoordinator.Commit` | crates/ea-admin/src/bootstrap.rs:2053-2068 | Persists the reached step, or restores the whole snapshot |
| `BootstrapCoordinator.BootstrapCoordinator.AbortWith` | crates/ea-admin/src/bootstrap.rs:2012-2020 | Sets only the abort flag, or restores if that cannot be stored |
| `BootstrapCoordinator.BootstrapCoordinator.Restore` | crates/ea-admin/src/bootstrap.rs:2028-2034 | The snapshot, with the pre-anchor decoded again |
| `BootstrapCoordinator.RequireDistinctPairing` | crates/ea-admin/src/bootstrap.rs:2217-2227 | One pass with a set accepts exactly the lists in which no certificate or binding hash repeats |
| `BootstrapCoordinator.DistinctThumbprints` | crates/ea-admin/src/bootstrap.rs:1525-1528 | Collects exactly the thumbprints of the list |
| `BootstrapCoordinator.BackedUpClasses` | crates/ea-admin/src/bootstrap.rs:1558-1559 | Collects exactly the classes of the list |
| `BootstrapCoordinator.Begin` | crates/ea-admin/src/bootstrap.rs:1164-1174 | Begins only where the port loads and nothing is stored, as the transition system's event says |
| `BootstrapCoordinator.Resume` | crates/ea-admin/src/bootstrap.rs:1182-1235 | Resumes at the stored step without touching the store; nothing stored is no coordinator, a failing load is its error |
| `BootstrapCoordinator.RestartWithNewIds` | crates/ea-admin/src/bootstrap.rs:1250-1266 | Restarts as the transition system's event says |
| `FileStore.FileBootstrapStore.Save` | crates/ea-admin/src/bootstrap_store.rs:186-249 | Whatever fails, the call is one move of the transition system's store; every disk it passes through holds, for a reader and after a crash, only what was there or the complete new image |
| `FileStore.FileBootstrapStore.Replace` | crates/ea-admin/src/bootstrap_store.rs:218-249 | Temporary file, sync, rename, directory flush: which entries exist afterwards for each point of failure, and at every moment in between |
| `FileStore.FileBootstrapStore.WriteTemporary` | crates/ea-admin/src/bootstrap_store.rs:223-239 | Writes byte by byte and syncs; at every moment only the temporary file has changed |
| `FileStore.FileBootstrapStore.Load` | crates/ea-admin/src/bootstrap_store.rs:134-143 | No lease or unreadable file, no file, malformed file and readable file are four different answers |
| `FileStore.OldOrNew` | crates/ea-admin/src/bootstrap_store.rs:166-176 | A reader of any disk on the way, even after a crash with unsynced contents lost, finds an old entry or the whole new image |
| `FileStore.CrashLeavesReadableState` | crates/ea-admin/src/bootstrap_store.rs:166-176 | What a crash leaves is no file or a file that decodes, and it is one of the outcomes of the transition system's crash |
| `FileStore.CrashInsideStore` | crates/ea-admin/src/bootstrap_store.rs:166-176 | A crash in the middle of a store refines the transition system: an early, a late or no failure, then a crash |
| `DiskRuns.DisksFollowTheCeremony` | crates/ea-admin/src/bootstrap_store.rs:134-249 | Over every history of calls in any weather, deaths between any two effects of a store, power losses and resumptions: what is found on the disk, now or after one more crash, is no file or a file that decodes to a state with all obligations of its step; while a coordinator lives the file is never behind it, at most one step ahead, and continues its sealed core |
| `DiskRuns.HistoryIsARun` | crates/ea-admin/src/bootstrap_store.rs:186-249 | Every machine of such a history, memory and disk together, is a state of a run of the transition system |
| `FileStore.AcceptsExactlyWellFormed` | crates/ea-admin/src/bootstrap_store.rs:208-211 | For states the ceremony reaches, the store's re-read of its own image refuses exactly those whose pairs are not the ones in the signed transcript |
| `StateImage.RoundTrip` | crates/ea-admin/src/bootstrap.rs:577-733 | For every state within the count bounds, decoding its image returns that state if and only if its transcript agrees with its fields; a transcript with other bytes is refused |
| `StateImage.AcceptedExactlyImages` | crates/ea-admin/src/bootstrap.rs:577-584 | The accepted byte strings are exactly the images of well-formed states, each of its own decoding |
| `StateImage.DecodedIsWellFormed` | crates/ea-admin/src/bootstrap.rs:588-733 | Every decoded state is within the bounds and has a consistent transcript |
| `StateImage.ImageInjective` | crates/ea-admin/src/bootstrap.rs:829-907 | Two well-formed states with the same image are the same state |
| `StateImage.PrefixFree` | crates/ea-admin/src/bootstrap.rs:577-584 | No accepted image is a proper prefix of another |
| `StateImage.EarlyRootFieldsIsFieldEquality` | crates/ea-admin/src/bootstrap.rs:785-790 | The comparison of images in the early-root check is a comparison of fields |
| `StateImage.TranscriptBindsEveryPair` | crates/ea-admin/src/bootstrap.rs:2235-2254 | The bytes the root signs fix the pair list, pair by pair and in order |
| `StateImage.CountRoundTrip` | crates/ea-admin/src/bootstrap.rs:910-913 | A count up to 2^32-1 is read back from its four big-endian bytes |
| `StateImage.ListFaithful` | crates/ea-admin/src/bootstrap.rs:1028-1032 | A counted list is read back, whatever follows it |
| `ImageCoding.PersistedImage` | crates/ea-admin/src/bootstrap.rs:829-907 | The pushing writer produces exactly the specified image |
| `ImageCoding.DecodeImage` | crates/ea-admin/src/bootstrap.rs:588-733 | The advancing reader decodes exactly what the specification does, and never builds more list elements than the image has bytes, whatever counts it claims |
| `ImageCoding.FromImage` | crates/ea-admin/src/bootstrap.rs:577-584 | Decoding followed by the byte comparison |
| `ImageCoding.ImageReader.List` | crates/ea-admin/src/bootstrap.rs:1002-1096 | A counted list of any element: the same values and rest as the specification, each element paid for with bytes |
| `AnchorMedia.MediaPort.Confirm` | crates/ea-admin/src/anchor_media.rs:293-323 | The two loops over a mutable port do exactly what the specification says, for every behaviour of the port |
| `AnchorMedia.ConfirmedMeansReadBack` | crates/ea-admin/src/anchor_media.rs:293-323 | A confirmation means two or more distinct media each reported the exact bytes, the fingerprint is that of the bytes, and every write came before the first read |
| `AnchorMedia.ConfirmedMeansHeld` | crates/ea-admin/src/anchor_media.rs:293-323 | If the port does not lie when it reads, exactly the named media hold the bytes, however the writes behaved |
| `AnchorMedia.RefusedBeforeWriting` | crates/ea-admin/src/anchor_media.rs:299-309 | A refusal for the fingerprint or the quorum leaves every medium alone |
| `AnchorMedia.FaithfulPortConfirms` | crates/ea-admin/src/anchor_media.rs:293-323 | On a faithful port the confirmation succeeds if and only if fingerprint and quorum are right |
| `Trust.ConfirmPreAnchorFingerprint` | crates/ea-admin/src/anchor_media.rs:200-211 | An issued confirmation carries the reported value, and it is the pre-anchor hash of the bytes |
| `Trust.ConfirmFinalAnchorFingerprint` | crates/ea-admin/src/anchor_media.rs:230-241 | The same in the final anchor's domain |
| `Trust.ConfirmationOverPreAnchor` | crates/ea-admin/src/anchor_media.rs:178-183 | A confirmation that binds to pre-anchor bytes carries their bootstrap hash, whichever function issued it |
| `Bytes.SortForgetsOnlyOrder` | crates/ea-admin/src/bootstrap.rs:1986-1987 | Sorting the hash lists forgets exactly their order |
| `SessionWatch.CoverageIsLinear` | crates/ea-admin/src/native_watch.rs:113-153 | Under any interleaving and any helper output each success answers its own challenge, accepted between request and deadline; while the watch is valid and nobody asks, nothing is pending, the channel is empty, and drawn, acknowledged and granted challenges are the same, one grant each |
| `SessionWatch.LifetimeIsAChain` | crates/ea-admin/src/native_watch.rs:154-204 | Presences form a chain of distinct nonces from the start, each recorded after a check inside 300 s of the one before; coverage never moves the endpoint; every success was inside the limit of some link |
| `SessionWatch.InvalidationIsFinal` | crates/ea-admin/src/native_watch.rs:166-176 | Once invalidated the watch stays so and no call ever succeeds, except a presence already past its own look at the latch with a nonce not yet recorded, which adds at most one link |
| `SessionWatch.OnlyTheCommittedStamp` | crates/ea-admin/src/native_watch.rs:166-176 | An invalidated watch can still be added to if and only if its recorder stands before the stamp, or before the insertion of a nonce not yet consumed |
| `SessionGaps.GapsExactly` | crates/ea-admin/src/native_watch.rs:166-176 | Among all runs in which the clock advances by at most p between the look at the idle limit and the stamp, every gap is below a bound if and only if the bound is at least 300 s + p; so all gaps stay below 300 s if and only if p is zero |
| `SessionGaps.GapsAreBounded` | crates/ea-admin/src/native_watch.rs:166-176 | In every such run neighbouring presences are less than 300 s + p apart |
| `SessionGaps.EveryGapIsReached` | crates/ea-admin/src/native_watch.rs:166-176 | Every gap below that bound is opened from every resting watch by a run that keeps the pause, and the watch stays valid |
| `SessionGaps.PausesAreStamped` | crates/ea-admin/src/native_watch.rs:166-176 | The pauses of a schedule, counted in ticks, are exactly those its presences show |
| `SessionGaps.StampAfterTheEnd` | crates/ea-admin/src/native_watch.rs:169-176 | The exception of InvalidationIsFinal happens: a run from the start in which a presence is stamped on a watch the reader has ended |
| `SessionWatch.PromptAnswerIsGranted` | crates/ea-admin/src/native_watch.rs:113-153 | From every resting watch a fresh question answered before the deadline and the idle limit is granted, with the challenge and times of this very exchange |
| `SessionWatch.LateAnswerEndsTheWatch` | crates/ea-admin/src/native_watch.rs:141-151 | The same answer at or after the deadline grants nothing and invalidates the watch |
| `SessionWatch.ReaderKeepsLinear` | crates/ea-admin/src/native_watch.rs:207-252 | Every step of the reader thread keeps tokens, pending challenge and caller in line |
| `SessionWatch.CallerKeepsLinear` | crates/ea-admin/src/native_watch.rs:113-153 | Every step of a caller keeps them in line |
| `SessionWatch.GrantIsBacked` | crates/ea-admin/src/native_watch.rs:128-148 | The one step that grants coverage is backed by a timely acknowledgement of its own challenge and by the chain of presences |
| `SessionWatch.RecorderKeepsTimed` | crates/ea-admin/src/native_watch.rs:154-177 | Every step of recording a presence keeps the chain |
| `PublicationHost.AttemptsAreConserved` | crates/ea-admin/src/network_publication.rs:498-578 | Under any interleaving with outside runs the attempts equal the executed loop runs that started unclean, plus the counted ones that started clean, plus one while a counted wait has not had its run or was stopped; they never exceed the bound |
| `PublicationHost.NoLostWakeUp` | crates/ea-admin/src/network_publication.rs:362-367 | While the loop sleeps on a delay chosen clean, an unclean observation means the signal is up, so its next look ends the sleep and no attempt is spent |
| `PublicationHost.BackoffIsExact` | crates/ea-admin/src/network_publication.rs:498-519 | The k-th counted delay since the last clean one is min(initial * 2^(k-1), maximum), between one second and the maximum, for every 64-bit profile |
| `PublicationHost.ExhaustionIsFinal` | crates/ea-admin/src/network_publication.rs:503-513 | Once no delay is left the loop has ended and every later question gets the same answer; every attempt was spent on an executed run |
| `PublicationHost.StoppedWaitIsNotRefunded` | crates/ea-admin/src/network_publication.rs:555-560 | A stopped wait keeps the attempt it counted for ever |
| `PublicationHost.AttemptsAreUncleanRuns` | crates/ea-admin/src/network_publication.rs:498-578 | The attempts are the executed runs that started unclean plus the outstanding one if and only if no counted run took place whose wait had been settled by the last outside record |
| `PublicationHost.CountedRunStartsClean` | crates/ea-admin/src/network_publication.rs:346-368 | A counted run starts clean if and only if the last outcome recorded between the question that counted it and the look that woke it was clean |
| `PublicationHost.IdleRunStartsClean` | crates/ea-admin/src/network_publication.rs:506-509 | A run woken from an idle delay always starts clean |
| `PublicationHost.SettledWaitIsSpent` | crates/ea-admin/src/network_publication.rs:552-570 | Such a run exists for every profile with attempts: one attempt spent, no run that started unclean |
| `PublicationHost.NetworkPublicationHost.RunLoop` | crates/ea-admin/src/network_publication.rs:552-570 | Against any schedule the loop is a run of the interleaving; its attempts are accounted for, and it ends only stopped or exhausted |
| `PublicationHost.NetworkPublicationHost.TakeDelay` | crates/ea-admin/src/network_publication.rs:498-519 | The mutating section computes the specified state and delay |
| `PublicationHost.NetworkPublicationHost.Wait` | crates/ea-admin/src/network_publication.rs:521-542 | The looking loop ends stopped, signaled or elapsed, in this order of precedence |
| `PublicationHost.NetworkPublicationHost.RecordOutcome` | crates/ea-admin/src/network_publication.rs:346-368 | Records the outcome and raises the signal exactly when clean turns unclean |
| `PublicationHost.NetworkPublicationHost.RefundAttempt` | crates/ea-admin/src/network_publication.rs:572-578 | Takes back the attempt the last delay counted, once |
| `PublicationHost.NetworkPublicationHost.Execute` | crates/ea-admin/src/network_publication.rs:561-567 | The loop's own run, the refund of a skipped one, and the discarded signal |
| `Registry.AcceptedWindows` | crates/ea-admin/src/operator.rs:750-767 | A window is accepted if and only if it begins in or right after the present lease and not before the proposed sequence, is not empty, and lasts a positive time up to the maximum age; the one further refusal is a version that cannot rise |
| `Registry.VersionsCount` | crates/ea-admin/src/operator.rs:770-779 | In a chain of planned events of any length versions rise by exactly one and never overflow |
| `Registry.LeasesHaveNoGap` | crates/ea-admin/src/operator.rs:757-762 | Every sequence from the first effective one to the last lease end lies in some lease of the chain |
| `Registry.ValidityIsBounded` | crates/ea-admin/src/operator.rs:762-792 | Each event is valid from its issue for a positive time of at most the maximum age |
| `Revocation.JournalDatabase.RevocationTarget` | crates/ea-admin/src/operator_revocation.rs:8-63 | Insert unless present, read back, compare; a conflict leaves the journal as it was |
| `Revocation.RetriesAreStable` | crates/ea-admin/src/operator_revocation.rs:25-63 | All successful calls for one binding, over any journal, clocks, heads and other calls, return the identical event, never issued after the caller's own time |
| `Revocation.FirstIntentWins` | crates/ea-admin/src/operator_revocation.rs:25-63 | Over a journal without the binding every success repeats a plan that passed the window check of an earlier or the same call |
| `Revocation.RetryIsAnswered` | crates/ea-admin/src/operator_revocation.rs:8-63 | After a success the same intent, at any later point of any run, is answered if and only if the binding is active, the window passes and the clock has not fallen behind the recorded issue time |
| `Revocation.FirstIsAnswered` | crates/ea-admin/src/operator_revocation.rs:13-34 | The first request for a binding is refused only for an inactive binding or its window |
| `Revocation.RowsAreFinal` | crates/ea-admin/src/operator_revocation.rs:25-34 | A journal row is never altered or removed |
| `NetworkRegistration.OneComponentPerAnchor` | crates/ea-admin/src/native_archive.rs:216-280 | Under any interleaving an anchor is booked at most once; scope, component and audit row are all there for each booking and there is no other component or audit row |
| `NetworkRegistration.BookingIsAtomic` | crates/ea-admin/src/native_archive.rs:249-277 | A failed booking writes nothing, a successful one leaves all three rows |
| `NetworkRegistration.BookingSucceedsUnlessTaken` | crates/ea-admin/src/native_archive.rs:249-277 | In every state any interleaving reaches, a booking whose audit row can be written succeeds if and only if no earlier booking took its anchor or namespace, no scope row of other limits came between, and the profile fits |
| `NetworkRegistration.BookingIsFinal` | crates/ea-admin/src/native_archive.rs:313-339 | The rows of a booking stay whatever other registrars do |
| `NetworkRegistration.BookingIsWhatOpens` | crates/ea-admin/src/native_archive.rs:398-434 | At every later point another look finds it identical, a start reads namespace and limits back, and opening passes the row checks if and only if it is with the same profile; a local path is refused |
| `NetworkRegistration.RegistrationDatabase.BookRegistration` | crates/ea-admin/src/native_archive.rs:249-277 | Row by row with rollback does what the one transaction specifies, table constraints included |
| `GrantPublication.GrantDirectory.Publish` | crates/ea-admin/src/historical_grant.rs:243-321 | Object by object: every disk on the way holds a prefix of the list besides what was there; success means exactly the whole list, flushed, and its hashes in order; and it succeeds if and only if no effect fails and no name, old or from earlier in the list, holds other bytes |
| `GrantPublication.GrantDirectory.PublishOne` | crates/ea-admin/src/historical_grant.rs:275-317 | One object is not linked, linked, or linked and flushed, at every moment; exactly when it succeeds, when it is of no publishable kind, and when the session turned out not to be current |
| `GrantPublication.GrantDirectory.WriteAndLink` | crates/ea-admin/src/historical_grant.rs:294-311 | The part whose failure still removes the temporary file: exactly when it succeeds, and which failure is reported |
| `GrantPublication.GrantDirectory.Link` | crates/ea-admin/src/historical_grant.rs:298-310 | Links the synced file unless the same bytes are there already; other bytes under the name are refused and left alone |
| `GrantPublication.NamesNeverLie` | crates/ea-admin/src/historical_grant.rs:283-307 | A final name is absent or holds the complete bytes whose hash it carries, and no name that was there is altered |
| `GrantPublication.CrashLeavesAPrefix` | crates/ea-admin/src/historical_grant.rs:274-318 | After a crash at any point all objects before some point of the list are there, none after the next one is, and every one found is complete; the authorization comes first |
| `GrantPublication.RepeatReachesTheSame` | crates/ea-admin/src/historical_grant.rs:243-321 | Repeating after any interruption ends with the same final names as an uninterrupted run |
| `GrantPublication.RepeatAfterCrash` | crates/ea-admin/src/historical_grant.rs:243-321 | Repeating after a crash agrees with an uninterrupted run on the names of the list whatever was flushed, adds nothing else, and agrees on all final names if and only if the names of others survived; flushed ones always do |
| `GrantPublication.SafeExactlyWhenFlushed` | crates/ea-admin/src/historical_grant.rs:243-321 | Repeating ends with the names of an uninterrupted run, whatever is interrupted and whatever a crash leaves, if and only if the final names the list does not name were flushed before it is published |
| `GrantPublication.UnflushedNameIsLost` | crates/ea-admin/src/historical_grant.rs:298-310 | One name of another run that was visible and not flushed is enough to make the repeat unsafe |
| `Fingerprint.HumanReadable` | crates/ea-admin/src/fingerprint.rs:89-100 | The pushing loop prints the pairs of the hash joined by colons |
| `Fingerprint.ParseHumanReadable` | crates/ea-admin/src/fingerprint.rs:110-133 | Accepts exactly 64 digits or 32 pairs with colons, in any case, between any white space, and answers what the digits say |
| `Fingerprint.PrintThenParse` | crates/ea-admin/src/fingerprint.rs:103-109 | What was printed is accepted with any white space around it and denotes the printed hash and no other |
| `Fingerprint.ParseThenPrint` | crates/ea-admin/src/fingerprint.rs:86-100 | Printing what a text denotes gives the same digits in upper case, pair by pair |
| `CommandLine.Parse` | apps/cli/src/args.rs:886-1758 | The loop over the arguments and the fixed order of checks compute the specified invocation or error |
| `CommandLineLaws.NothingDropped` | apps/cli/src/args.rs:1087-1757 | For every switch the invocation carries exactly the value that was given, up to the default format, for all commands and recovery modes |
| `CommandLineInverse.ExactlyTheValid` | apps/cli/src/args.rs:886-1758 | An invocation is valid (its values can be written and meet the commands' own limits, report options go with a report) if and only if some command line parses to it, and if and only if its own rendering does |
| `CommandLineInverse.ValidIsParsed` | apps/cli/src/args.rs:1087-1757 | Every valid invocation of every command and recovery mode is what its rendering parses to |
| `CommandLineInverse.ParsedIsValid` | apps/cli/src/args.rs:886-1758 | Nothing else is ever accepted |
| `CommandLineInverse.RenderThenParse` | apps/cli/src/args.rs:886-1758 | Writing out any accepted invocation and parsing it again returns the same invocation |
| `Spelling.ProgramIsLawful` | apps/cli/src/args.rs:65-755 | The program's own spellings of switches, commands and words are a lawful vocabulary, given key sources that can be written back and path equality that is equality on single components |
| `CommandLineLaws.OrderDoesNotMatter` | apps/cli/src/args.rs:924-1078 | Reordering switches with their values around the ordered positionals changes neither acceptance nor the invocation |
| `CommandLineLaws.LinesAreUnits` | apps/cli/src/args.rs:924-1078 | Every line that scans is a sequence of switches with their values, flags and plain words |
| `CommandLineLaws.ScanOfItems` | apps/cli/src/args.rs:771-844 | Exactly which lines scan: every switch once, every value readable, the first word a command; and what table they fill |
| `CommandLineLaws.RuntimeFields` | apps/cli/src/args/recovery.rs:58-118 | The recovery modes take, one by one, exactly the paths that were given |
| `CommandLine.NumberRoundTrip` | apps/cli/src/args.rs:823-844 | A number is read back from its decimal spelling |

## Left out

- COSE, Ed25519, CBOR, CSPRNG and SQL: parameters of the model, or atomic transactions on maps.
- StateImage.RoundTrip: needs every list and slice to have at most 2^32-1 elements, because the length prefix saturates there; a longer one cannot be told from one of that length.
- FileStore.AcceptsExactlyWellFormed: for the same reason stated within those bounds; beyond them `FileStore.FileBootstrapStore.Save` says what the store does with whatever its own image decodes to.
- CeremonyInvariants.FinalAnchorSound: the reasons a root signature is not attributable are one error, and so are the findings of the publication and media ports.
- BootstrapCoordinator.BootstrapCoordinator.CreateAdminPairs: requires what keeps the source from panicking, a root or a held pre-anchor once step 2 is claimed; no reachable coordinator violates it.
- CeremonyRuns.WhatIsDurableStays: speaks of one ceremony; a restart over a port without the file store's check begins another one.
- SessionWatch: the ready handshake, the framing limit of a line and the drop of the watch are not modelled; a line is either the acknowledgement of a challenge or something else. The callers and the reader are steps of a state machine, not methods, because what matters is their interleaving.
- SessionWatch.CoverageIsLinear: a drawn challenge is taken to be one that was not drawn before; 32 random bytes could repeat.
- DiskRuns.DisksFollowTheCeremony: every state handed to the store is within the count bounds of the image, as for StateImage.RoundTrip.
- PublicationHost: what a run derives and publishes, `sync_state`, and the clock behind a wait; a look is told whether its time is up.
- NetworkRegistration.BookingIsWhatOpens: covers the database checks; policy, capability test, profile pointer, presence and the lock on the carrier are not part of this model.
- GrantPublication: creation of the directory and the refusal of symbolic links are one condition of the call.
- CommandLine: key-source grammar, path equality and text encoding are parameters, and the spellings are one too, with the program's own as an instance; error texts name a command by its kind only. The written-out positional is the subcommand's own word.
- Revocation: only the intent journal; signing, replay keys and the audit of a revocation are not part of this model.
- Lock-file checks of the file store: the lease is one condition of a call.
- `re_enter` and the code tables of key classes and roles; go-live checks and the genesis entry; applying a clock release; device enrolment and destruction; the server, web and desktop applications: none of them is part of this model.
