# A model of anp-identity

anp-identity keeps DID identities in a directory of files: a registry, one record per identity, sealed
secrets and journals. Several processes may hold handles on the same store. On top of it runs a
protocol that publishes changes of DID documents, a second one that moves an identity to another DID,
and, in a TypeScript package, a ledger that authorizes applications to use an identity.

This project models that logic in Dafny and proves what it is built to guarantee: that no crash leaves
the store between two states, that recovery ends the same way however often it is interrupted, that an
unknown publication result never loses a key, that stale handles, attempts, bases and snapshots change
nothing, and that grants and tokens are used no more often than they allow.

## How it is organised

| files | what they hold |
|---|---|
| `Model`, `Writes` | documents, records, journals and the disk; single atomic writes |
| `Recovery`, `CrashAtomicity` | recovery as a sequence of writes, and the journaled changes of the store |
| `Candidate`, `CandidateConsistency`, `LocalDevice` | building a candidate document, and what it keeps |
| `Adoption`, `Engine`, `EngineLaws`, `Births` | the operations on a record, and how a record may follow another |
| `Transitions` | moving an identity to another DID |
| `Runs`, `RunLaws` | the store as a transition system with any number of handles, and its invariant |
| `StoreSafety`, `DeviceMemory`, `Soundness`, `TransitionSafety`, `Sealing` | safety over whole runs |
| `Progress` | what an uninterrupted operation achieves |
| `Counterexamples` | where a guarantee stops, next to the exact condition |
| `DocumentBuilder`, `StoreRuntime`, `Handles` | the same operations as loops and objects updated in place |
| `Authorization`, `Optimism`, `LedgerSafety`, `Refusals`, `AuthorizationEngine` | the authorization ledger |
| `Tokens`, `Provider` | leases and one-time tokens |

Every operation that changes the store decides on a `Change`; `ChangeWrites` lists its writes in order.
A process may die after any of them, and the recovery that follows may be interrupted any number of
times. `Runs.Step` lets any handle, manager or session act, with any such fate, and `RunLaws.RunKeeps`
proves the invariant `Inv` of every state reached from the empty store; the theorems of the five files
on whole runs hold between any two states of any run. `StoreRuntime`, `Handles`,
`DocumentBuilder` and `AuthorizationEngine` give the imperative form, each method proved to make exactly
those writes or to compute exactly those functions, up to the write at which the process dies.

What the model takes from outside as arguments: clock readings, fresh identifiers, generated public
keys, the verdicts of signature and document validators, and the answers of the host. A digest is
injective. A store without leftover journals is where operations other than recovery start.

Four guarantees turn out to be narrower than they read, and are stated exactly. The inputs that show
it are runs of a new store, and of a new provider for the last.

* Confirming a root promotion, which only an identity with a local device can get to
  (`StoreSafety.DevicelessNeverControls`), takes over the remote document without the device check. It can list a
  retired device again (`Counterexamples.PromotionCanReviveADevice`), and it can drop a device without
  retiring it, so that a later adoption lists it again (`Counterexamples.PromotionCanForgetADevice`).
  Every other request keeps retired devices out and retires the devices it drops; a promotion does so if
  and only if its document lists no retired device and drops none (`DeviceMemory.DevicesRememberedIff`,
  `DeviceMemory.DevicesAccountedIff`, over runs `DeviceMemory.RunFaithfulIff`). Promotion is impossible
  for Web identities, so a device they drop never returns (`DeviceMemory.WebDropsForGood`).
* A batch that removes a device it added and adds its keys again repeats key ids
  (`Counterexamples.SelfRemovalRepeatsKids`). Key ids stay unique if and only if the ids the batch
  introduces are distinct (`CandidateConsistency.KidsUniqueIff`), which they are when no device it adds
  is also removed by it (`CandidateConsistency.BatchKidsDistinct`).
* A rotation compares its new key id with the local keys only, so it can repeat the id of a published
  method (`Counterexamples.RotationOntoPublishedId`), and then records the public key published there for its
  own new key (`CandidateConsistency.RotatedKeyIs`). The validator of the `anp` library sees the candidate
  before it is prepared and may refuse a repeated method id; its verdict is an argument of the model. From
  a sound record, an accepted revision commits to a sound one if and only if the rotation's id was not
  published and the request introduces no id twice (`CandidateConsistency.CandidateCoherentIff`). Over a
  run, a record stays sound if and only if every proposal meets that condition and every remote document
  taken over is coherent with the local keys (`Soundness.RunSoundIff`).
* A one-time token can be accepted twice when the clock goes back across its expiry
  (`Tokens.ClockBackAcceptsTwice`). After an acceptance it is accepted again if and only if it passes the
  checks and some call in between passed them at or after its expiry (`Tokens.AcceptedAgainIff`).

## Model

| member | source | states |
|---|---|---|
| `Recovery.RecoveryConverges` | crates/anp-identity/src/identity.rs:420-518 | interrupted any number of times, after any writes, with any journals left on any disk, recovery finally ends on the disk, and with the verdict, of one uninterrupted recovery |
| `Recovery.RecoveryLeavesNoJournal` | crates/anp-identity/src/identity.rs:420-518 | a recovery that succeeds leaves no journal, and running it again changes nothing |
| `CrashAtomicity.CrashAtomic` | crates/anp-identity/src/identity.rs:194-303 | any change, stopped after any prefix of its writes and recovered, ends before or after the change; a state transition that leaves the summary as it was may end without the advance of the registry generation |
| `CrashAtomicity.ChangeCompletes` | crates/anp-identity/src/lifecycle.rs:388-448 | the writes of a change, all made, lead to its specified result |
| `CrashAtomicity.AfterConsistent` | crates/anp-identity/src/namespace.rs:131-165 | every change keeps the store consistent: the registry lists exactly the stored records, and the sealed secrets are exactly those the records account for |
| `CrashAtomicity.CrashedChangeSettles` | crates/anp-identity/src/lifecycle.rs:605-673 | a crash after any write followed by any interrupted recoveries settles on a consistent store from before or after the change, in which every registered DID opens |
| `CrashAtomicity.EveryRegisteredDidOpens` | crates/anp-identity/src/identity.rs:162-179 | in a consistent store every registered DID opens |
| `CandidateConsistency.CandidateCoherent` | crates/anp-identity/src/lifecycle.rs:729-815 | from a coherent record, an accepted revision whose rotation reuses no published id commits to a record whose methods, relationship lists, device manifest and keys, the new ones included, agree |
| `CandidateConsistency.CandidateCoherentIff` | crates/anp-identity/src/lifecycle.rs:692-815 | from a sound record, an accepted revision commits to a sound one if and only if its rotation reuses no published id and its request introduces no id twice |
| `CandidateConsistency.RotatedKeyIs` | crates/anp-identity/src/document.rs:562-584 | for every accepted revision of a coherent record the rotated key is recorded with the new public key if its id was not published, and otherwise with the one published under it, unless the request adds the id again for a device |
| `CandidateConsistency.CandidateAvoidsRetired` | crates/anp-identity/src/lifecycle.rs:885-1045 | a candidate never lists a device the record remembers as retired |
| `CandidateConsistency.NewKidsOfSpec` | crates/anp-identity/src/lifecycle.rs:363-387 | the new keys of a revision are exactly those its request introduces, in order, and none is known to the record |
| `CandidateConsistency.KidsUniqueIff` | crates/anp-identity/src/lifecycle.rs:511-531 | after the commit all key ids are unique if and only if the ids the batch introduces are distinct |
| `CandidateConsistency.BatchKidsDistinct` | crates/anp-identity/src/lifecycle.rs:817-869 | a batch that removes no device it added introduces no id twice |
| `LocalDevice.LocalStaysAuthorizedIff` | crates/anp-identity/src/adoption.rs:792-849 | after the commit of any accepted batch the local device is authorized if and only if the profiles the batch gives it are compatible with the recorded ones |
| `EngineLaws.ProposedLaw` | crates/anp-identity/src/lifecycle.rs:325-456 | preparing attaches a sound revision to an unchanged document, with at most one new secret that no key uses |
| `EngineLaws.MovedLaw` | crates/anp-identity/src/lifecycle.rs:458-479 | every publication move advances both generations and changes nothing else of the revision |
| `EngineLaws.CommittedLaw` | crates/anp-identity/src/lifecycle.rs:481-552 | a commit takes over candidate and keys, conserves secrets, and advances the checkpoint or replaces only the proof of the first document |
| `EngineLaws.ClearedLaw` | crates/anp-identity/src/lifecycle.rs:554-625 | dropping a revision keeps everything else of the record |
| `EngineLaws.ObservedLaw` | crates/anp-identity/src/registry.rs:139-164 | an accepted document lists no retired device, and every device it no longer lists is remembered |
| `EngineLaws.AdoptLaw` | crates/anp-identity/src/adoption.rs:508-635 | adoption keeps the record sound and its secrets, and never touches a pending revision; sibling adoption keeps the summary |
| `EngineLaws.AdoptionJudges` | crates/anp-identity/src/adoption.rs:563-608 | an enrollment is confirmed only by a document that authorizes it, an active identity is revoked exactly when the document stops authorizing it, and nothing revives a revoked one |
| `EngineLaws.RootImportLaw` | crates/anp-identity/src/root_transfer.rs:415-539 | importing a root seals one secret that was not there and makes its key managed |
| `EngineLaws.ImportIsRemembered` | crates/anp-identity/src/root_transfer.rs:432-445 | repeating an imported transfer changes nothing, and its nonce serves no other transfer |
| `EngineLaws.PushedIsFound` | crates/anp-identity/src/root_transfer.rs:591-606 | a pushed nonce is found again, also when older ones are dropped |
| `EngineLaws.PromotedLaw` | crates/anp-identity/src/root_transfer.rs:196-243 | confirming a promotion advances the checkpoint and keeps the secrets and the pending revision |
| `EngineLaws.SessionCommitsOnEvidence` | crates/anp-identity/src/facade/document_change.rs:270-308 | reconciling never reaches the commit without evidence; it commits on the evidence given or, outside Web, returns to prepared because the remote is unchanged |
| `EngineLaws.MakesOnlyWhenStored` | crates/anp-identity/src/lifecycle.rs:627-635 | no request changes anything unless the handle has the stored generation |
| `EngineLaws.RespondLawful` | crates/anp-identity/src/facade/document_change.rs:205-332 | every change made for any request can be carried out, keeps the record sound and follows the rules for its revision |
| `Births.BornKept` | crates/anp-identity/src/registry.rs:659-684 | a created or enrolled identity starts sound |
| `Births.BornDistinct` | crates/anp-identity/src/adoption.rs:129-297 | the key ids of an enrolled identity are distinct; of a created one they are so because the document builder is taken to make them so |
| `RunLaws.StepKeeps` | crates/anp-identity/src/lifecycle.rs:1150-1157 | every step of any handle, manager or session, with any crash, keeps the invariant of the store |
| `RunLaws.RunKeeps` | crates/anp-identity/src/identity.rs:307-331 | so does every run |
| `StoreSafety.ChangesComeFromTheLatest` | crates/anp-identity/src/lifecycle.rs:627-635 | a stored record changes only through a handle that holds exactly that record, and its generation advances by one |
| `StoreSafety.StaleHandleChangesNothing` | crates/anp-identity/src/adoption.rs:517-521 | a handle of another generation changes nothing, whatever it asks |
| `StoreSafety.GenerationCountsChanges` | crates/anp-identity/src/lifecycle.rs:1150-1157 | over any run the generation advances by the number of changes, so successful mutations form one chain |
| `StoreSafety.SlipIsProofOnly` | crates/anp-identity/src/adoption.rs:644-673 | a checkpoint is replaced by one that is not ahead only at the first confirmation, at 1/1, changing only the proof |
| `StoreSafety.CheckpointsOnlyAdvance` | crates/anp-identity/src/adoption.rs:757-772 | over any run both versions never decrease, and a version's digest changes at most once per identity, before its first confirmation |
| `StoreSafety.WebCommitObserves` | crates/anp-identity/src/lifecycle.rs:511-531 | the device check never refuses the commit of a Web identity |
| `StoreSafety.WebIsNeverPromoted` | crates/anp-identity/src/root_transfer.rs:196-217 | a root promotion of a Web identity is impossible |
| `StoreSafety.NoStaleBase` | crates/anp-identity/src/lifecycle.rs:481-510 | a revision commits only on the document it was built from, whatever happened since it was proposed |
| `StoreSafety.UncertaintyKeepsSecrets` | crates/anp-identity/src/lifecycle.rs:554-625 | a secret of a pending revision is gone at the end of a run only if some step aborted the revision while prepared, or dropped it on evidence strictly ahead of the checkpoint, or it committed and the identity was removed later |
| `StoreSafety.DoubtIsSettledByEvidence` | crates/anp-identity/src/lifecycle.rs:554-601 | whatever the step, a secret of a revision in doubt is gone after it only by an authoritative rejection with evidence strictly ahead |
| `StoreSafety.RetreatIsAnswered` | crates/anp-identity/src/lifecycle.rs:190-268 | a revision in doubt returns to prepared only because its own attempt was rejected or, outside Web, because the remote still shows the old document |
| `StoreSafety.DropEndsDoubt` | crates/anp-identity/src/facade/document_change.rs:225-332 | from a revision in doubt, over any run, it is dropped only on evidence strictly ahead, or by an abort after an earlier step took it back to prepared |
| `StoreSafety.WaitingIdentityStays` | crates/anp-identity/src/namespace.rs:94-169 | an identity with a pending revision cannot be removed |
| `StoreSafety.DevicelessNeverControls` | crates/anp-identity/src/root_transfer.rs:635-646 | over any run an identity without a local device never gains control of a root it does not hold |
| `StoreSafety.SecretsAreConserved` | crates/anp-identity/src/keystore.rs:87-140 | in every reachable state the sealed secrets are exactly those of managed keys and pending revisions, and every registered DID opens |
| `StoreSafety.AttemptCompletesOnce` | crates/anp-identity/src/facade/document_change.rs:225-268 | over any run at most one call completes a given publication attempt |
| `StoreSafety.OvertakenAttemptNeverCompletes` | crates/anp-identity/src/facade/document_change.rs:355-367 | an attempt from before its revision moved on never completes it |
| `Progress.CreationGoesThrough` | crates/anp-identity/src/identity.rs:194-303 | from any reachable state an uninterrupted creation or enrollment brings the identity in: it opens, and all its secrets are sealed |
| `Progress.PublicationGoesThrough` | crates/anp-identity/src/facade/document_change.rs:147-268 | from any reachable state a change prepared, published and confirmed through one handle becomes the stored document at the evidence's checkpoint, with every new key and its secret |
| `Progress.PromotionGoesThrough` | crates/anp-identity/src/root_transfer.rs:351-539 | from any reachable state an identity with a local device and without root control that imports a key wrapped for that device at its checkpoint, and confirms with a verified document of the same root, gains control of it, with the document stored and the key sealed |
| `Sealing.RequestsSealFresh` | crates/anp-identity/src/lifecycle.rs:398-416 | no request ever seals a secret that already exists |
| `Sealing.BirthsSealFresh` | crates/anp-identity/src/identity.rs:234-251 | neither does a creation or an enrollment |
| `TransitionSafety.SettledForGood` | crates/anp-identity/src/facade/identity_transition.rs:252-357 | a committed or aborted transition never changes again |
| `TransitionSafety.OneSuccessorEver` | crates/anp-identity/src/facade/identity_transition.rs:129-147 | over any run at most one transition of a predecessor is ever committed |
| `TransitionSafety.ResumeIsUnambiguous` | crates/anp-identity/src/facade/identity_transition.rs:208-232 | resuming never finds more than one open journal |
| `TransitionSafety.StepsNeedUntouchedRecords` | crates/anp-identity/src/facade/identity_transition.rs:359-380 | a step succeeds only while both records are the ones the transition was prepared on |
| `TransitionSafety.PinnedSincePreparation` | crates/anp-identity/src/facade/identity_transition.rs:187-203 | from the preparation to any later successful step both records are unchanged |
| `TransitionSafety.ChangeBreaks` | crates/anp-identity/src/facade/identity_transition.rs:359-380 | any change or removal of either record breaks the transition |
| `TransitionSafety.BrokenForGood` | crates/anp-identity/src/facade/identity_transition.rs:359-380 | a broken transition stays broken, and its journal never changes again |
| `TransitionSafety.TransitionAttemptCompletesOnce` | crates/anp-identity/src/facade/identity_transition.rs:269-301 | over any run at most one call completes a given attempt to publish a transition |
| `TransitionSafety.SiblingsWaitForTheTransition` | crates/anp-identity/src/adoption.rs:525-549 | from the preparation of a transition until it is settled, adopting a sibling's document for either identity changes nothing, over any run |
| `DeviceMemory.DevicesRememberedIff` | crates/anp-identity/src/root_transfer.rs:218-238 | for identities of any method a request keeps retired devices unlisted, unless it confirms a promotion whose document lists a retired device |
| `DeviceMemory.DevicesAccountedIff` | crates/anp-identity/src/root_transfer.rs:218-238 | for identities of any method every device a request drops is retired, unless it confirms a promotion whose document drops one |
| `DeviceMemory.RunFaithfulIff` | crates/anp-identity/src/registry.rs:139-164 | over any run every step retires what it drops and lists nothing retired, if and only if no promotion in the run lists a retired device or drops one |
| `DeviceMemory.DroppedDeviceNeverReturns` | crates/anp-identity/src/registry.rs:139-164 | without such a promotion, a device once dropped is retired and in no later document |
| `DeviceMemory.RetiredDevicesStayRetired` | crates/anp-identity/src/registry.rs:139-164 | over any run a Web identity retires every device it drops, keeps every retired one, and lists none, now or in a pending candidate |
| `DeviceMemory.WebDropsForGood` | crates/anp-identity/src/registry.rs:139-164 | a device a Web identity has dropped is in none of its later documents, whatever happens |
| `Soundness.RequestSoundIff` | crates/anp-identity/src/lifecycle.rs:325-552 | a request leaves a sound record sound, its pending revision included, if and only if a proposal reuses no id and a remote document is coherent with the local keys |
| `Soundness.BornSoundIff` | crates/anp-identity/src/adoption.rs:129-297 | an identity starts sound if and only if its document is coherent, for a created one with its keys |
| `Soundness.RunSoundIff` | crates/anp-identity/src/lifecycle.rs:481-552 | over any run, crashes included, a sound record is sound in every state if and only if every request that changes it meets that condition |
| `Counterexamples.PromotionCanReviveADevice` | crates/anp-identity/src/root_transfer.rs:218-238 | a run of a new store in which a device is enrolled and promoted, and the promotion lists a retired device again |
| `Counterexamples.PromotionCanForgetADevice` | crates/anp-identity/src/root_transfer.rs:218-238 | a run of a new store in which the promotion drops a device without retiring it and an adoption lists it again |
| `Counterexamples.RotationOntoPublishedId` | crates/anp-identity/src/lifecycle.rs:692-727 | a run of a new store that prepares a rotation onto an id another party published, when the outside validator lets it pass, and records a public key that is not the one generated |
| `Counterexamples.SelfRemovalRepeatsKids` | crates/anp-identity/src/lifecycle.rs:927-1026 | a run of a new store that prepares a batch whose commit repeats key ids |
| `DocumentBuilder.Builder.ApplyRotation` | crates/anp-identity/src/lifecycle.rs:745-762 | the rotation in place is the specified one |
| `DocumentBuilder.Builder.ApplyKeyEdits` | crates/anp-identity/src/lifecycle.rs:817-869 | the loop over authentication-key edits, including where it stops |
| `DocumentBuilder.Builder.AddProfiles` | crates/anp-identity/src/lifecycle.rs:901-926 | profiles are merged one by one, without repetition |
| `DocumentBuilder.Builder.ApplyDeviceEdits` | crates/anp-identity/src/lifecycle.rs:885-1045 | the loop over device edits, including where it stops |
| `DocumentBuilder.BuildCandidate` | crates/anp-identity/src/lifecycle.rs:729-815 | the whole of building a candidate |
| `DocumentBuilder.RetireKeys` | crates/anp-identity/src/lifecycle.rs:511-519 | retiring the keys of a revision, one by one |
| `DocumentBuilder.IntoUpdateSpec` | crates/anp-identity/src/facade/document_change.rs:370-450 | a request is accepted if and only if it is not empty and rotates and replaces services at most once each; its edits are kept in order |
| `StoreRuntime.Runtime.SealAll` | crates/anp-identity/src/identity.rs:234-250 | secrets are sealed in order, as far as the process lives |
| `StoreRuntime.Runtime.DeleteSecrets` | crates/anp-identity/src/namespace.rs:152-154 | secrets are deleted in order, as far as the process lives |
| `StoreRuntime.Runtime.PersistRecord` | crates/anp-identity/src/lifecycle.rs:1150-1157 | the record is written with the next generation |
| `StoreRuntime.Runtime.PrepareUpdate` | crates/anp-identity/src/lifecycle.rs:388-448 | exactly the writes of preparing a revision |
| `StoreRuntime.Runtime.AbortUpdate` | crates/anp-identity/src/lifecycle.rs:605-623 | exactly the writes of dropping a revision |
| `StoreRuntime.Runtime.PersistStateTransition` | crates/anp-identity/src/adoption.rs:929-957 | exactly the writes of a state transition, which stops short for an identity the registry does not list |
| `StoreRuntime.Runtime.ImportRootKey` | crates/anp-identity/src/root_transfer.rs:481-535 | exactly the writes of a root import |
| `StoreRuntime.Runtime.FoundIdentity` | crates/anp-identity/src/identity.rs:224-295 | exactly the writes that bring an identity in |
| `StoreRuntime.Runtime.CreateIdentity` | crates/anp-identity/src/identity.rs:194-211 | creation refuses another registry generation, leftover journals and a DID that is taken, and nothing else |
| `StoreRuntime.Runtime.DeleteIdentity` | crates/anp-identity/src/namespace.rs:131-165 | exactly the writes that remove an identity |
| `StoreRuntime.Runtime.RecoverJournal` | crates/anp-identity/src/identity.rs:423-513 | one creation journal rolled forward or back, or given up |
| `StoreRuntime.Runtime.RecoverUpdate` | crates/anp-identity/src/lifecycle.rs:638-673 | one update journal rolled forward or back, or given up |
| `StoreRuntime.Runtime.RecoverStore` | crates/anp-identity/src/identity.rs:420-518 | the two loops of recovery make exactly the writes of its specification, as far as the process lives |
| `StoreRuntime.DiedOperationSettles` | crates/anp-identity/src/identity.rs:194-303 | an operation that died, then recovery: a consistent store from before or after it |
| `Handles.ProposeRevision` | crates/anp-identity/src/lifecycle.rs:325-456 | preparing computes the specified record |
| `Handles.CommitRevision` | crates/anp-identity/src/lifecycle.rs:481-552 | committing computes the specified record |
| `Handles.DidIdentity.PrepareUpdate` | crates/anp-identity/src/lifecycle.rs:325-456 | refused without a trace, or carried out with the handle replaced only if it went through |
| `Handles.DidIdentity.TransitionPublication` | crates/anp-identity/src/lifecycle.rs:458-479 | the same for publication moves |
| `Handles.DidIdentity.CommitPending` | crates/anp-identity/src/lifecycle.rs:481-552 | the same for commits |
| `Handles.DidIdentity.AbortUpdate` | crates/anp-identity/src/lifecycle.rs:554-625 | the same for aborts and authoritative rejections |
| `Optimism.WritesAdvance` | packages/dsh-anp-identity/src/authorization.ts:499-514 | every write of the ledger advances its generation |
| `Optimism.CommitIsAtomic` | packages/dsh-anp-identity/src/authorization.ts:520-549 | a snapshot transaction that commits is the atomic one, after expiry, on the ledger of that moment, with the same reply |
| `Optimism.OptimisticRefinesAtomic` | packages/dsh-anp-identity/src/authorization.ts:520-549 | under any interleaving of processes the ledger is that of the run in which every successful transaction happens at once at its commit point |
| `LedgerSafety.AtomicStepKeeps` | packages/dsh-anp-identity/src/authorization.ts:409-456 | every step keeps the invariant of the ledger, fences included |
| `LedgerSafety.InterleavingKeeps` | packages/dsh-anp-identity/src/authorization.ts:520-549 | so does every interleaving |
| `LedgerSafety.EveryLedgerIsSound` | packages/dsh-anp-identity/src/authorization.ts:520-549 | and so it holds of every ledger that grows from an empty one |
| `LedgerSafety.OnceAdmitsOnce` | packages/dsh-anp-identity/src/authorization.ts:350-367 | a once grant admits at most one execution, in any interleaving |
| `LedgerSafety.ExecutionIdsAreUnique` | packages/dsh-anp-identity/src/authorization.ts:353-355 | an execution id is admitted at most once |
| `LedgerSafety.OpenedLeaseAdmitsIff` | packages/dsh-anp-identity/src/authorization.ts:337-367 | after any interleaving, exactly when the lease an open grant yielded admits an operation |
| `LedgerSafety.AdmittedActiveIff` | packages/dsh-anp-identity/src/authorization.ts:369-397 | after any interleaving, exactly when an admitted execution is active under its lease: until a result, a revocation, a deletion, the expiry of the lease or a change of policy |
| `LedgerSafety.ResultStands` | packages/dsh-anp-identity/src/authorization.ts:369-397 | a recorded result never changes, and no assertion or second admission of its execution commits, even from an older snapshot |
| `LedgerSafety.RevokedForGood` | packages/dsh-anp-identity/src/authorization.ts:286-296 | once a revocation is in the ledger no open, admission or assertion on the grant commits, even from an older snapshot |
| `LedgerSafety.DeletedForGood` | packages/dsh-anp-identity/src/authorization.ts:436-456 | a deleted identity has no active grant and is never granted again |
| `LedgerSafety.FencedForGood` | packages/dsh-anp-identity/src/authorization.ts:409-433 | from its fence on, an identity being deleted has no active grant |
| `Refusals.RefusalStands` | packages/dsh-anp-identity/src/authorization.ts:149-169 | without a retry, no new request gets past a refusal it matches, whatever its wording, id or parameters |
| `AuthorizationEngine.Engine.RunTransaction` | packages/dsh-anp-identity/src/authorization.ts:499-514 | a transaction under the lock is the atomic one |
| `AuthorizationEngine.Engine.SnapshotTransaction` | packages/dsh-anp-identity/src/authorization.ts:520-549 | the retry loop, under any writes of others: its effect is expiry and their work, and on success the transaction itself at the end |
| `AuthorizationEngine.Engine.ReconcileFences` | packages/dsh-anp-identity/src/authorization.ts:436-448 | the two loops of reconciling deletions |
| `Tokens.AcceptedAgainIff` | crates/anp-identity/src/host/provider_authorization.rs:415-443 | after an acceptance and a run that does not accept it, a token is accepted if and only if it passes the checks and some call in between passed them at or after its expiry |
| `Tokens.SecondAcceptanceNeedsClockBack` | crates/anp-identity/src/host/provider_authorization.rs:415-443 | between any two acceptances of a token some call passed the checks at or after its expiry, which the second acceptance is still before |
| `Tokens.MarkerGoneIff` | crates/anp-identity/src/host/provider_authorization.rs:434-436 | over a run that does not accept the token its marker goes exactly when some call past the checks reads the clock at or after its expiry |
| `Tokens.AcceptedAtMostOnce` | crates/anp-identity/src/host/provider_authorization.rs:415-443 | with a clock that does not go back every token is accepted at most once over a whole run |
| `Tokens.ClockBackAcceptsTwice` | crates/anp-identity/src/host/provider_authorization.rs:435-443 | a run of a new provider, with tokens it issues, in which one is accepted twice |
| `Tokens.NothingAfterDisposal` | crates/anp-identity/src/host/provider_authorization.rs:188-204 | no token is accepted after its lease is disposed of |
| `Tokens.NothingAfterLeaseExpiry` | crates/anp-identity/src/host/provider_authorization.rs:423-433 | no token is accepted at or after the expiry of its lease, or for another consumer, store or capability |
| `Tokens.IssuedTokenIsAccepted` | crates/anp-identity/src/host/provider_authorization.rs:314-376 | an issued token does not outlive its lease and is accepted for its binding until it expires |
| `Provider.ProviderAuthorization.AcquireLease` | crates/anp-identity/src/host/provider_authorization.rs:266-301 | acquiring a lease, in place |
| `Provider.ProviderAuthorization.DisposeLease` | crates/anp-identity/src/host/provider_authorization.rs:188-204 | disposing of a lease, in place |
| `Provider.ProviderAuthorization.IssueOneTime` | crates/anp-identity/src/host/provider_authorization.rs:314-376 | issuing a token |
| `Provider.ProviderAuthorization.ConsumeForOperation` | crates/anp-identity/src/host/provider_authorization.rs:378-452 | consuming a token, in place: accepted exactly when specified |

## Left out

- Cryptography, JSON, base64, canonical key ids and the `anp` library: their verdicts are arguments, tags are unforgeable values.
- Files, permissions, fsync, locks and root-key providers: a write is atomic, and operations exclude each other.
- Legacy defaults when an identity is read, such as inferring a missing local authorization: runs start from new records.
- Key import with its older form of root transfer, migration, and the discarding form of deletion, which does not collect the secrets of a pending revision.
- Operations the source compiles only for its own test build: publishing without evidence, ending a retirement and erasing key material.
- Embedded relationship entries and relative service ids: relationship lists hold key ids, and service ids are absolute.
- Overflow of 64-bit generations and versions, which the source turns into a conflict: numbers are unbounded.
- StoreRuntime.Runtime.AbortUpdate: takes the identity's own record for granted, because the caller has just read it.
- Rejecting a publication is two steps of the model, a move back to prepared and an abort, because the source releases the lock between them.
- Transition sessions are not themselves part of the store's invariant: each step reads the stored journal again.
- Timestamps, messages, listings and notifications: only success, conflict or refusal and the stored state matter.
- Size limits of the ledger file and of tokens, and retries of file locks.
- Node bindings, the catalog, HTTP dispatch, user interfaces and release scripts.
