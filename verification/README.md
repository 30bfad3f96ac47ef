# SysEthic: verified model of recovery upload, approvals, archives and text formats

This project models the parts of SysEthic in which state outlives a single call, and proves what
holds of every run of them. `dafny verify dfyconfig.toml` verifies all of it.

* **Off-host upload** (`UploadIntent` … `UploadCode`). One sealed package, any number of `upload` and
  `reconcile` processes, one `flock`, a journal replaced atomically and a remote store that only
  grows. `UploadProtocol` is the transition system: process positions, in-memory journals, two disk
  images (what running processes see, and what would survive a power failure), the requests that
  were ever sent and the versions that have landed. A process or the whole host can stop between any
  two steps, and a sent request lands at any later time, with any bytes. `UploadInvariant` and
  `UploadPreservation` prove one invariant of all runs; `UploadSafety` reads the safety properties
  off it, and `UploadRecords` says field by field what names, journal, completion and receipt hold;
  `UploadRecovery`, `UploadBlocked` and `UploadRecoverable` say exactly when the package can
  still be completed. `UploadCode` is the same code as methods of a class that update one world in
  place; each method is proved to be a run of the transition system.
* **Approvals** (`Approvals` … `ApprovalShipped`). Request handlers that read a row outside a
  transaction, change the table inside one and execute afterwards on the row they read first, with a
  history per request. `ApprovalAnswers` says who is behind the rows of a run, and what a refusal means.
* **Sealed archives** (`Json`, `Archive` … `EndToEnd`). What `seal` writes, what `decrypt` and the
  independent verifier accept, what `retrieve` brings back, and the whole path from sealing through
  any upload run to the recovered files. `SealTerms` and `RecoveryTerms` write each operation's terms out,
  key by key and limit by limit, and prove that it is on exactly these that it accepts.
* **Playbooks** (`PyText` … `PlaybookVersions`). The step parser and its canonical printer on text,
  the digest and the version counter. `PlaybookReadings` says what a text means in terms of its lines
  alone, and `PlaybookUpdates` what an update takes from its request.
* **Ingestion** (`Ingestion`, and interleaved `IngestionRuns`), **WebSocket frames** (`Octets`, `WebSocket`)
  and **the PDF writer** (`Pdf`).

Assumptions are hypotheses of the theorems that need them, never axioms: hashes, codecs, encryption,
SQLite and the registry's validators are arbitrary functions, and a theorem that needs a
collision-free hash or a serialiser that reads back says so. Where the code is imperative the model is
a class or a loop proved against a function, and the theorems are about that function.

Where a promise of the design does not hold of the code as it is, the theorem gives the exact
condition under which it does:

* A crash between the durable `pending` mark and the request leaves the package blocked for good, although
  nothing was sent and the file is intact: `UploadRecoverable.RequestCanBeLost` gives the run for every
  package. `UploadRecoverable.RecoverableExactly` shows that from any reachable world such a lost request
  and a version that landed damaged are the only obstacles. Without a power failure a mark that is
  visible but not yet durable blocks as well (`UploadRecoverable.CalmlyRecoverableExactly`,
  `UploadRecoverable.MarkCanBeStranded`).
* The digest comparison at the end of `seal` does not see a source that was changed while it was
  archived and then changed back: `SealGap.ChangedSourceIsSealed` does so to any source of any accepted
  sealing, `SealGap.AcceptedButNotIntact` gives one input. `SealTheorems.SealedPackageRecovers` shows that
  `decrypt` refuses exactly those packages and those over its size limits.
* The independent verifier tests `configuration_included` for truth, `decrypt` compares it with a
  boolean. `ArchiveTheorems.WindowsImpliesDecrypt` gives the values on which they part,
  `VerifierGap.FalsyFlagGap` turns any accepted receipt into one on which they do, and
  `VerifierGap.Disagreement` gives a receipt and archive for an arbitrary hash.
* Canonical playbook text is not always read back as the same steps. `PlaybookPrintable.RoundTrip`
  gives the exact domain and `PlaybookCanonical.CanonicalTextFixed` the wider one on which at least the
  stored text stays; `PlaybookCanonical.QuotedTrueSettles` gives an accepted text between the two. On a
  playbook outside the first domain an update that changes nothing raises the version, or is refused
  (`PlaybookVersions.NoChangeKeepsVersion`).
* `docs/approval-contract.md:50` says that consuming an approval for a disabled action records
  authorization and does nothing. The code refuses to consume it (`web/saaoe_api.py:3646`):
  `ApprovalShipped.DisabledNeverConsumed`.
* Two ingestions of one anomaly at once can leave two incidents, and a run asked for twice at once is
  refused to the second (`IngestionRuns.IncidentCanDouble`, `IngestionRuns.RunCanBeRefused`);
  `IngestionRuns.HarmIffCollision` says when exactly.
* A line shown in a PDF is read back as it is unless it holds a carriage return (`Pdf.ShownLine`).

## Model

| member | source | states |
|---|---|---|
| UploadIntent.NamesDiffer | scripts/saaoe_offhost.py:365-368 | the ciphertext and the marker of one operation never share an object name |
| UploadPreservation.ReachableSound | scripts/saaoe_offhost.py:357-518 | every world of every run, with crashes and late landings at any point, satisfies the invariant tying journal, history of requests, lock and process states together |
| UploadPreservation.StepKeeps | scripts/saaoe_offhost.py:423-518 | each of the actions of uploaders, reconcilers and the environment keeps that invariant |
| UploadSafety.AtMostOneRequestPerName | scripts/saaoe_offhost.py:423-437 | over a whole run at most one upload request is ever issued per object and per remote name |
| UploadSafety.AtMostOneRemoteVersion | scripts/saaoe_offhost.py:481-489 | the remote store never holds two versions of a name, so the listing is never ambiguous |
| UploadSafety.IssuedShape | scripts/saaoe_offhost.py:454-472 | the history is at most one ciphertext request and then one marker request, under the names in the journal |
| UploadSafety.MarkerOnlyAfterCiphertext | scripts/saaoe_offhost.py:460-470 | no marker request leaves before the ciphertext has landed with the sealed digest and size |
| UploadSafety.ReceiptNamesSealedObjects | scripts/saaoe_offhost.py:440-472 | when a receipt exists, both objects are the sole versions of their names under the ids it gives, holding the sealed ciphertext and the serialised completion |
| UploadSafety.OwnJournalAccepted | scripts/saaoe_offhost.py:357-393 | any journal that can be on disk, visible or surviving a power failure, loads for its own destination and for no other |
| UploadSafety.RequestIsMarkedFirst | scripts/saaoe_offhost.py:423-437 | a request leaves only under a journal that durably says pending for its object, and no earlier request was for that object or under that name |
| UploadSafety.ReconcilerNeverSends | scripts/saaoe_offhost.py:475-518 | the history of requests only grows by a step of an uploader |
| UploadSafety.ReadyToResumeMeansNeverSent | scripts/saaoe_offhost.py:490-494 | `ready_to_resume` is answered only for an object no request was ever issued for |
| UploadSafety.MarkerFileIsStable | scripts/saaoe_offhost.py:466-470 | every marker file built after a marker request was sent holds exactly the bytes that were sent |
| UploadSafety.ReceiptIsUnique | scripts/saaoe_offhost.py:440-451 | all receipts and all reported receipt hashes of one package, at any times of one run, agree |
| UploadSafety.FinalReceiptDetermined | scripts/saaoe_offhost.py:440-442 | the receipt a settled journal publishes is fixed by the completion and the landed marker |
| UploadRecords.RequestsNamed | scripts/saaoe_offhost.py:360-368 | every request ever sent and every version that landed stands in the destination's bucket, the ciphertext under prefix, package id, operation id and `recovery.tar.gz.age`, the marker under the same directory and `complete.json`, with the operation id a digest of the nine bound fields |
| UploadRecords.JournalSays | scripts/saaoe_offhost.py:357-393 | every journal on disk, visible or surviving a power failure, has format 2, the nine bound fields, their digest as operation id and these two names |
| UploadRecords.LoadsPossibleJournals | scripts/saaoe_offhost.py:357-393 | a journal is loaded if and only if its fixed fields are those and its progress is possible: each object unsent, pending or recorded, the ciphertext first, a completion that matches; a binding mismatch is reported exactly for other fixed fields |
| UploadRecords.ReceiptSays | scripts/saaoe_offhost.py:400-472 | a receipt's completion holds the whole seal record, the operation's id, bucket and ciphertext name, and as `remote_verified_at` the time an earlier step gave it, when the ciphertext had landed with the sealed digest and size |
| UploadRecords.RecordedVersions | scripts/saaoe_offhost.py:430-505 | other than by loading a journal, a process comes to record a version id only as that of its own acknowledged request, or as one found under the object's name with the expected digests and size |
| UploadRecords.CheckedIsUploadable | scripts/saaoe_offhost.py:344-354 | `upload_package` accepts exactly a local file of the sealed digest and size, protocol 2 and a plain package id, and its errors say which is missing |
| UploadRecords.OnlyUploadablePackages | scripts/saaoe_offhost.py:344-354 | no journal, request or receipt ever appears for any other package |
| UploadRecords.UploadPublishesFirst | scripts/saaoe_offhost.py:454-458 | an uploader past its first check only ever publishes where no receipt was before |
| UploadRecovery.DriveAdvances | scripts/saaoe_offhost.py:454-518 | an undisturbed process with nothing lost takes steps that strictly lower a rank until it is done |
| UploadRecovery.UploadReachesReceipt | scripts/saaoe_offhost.py:454-472 | with nothing pending, one undisturbed upload publishes the receipt, without a power failure |
| UploadRecovery.ReconcileClearsTheWay | scripts/saaoe_offhost.py:475-518 | with everything sent landed verifiably, one undisturbed reconciliation publishes the receipt or leaves nothing pending |
| UploadRecovery.RecoveryReachesReceipt | scripts/saaoe_offhost.py:454-518 | from every reachable idle world in which sent requests have landed verifiably and none was lost, one reconciliation and at most one upload reach a receipt, without a power failure |
| UploadBlocked.LostRequestBlocksForEver | scripts/saaoe_offhost.py:490-493 | once the durable journal says pending, no request was issued and no lock holder is about to issue it, no run ever publishes a receipt or sends the object |
| UploadBlocked.StrandedBlocksCalmly | scripts/saaoe_offhost.py:490-493 | the same of the journal that processes see: as long as the power does not fail, a mark without a request blocks receipt and request |
| UploadRecoverable.CalmlyRecoverableExactly | scripts/saaoe_offhost.py:423-518 | from any reachable world some continuation without a power failure publishes a receipt if and only if every landed version passes verification and the visible journal has no pending object without a request that no lock holder is about to send |
| UploadRecoverable.MarkCanBeStranded | scripts/saaoe_offhost.py:297-320 | for every package a run, a kill between the replace and the directory sync of the mark, after which only a continuation in which the power fails publishes a receipt |
| UploadRecoverable.RecoverableExactly | scripts/saaoe_offhost.py:423-518 | from any reachable world, whoever holds the lock, some continuation publishes a receipt if and only if every landed version passes verification and no request was lost |
| UploadRecoverable.RequestCanBeLost | scripts/saaoe_offhost.py:428-431 | for every package a run, a kill between the durable mark and the request, after which no continuation publishes a receipt |
| UploadCode.Machine.constructor | scripts/saaoe_offhost.py:344-354 | a package starts with no journal, no receipt and nothing sent |
| UploadCode.Machine.LoadJournal | scripts/saaoe_offhost.py:357-393 | `upload_intent`: creates the journal, loads it or raises, as a run of the system |
| UploadCode.Machine.SaveUploadIntent | scripts/saaoe_offhost.py:297-320 | returns only once exactly the process's journal is what the disk shows and what survives a power failure |
| UploadCode.Machine.SendObjectOnce | scripts/saaoe_offhost.py:423-437 | `send_once`: fails when the journal says pending; on success the durable journal acknowledges the object under the id of the version its own request produced |
| UploadCode.Machine.VerifyRemoteFile | scripts/saaoe_offhost.py:406-420 | `verify_remote_file`: on success a landed version with the recorded id and name has the expected digest and size |
| UploadCode.Machine.PublishUploadReceipt | scripts/saaoe_offhost.py:440-451 | `publish_upload_receipt`: the answered hash is that of the durable receipt |
| UploadCode.Machine.ReconcileFile | scripts/saaoe_offhost.py:481-505 | `reconcile_file`: adopts the one landed version, answers never-sent, or fails |
| UploadCode.Machine.Upload | scripts/saaoe_offhost.py:454-472 | `upload` as code is a run of the system and reports the hash of the durable receipt, whose completion names the sealed record, the operation and the ciphertext's own object |
| UploadCode.Machine.ReconcileUpload | scripts/saaoe_offhost.py:475-518 | `reconcile_upload` as code is a run of the system and answers the hash of such a receipt, or an object that was never sent |
| ApprovalPreservation.RunKeeps | web/saaoe_api.py:5221-5344 | every interleaving of submitting, deciding and executing handlers, with aborts, restarts and registry changes, keeps each row in step with its history |
| ApprovalSafety.ExecutedAtMostOnce | web/saaoe_api.py:5304-5338 | each approval reaches the executor at most once, and an execution time is only ever found on a consumed approval |
| ApprovalSafety.ExecutionWasAuthorized | web/saaoe_api.py:3611-3679 | every execution had an approver and a consumer other than the requester, of sufficient rank at an enabled and supported moment, and carried out exactly the digested action, target and dry-run flag |
| ApprovalSafety.ConsumedBeforeExpiry | web/saaoe_api.py:3629-3632 | the recorded consumption time never exceeds the expiry |
| ApprovalSafety.AuthorizedIffConsumable | web/saaoe_api.py:3593-3698 | authorization succeeds exactly on a consumable approval of the organization, changes that row and no other, and any other refusal than an expiry changes nothing |
| ApprovalSafety.StepMovesStatus | web/saaoe_api.py:5255-5292 | no step removes a row, alters its request columns or digests, or moves its status other than pending to approved, rejected, cancelled or expired, or approved to consumed or expired |
| ApprovalSafety.RequestNeverChanges | web/saaoe_api.py:5255-5344 | over any stretch of a run the request stays as inserted and a terminal status is absorbing |
| ApprovalSafety.BackfillChangesNothing | web/saaoe_api.py:769-796 | restarting any number of times fills in nothing on rows the service inserted |
| ApprovalSafety.RacingExecutorsOneWins | web/saaoe_api.py:3669-3682 | of two handlers racing to consume one approval, at most one goes on to execute |
| ApprovalAnswers.RolesRanked | web/saaoe_api.py:3946-3981 | which roles pass for viewer, analyst, admin and system |
| ApprovalAnswers.RequestWasAllowed | web/saaoe_api.py:5140-5200 | every row of any run still says, column by column, what a user asked for who was allowed to in an earlier world |
| ApprovalAnswers.DecidableUntilExpiry | web/saaoe_api.py:3582-3590 | a new request is decidable up to the moment its lifetime ends and marked expired after it |
| ApprovalAnswers.DecisionWasAllowed | web/saaoe_api.py:5233-5292 | in any run, every row that is neither pending nor expired was decided once, with the decider's name, role, reason and time: rejected or approved by someone of its organization and of the rank its action required, not approved by the requester, cancelled by the requester or an admin |
| ApprovalAnswers.PrecheckIsTrue | web/saaoe_api.py:5233-5253 | the checks before a decision let exactly the right users through, and a refusal names a condition that fails |
| ApprovalAnswers.RefusalIsTrue | web/saaoe_api.py:3593-3679 | a refused authorization names a condition that does fail |
| ApprovalAnswers.BackfillFillsIn | web/saaoe_api.py:769-796 | what a restart fills in on an incomplete row, and that it keeps all else |
| ApprovalShipped.ShippedRules | web/saaoe_api.py:232-298 | under the shipped registry, who may request, approve and execute each action, and where |
| ApprovalShipped.DisabledNeverConsumed | web/saaoe_api.py:3646-3648 | as long as an action stays disabled, whatever else changes in the registry, no approval of it is consumed and none is executed |
| ApprovalShipped.ConsumptionWasChecked | web/saaoe_api.py:3636-3679 | every consumption of a request was checked against the entry of its own action, and the platform, of one earlier world |
| ApprovalShipped.ExecutionUnder | web/saaoe_api.py:3611-3679 | in any run, however the registry changes, every execution was consumed in an earlier world whose registry held the very action it carried out, enabled, on a supported platform and for these roles |
| ApprovalShipped.ShippedServiceStarts | web/saaoe_api.py:232-298 | the registry the service ships with names known roles throughout, so runs that start with it are runs of the model |
| ApprovalShipped.ShippedExecutions | web/saaoe_api.py:232-298 | under the shipped registry only service restarts and incident reports are ever executed, a restart only with an admin's approval and on Linux |
| ApprovalTable.Store.UpdateWhereStatus | web/saaoe_api.py:3669-3679 | the compare-and-set update and its row count |
| ApprovalTable.Store.ExpireRow | web/saaoe_api.py:1704-1714 | `_mark_approval_expired`: the row it expires and what it leaves alone |
| ApprovalTable.Store.Decide | web/saaoe_api.py:5255-5292 | a decision is taken exactly on a pending, unexpired row of the organization and stores approved, rejected or cancelled by the command, with the caller's name, role, reason and time; other rows keep their values |
| ApprovalTable.Store.AuthorizeApprovedAction | web/saaoe_api.py:3593-3698 | `authorizeApprovedAction` succeeds if and only if the approval is consumable, with the whole new table |
| ApprovalTable.Store.ExecuteCommand | web/saaoe_api.py:5304-5320 | undisturbed, the execute command runs the stored action once, exactly when the approval was consumable |
| Archive.Extract | scripts/saaoe_offhost.py:597-611 | the extraction loop accepts exactly archives of distinct, whitelisted, regular members within the size limit that hold the five fixed ones, and yields their files |
| ArchiveChecks.ValidateArchive | scripts/saaoe_recovery.py:78-93 | `validate_archive` accepts exactly archives whose members are those recorded, allowed, regular and of the recorded digests |
| ArchiveChecks.VerifyBundle | scripts/saaoe_recovery.py:137-163 | `verify` accepts exactly bundles whose manifest lists both artifacts with their digests, a valid release archive and the database's schema |
| Release.ReleaseArchive | scripts/saaoe_recovery.py:46-75 | `release_archive` takes exactly the allowed entries, in order and unchanged, records their digests, and succeeds exactly when all are plain files, the required ones are there and a version is found |
| Release.VersionIsLast | scripts/saaoe_recovery.py:63-66 | the version is the one declared last in the file that declares it, and none is found exactly when none is declared |
| Release.BuiltArchiveValidates | scripts/saaoe_recovery.py:46-93 | the archive file `release_archive` writes, read back, passes `validate_archive` against the digests recorded for it if and only if no path was taken twice, as no tree lists one twice |
| Release.ShippedReleaseBuilds | scripts/saaoe_recovery.py:46-75 | under the shipped list of paths a commit is releasable exactly when it lists the required files, holds no link among allowed paths and declares a version |
| ArchiveTheorems.ValidReleaseIsExact | scripts/saaoe_recovery.py:78-93 | counting members and comparing name sets is enough: a valid release holds every recorded file exactly once |
| ArchiveTheorems.WindowsBundleImpliesBundle | scripts/saaoe_windows_verify.py:54-68 | the independent verifier's bundle comparison implies the one `decrypt` relies on |
| ArchiveTheorems.WindowsImpliesDecrypt | scripts/saaoe_windows_verify.py:18-81 | what the independent verifier accepts passes every content test of `decrypt`, exactly when the receipt's flag is a boolean or a number |
| VerifierGap.FalsyFlagGap | scripts/saaoe_windows_verify.py:24-25 | whatever the codecs: an accepted receipt with its flag replaced by any falsy value stays accepted by the independent verifier, and by `decrypt` exactly if the value is a boolean or a number |
| VerifierGap.Disagreement | scripts/saaoe_windows_verify.py:24-25 | a receipt with null for the flag and its archive, for any hash with the pinned manifest digest: one verifier accepts, the other refuses |
| ArchiveTheorems.SameReceiptSameRecovery | scripts/saaoe_offhost.py:558-646 | under a collision-free hash two recoveries accepted against one receipt hash are identical in receipt, ciphertext and files |
| ArchiveTheorems.RecordPinsBundle | scripts/saaoe_offhost.py:618-632 | a record accepts only one manifest, database and release |
| ArchiveTheorems.VerifiersAgreeOnBundle | scripts/saaoe_windows_verify.py:18-81 | both verifiers, given one receipt hash, accept only the same bundle, whatever the archives |
| Decryption.CheckInventory | scripts/saaoe_offhost.py:612-617 | the inventory loop accepts exactly when it lists the other files with their digests |
| Decryption.CheckEvidence | scripts/saaoe_offhost.py:622-626 | the evidence loop accepts exactly when every evidence file names the record's commit and bundle |
| Decryption.Trust | scripts/saaoe_offhost.py:558-569 | the checks before the staging directory is made accept exactly a trusted receipt, another host and the named ciphertext |
| Decryption.OpenArchive | scripts/saaoe_offhost.py:597-632 | extraction and content checks accept exactly the acceptable archives and yield their files |
| Decryption.VerifyPairing | scripts/saaoe_windows_verify.py:64-74 | the independent verifier's check of manifest, artifacts, release archive and schema, step by step |
| Decryption.Output.Decrypt | scripts/saaoe_offhost.py:558-646 | `decrypt` step by step: the archived files and a note appear under the package's id exactly when receipt, host, ciphertext, archive, contents and destination are acceptable; otherwise nothing changes, and no staging directory or plaintext is left |
| Decryption.VerifyArchive | scripts/saaoe_windows_verify.py:18-81 | `verify_archive` accepts exactly what its predicate says and yields the archived files |
| Seal.CollectConfiguration | scripts/saaoe_offhost.py:95-98 | secret files are numbered from zero and public ones after them |
| Seal.CollectEvidence | scripts/saaoe_offhost.py:99-104 | evidence is numbered only if every file is paired with the bundle |
| Seal.Seal | scripts/saaoe_offhost.py:75-157 | `seal` accepts exactly the sealable requests and stores the archive of exactly the collected files with its record |
| SealTheorems.SealedNamesDistinct | scripts/saaoe_offhost.py:90-104 | generated member names are pairwise distinct, whitelisted and none is the inventory's |
| SealTheorems.SealedExtractable | scripts/saaoe_offhost.py:127-138 | nothing but the expanded size can stop the extraction of a sealed archive |
| SealTheorems.InventoryIffIntact | scripts/saaoe_offhost.py:105-137 | the inventory vouches for the archived files exactly when no source had changed when it was archived |
| SealTheorems.SealedPackageRecovers | scripts/saaoe_offhost.py:75-166 | sealing then decrypting elsewhere recovers exactly the sealed files if and only if the sources stayed intact and the archive fits the limits |
| SealTheorems.SmallInventoryFits | scripts/saaoe_offhost.py:106-107 | with intact sources an inventory of up to 1 MiB leaves only the compressed size to fit |
| SealTerms.ArchiveSays | scripts/saaoe_offhost.py:89-127 | the archive written: the four bundle files, secret then public configuration files numbered in four digits, evidence files likewise, and an inventory whose digests are those of these files and whose n-th configuration source is the path of `configuration/n` |
| SealTerms.RecordIs | scripts/saaoe_offhost.py:144-152 | `seal.json` field by field |
| SealTerms.SealsExactly | scripts/saaoe_offhost.py:75-143 | `seal` accepts a request if and only if the manifest is the anchored one of a valid bundle with a release commit, counts and sizes are within the limits, every evidence file is about this bundle, and no source's digest has changed at the end |
| RecoveryTerms.BundleExactly | scripts/saaoe_recovery.py:137-163 | what a valid bundle is, key by key |
| RecoveryTerms.RecoversExactly | scripts/saaoe_offhost.py:558-646 | `decrypt` recovers these files if and only if the receipt is anchored, names another host and this ciphertext, the plaintext is within the limit, the archive's members are plain, distinct, allowed and complete, the inventory fits, the record's counts and digests agree and the bundle is valid |
| RecoveryTerms.WindowsAcceptsExactly | scripts/saaoe_windows_verify.py:18-91 | the same of the independent verifier, on its own terms |
| RecoveryTerms.RetrievesExactly | scripts/saaoe_offhost.py:521-546 | `retrieve` makes a package if and only if the receipt is anchored, lies in the bucket below the prefix, names a free plain package id, and both objects are served within the limit with the receipt's digests, the marker saying what the receipt says |
| SealGap.ChangedSourceIsSealed | scripts/saaoe_offhost.py:122-143 | in any accepted sealing any source can be changed before it is archived and changed back: `seal` still accepts, the archive is not intact |
| SealGap.ChangedSourceIsRefused | scripts/saaoe_offhost.py:612-617 | `decrypt` refuses every such package |
| SealGap.AcceptedButNotIntact | scripts/saaoe_offhost.py:122-143 | one such request and its surroundings, for an arbitrary hash |
| Retrieval.Download | scripts/saaoe_offhost.py:244-250 | a chunked download yields the served bytes exactly when they are within the size limit |
| Retrieval.Output.Retrieve | scripts/saaoe_offhost.py:521-555 | `retrieve` step by step: a whole package appears under its id exactly when receipt, destination, marker, ciphertext and directory agree: `recovery.tar.gz.age` and `complete.json` with the receipt's digests and `receipt.json` written anew; otherwise nothing changes and no staging directory is left |
| Retrieval.PackageHolds | scripts/saaoe_offhost.py:527-543 | any accepted package has exactly these three files, each content with the digest, and the ciphertext with the size, that the receipt gives for it |
| Retrieval.ReceiptKeys | scripts/saaoe_offhost.py:144-152 | `receipt.json` has exactly the keys of the seal record, of the completion and of the marker |
| Retrieval.ReceiptGets | scripts/saaoe_offhost.py:400-451 | bucket, object name, file ids and completion digest stand in `receipt.json` under the names `retrieve` looks for |
| Retrieval.ReceiptValues | scripts/saaoe_offhost.py:144-152 | the remaining values of `receipt.json`, under their keys |
| Retrieval.RewriteKeepsAnchor | scripts/saaoe_offhost.py:542-542 | the rewritten receipt is accepted under the same hash exactly when it is the same file, as published ones are |
| Retrieval.PublishedReceiptRetrieves | scripts/saaoe_offhost.py:521-546 | a published receipt whose objects are served as it says retrieves exactly for its bucket, below a prefix of its name and where its package id is free |
| EndToEnd.SealedPackageUploads | scripts/saaoe_offhost.py:75-472 | every package `seal` accepted passes the checks of `upload`, and some run publishes its receipt |
| EndToEnd.PublishedReceiptRedeems | scripts/saaoe_offhost.py:440-555 | in every run, once a receipt exists, retrieving under its hash succeeds exactly where the package id is free, and every package retrieved for it holds the sealed ciphertext, the completion marker and the receipt byte for byte, each under its own name |
| EndToEnd.RetrievedPackageRecovers | scripts/saaoe_offhost.py:521-646 | the receipt in that package anchors the ciphertext beside it: decrypting these two files recovers exactly the sealed files if and only if sources stayed intact and the archive fits |
| EndToEnd.PublishedReceiptRecovers | scripts/saaoe_offhost.py:75-646 | in every run, decrypting what the receipt names recovers exactly the sealed files if and only if sources stayed intact and the archive fits |
| PyText.CleanOfTrim | web/saaoe_api.py:897-907 | stripping a text before splitting it loses only empty lines and outer space of lines |
| PyText.CleanOfJoin | web/saaoe_api.py:977-977 | lines that were written out are read back |
| PyText.SortedElements | web/saaoe_api.py:975-975 | sorting keys keeps each key exactly once |
| PyText.SortedIsOnly | web/saaoe_api.py:975-975 | the sorted keys are the only strictly ascending listing of them, by code point |
| Scalars.ScalarRoundTrip | web/saaoe_api.py:872-893 | a value printed and read again is itself exactly when it is a boolean, an integer that is not too long, a float without an exponent, or plain unquoted trimmed text |
| Scalars.ParsedScalar | web/saaoe_api.py:880-893 | what is read from one line prints on one line |
| PlaybookText.ParseSteps | web/saaoe_api.py:896-942 | the parser's loop with its three variables computes the specified result, errors included |
| PlaybookText.ShippedIsPython | web/saaoe_api.py:318-324 | the word lists the service ships with meet what the theorems on the parser ask of them |
| PlaybookText.PrintSteps | web/saaoe_api.py:971-977 | the printer's loops compute the canonical text |
| PlaybookRoundTrip.FoldSteps | web/saaoe_api.py:907-934 | what the parser makes of printed lines, when no key opens a step of its own |
| PlaybookReadings.ValueReads | web/saaoe_api.py:880-893 | what any value means: the boolean words and three words for nothing in any case, up to 4300 digits with an optional sign as their number, such digits around a point, and else the text without quotes at its ends |
| PlaybookReadings.LinesExactly | web/saaoe_api.py:906-906 | the lines of a text are what stands between the ten characters it is cut at, and nothing else is lost |
| PlaybookReadings.TextReads | web/saaoe_api.py:896-942 | under the shipped word lists, for every text: which error, for the first faulty line where a line is at fault, or the steps on its lines, each holding the last value of each key between its opening and the next |
| PlaybookReadings.OneReading | web/saaoe_api.py:903-935 | the lines of a text mean one list of steps only, so `TextReads` decides what is parsed |
| PlaybookReadings.CanonicalSays | web/saaoe_api.py:971-977 | the stored text: a heading, and for each step its action and then its other fields in strictly ascending order of keys, each with its printed value |
| PlaybookPrintable.AcceptedCount | web/saaoe_api.py:919-934 | whatever is accepted of printed lines has one step per line that opens one |
| PlaybookPrintable.ParsedIsWellFormed | web/saaoe_api.py:896-942 | every accepted text yields at least one step, each with an allowed action, trimmed keys without colons and values of one line |
| PlaybookPrintable.RoundTripAnyOrder | web/saaoe_api.py:971-977 | printing then parsing gives the steps back if and only if they are printable, in whatever order keys are printed |
| PlaybookPrintable.RoundTrip | web/saaoe_api.py:896-977 | the same for the canonical text with sorted keys |
| PlaybookPrintable.CanonicalFormStable | web/saaoe_api.py:1039-1040 | for every accepted text, the stored canonical text is read back as the same steps if and only if they are printable |
| PlaybookPrintable.QuotedTrueDrifts | web/saaoe_api.py:893-893 | for any action, a flag read from a quoted boolean word does not survive the round trip |
| PlaybookCanonical.TextRoundTrip | web/saaoe_api.py:872-893 | reading a text as a value and printing it gives the text back exactly when it is kept: trimmed, a lower-case boolean, a number as it is printed, or plain unquoted text |
| PlaybookCanonical.CanonicalTextFixed | web/saaoe_api.py:896-977 | for every accepted text, the stored canonical text is accepted again and stored unchanged if and only if it is not forbidden, no key opens a step or is lost, and every value's text is kept |
| PlaybookCanonical.QuotedTrueSettles | web/saaoe_api.py:880-893 | under the shipped word lists, an accepted text with a quoted true: its steps mean a text, after one storing a boolean, and the stored text stays |
| PlaybookVersions.VersionIdentifiesDigest | web/saaoe_api.py:1065-1071 | along any history of updates versions never fall, and two revisions with one version have one digest |
| PlaybookVersions.VersionIdentifiesModel | web/saaoe_api.py:980-1006 | under a collision-free digest, revisions with one version said the same |
| PlaybookVersions.TriggerRoundTrip | web/saaoe_api.py:837-869 | an accepted trigger is read back as itself |
| PlaybookVersions.WordsStable | web/saaoe_api.py:961-968 | accepted vocabulary words are accepted again, and the approval floor is applied only once |
| PlaybookVersions.NoChangeKeepsVersion | web/saaoe_api.py:1009-1072 | an update that changes nothing keeps digest and version if and only if the revision was digested under its stored key, has a name and printable steps; then the whole row is unchanged |
| PlaybookUpdates.UpdatesExactly | web/saaoe_api.py:1009-1045 | an update is taken exactly when key, words, trigger and steps text are acceptable, and a refusal names one that is not |
| PlaybookUpdates.UpdateSays | web/saaoe_api.py:1009-1072 | every field of an accepted update: a given one is taken, another stays, the steps are the canonical text of what the parser makes of the given text, and the digest is that of exactly these fields |
| PlaybookUpdates.StepsAreTaken | web/saaoe_api.py:1038-1071 | new steps for a resting playbook are refused exactly if the parser refuses them; else their canonical text is stored, with another digest and the next version exactly if the steps differ, and all else as before |
| PlaybookUpdates.UpdateTakesWhatIsGiven | web/saaoe_api.py:1009-1072 | an update of a resting playbook takes the fields, trigger and steps it is given, the role up to the action's floor, and changes nothing else; under a collision-free digest other steps show in digest and version |
| PlaybookVersions.ApprovalFloorHolds | web/saaoe_api.py:961-968 | no stored revision asks for a lower approval role than the registry requires of its action |
| PlaybookVersions.ToggleTwice | web/saaoe_api.py:5465-5470 | after any update that settles, toggling changes the digest and raises the version by one, and toggling again restores everything else |
| PlaybookVersions.Playbook.NormalizeTrigger | web/saaoe_api.py:837-869 | `_parse_trigger` step by step computes the specified trigger or its error |
| PlaybookVersions.Playbook.Normalize | web/saaoe_api.py:1009-1045 | every field normalised in turn, with the parser's and the printer's loops: the revision that `PlaybookUpdates.UpdateSays` describes, or the first failure |
| PlaybookVersions.Playbook.Apply | web/saaoe_api.py:5393-5413 | normalising, deciding the version by the digest and writing the columns updates the stored row to the revision that `PlaybookUpdates.UpdateSays` describes; a refused request changes nothing |
| WebSocket.ReceivedBytes | web/saaoe_api.py:3859-3884 | on the raw stream: a message is received if and only if the frame is complete and no close frame, its length is the seven-bit code, `256 * b0 + b1` or the sum over eight bytes, and its byte i is the stream's byte behind the mask XOR mask byte i modulo 4 |
| WebSocket.SentBytes | web/saaoe_api.py:3838-3846 | the bytes of a sent frame: 0x81, the length in one byte, behind 126 in two or behind 127 in eight, most significant first, then the payload |
| WebSocket.RecvExact | web/saaoe_api.py:3849-3856 | however the stream is cut into chunks, exactly the next bytes are returned, or nothing at its end |
| WebSocket.Unmask | web/saaoe_api.py:3881-3883 | the in-place loop unmasks every byte, as `ReceivedBytes` says on the raw stream |
| WebSocket.WsRecv | web/saaoe_api.py:3859-3883 | on every chunking the result and what is left unread are those that `ReceivedBytes` describes |
| WebSocket.WsSend | web/saaoe_api.py:3838-3846 | exactly one frame is appended to what was written |
| WebSocket.ClientFrameDecodes | web/saaoe_api.py:3859-3884 | a masked frame of any payload below 2^64 bytes is decoded to exactly that payload, and exactly that frame is consumed |
| WebSocket.PrefixYieldsNothing | web/saaoe_api.py:3861-3880 | every strict prefix of a frame followed by the end of the stream yields nothing |
| WebSocket.StreamDecodes | web/saaoe_api.py:3859-3884 | any sequence of messages on one stream is received message by message, in order |
| WebSocket.LengthIsMinimal | web/saaoe_api.py:3840-3845 | no legal header states the same length in fewer bytes |
| WebSocket.ServerFrameDecodes | web/saaoe_api.py:3838-3846 | a sent frame is read back whole by a peer that follows RFC 6455 section 5.2 |
| Ingestion.NoDuplicates | web/saaoe_api.py:2471-2543 | after any sequence of calls an anomaly has at most one run per playbook and one incident per organization |
| Ingestion.SeenMattersOnlyWithoutId | web/saaoe_api.py:2475-2484 | what is missing from `seen` matters to a call exactly for an anomaly without an id |
| Ingestion.TruncationIsInvisible | web/saaoe_api.py:2605-2617 | ingesting any anomaly with only the latest runs in view is ingesting it with all of them |
| Ingestion.SeenMattersToBatch | web/saaoe_api.py:5356-5360 | a batch leads to the same table from two sound contents of `seen` if and only if they agree on every playbook that an anomaly without an id sets off |
| Ingestion.BatchTruncationIsInvisible | web/saaoe_api.py:5356-5360 | for a batch that shares one `seen`, any two numbers of runs in view lead to the same table if and only if both show, or both miss, a run without an anomaly of every playbook that some anomaly without an id sets off; always if every anomaly has an id |
| Ingestion.IngestRecordsExactly | web/saaoe_api.py:2546-2626 | ingesting any anomaly keeps every run and incident, adds only runs, with their status, of enabled, visible playbooks whose comparison holds, leaves none of those without a run, and leaves its incident under its id, a digest of timestamp, metric, value and category if it had none |
| Ingestion.TriggeredExactly | web/saaoe_api.py:2546-2568 | which playbooks an anomaly sets off: enabled, visible, of its metric, of its category or none, and with a comparison that holds, each operator spelled out |
| Ingestion.ReingestAddsNothing | web/saaoe_api.py:2605-2626 | ingesting an anomaly again, with or without an id of its own, or another one with the same id, metric, category and value, adds no incident and no run |
| Ingestion.Workspace.RecordRun | web/saaoe_api.py:2471-2543 | `_record_playbook_run`: the new table, the grown `seen` and the run made |
| Ingestion.Workspace.CreateIncident | web/saaoe_api.py:2582-2602 | `create_incident_from_anomaly`: the anomaly first gets its deterministic id, then its incident, once per organization |
| Ingestion.Workspace.IngestAnomaly | web/saaoe_api.py:2605-2626 | `ingest_anomaly_workflow`: both tables, and the runs made are those added |
| Ingestion.Workspace.ApplyPlaybooks | web/saaoe_api.py:5356-5360 | `apply_playbooks`: the table after the whole batch |
| IngestionRuns.RunsStayUnique | web/saaoe_api.py:809-809 | however the look-ups and insertions of concurrent ingestions interleave, an anomaly never has two runs of one playbook |
| IngestionRuns.FinishedMeansRecorded | web/saaoe_api.py:2605-2626 | an ingestion that returns, whatever ran beside it, leaves its incident and a run of every visible, enabled playbook that the list it read sets off |
| IngestionRuns.WithoutCollisionClean | web/saaoe_api.py:2471-2602 | as long as no two workers have both looked for the same incident or run, found none and not inserted yet, no incident is doubled and no worker is refused |
| IngestionRuns.HarmIffCollision | web/saaoe_api.py:2587-2598 | in a world so far clean, the next queries of two workers double an incident or end in a refusal exactly when the two are about to insert the same thing |
| IngestionRuns.IncidentCanDouble | web/saaoe_api.py:2587-2598 | for any anomaly without an incident and any tables, a run of two ingestions that leaves two incidents of one anomaly in one organization |
| IngestionRuns.RunCanBeRefused | web/saaoe_api.py:2477-2518 | for any missing run, two requests of which the second is refused by the index, and the one run is made |
| IngestionRuns.AloneIngests | web/saaoe_api.py:2605-2626 | an ingestion that nothing interrupts does exactly what the sequential call does |
| Pdf.PassesAreOne | web/saaoe_api.py:3250-3250 | the three replacements escape each character once: none touches what another added |
| Pdf.ShownLine | web/saaoe_api.py:3250-3251 | a reader of literal strings with all escapes of ISO 32000-1 reads an escaped line as the line up to its end-of-line markers, and as itself if and only if it has no carriage return |
| Pdf.ContentShowsLines | web/saaoe_api.py:3251-3251 | a reader of the content stream finds exactly the lines, in order |
| Pdf.StreamLengthExact | web/saaoe_api.py:3257-3257 | the stream of object five holds exactly as many bytes as its stated length |
| Pdf.StreamStandsInFile | web/saaoe_api.py:3257-3263 | in the written file those bytes stand behind object five's recorded offset and heading, followed by the end marker |
| Pdf.ObjectStandsAtOffset | web/saaoe_api.py:3259-3263 | each object starts at the byte its recorded offset says |
| Pdf.TableStandsAtOffset | web/saaoe_api.py:3264-3267 | the cross-reference table starts at its recorded byte |
| Pdf.EndNamesTable | web/saaoe_api.py:3267-3267 | the file ends by naming that byte in decimal |
| Pdf.EntryWidth | web/saaoe_api.py:3266-3266 | an entry has twenty bytes if and only if its offset has at most ten digits, and then starts with that offset |
| Pdf.EntryStandsInTable | web/saaoe_api.py:3261-3266 | with offsets of at most ten digits, entry n stands twenty bytes per entry into the table and names in decimal the byte where object n stands |
| Pdf.FileSays | web/saaoe_api.py:3249-3268 | the whole file for any lines: header, the five objects with the stream's length in bytes, the table with the byte of each object in ten digits or more, and the trailer with the byte of the table |
| Pdf.PdfBytes | web/saaoe_api.py:3249-3268 | the writer's loops produce exactly the specified document |

## Left out

- Network and operating-system plumbing: B2 requests and URL tests, the `age` subprocess and its header line, file ownership, modes and symbolic links, `fsync` internals. A returned durable write survives, an interrupted one is old or new.
- The native age recipient pattern that `seal` asks for first, and that its output directory is private and separate.
- Hashes, encryption, SQLite inspection, tar and JSON codecs are arbitrary functions; theorems name what they need of them.
- Malformed journal text: a journal on disk is one the protocol wrote, and `UploadSafety.OwnJournalAccepted` is about those. `seal.json` is immutable; the local ciphertext may change at any time.
- Foreign writers and deletions under the operation prefix, and the fields of remote metadata beyond bucket, name, id and content.
- `BundleValid` takes the presence of `verification.json` from the extraction; file permissions are not modelled.
- In `seal`, the sources are taken as unchanging from the conditions looked at first to the first digest; from there on they may change.
- Seal.Seal: the age header of the ciphertext is not looked at, because encryption is an arbitrary function.
- Preview detail texts, audit and incident events, and the `result` and `updated_at` columns of approvals; the incident lookup of a new request.
- The validators and executors of registry entries; `Approvals.ShippedRegistry` gives the other fields.
- Legacy repair in `init_db` other than filling in approval columns, and creating a playbook.
- Floats, a trigger's threshold among them, are known by the text Python prints; ingestion compares thresholds as real numbers. Letters and digits outside ASCII by arbitrary functions; which character sequences count as words is one of them.
- The lines of a text treat a carriage return with a line feed as two breaks; the parser skips the empty line this adds.
- A trigger that is no object and then falls back on the legacy fields; columns a digest does not cover (metric, operator, threshold, target, auto).
- PlaybookVersions.Playbook.Apply: updates of one row in sequence; unsynchronised concurrent edits are not modelled.
- WebSocket.WsRecv: UTF-8 decoding of the payload with replacement characters is not modelled, and like the code it does not look at the mask bit, the final bit or reserved bits.
- The anomalies table itself, of which only the id given to an anomaly before anything else is modelled; an explicit null id, which no caller passes to ingestion.
- Batches of `apply_playbooks`, which no request calls, in step with other workers.
- Notification queues, the in-memory copy of the runs, and the run columns copied from a playbook.
- Choosing the recommended playbook of an incident, and answering a manual trigger of a run outside the latest 1000.
- Pdf.PdfBytes: characters are encoded by an arbitrary function that gives ASCII one byte.
- Backups, snapshots and restore runs; parsing a version out of source text, which is an arbitrary function.
- Release.ReleaseArchive: a version that is assigned again as something other than text keeps the earlier one.
- Terminal commands, templates, telemetry, statistics and the command-line tools.
