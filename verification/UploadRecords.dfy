/** What an upload writes, field by field: object names, journal, completion and receipt. */
module UploadRecords {
  import opened Wrappers
  import opened UploadIntent
  import opened UploadProtocol
  import opened UploadInvariant
  import opened UploadPreservation

  /** The nine fields an operation is bound to. */
  predicate Binds(su: Setup, d: Destination, b: Binding) {
    b.bucketId == d.bucket && b.prefix == d.prefix && b.packageId == su.record.packageId
    && b.sealSha256 == su.sealSha256 && b.sourceMachineId == su.record.sourceMachineId
    && b.manifestSha256 == su.record.manifestSha256 && b.snapshotSha256 == su.record.snapshotSha256
    && b.ciphertextSha256 == su.record.ciphertextSha256 && b.ciphertextBytes == su.record.ciphertextBytes
  }

  /** The ciphertext and the marker below the operation's own directory. */
  predicate Named(su: Setup, d: Destination, b: Binding, k: Kind, name: string) {
    name == d.prefix + su.record.packageId + "/" + su.prims.operationId(b) + "/"
            + if k == Ciphertext then "recovery.tar.gz.age" else "complete.json"
  }

  // Names.

  lemma FreshNames(su: Setup, d: Destination)
    ensures var f := FreshIntent(su, d);
            Binds(su, d, f.binding) && f.operationId == su.prims.operationId(f.binding) && f.format == 2
            && Named(su, d, f.binding, Ciphertext, f.objectName) && Named(su, d, f.binding, Marker, f.completionName)
  {
  }

  /** What every journal on disk says besides its progress. */
  lemma JournalSays(su: Setup, w: World, s: Intent)
    requires Reachable(su, w)
    requires w.store.visible.intent == Some(s) || w.store.durable.intent == Some(s)
    ensures var d := Destination(s.binding.bucketId, s.binding.prefix);
            s.format == 2 && Binds(su, d, s.binding) && s.operationId == su.prims.operationId(s.binding)
            && Named(su, d, s.binding, Ciphertext, s.objectName) && Named(su, d, s.binding, Marker, s.completionName)
  {
    ReachableSound(su, w);
    FreshNames(su, DestinationOf(s));
  }

  /** Every request ever sent, and every version that landed, stands in its bucket under its name. */
  lemma RequestsNamed(su: Setup, w: World) returns (d: Destination, b: Binding)
    requires Reachable(su, w) && w.store.issued != []
    ensures Binds(su, d, b)
    ensures forall i :: 0 <= i < |w.store.issued| ==>
              w.store.issued[i].bucket == d.bucket
              && Named(su, d, b, w.store.issued[i].kind, w.store.issued[i].name)
    ensures forall i :: i in w.store.landed ==>
              i < |w.store.issued| && w.store.landed[i].bucket == d.bucket
              && Named(su, d, b, w.store.issued[i].kind, w.store.landed[i].name)
  {
    ReachableSound(su, w);
    var s := w.store.visible.intent.value;
    d, b := DestinationOf(s), s.binding;
    JournalSays(su, w, s);
    forall i | 0 <= i < |w.store.issued|
      ensures w.store.issued[i].bucket == d.bucket && w.store.issued[i].name == s.NameOf(w.store.issued[i].kind)
    {
      var k := if i == 0 then Ciphertext else Marker;
      assert i == Index(k);
    }
  }

  /** What a completion says about its operation. */
  predicate CompletionOf(su: Setup, d: Destination, b: Binding, c: Completion) {
    Binds(su, d, b) && c.record == su.record && c.operationId == su.prims.operationId(b) && c.bucketId == d.bucket
    && Named(su, d, b, Ciphertext, c.objectName)
  }

  // The time of a completion.

  /** Some journal, on disk or in a process, carries this completion. */
  predicate Held(w: World, c: Completion) {
    (w.store.visible.intent.Some? && w.store.visible.intent.value.completion == Some(c))
    || (w.store.durable.intent.Some? && w.store.durable.intent.value.completion == Some(c))
    || exists pid :: pid in w.procs && w.procs[pid].state.completion == Some(c)
  }

  /** A process completes the upload at time `now`. */
  predicate Completes(su: Setup, w: World, w': World, pid: nat, now: string) {
    CanComplete(w, pid) && w' == DoComplete(su, w, pid, now)
  }

  lemma CompleteHolds(su: Setup, w: World, pid: nat, now: string, c: Completion)
    requires CanComplete(w, pid) && Held(DoComplete(su, w, pid, now), c) && !Held(w, c)
    ensures c.remoteVerifiedAt == now
  {
    var w' := DoComplete(su, w, pid, now);
    var q :| q in w'.procs && w'.procs[q].state.completion == Some(c);
    assert q == pid;
  }

  lemma CrashHolds(w: World, intentSurvives: bool, receiptSurvives: bool, c: Completion)
    requires Held(DoCrash(w, intentSurvives, receiptSurvives), c)
    ensures Held(w, c)
  {
    var w' := DoCrash(w, intentSurvives, receiptSurvives);
    if q :| q in w'.procs && w'.procs[q].state.completion == Some(c) {
      assert w.procs[q].state.completion == Some(c);
    }
  }

  /** A step other than completing only passes on what some journal already says. */
  lemma WriteHolds(su: Setup, w: World, s: Step, c: Completion)
    requires Enabled(su, w, s) && (s.Save? || s.Sync? || s.Acquire? || s.Finish?)
    requires Held(Apply(su, w, s), c)
    ensures Held(w, c)
  {
    var w' := Apply(su, w, s);
    if q :| q in w'.procs && w'.procs[q].state.completion == Some(c) {
      assert w.procs[q].state.completion == Some(c);
    } else if s.Save? {
      assert w.procs[s.pid].state == w'.procs[s.pid].state;
    }
  }

  lemma LoadHolds(su: Setup, w: World, pid: nat, c: Completion)
    requires CanLoad(su, w, pid) && Held(DoLoad(su, w, pid), c)
    ensures Held(w, c)
  {
    var w' := DoLoad(su, w, pid);
    if q :| q in w'.procs && w'.procs[q].state.completion == Some(c) {
      if q != pid { assert w.procs[q].state.completion == Some(c); }
    }
  }

  lemma SpawnHolds(su: Setup, w: World, pid: nat, role: Role, dest: Destination, c: Completion)
    requires CanSpawn(w, pid) && Held(DoSpawn(su, w, pid, role, dest), c)
    ensures Held(w, c)
  {
    var w' := DoSpawn(su, w, pid, role, dest);
    if q :| q in w'.procs && w'.procs[q].state.completion == Some(c) {
      assert q != pid && w.procs[q].state.completion == Some(c);
    }
  }

  lemma MarkHolds(su: Setup, w: World, s: Step, c: Completion)
    requires Enabled(su, w, s) && (s.SendOnce? || s.Acknowledge? || s.VerifyRemote?)
    requires Held(Apply(su, w, s), c)
    ensures Held(w, c)
  {
    var w' := Apply(su, w, s);
    if q :| q in w'.procs && w'.procs[q].state.completion == Some(c) {
      assert w.procs[q].state.completion == Some(c);
    }
  }

  lemma MoveHolds(su: Setup, w: World, s: Step, c: Completion)
    requires Enabled(su, w, s)
    requires s.CheckPackage? || s.CheckReceipt? || s.Issue? || s.CheckLocal?
    requires Held(Apply(su, w, s), c)
    ensures Held(w, c)
  {
    var w' := Apply(su, w, s);
    if q :| q in w'.procs && w'.procs[q].state.completion == Some(c) {
      assert w.procs[q].state.completion == Some(c);
    }
  }

  lemma EndHolds(su: Setup, w: World, s: Step, c: Completion)
    requires Enabled(su, w, s) && (s.List? || s.Fail?)
    requires Held(Apply(su, w, s), c)
    ensures Held(w, c)
  {
    var w' := Apply(su, w, s);
    if q :| q in w'.procs && w'.procs[q].state.completion == Some(c) {
      assert w.procs[q].state.completion == Some(c);
    }
  }

  lemma PublishHolds(su: Setup, w: World, s: Step, c: Completion)
    requires Enabled(su, w, s) && (s.Publish? || s.Land? || s.EditFile?)
    requires Held(Apply(su, w, s), c)
    ensures Held(w, c)
  {
    var w' := Apply(su, w, s);
    if q :| q in w'.procs && w'.procs[q].state.completion == Some(c) {
      assert w.procs[q].state.completion == Some(c);
    }
  }

  lemma StepHolds(su: Setup, w: World, s: Step, c: Completion)
    requires Enabled(su, w, s) && Held(Apply(su, w, s), c) && !s.Complete?
    ensures Held(w, c)
  {
    if s.Spawn? {
      SpawnHolds(su, w, s.pid, s.role, s.dest, c);
    } else if s.Load? {
      LoadHolds(su, w, s.pid, c);
    } else if s.Crash? {
      CrashHolds(w, s.intentSurvives, s.receiptSurvives, c);
    } else if s.Save? || s.Sync? || s.Acquire? || s.Finish? {
      WriteHolds(su, w, s, c);
    } else if s.SendOnce? || s.Acknowledge? || s.VerifyRemote? {
      MarkHolds(su, w, s, c);
    } else if s.CheckPackage? || s.CheckReceipt? || s.Issue? || s.CheckLocal? {
      MoveHolds(su, w, s, c);
    } else if s.List? || s.Fail? {
      EndHolds(su, w, s, c);
    } else {
      PublishHolds(su, w, s, c);
    }
  }

  lemma NextHolds(su: Setup, w: World, w': World, c: Completion) returns (before: bool, pid: nat)
    requires Next(su, w, w') && Held(w', c)
    ensures if before then Held(w, c) else Completes(su, w, w', pid, c.remoteVerifiedAt)
  {
    var s :| Enabled(su, w, s) && w' == Apply(su, w, s);
    before, pid := Held(w, c), 0;
    if !before {
      if !s.Complete? { StepHolds(su, w, s, c); }
      pid := s.pid;
      CompleteHolds(su, w, pid, s.now, c);
    }
  }

  /** Every completion found anywhere in a run carries the time a process gave it when it was made. */
  lemma {:induction false} CompletionWasMade(su: Setup, run: seq<World>, i: nat, c: Completion)
      returns (j: nat, pid: nat)
    requires Run(su, run) && !Held(run[0], c) && i < |run| && Held(run[i], c)
    ensures 0 < j <= i && Completes(su, run[j - 1], run[j], pid, c.remoteVerifiedAt)
  {
    assert i > 0 && StepAt(su, run, i);
    var before;
    before, pid := NextHolds(su, run[i - 1], run[i], c);
    if before {
      j, pid := CompletionWasMade(su, run, i - 1, c);
    } else {
      j := i;
    }
  }

  /**
   * Everything a published receipt says about the operation: its id, bucket and ciphertext name, and the time
   * at which, earlier in the run, a process found the ciphertext verified. (What its ids and its digest refer
   * to is `ReceiptNamesSealedObjects`.)
   */
  lemma ReceiptSays(su: Setup, run: seq<World>, file: Bytes, i: nat)
      returns (d: Destination, b: Binding, j: nat, pid: nat)
    requires Run(su, run) && run[0] == Init(file) && i < |run| && run[i].store.visible.receipt.Some?
    ensures var c := run[i].store.visible.receipt.value.completion;
            CompletionOf(su, d, b, c)
            && 0 < j <= i && Completes(su, run[j - 1], run[j], pid, c.remoteVerifiedAt)
    ensures var st := run[j - 1].store;
            0 in st.landed && su.prims.sha256(st.landed[0].content) == su.record.ciphertextSha256
            && |st.landed[0].content| == su.record.ciphertextBytes
  {
    WorldReachable(su, run, file, i);
    d, b := ReceiptBinds(su, run[i]);
    j, pid := CompletionWasMade(su, run, i, run[i].store.visible.receipt.value.completion);
    MadeWhenVerified(su, run, file, j, pid);
  }

  lemma ReceiptBinds(su: Setup, w: World) returns (d: Destination, b: Binding)
    requires Reachable(su, w) && w.store.visible.receipt.Some?
    ensures CompletionOf(su, d, b, w.store.visible.receipt.value.completion)
    ensures Held(w, w.store.visible.receipt.value.completion)
  {
    ReachableSound(su, w);
    var s := w.store.visible.intent.value;
    d, b := DestinationOf(s), s.binding;
    JournalSays(su, w, s);
  }

  lemma WorldReachable(su: Setup, run: seq<World>, file: Bytes, i: nat)
    requires Run(su, run) && run[0] == Init(file) && i < |run|
    ensures Reachable(su, run[i])
  {
    var n := i + 1;
    var front := run[..n];
    assert Run(su, front) by { forall k | 0 < k < n ensures StepAt(su, front, k) { assert StepAt(su, run, k); } }
    assert front[0] == Init(file) && front[|front| - 1] == run[i];
    assert Leads(su, Init(file), run[i]);
  }

  lemma MadeWhenVerified(su: Setup, run: seq<World>, file: Bytes, j: nat, pid: nat)
    requires Run(su, run) && run[0] == Init(file) && 0 < j < |run| && CanComplete(run[j - 1], pid)
    ensures CiphertextGood(su, run[j - 1].store)
  {
    WorldReachable(su, run, file, j - 1);
    ReachableSound(su, run[j - 1]);
    Holder(su, run[j - 1], pid);
  }

  // What an upload asks of the package.

  /** Protocol 2, a plain package id, and a local file of the sealed digest and size. */
  ghost predicate Uploadable(su: Setup) {
    su.record.uploadProtocol == 2 && PlainId(su.record.packageId)
    && exists file :: Sealed(su, file)
  }

  predicate Sealed(su: Setup, file: Bytes) {
    su.prims.sha256(file) == su.record.ciphertextSha256 && |file| == su.record.ciphertextBytes
  }

  lemma CheckedIsUploadable(su: Setup, file: Bytes)
    ensures PackageCheck(su, file).Ok?
            <==> Sealed(su, file) && su.record.uploadProtocol == 2 && PlainId(su.record.packageId)
    ensures PackageCheck(su, file).Ok? ==> Uploadable(su)
    ensures PackageCheck(su, file) == Err(LocalCiphertextMismatch)
            <==> !Sealed(su, file)
    ensures PackageCheck(su, file) == Err(LegacyPackage) ==> su.record.uploadProtocol != 2
    ensures PackageCheck(su, file) == Err(UnsafePackageId) ==> !PlainId(su.record.packageId)
  {
    SafeIsPlain(su.record.packageId);
    if PackageCheck(su, file).Ok? { assert Sealed(su, file); }
  }

  /** A process is past the package check, or a journal exists, only for an uploadable package. */
  ghost predicate Checked(su: Setup, w: World) {
    (w.store.visible.intent.Some? || w.store.durable.intent.Some?
     || exists pid :: pid in w.procs && (InLock(w.procs[pid].pc) || w.procs[pid].pc.Locking?))
    ==> Uploadable(su)
  }

  lemma NextChecked(su: Setup, w: World, w': World)
    requires Checked(su, w) && Next(su, w, w') && !Uploadable(su)
    ensures Checked(su, w')
  {
    var s :| Enabled(su, w, s) && w' == Apply(su, w, s);
    StepChecked(su, w, s);
  }

  /** As long as the package is not uploadable, processes only come, fail the check and go. */
  lemma StepChecked(su: Setup, w: World, s: Step)
    requires Checked(su, w) && Enabled(su, w, s) && !Uploadable(su)
    ensures Checked(su, Apply(su, w, s))
  {
    assert forall pid :: pid in w.procs ==> !InLock(w.procs[pid].pc) && !w.procs[pid].pc.Locking?;
    if s.CheckPackage? {
      CheckedIsUploadable(su, w.file);
    } else if s.Crash? {
      CrashChecked(su, w, s.intentSurvives, s.receiptSurvives);
    } else {
      NobodyWorks(su, w, s);
      EnvironmentChecked(su, w, s);
    }
  }

  lemma NobodyWorks(su: Setup, w: World, s: Step)
    requires forall pid :: pid in w.procs ==> !InLock(w.procs[pid].pc) && !w.procs[pid].pc.Locking?
    requires Enabled(su, w, s) && !s.CheckPackage? && !s.Crash?
    ensures s.Spawn? || s.Fail? || s.Land? || s.EditFile?
  {
  }

  lemma EnvironmentChecked(su: Setup, w: World, s: Step)
    requires Checked(su, w) && Enabled(su, w, s) && !Uploadable(su)
    requires s.Spawn? || s.Fail? || s.Land? || s.EditFile?
    ensures Checked(su, Apply(su, w, s))
  {
  }

  lemma CrashChecked(su: Setup, w: World, intentSurvives: bool, receiptSurvives: bool)
    requires Checked(su, w) && !Uploadable(su)
    ensures Checked(su, DoCrash(w, intentSurvives, receiptSurvives))
  {
  }

  /** No journal, request or receipt ever appears for a package that is not uploadable. */
  lemma OnlyUploadablePackages(su: Setup, w: World)
    requires Reachable(su, w)
    requires w.store.visible.intent.Some? || w.store.issued != [] || w.store.visible.receipt.Some?
    ensures Uploadable(su)
  {
    var file: Bytes :| Leads(su, Init(file), w);
    ReachableSound(su, w);
    if !Uploadable(su) {
      forall a, b | Checked(su, a) && Next(su, a, b) ensures Checked(su, b) { NextChecked(su, a, b); }
      LeadsKeeps(su, Init(file), w, (x: World) => Checked(su, x));
    }
  }

  // Which journals are loaded.

  /** A recorded version id. */
  predicate Recorded(id: Option<string>) { id.Some? && 0 < |id.value| <= 1024 }

  /** How far an operation can have come: each object unsent, pending or recorded, the ciphertext first. */
  predicate Progress(su: Setup, d: Destination, s: Intent) {
    var c, m := s.ciphertextStatus, s.markerStatus;
    if c != Acknowledged then
      s.ciphertextFileId == None && m == Ready && s.completionFileId == None && s.completion == None
    else
      Recorded(s.ciphertextFileId)
      && (if m == Acknowledged then Recorded(s.completionFileId) else s.completionFileId == None)
      && (m != Ready ==> s.completion.Some?)
      && (s.completion.Some? ==>
            var r := s.completion.value;
            r.record == su.record && r.operationId == s.operationId && r.ciphertextFileId == s.ciphertextFileId.value
            && r.bucketId == d.bucket && r.objectName == s.objectName)
  }

  /** The fixed fields of a journal, spelled out. */
  predicate Fixed(su: Setup, d: Destination, s: Intent) {
    s.format == 2 && Binds(su, d, s.binding) && s.operationId == su.prims.operationId(s.binding)
    && Named(su, d, s.binding, Ciphertext, s.objectName) && Named(su, d, s.binding, Marker, s.completionName)
  }

  lemma BoundIsFixed(su: Setup, d: Destination, s: Intent)
    ensures Bound(su, d, s) <==> Fixed(su, d, s)
  {
    FreshNames(su, d);
    if Binds(su, d, s.binding) { assert s.binding == FreshIntent(su, d).binding; }
  }

  /** `upload_intent` loads a journal exactly when its fixed fields fit and its progress is possible. */
  lemma LoadsPossibleJournals(su: Setup, d: Destination, s: Intent)
    ensures LoadIntent(su, d, s) == Ok(s) || LoadIntent(su, d, s).Err?
    ensures LoadIntent(su, d, s).Ok? <==> Fixed(su, d, s) && Progress(su, d, s)
    ensures LoadIntent(su, d, s) == Err(BindingMismatch) <==> !Fixed(su, d, s)
  {
    BoundIsFixed(su, d, s);
  }

  // How versions get into a journal.

  /** Process `pid` has object `k` recorded, and did not before the step. */
  predicate NewlyRecorded(w: World, w': World, pid: nat, k: Kind) {
    pid in w.procs && pid in w'.procs
    && w'.procs[pid].state.StatusOf(k).Acknowledged? && !w.procs[pid].state.StatusOf(k).Acknowledged?
  }

  /** The version an uploader's own request produced, of the sent length and SHA-1. */
  predicate OwnVersion(su: Setup, w: World, p: Proc, k: Kind, id: string) {
    p.role.Uploader? && p.pc.Awaiting? && p.pc.k == k && p.pc.i in w.store.landed && p.pc.i < |w.store.issued|
    && var v, sent := w.store.landed[p.pc.i], w.store.issued[p.pc.i].content;
       v.id == id && |v.content| == |sent| && su.prims.sha1(v.content) == su.prims.sha1(sent)
  }

  /** A version that stands under the object's name with the expected digest and size. */
  predicate FoundVersion(su: Setup, w: World, p: Proc, k: Kind, id: string) {
    p.role.Reconciler? && exists i :: i in w.store.landed && w.store.landed[i].id == id
                                      && Holds(su, w, p, k, w.store.landed[i])
  }

  predicate Holds(su: Setup, w: World, p: Proc, k: Kind, v: Version) {
    v.bucket == p.dest.bucket && v.name == (if k == Ciphertext then p.state.objectName else p.state.completionName)
    && if k == Ciphertext then
         su.prims.sha256(v.content) == su.record.ciphertextSha256 && |v.content| == su.record.ciphertextBytes
         && su.prims.sha1(v.content) == su.prims.sha1(w.file)
       else
         p.state.completion.Some?
         && var marker := su.prims.encodeCompletion(p.state.completion.value);
            su.prims.sha256(v.content) == su.prims.sha256(marker) && |v.content| == |marker|
            && su.prims.sha1(v.content) == su.prims.sha1(marker)
  }

  lemma VerifyRecords(su: Setup, w: World, pid: nat, i: nat, k: Kind)
    requires Inv(su, w) && CanVerifyRemote(su, w, pid, i) && NewlyRecorded(w, DoVerifyRemote(w, pid), pid, k)
    ensures var id := DoVerifyRemote(w, pid).procs[pid].state.FileIdOf(k);
            id.Some? && FoundVersion(su, w, w.procs[pid], k, id.value)
  {
    Holder(su, w, pid);
  }

  lemma AcknowledgeRecords(su: Setup, w: World, pid: nat, k: Kind)
    requires Inv(su, w) && CanAcknowledge(su, w, pid) && NewlyRecorded(w, DoAcknowledge(w, pid), pid, k)
    ensures var id := DoAcknowledge(w, pid).procs[pid].state.FileIdOf(k);
            id.Some? && OwnVersion(su, w, w.procs[pid], k, id.value)
  {
    Holder(su, w, pid);
  }

  lemma MovingRecordsNothing(su: Setup, w: World, s: Step, pid: nat)
    requires Enabled(su, w, s) && pid in w.procs && pid in Apply(su, w, s).procs
    requires s.Spawn? || s.CheckPackage? || s.Acquire? || s.CheckReceipt? || s.Issue? || s.CheckLocal? || s.List?
             || s.Fail? || s.Crash? || s.Land? || s.EditFile?
    ensures Apply(su, w, s).procs[pid].state == w.procs[pid].state
  {
  }

  lemma WritingRecordsNothing(su: Setup, w: World, s: Step, pid: nat, k: Kind)
    requires Enabled(su, w, s) && pid in w.procs && pid in Apply(su, w, s).procs
    requires s.SendOnce? || s.Save? || s.Sync? || s.Complete? || s.Publish? || s.Finish?
    ensures !NewlyRecorded(w, Apply(su, w, s), pid, k)
  {
  }

  lemma OnlyTheseRecord(su: Setup, w: World, s: Step, pid: nat, k: Kind)
    requires Enabled(su, w, s) && NewlyRecorded(w, Apply(su, w, s), pid, k) && !s.Load?
    ensures (s.Acknowledge? || s.VerifyRemote?) && s.pid == pid
  {
    if s.SendOnce? || s.Save? || s.Sync? || s.Complete? || s.Publish? || s.Finish? {
      WritingRecordsNothing(su, w, s, pid, k);
    } else if !s.Acknowledge? && !s.VerifyRemote? {
      MovingRecordsNothing(su, w, s, pid);
    }
  }

  /**
   * Other than by loading a journal, a process comes to record a version only as the one its own request
   * produced, or as one it found under the object's name and verified.
   */
  lemma RecordedVersions(su: Setup, w: World, s: Step, pid: nat, k: Kind)
    requires Reachable(su, w) && Enabled(su, w, s) && NewlyRecorded(w, Apply(su, w, s), pid, k) && !s.Load?
    ensures var p, id := w.procs[pid], Apply(su, w, s).procs[pid].state.FileIdOf(k);
            id.Some? && (OwnVersion(su, w, p, k, id.value) || FoundVersion(su, w, p, k, id.value))
  {
    ReachableSound(su, w);
    OnlyTheseRecord(su, w, s, pid, k);
    if s.Acknowledge? {
      AcknowledgeRecords(su, w, pid, k);
    } else {
      VerifyRecords(su, w, pid, s.i, k);
    }
  }

  // An upload publishes only where no receipt stands.

  /** The uploader under the lock, past its first check and before its receipt, sees no receipt. */
  predicate UploaderSeesNone(w: World) {
    w.lock.Some? && w.lock.value in w.procs ==>
      var p := w.procs[w.lock.value];
      p.role.Uploader? && !p.pc.CheckingReceipt? && !p.pc.SyncingReceipt? ==> w.store.visible.receipt.None?
  }

  ghost predicate SeesNone(su: Setup, w: World) { Inv(su, w) && UploaderSeesNone(w) }

  lemma HolderStepSeesNone(su: Setup, w: World, s: Step)
    requires LockSound(w) && UploaderSeesNone(w) && Enabled(su, w, s)
    requires s.CheckReceipt? || s.Load? || s.SendOnce? || s.Save? || s.Sync? || s.Issue? || s.Acknowledge?
             || s.CheckLocal? || s.VerifyRemote? || s.Complete? || s.List? || s.Publish? || s.Finish?
    ensures UploaderSeesNone(Apply(su, w, s))
  {
  }

  lemma OtherStepSeesNone(su: Setup, w: World, s: Step)
    requires LockSound(w) && UploaderSeesNone(w) && Enabled(su, w, s)
    requires s.Spawn? || s.CheckPackage? || s.Acquire? || s.Fail? || s.Crash? || s.Land? || s.EditFile?
    ensures UploaderSeesNone(Apply(su, w, s))
  {
  }

  lemma NextSeesNone(su: Setup, w: World, w': World)
    requires SeesNone(su, w) && Next(su, w, w')
    ensures SeesNone(su, w')
  {
    var s :| Enabled(su, w, s) && w' == Apply(su, w, s);
    StepKeeps(su, w, s);
    if s.Spawn? || s.CheckPackage? || s.Acquire? || s.Fail? || s.Crash? || s.Land? || s.EditFile? {
      OtherStepSeesNone(su, w, s);
    } else {
      HolderStepSeesNone(su, w, s);
    }
  }

  /** An upload that publishes found no receipt: it never answers with, or replaces, an earlier one. */
  lemma UploadPublishesFirst(su: Setup, w: World, pid: nat)
    requires Reachable(su, w) && CanPublish(su, w, pid) && w.procs[pid].role.Uploader?
    ensures w.store.visible.receipt.None?
  {
    var file: Bytes :| Leads(su, Init(file), w);
    InitSound(su, file);
    forall a, b | SeesNone(su, a) && Next(su, a, b) ensures SeesNone(su, b) { NextSeesNone(su, a, b); }
    LeadsKeeps(su, Init(file), w, (x: World) => SeesNone(su, x));
  }
}
