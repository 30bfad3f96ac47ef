/**
 * Recovery: from any reachable idle world whose sent requests have landed verifiably, one
 * undisturbed reconciliation and at most one undisturbed upload reach a receipt.
 */
module UploadRecovery {
  import opened Wrappers
  import opened UploadIntent
  import opened UploadProtocol
  import opened UploadInvariant
  import opened UploadPreservation

  /** The landed version passes every check a process makes of it, given a suitable local file. */
  ghost predicate Verifies(su: Setup, st: Store, i: nat) {
    i in st.landed && i < |st.issued| && ValidFileId(st.landed[i].id)
    && var b := st.landed[i].content;
       if i == 0 then
         su.prims.sha256(b) == su.record.ciphertextSha256 && |b| == su.record.ciphertextBytes
       else
         var sent := st.issued[i].content;
         |b| == |sent| && su.prims.sha1(b) == su.prims.sha1(sent) && su.prims.sha256(b) == su.prims.sha256(sent)
  }

  /** Every request sent so far has landed and verifies, also against the local file, which is intact. */
  ghost predicate Landed(su: Setup, w: World) {
    PackageCheck(su, w.file).Ok?
    && (forall i: nat :: i < |w.store.issued| ==> Verifies(su, w.store, i))
    && (0 in w.store.landed ==> su.prims.sha1(w.store.landed[0].content) == su.prims.sha1(w.file))
  }

  /** No pending object is left without a request. */
  ghost predicate NoLostRequest(st: Store, s: Intent) {
    forall k: Kind :: s.StatusOf(k).Pending? ==> Index(k) < |st.issued|
  }

  ghost predicate NothingPending(s: Intent) { !s.ciphertextStatus.Pending? && !s.markerStatus.Pending? }

  /** The next step of an undisturbed process; a request it has just sent lands intact. */
  function DriveStep(su: Setup, w: World, pid: nat, now: string): Step
    requires pid in w.procs
  {
    match w.procs[pid].pc
    case CheckingPackage => CheckPackage(pid)
    case Locking => Acquire(pid)
    case CheckingReceipt => CheckReceipt(pid)
    case Loading => Load(pid)
    case Sending(_) => SendOnce(pid)
    case Saving(_) => Save(pid)
    case Syncing(_) => Sync(pid)
    case Issuing(_) => Issue(pid)
    case Awaiting(_, i) =>
      if i in w.store.landed || i >= |w.store.issued| then Acknowledge(pid)
      else Land(i, FreshId(w.store.landed), w.store.issued[i].content)
    case CheckingLocal(_) => CheckLocal(pid)
    case Verifying(k) => VerifyRemote(pid, Index(k))
    case Completing => Complete(pid, now)
    case Looking(_) => List(pid)
    case Publishing => Publish(pid)
    case SyncingReceipt => Finish(pid)
    case Done(_) => Fail(pid)
  }

  /** An id no landed version has, while at most the ciphertext has landed. */
  function FreshId(landed: map<nat, Version>): string {
    if 0 in landed && landed[0].id == "a" then "b" else "a"
  }

  /** How many undisturbed steps are left at most. */
  function Rank(w: World, pid: nat): nat
    requires pid in w.procs
  {
    match w.procs[pid].pc
    case CheckingPackage => 60
    case Locking => 59
    case CheckingReceipt => 58
    case Loading => 57
    case Sending(k) => if k.Ciphertext? then 54 else 24
    case Looking(k) => if k.Ciphertext? then 54 else 24
    case Saving(a) => SavingRank(a) + 1
    case Syncing(a) => SavingRank(a)
    case Issuing(k) => if k.Ciphertext? then 50 else 20
    case Awaiting(k, i) => (if k.Ciphertext? then 48 else 18) + (if i in w.store.landed then 0 else 1)
    case CheckingLocal(k) => if k.Ciphertext? then 45 else 15
    case Verifying(k) => if k.Ciphertext? then 44 else 14
    case Completing => 28
    case Publishing => 9
    case SyncingReceipt => 8
    case Done(_) => 0
  }

  function SavingRank(a: After): nat {
    match a
    case Created => 55
    case MarkedPending(k) => if k.Ciphertext? then 51 else 21
    case MarkedAcknowledged(k) => if k.Ciphertext? then 46 else 16
    case CompletionRecorded => 25
    case Adopted(k) => if k.Ciphertext? then 40 else 10
  }

  /** What an undisturbed process can rely on for the rest of its work. */
  ghost predicate OnCourse(su: Setup, w: World, pid: nat) { Inv(su, w) && Course(su, w, pid) }

  ghost predicate Course(su: Setup, w: World, pid: nat) {
    pid in w.procs
    && var p := w.procs[pid];
       PackageCheck(su, w.file).Ok?
       && (p.pc.Awaiting? || Landed(su, w))
       && (InLock(p.pc) || p.pc.CheckingPackage? || p.pc.Locking? || p.pc.Done?)
       && (if p.role.Uploader? then UploaderOnCourse(su, w, p) else ReconcilerOnCourse(su, w, p))
  }

  /** The uploader meets no pending object. */
  ghost predicate UploaderOnCourse(su: Setup, w: World, p: Proc) {
    match p.pc
    case CheckingPackage => w.lock.None? && UploaderStart(w.store, p)
    case Locking => w.lock.None? && UploaderStart(w.store, p)
    case CheckingReceipt => UploaderStart(w.store, p)
    case Loading => UploaderStart(w.store, p)
    case Sending(k) => !p.state.StatusOf(k).Pending? && !p.state.markerStatus.Pending?
    case Saving(a) => (a == MarkedPending(Marker) || a == MarkedAcknowledged(Marker) || !p.state.markerStatus.Pending?)
                      && (a.Created? ==> NothingPending(p.state))
    case Syncing(a) => (a == MarkedPending(Marker) || a == MarkedAcknowledged(Marker) || !p.state.markerStatus.Pending?)
                      && (a.Created? ==> NothingPending(p.state))
    case Issuing(k) => k.Marker? || !p.state.markerStatus.Pending?
    case Awaiting(k, i) => (k.Marker? || !p.state.markerStatus.Pending?) && AwaitingIntact(su, w, p, k, i)
    case CheckingLocal(k) => !p.state.markerStatus.Pending?
    case Verifying(k) => !p.state.markerStatus.Pending?
    case Completing => !p.state.markerStatus.Pending?
    case Looking(_) => false
    case Publishing => true
    case SyncingReceipt => true
    case Done(o) => o.Published? && w.store.visible.receipt.Some? && w.lock.None?
  }

  ghost predicate UploaderStart(st: Store, p: Proc) {
    st.visible.receipt.None? && (st.visible.intent.Some? ==>
      DestinationOf(st.visible.intent.value) == p.dest && NothingPending(st.visible.intent.value))
  }

  /** While one request is in flight everything sent before it has landed. */
  ghost predicate AwaitingIntact(su: Setup, w: World, p: Proc, k: Kind, i: nat) {
    |w.store.issued| == i + 1 && w.store.issued[i].content == LocalBytes(su, w.file, p, k)
    && (0 in w.store.landed ==> su.prims.sha1(w.store.landed[0].content) == su.prims.sha1(w.file))
    && forall j: nat :: j <= i && (j < i || i in w.store.landed) ==> Verifies(su, w.store, j)
  }

  /** The reconciler meets no pending object whose request was lost. */
  ghost predicate ReconcilerOnCourse(su: Setup, w: World, p: Proc) {
    match p.pc
    case CheckingPackage => w.lock.None? && ReconcilerStart(w.store, p)
    case Locking => w.lock.None? && ReconcilerStart(w.store, p)
    case CheckingReceipt => false
    case Loading => ReconcilerStart(w.store, p)
    case Sending(_) => false
    case Issuing(_) => false
    case Awaiting(_, _) => false
    case Saving(a) => !a.Created? && !a.MarkedPending? && !a.MarkedAcknowledged? && NoLostRequest(w.store, p.state)
    case Syncing(a) => !a.Created? && !a.MarkedPending? && !a.MarkedAcknowledged? && NoLostRequest(w.store, p.state)
    case CheckingLocal(k) => NoLostRequest(w.store, p.state)
    case Verifying(k) => NoLostRequest(w.store, p.state)
    case Completing => NoLostRequest(w.store, p.state)
    case Looking(k) => NoLostRequest(w.store, p.state) && (k.Marker? ==> p.state.ciphertextStatus.Acknowledged?)
    case Publishing => true
    case SyncingReceipt => true
    case Done(o) =>
      w.lock.None?
      && (o.Published? ==> w.store.visible.receipt.Some?)
      && (o.ReadyToResume? ==> w.store.visible.intent.Some? && NothingPending(w.store.visible.intent.value)
                               && DestinationOf(w.store.visible.intent.value) == p.dest)
      && !o.Failed?
  }

  ghost predicate ReconcilerStart(st: Store, p: Proc) {
    st.visible.intent.Some? && DestinationOf(st.visible.intent.value) == p.dest
    && NoLostRequest(st, st.visible.intent.value)
  }

  /** `w'` is reached from `w` by one undisturbed step of `pid`. */
  ghost predicate Advanced(su: Setup, w: World, w': World, pid: nat)
    requires pid in w.procs
  {
    OnCourse(su, w', pid) && Closer(w, w', pid)
  }

  ghost predicate Closer(w: World, w': World, pid: nat)
    requires pid in w.procs
  {
    w'.procs.Keys == w.procs.Keys && Rank(w', pid) < Rank(w, pid)
    && w'.procs[pid].role == w.procs[pid].role && w'.procs[pid].dest == w.procs[pid].dest
  }

  /** A step that leaves the file, the history and the landings alone keeps `Landed`. */
  lemma SameRemote(su: Setup, w: World, w': World)
    requires w'.file == w.file && w'.store.issued == w.store.issued && w'.store.landed == w.store.landed
    ensures Landed(su, w') == Landed(su, w)
  {
    forall i: nat ensures Verifies(su, w'.store, i) == Verifies(su, w.store, i) {}
  }

  /** Listing answers for every object of a reconciler on course. */
  lemma ListIsEnabled(su: Setup, w: World, pid: nat)
    requires Course(su, w, pid) && w.lock == Some(pid) && HolderSound(su, w.store, w.procs[pid])
    requires w.procs[pid].pc.Looking? && HistorySound(su, w.store) && DiskSound(su, w.store)
    ensures CanList(w, pid)
  {
    var p := w.procs[pid];
    var k := p.pc.k;
    if Index(k) < |w.store.issued| {
      assert Verifies(su, w.store, Index(k));
      SentIsListed(su, w.store, p, k);
      assert p.state.FileIdOf(k).Some? ==> p.state.StatusOf(k).Acknowledged?;
    } else {
      UnsentIsNotListed(su, w.store, p, k);
    }
  }

  /** A request that has landed is what listing its name finds, and all it finds. */
  lemma SentIsListed(su: Setup, st: Store, p: Proc, k: Kind)
    requires HistorySound(su, st) && InSync(su, st, p) && Coherent(su, st, Some(p.state))
    requires Index(k) < |st.issued| && Index(k) in st.landed
    ensures Listed(st, p.dest.bucket, p.state.NameOf(k)) == {Index(k)}
    ensures |Listed(st, p.dest.bucket, p.state.NameOf(k))| == 1
    ensures Sole(Listed(st, p.dest.bucket, p.state.NameOf(k))) == Index(k)
  {
    var found := Listed(st, p.dest.bucket, p.state.NameOf(k));
    assert st.issued[Index(k)].name == p.state.NameOf(k);
    forall i ensures i in found <==> i == Index(k) { if i in found { ListedIsOwn(su, st, p, k, i); } }
    assert found == {Index(k)};
    assert Index(k) in {Sole(found)};
  }

  lemma UnsentIsNotListed(su: Setup, st: Store, p: Proc, k: Kind)
    requires HistorySound(su, st) && InSync(su, st, p) && Coherent(su, st, Some(p.state))
    requires |st.issued| <= Index(k)
    ensures Listed(st, p.dest.bucket, p.state.NameOf(k)) == {}
  {
    forall i ensures i !in Listed(st, p.dest.bucket, p.state.NameOf(k)) {
      if i in Listed(st, p.dest.bucket, p.state.NameOf(k)) { ListedIsOwn(su, st, p, k, i); }
    }
  }

  lemma CheckPackageAdvances(su: Setup, w: World, pid: nat)
    requires OnCourse(su, w, pid) && w.procs[pid].pc.CheckingPackage?
    ensures CanCheckPackage(su, w, pid)
    ensures Advanced(su, w, DoCheckPackage(w, pid), pid)
  {
    CheckPackageKeeps(su, w, pid);
  }

  lemma AcquireAdvances(su: Setup, w: World, pid: nat)
    requires OnCourse(su, w, pid) && w.procs[pid].pc.Locking?
    ensures CanAcquire(w, pid)
    ensures Advanced(su, w, DoAcquire(w, pid), pid)
  {
    SameRemote(su, w, DoAcquire(w, pid));
    AcquireKeeps(su, w, pid);
  }

  lemma CheckReceiptAdvances(su: Setup, w: World, pid: nat)
    requires OnCourse(su, w, pid) && w.procs[pid].pc.CheckingReceipt?
    ensures CanCheckReceipt(w, pid)
    ensures Advanced(su, w, DoCheckReceipt(w, pid), pid)
  {
    CheckReceiptKeeps(su, w, pid);
  }

  lemma LoadStaysOnCourse(su: Setup, w: World, pid: nat)
    requires Course(su, w, pid) && w.procs[pid].pc.Loading? && DiskSound(su, w.store)
    ensures CanLoad(su, w, pid)
    ensures Course(su, DoLoad(su, w, pid), pid) && Closer(w, DoLoad(su, w, pid), pid)
  {
    SameRemote(su, w, DoLoad(su, w, pid));
  }

  lemma LoadAdvances(su: Setup, w: World, pid: nat)
    requires OnCourse(su, w, pid) && w.procs[pid].pc.Loading?
    ensures CanLoad(su, w, pid)
    ensures Advanced(su, w, DoLoad(su, w, pid), pid)
  {
    Holder(su, w, pid);
    LoadStaysOnCourse(su, w, pid);
    LoadKeeps(su, w, pid);
  }

  lemma SendOnceStaysOnCourse(su: Setup, w: World, pid: nat)
    requires Course(su, w, pid) && w.lock == Some(pid) && HolderSound(su, w.store, w.procs[pid])
    requires w.procs[pid].pc.Sending? && CanSendOnce(w, pid)
    ensures Course(su, DoSendOnce(w, pid), pid) && Closer(w, DoSendOnce(w, pid), pid)
  {
    var p := w.procs[pid];
    if p.state.StatusOf(p.pc.k).Ready? {
      assert UploaderOnCourse(su, DoSendOnce(w, pid), DoSendOnce(w, pid).procs[pid]);
    }
  }

  lemma SendOnceAdvances(su: Setup, w: World, pid: nat)
    requires OnCourse(su, w, pid) && w.procs[pid].pc.Sending?
    ensures CanSendOnce(w, pid)
    ensures Advanced(su, w, DoSendOnce(w, pid), pid)
  {
    SendOnceStaysOnCourse(su, w, pid);
    SendOnceKeeps(su, w, pid);
  }

  lemma SaveStaysOnCourse(su: Setup, w: World, pid: nat)
    requires Course(su, w, pid) && w.lock == Some(pid) && HolderSound(su, w.store, w.procs[pid])
    requires w.procs[pid].pc.Saving? && CanSave(w, pid)
    ensures Course(su, DoSave(w, pid), pid) && Closer(w, DoSave(w, pid), pid)
  {
    SameRemote(su, w, DoSave(w, pid));
    var p := w.procs[pid];
    if p.role.Uploader? {
      assert UploaderOnCourse(su, DoSave(w, pid), At(p, Syncing(p.pc.after)));
    } else {
      assert ReconcilerOnCourse(su, DoSave(w, pid), At(p, Syncing(p.pc.after)));
    }
  }

  lemma SaveAdvances(su: Setup, w: World, pid: nat)
    requires OnCourse(su, w, pid) && w.procs[pid].pc.Saving?
    ensures CanSave(w, pid)
    ensures Advanced(su, w, DoSave(w, pid), pid)
  {
    SaveStaysOnCourse(su, w, pid);
    SaveKeeps(su, w, pid);
  }

  lemma UploaderResumes(su: Setup, w: World, w': World, p: Proc)
    requires UploaderOnCourse(su, w, p) && p.role.Uploader? && p.pc.Syncing? && WriteSound(su, w.store, p, p.pc.after)
    ensures UploaderOnCourse(su, w', At(p, Resume(p, p.pc.after)))
  {
  }

  lemma ReconcilerResumes(su: Setup, w: World, w': World, p: Proc)
    requires ReconcilerOnCourse(su, w, p) && p.role.Reconciler? && p.pc.Syncing?
    requires WriteSound(su, w.store, p, p.pc.after) && w'.store.issued == w.store.issued
    ensures ReconcilerOnCourse(su, w', At(p, Resume(p, p.pc.after)))
  {
  }

  lemma SyncStaysOnCourse(su: Setup, w: World, pid: nat)
    requires Course(su, w, pid) && w.lock == Some(pid) && HolderSound(su, w.store, w.procs[pid])
    requires w.procs[pid].pc.Syncing? && CanSync(w, pid)
    ensures Course(su, DoSync(w, pid), pid) && Closer(w, DoSync(w, pid), pid)
  {
    SameRemote(su, w, DoSync(w, pid));
    var p := w.procs[pid];
    if p.role.Uploader? {
      UploaderResumes(su, w, DoSync(w, pid), p);
    } else {
      ReconcilerResumes(su, w, DoSync(w, pid), p);
    }
  }

  lemma SyncAdvances(su: Setup, w: World, pid: nat)
    requires OnCourse(su, w, pid) && w.procs[pid].pc.Syncing?
    ensures CanSync(w, pid)
    ensures Advanced(su, w, DoSync(w, pid), pid)
  {
    SyncStaysOnCourse(su, w, pid);
    SyncKeeps(su, w, pid);
  }

  lemma IssueStaysOnCourse(su: Setup, w: World, pid: nat)
    requires Course(su, w, pid) && w.lock == Some(pid) && HolderSound(su, w.store, w.procs[pid])
    requires w.procs[pid].pc.Issuing? && HistorySound(su, w.store)
    ensures Course(su, DoIssue(su, w, pid), pid) && Closer(w, DoIssue(su, w, pid), pid)
  {
    var w' := DoIssue(su, w, pid);
    var i := |w.store.issued|;
    forall j: nat | j < i ensures Verifies(su, w'.store, j) { assert Verifies(su, w.store, j); }
    assert AwaitingIntact(su, w', w'.procs[pid], w.procs[pid].pc.k, i);
  }

  lemma IssueAdvances(su: Setup, w: World, pid: nat)
    requires OnCourse(su, w, pid) && w.procs[pid].pc.Issuing?
    ensures CanIssue(w, pid)
    ensures Advanced(su, w, DoIssue(su, w, pid), pid)
  {
    IssueStaysOnCourse(su, w, pid);
    IssueKeeps(su, w, pid);
  }

  lemma LocalSourceMatches(su: Setup, w: World, pid: nat)
    requires PackageCheck(su, w.file).Ok? && pid in w.procs && w.procs[pid].pc.CheckingLocal?
    requires HolderSound(su, w.store, w.procs[pid])
    ensures CanCheckLocal(su, w, pid)
  {
  }

  lemma CheckLocalStaysOnCourse(su: Setup, w: World, pid: nat)
    requires Course(su, w, pid) && w.procs[pid].pc.CheckingLocal?
    ensures Course(su, DoCheckLocal(w, pid), pid) && Closer(w, DoCheckLocal(w, pid), pid)
  {
    SameRemote(su, w, DoCheckLocal(w, pid));
  }

  lemma CheckLocalAdvances(su: Setup, w: World, pid: nat)
    requires OnCourse(su, w, pid) && w.procs[pid].pc.CheckingLocal?
    ensures CanCheckLocal(su, w, pid)
    ensures Advanced(su, w, DoCheckLocal(w, pid), pid)
  {
    Holder(su, w, pid);
    LocalSourceMatches(su, w, pid);
    CheckLocalStaysOnCourse(su, w, pid);
    CheckLocalKeeps(su, w, pid);
  }

  /** With everything landed the read-back of either object succeeds. */
  lemma ReadBackSucceeds(su: Setup, w: World, pid: nat)
    requires HistorySound(su, w.store) && DiskSound(su, w.store) && Landed(su, w) && pid in w.procs
    requires HolderSound(su, w.store, w.procs[pid]) && w.procs[pid].pc.Verifying?
    ensures CanVerifyRemote(su, w, pid, Index(w.procs[pid].pc.k))
  {
    var p := w.procs[pid];
    var i := Index(p.pc.k);
    assert Verifies(su, w.store, i);
    assert w.store.issued[i].bucket == p.dest.bucket && w.store.issued[i].name == p.state.NameOf(p.pc.k);
  }

  lemma VerifyRemoteStaysOnCourse(su: Setup, w: World, pid: nat)
    requires Course(su, w, pid) && w.lock == Some(pid) && HolderSound(su, w.store, w.procs[pid])
    requires w.procs[pid].pc.Verifying?
    ensures Course(su, DoVerifyRemote(w, pid), pid) && Closer(w, DoVerifyRemote(w, pid), pid)
  {
    var p' := DoVerifyRemote(w, pid).procs[pid];
    if p'.role.Uploader? {
      assert UploaderOnCourse(su, DoVerifyRemote(w, pid), p');
    } else {
      assert ReconcilerOnCourse(su, DoVerifyRemote(w, pid), p');
    }
  }

  lemma VerifyRemoteAdvances(su: Setup, w: World, pid: nat)
    requires OnCourse(su, w, pid) && w.procs[pid].pc.Verifying?
    ensures CanVerifyRemote(su, w, pid, Index(w.procs[pid].pc.k))
    ensures Advanced(su, w, DoVerifyRemote(w, pid), pid)
  {
    ReadBackSucceeds(su, w, pid);
    VerifyRemoteStaysOnCourse(su, w, pid);
    VerifyRemoteKeeps(su, w, pid, Index(w.procs[pid].pc.k));
  }

  lemma PublishStaysOnCourse(su: Setup, w: World, pid: nat)
    requires Course(su, w, pid) && w.procs[pid].pc.Publishing?
    requires DiskSound(su, w.store) && HolderSound(su, w.store, w.procs[pid])
    ensures CanPublish(su, w, pid)
    ensures Course(su, DoPublish(su, w, pid), pid) && Closer(w, DoPublish(su, w, pid), pid)
  {
    SameRemote(su, w, DoPublish(su, w, pid));
  }

  lemma PublishAdvances(su: Setup, w: World, pid: nat)
    requires OnCourse(su, w, pid) && w.procs[pid].pc.Publishing?
    ensures CanPublish(su, w, pid)
    ensures Advanced(su, w, DoPublish(su, w, pid), pid)
  {
    Holder(su, w, pid);
    PublishStaysOnCourse(su, w, pid);
    PublishKeeps(su, w, pid);
  }

  lemma FinishStaysOnCourse(su: Setup, w: World, pid: nat)
    requires Course(su, w, pid) && w.procs[pid].pc.SyncingReceipt? && w.lock == Some(pid)
    requires HolderSound(su, w.store, w.procs[pid])
    ensures CanFinish(w, pid)
    ensures Course(su, DoFinish(su, w, pid), pid) && Closer(w, DoFinish(su, w, pid), pid)
  {
    SameRemote(su, w, DoFinish(su, w, pid));
  }

  lemma FinishAdvances(su: Setup, w: World, pid: nat)
    requires OnCourse(su, w, pid) && w.procs[pid].pc.SyncingReceipt?
    ensures CanFinish(w, pid)
    ensures Advanced(su, w, DoFinish(su, w, pid), pid)
  {
    Holder(su, w, pid);
    FinishStaysOnCourse(su, w, pid);
    FinishKeeps(su, w, pid);
  }

  lemma CompleteAdvances(su: Setup, w: World, pid: nat, now: string)
    requires OnCourse(su, w, pid) && w.procs[pid].pc.Completing?
    ensures CanComplete(w, pid)
    ensures Advanced(su, w, DoComplete(su, w, pid, now), pid)
  {
    CompleteKeeps(su, w, pid, now);
  }

  /** An object never armed was reached with everything before it acknowledged. */
  lemma NothingListed(su: Setup, w: World, pid: nat)
    requires Course(su, w, pid) && w.lock == Some(pid) && HolderSound(su, w.store, w.procs[pid])
    requires w.procs[pid].pc.Looking? && w.procs[pid].state.StatusOf(w.procs[pid].pc.k).Ready?
    requires Coherent(su, w.store, w.store.visible.intent)
    ensures var w' := Stop(w, pid, ReadyToResume(w.procs[pid].pc.k)); Course(su, w', pid) && Closer(w, w', pid)
  {
    assert NothingPending(w.procs[pid].state);
  }

  lemma FoundStaysOnCourse(su: Setup, w: World, pid: nat, id: string)
    requires Course(su, w, pid) && w.lock == Some(pid) && w.procs[pid].pc.Looking?
    ensures var p := w.procs[pid]; var w' := With(w, pid, p.(found := id, pc := CheckingLocal(p.pc.k)));
            Course(su, w', pid) && Closer(w, w', pid)
  {
  }

  lemma ListStaysOnCourse(su: Setup, w: World, pid: nat)
    requires Course(su, w, pid) && w.lock == Some(pid) && HolderSound(su, w.store, w.procs[pid])
    requires w.procs[pid].pc.Looking? && CanList(w, pid) && Coherent(su, w.store, w.store.visible.intent)
    ensures Course(su, DoList(w, pid), pid) && Closer(w, DoList(w, pid), pid)
  {
    var p := w.procs[pid];
    var found := Listed(w.store, p.dest.bucket, p.state.NameOf(p.pc.k));
    if found == {} {
      NothingListed(su, w, pid);
    } else {
      FoundStaysOnCourse(su, w, pid, w.store.landed[Sole(found)].id);
    }
  }

  lemma ListAdvances(su: Setup, w: World, pid: nat)
    requires OnCourse(su, w, pid) && w.procs[pid].pc.Looking?
    ensures CanList(w, pid)
    ensures Advanced(su, w, DoList(w, pid), pid)
  {
    Holder(su, w, pid);
    ListIsEnabled(su, w, pid);
    ListStaysOnCourse(su, w, pid);
    ListKeeps(su, w, pid);
  }

  lemma AcknowledgeSucceeds(su: Setup, w: World, pid: nat)
    requires Course(su, w, pid) && w.procs[pid].pc.Awaiting? && w.procs[pid].pc.i in w.store.landed
    requires HistorySound(su, w.store) && w.lock == Some(pid) && HolderSound(su, w.store, w.procs[pid])
    ensures CanAcknowledge(su, w, pid)
    ensures Course(su, DoAcknowledge(w, pid), pid) && Closer(w, DoAcknowledge(w, pid), pid)
  {
    var p := w.procs[pid];
    assert AwaitingIntact(su, w, p, p.pc.k, p.pc.i);
    assert Verifies(su, w.store, p.pc.i);
    SameRemote(su, w, DoAcknowledge(w, pid));
    assert UploaderOnCourse(su, DoAcknowledge(w, pid), DoAcknowledge(w, pid).procs[pid]);
  }

  lemma AcknowledgeAdvances(su: Setup, w: World, pid: nat)
    requires OnCourse(su, w, pid) && w.procs[pid].pc.Awaiting? && w.procs[pid].pc.i in w.store.landed
    ensures CanAcknowledge(su, w, pid)
    ensures Advanced(su, w, DoAcknowledge(w, pid), pid)
  {
    AcknowledgeSucceeds(su, w, pid);
    AcknowledgeKeeps(su, w, pid);
  }

  /** The request in flight lands as it was sent. */
  lemma LandedIntact(su: Setup, w: World, p: Proc, k: Kind, i: nat, id: string)
    requires AwaitingIntact(su, w, p, k, i) && i !in w.store.landed && PackageCheck(su, w.file).Ok?
    requires ValidFileId(id) && i == Index(k)
    ensures AwaitingIntact(su, DoLand(w, i, id, w.store.issued[i].content), p, k, i)
  {
    var w' := DoLand(w, i, id, w.store.issued[i].content);
    forall j: nat | j <= i ensures Verifies(su, w'.store, j) {
      if j < i { assert Verifies(su, w.store, j); }
    }
  }

  lemma LandStaysOnCourse(su: Setup, w: World, pid: nat)
    requires Course(su, w, pid) && w.procs[pid].pc.Awaiting? && w.procs[pid].pc.i !in w.store.landed
    requires HistorySound(su, w.store) && w.lock == Some(pid) && HolderSound(su, w.store, w.procs[pid])
    ensures w.procs[pid].pc.i < |w.store.issued|
    ensures var i := w.procs[pid].pc.i; var id := FreshId(w.store.landed);
            var w' := DoLand(w, i, id, w.store.issued[i].content);
            CanLand(w, i, id) && Course(su, w', pid) && Closer(w, w', pid)
  {
    var p := w.procs[pid];
    var i := p.pc.i;
    var w' := DoLand(w, i, FreshId(w.store.landed), w.store.issued[i].content);
    assert AwaitingIntact(su, w, p, p.pc.k, i);
    LandedIntact(su, w, p, p.pc.k, i, FreshId(w.store.landed));
    assert UploaderOnCourse(su, w', p);
  }

  lemma LandAdvances(su: Setup, w: World, pid: nat)
    requires OnCourse(su, w, pid) && w.procs[pid].pc.Awaiting? && w.procs[pid].pc.i !in w.store.landed
    ensures w.procs[pid].pc.i < |w.store.issued|
    ensures var i := w.procs[pid].pc.i; var id := FreshId(w.store.landed);
            CanLand(w, i, id) && Advanced(su, w, DoLand(w, i, id, w.store.issued[i].content), pid)
  {
    var i := w.procs[pid].pc.i;
    LandStaysOnCourse(su, w, pid);
    LandKeeps(su, w, i, FreshId(w.store.landed), w.store.issued[i].content);
  }

  lemma EarlyDriveAdvances(su: Setup, w: World, pid: nat, now: string)
    requires OnCourse(su, w, pid)
    requires var pc := w.procs[pid].pc; pc.CheckingPackage? || pc.Locking? || pc.CheckingReceipt? || pc.Loading?
    ensures Enabled(su, w, DriveStep(su, w, pid, now))
    ensures Advanced(su, w, Apply(su, w, DriveStep(su, w, pid, now)), pid)
  {
    match w.procs[pid].pc
    case CheckingPackage => CheckPackageAdvances(su, w, pid);
    case Locking => AcquireAdvances(su, w, pid);
    case CheckingReceipt => CheckReceiptAdvances(su, w, pid);
    case Loading => LoadAdvances(su, w, pid);
  }

  lemma WritingDriveAdvances(su: Setup, w: World, pid: nat, now: string)
    requires OnCourse(su, w, pid)
    requires var pc := w.procs[pid].pc; pc.Sending? || pc.Saving? || pc.Syncing?
    ensures Enabled(su, w, DriveStep(su, w, pid, now))
    ensures Advanced(su, w, Apply(su, w, DriveStep(su, w, pid, now)), pid)
  {
    match w.procs[pid].pc
    case Sending(_) => SendOnceAdvances(su, w, pid);
    case Saving(_) => SaveAdvances(su, w, pid);
    case Syncing(_) => SyncAdvances(su, w, pid);
  }

  lemma AwaitingDriveAdvances(su: Setup, w: World, pid: nat, now: string)
    requires OnCourse(su, w, pid) && w.procs[pid].pc.Awaiting?
    ensures Enabled(su, w, DriveStep(su, w, pid, now))
    ensures Advanced(su, w, Apply(su, w, DriveStep(su, w, pid, now)), pid)
  {
    if w.procs[pid].pc.i in w.store.landed {
      AcknowledgeAdvances(su, w, pid);
    } else {
      LandAdvances(su, w, pid);
    }
  }

  lemma IssuingDriveAdvances(su: Setup, w: World, pid: nat, now: string)
    requires OnCourse(su, w, pid) && w.procs[pid].pc.Issuing?
    ensures Enabled(su, w, DriveStep(su, w, pid, now))
    ensures Advanced(su, w, Apply(su, w, DriveStep(su, w, pid, now)), pid)
  {
    IssueAdvances(su, w, pid);
  }

  lemma CheckingDriveAdvances(su: Setup, w: World, pid: nat, now: string)
    requires OnCourse(su, w, pid) && w.procs[pid].pc.CheckingLocal?
    ensures Enabled(su, w, DriveStep(su, w, pid, now))
    ensures Advanced(su, w, Apply(su, w, DriveStep(su, w, pid, now)), pid)
  {
    CheckLocalAdvances(su, w, pid);
  }

  lemma VerifyingDriveAdvances(su: Setup, w: World, pid: nat, now: string)
    requires OnCourse(su, w, pid) && w.procs[pid].pc.Verifying?
    ensures Enabled(su, w, DriveStep(su, w, pid, now))
    ensures Advanced(su, w, Apply(su, w, DriveStep(su, w, pid, now)), pid)
  {
    VerifyRemoteAdvances(su, w, pid);
  }

  lemma ListingDriveAdvances(su: Setup, w: World, pid: nat, now: string)
    requires OnCourse(su, w, pid) && (w.procs[pid].pc.Completing? || w.procs[pid].pc.Looking?)
    ensures Enabled(su, w, DriveStep(su, w, pid, now))
    ensures Advanced(su, w, Apply(su, w, DriveStep(su, w, pid, now)), pid)
  {
    match w.procs[pid].pc
    case Completing => CompleteAdvances(su, w, pid, now);
    case Looking(_) => ListAdvances(su, w, pid);
  }

  lemma ClosingDriveAdvances(su: Setup, w: World, pid: nat, now: string)
    requires OnCourse(su, w, pid) && (w.procs[pid].pc.Publishing? || w.procs[pid].pc.SyncingReceipt?)
    ensures Enabled(su, w, DriveStep(su, w, pid, now))
    ensures Advanced(su, w, Apply(su, w, DriveStep(su, w, pid, now)), pid)
  {
    match w.procs[pid].pc
    case Publishing => PublishAdvances(su, w, pid);
    case SyncingReceipt => FinishAdvances(su, w, pid);
  }

  /** One undisturbed step is possible, stays on course and brings the process closer to its end. */
  lemma DriveAdvances(su: Setup, w: World, pid: nat, now: string)
    requires OnCourse(su, w, pid) && !w.procs[pid].pc.Done?
    ensures Enabled(su, w, DriveStep(su, w, pid, now))
    ensures Advanced(su, w, Apply(su, w, DriveStep(su, w, pid, now)), pid)
  {
    var pc := w.procs[pid].pc;
    if pc.CheckingPackage? || pc.Locking? || pc.CheckingReceipt? || pc.Loading? {
      EarlyDriveAdvances(su, w, pid, now);
    } else if pc.Sending? || pc.Saving? || pc.Syncing? {
      WritingDriveAdvances(su, w, pid, now);
    } else if pc.Issuing? {
      IssuingDriveAdvances(su, w, pid, now);
    } else if pc.Awaiting? {
      AwaitingDriveAdvances(su, w, pid, now);
    } else if pc.CheckingLocal? {
      CheckingDriveAdvances(su, w, pid, now);
    } else if pc.Verifying? {
      VerifyingDriveAdvances(su, w, pid, now);
    } else if pc.Completing? || pc.Looking? {
      ListingDriveAdvances(su, w, pid, now);
    } else {
      ClosingDriveAdvances(su, w, pid, now);
    }
  }

  /** An undisturbed process runs to its end. */
  lemma {:induction false} DriveToEnd(su: Setup, w: World, pid: nat, now: string) returns (w': World)
    requires OnCourse(su, w, pid)
    ensures CalmLeads(su, w, w') && OnCourse(su, w', pid) && w'.procs[pid].pc.Done?
    ensures w'.procs.Keys == w.procs.Keys
    ensures w'.procs[pid].role == w.procs[pid].role && w'.procs[pid].dest == w.procs[pid].dest
    decreases Rank(w, pid)
  {
    if w.procs[pid].pc.Done? {
      w' := w;
      CalmSelf(su, w);
    } else {
      DriveAdvances(su, w, pid, now);
      var next := Apply(su, w, DriveStep(su, w, pid, now));
      w' := DriveToEnd(su, next, pid, now);
      CalmStep(su, w, DriveStep(su, w, pid, now));
      CalmTransitive(su, w, next, w');
    }
  }

  /** An idle world, ready for one more process. */
  ghost predicate Idle(su: Setup, w: World, dest: Destination) {
    Inv(su, w) && w.lock.None? && Landed(su, w)
    && (w.store.visible.intent.Some? ==> DestinationOf(w.store.visible.intent.value) == dest)
  }

  /** A new process is started and runs undisturbed to its end. */
  lemma RunNew(su: Setup, w: World, role: Role, dest: Destination, pid: nat, now: string) returns (w': World)
    requires CanSpawn(w, pid) && OnCourse(su, DoSpawn(su, w, pid, role, dest), pid)
    ensures CalmLeads(su, w, w') && OnCourse(su, w', pid) && w'.procs.Keys == w.procs.Keys + {pid}
    ensures w'.procs[pid].pc.Done? && w'.procs[pid].role == role && w'.procs[pid].dest == dest
  {
    var w0 := DoSpawn(su, w, pid, role, dest);
    w' := DriveToEnd(su, w0, pid, now);
    CalmStep(su, w, Spawn(pid, role, dest));
    CalmTransitive(su, w, w0, w');
  }

  lemma UploaderStartsOnCourse(su: Setup, w: World, dest: Destination, pid: nat)
    requires Idle(su, w, dest) && pid !in w.procs && w.store.visible.receipt.None?
    requires w.store.visible.intent.Some? ==> NothingPending(w.store.visible.intent.value)
    ensures OnCourse(su, DoSpawn(su, w, pid, Uploader, dest), pid)
  {
    SpawnKeeps(su, w, pid, Uploader, dest);
  }

  lemma ReconcilerStartsOnCourse(su: Setup, w: World, dest: Destination, pid: nat)
    requires Idle(su, w, dest) && pid !in w.procs
    requires w.store.visible.intent.Some? && NoLostRequest(w.store, w.store.visible.intent.value)
    ensures OnCourse(su, DoSpawn(su, w, pid, Reconciler, dest), pid)
  {
    SpawnKeeps(su, w, pid, Reconciler, dest);
  }

  lemma UploaderEnds(su: Setup, w: World, pid: nat)
    requires Course(su, w, pid) && w.procs[pid].pc.Done? && w.procs[pid].role.Uploader?
    ensures w.store.visible.receipt.Some?
  {
  }

  lemma ReconcilerEnds(su: Setup, w: World, pid: nat)
    requires OnCourse(su, w, pid) && w.procs[pid].pc.Done? && w.procs[pid].role.Reconciler?
    ensures w.store.visible.receipt.Some?
         || (Idle(su, w, w.procs[pid].dest) && w.store.visible.intent.Some?
             && NothingPending(w.store.visible.intent.value))
  {
    var o := w.procs[pid].pc.outcome;
    assert ReconcilerOnCourse(su, w, w.procs[pid]);
    assert o.Published? || o.ReadyToResume?;
  }

  /** With no receipt and nothing pending, one undisturbed upload publishes the receipt. */
  lemma UploadReachesReceipt(su: Setup, w: World, dest: Destination, pid: nat, now: string) returns (w': World)
    requires Idle(su, w, dest) && pid !in w.procs && w.store.visible.receipt.None?
    requires w.store.visible.intent.Some? ==> NothingPending(w.store.visible.intent.value)
    ensures CalmLeads(su, w, w') && w'.store.visible.receipt.Some? && w'.procs.Keys == w.procs.Keys + {pid}
  {
    UploaderStartsOnCourse(su, w, dest, pid);
    w' := RunNew(su, w, Uploader, dest, pid, now);
    UploaderEnds(su, w', pid);
  }

  /** With a journal and no lost request, one undisturbed reconciliation publishes or clears the way. */
  lemma ReconcileClearsTheWay(su: Setup, w: World, dest: Destination, pid: nat, now: string) returns (w': World)
    requires Idle(su, w, dest) && pid !in w.procs
    requires w.store.visible.intent.Some? && NoLostRequest(w.store, w.store.visible.intent.value)
    ensures CalmLeads(su, w, w') && w'.procs.Keys == w.procs.Keys + {pid}
    ensures w'.store.visible.receipt.Some?
         || (Idle(su, w', dest) && w'.store.visible.intent.Some? && NothingPending(w'.store.visible.intent.value))
  {
    ReconcilerStartsOnCourse(su, w, dest, pid);
    w' := RunNew(su, w, Reconciler, dest, pid, now);
    ReconcilerEnds(su, w', pid);
  }

  /** A reconciliation, if there is a journal, and an upload, if there is no receipt yet. */
  lemma IdleReachesReceipt(su: Setup, w: World, dest: Destination, r: nat, u: nat, now: string) returns (w': World)
    requires Idle(su, w, dest) && r !in w.procs && u !in w.procs && r != u
    requires w.store.visible.intent.Some? ==> NoLostRequest(w.store, w.store.visible.intent.value)
    requires w.store.visible.intent.None? ==> w.store.visible.receipt.None?
    ensures CalmLeads(su, w, w') && w'.store.visible.receipt.Some?
    ensures w.procs.Keys <= w'.procs.Keys <= w.procs.Keys + {r, u}
  {
    if w.store.visible.intent.None? {
      w' := UploadReachesReceipt(su, w, dest, u, now);
    } else {
      var w1 := ReconcileClearsTheWay(su, w, dest, r, now);
      w' := w1;
      if w1.store.visible.receipt.None? {
        w' := UploadReachesReceipt(su, w1, dest, u, now);
        CalmTransitive(su, w, w1, w');
      }
    }
  }

  /**
   * From every reachable idle world whose sent requests have landed verifiably, and in which no pending
   * request was lost, one undisturbed reconciliation and at most one undisturbed upload publish
   * the receipt.
   */
  lemma RecoveryReachesReceipt(su: Setup, w: World, dest: Destination, r: nat, u: nat, now: string) returns (w': World)
    requires Reachable(su, w) && w.lock.None? && Landed(su, w)
    requires w.store.visible.intent.Some? ==>
               DestinationOf(w.store.visible.intent.value) == dest
               && NoLostRequest(w.store, w.store.visible.intent.value)
    requires r !in w.procs && u !in w.procs && r != u
    ensures CalmLeads(su, w, w') && w'.store.visible.receipt.Some?
    ensures w.procs.Keys <= w'.procs.Keys <= w.procs.Keys + {r, u}
  {
    ReachableSound(su, w);
    w' := IdleReachesReceipt(su, w, dest, r, u, now);
  }
}
