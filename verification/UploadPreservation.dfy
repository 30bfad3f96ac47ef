/** Every step of the upload protocol keeps the invariant, hence so does every run. */
module UploadPreservation {
  import opened Wrappers
  import opened UploadIntent
  import opened UploadProtocol
  import opened UploadInvariant

  /** A settled journal cannot be extended to a different one. */
  lemma SettledIsFinal(su: Setup, st: Store, a: Intent, b: Intent)
    requires Settled(su, st, a) && Extends(Some(a), Some(b))
    requires LoadIntent(su, DestinationOf(a), a).Ok? && LoadIntent(su, DestinationOf(b), b).Ok?
    ensures a == b
  {
    assert a.StatusOf(Ciphertext).Acknowledged? && a.StatusOf(Marker).Acknowledged?;
    assert b.FileIdOf(Ciphertext) == a.FileIdOf(Ciphertext) && b.FileIdOf(Marker) == a.FileIdOf(Marker);
  }

  /** A journal write under way stays sound; sending an object is prepared by marking it pending. */
  lemma MarkPendingCoherent(su: Setup, st: Store, s: Intent, k: Kind)
    requires Coherent(su, st, Some(s)) && s.StatusOf(k).Ready? && (k.Marker? ==> s.completion.Some?)
    ensures Coherent(su, st, Some(s.MarkPending(k))) && Extends(Some(s), Some(s.MarkPending(k)))
    ensures |st.issued| <= Index(k)
  {
    var s' := s.MarkPending(k);
    assert s.StatusOf(Ciphertext) == s.ciphertextStatus && s.StatusOf(Marker) == s.markerStatus;
    assert LoadIntent(su, DestinationOf(s'), s').Ok?;
    forall j: Kind ensures s'.StatusOf(j) == if j == k then Pending else s.StatusOf(j) {}
    forall j: Kind ensures s'.FileIdOf(j) == s.FileIdOf(j) && s'.NameOf(j) == s.NameOf(j) {}
  }

  lemma MarkAcknowledgedCoherent(su: Setup, st: Store, s: Intent, k: Kind, id: string)
    requires Coherent(su, st, Some(s)) && ValidFileId(id)
    requires Index(k) in st.landed && st.landed[Index(k)].id == id && |st.issued| > Index(k)
    requires s.FileIdOf(k).Some? ==> s.FileIdOf(k).value == id
    requires k.Marker? ==> s.completion.Some?
    ensures Coherent(su, st, Some(s.MarkAcknowledged(k, id))) && Extends(Some(s), Some(s.MarkAcknowledged(k, id)))
    ensures s.MarkAcknowledged(k, id).StatusOf(k).Acknowledged?
  {
    var s' := s.MarkAcknowledged(k, id);
    assert s.StatusOf(Ciphertext) == s.ciphertextStatus && s.StatusOf(Marker) == s.markerStatus;
    assert s.FileIdOf(Ciphertext) == s.ciphertextFileId && s.FileIdOf(Marker) == s.completionFileId;
    assert LoadIntent(su, DestinationOf(s'), s').Ok?;
    forall j: Kind ensures j != k ==> s'.StatusOf(j) == s.StatusOf(j) && s'.FileIdOf(j) == s.FileIdOf(j) {}
    forall j: Kind ensures s'.NameOf(j) == s.NameOf(j) {}
  }

  /** One process moves, holding the lock, while the store becomes `st`. */
  lemma Assemble(su: Setup, w: World, pid: nat, p: Proc, st: Store)
    requires Inv(su, w) && w.lock == Some(pid) && InLock(p.pc)
    requires HistorySound(su, st) && DiskSound(su, st) && HolderSound(su, st, p)
    requires forall q :: q in w.procs && OutcomeSound(su, w.store, w.procs[q]) ==> OutcomeSound(su, st, w.procs[q])
    ensures Inv(su, With(w, pid, p).(store := st))
  {
    var w' := With(w, pid, p).(store := st);
    assert OutcomesSound(su, st, w'.procs);
  }

  /** What the invariant says of a process inside the lock. */
  lemma Holder(su: Setup, w: World, pid: nat)
    requires Inv(su, w) && pid in w.procs && InLock(w.procs[pid].pc)
    ensures w.lock == Some(pid) && HistorySound(su, w.store) && DiskSound(su, w.store)
    ensures HolderSound(su, w.store, w.procs[pid])
  {
  }

  /** The lock holder `p` moves on to `p'` and leaves the store alone. */
  lemma Moves(su: Setup, w: World, pid: nat, p': Proc)
    requires Inv(su, w) && w.lock == Some(pid) && InLock(p'.pc) && HolderSound(su, w.store, p')
    ensures Inv(su, With(w, pid, p'))
  {
    assert With(w, pid, p').(store := w.store) == With(w, pid, p');
    Assemble(su, w, pid, p', w.store);
  }

  /** The process after send_once has looked at the journal. */
  function SentOnce(p: Proc): Proc
    requires p.pc.Sending?
  {
    var k := p.pc.k;
    if p.state.StatusOf(k).Ready? then p.(state := p.state.MarkPending(k), pc := Saving(MarkedPending(k)))
    else At(p, CheckingLocal(k))
  }

  lemma SentOnceSound(su: Setup, st: Store, p: Proc)
    requires HistorySound(su, st) && DiskSound(su, st) && HolderSound(su, st, p)
    requires p.pc.Sending? && !p.state.StatusOf(p.pc.k).Pending?
    ensures HolderSound(su, st, SentOnce(p))
  {
    if p.state.StatusOf(p.pc.k).Ready? { MarkPendingCoherent(su, st, p.state, p.pc.k); }
  }

  lemma SendOnceKeeps(su: Setup, w: World, pid: nat)
    requires Inv(su, w) && CanSendOnce(w, pid)
    ensures Inv(su, DoSendOnce(w, pid))
  {
    Holder(su, w, pid);
    SentOnceSound(su, w.store, w.procs[pid]);
    Moves(su, w, pid, SentOnce(w.procs[pid]));
  }

  /** Coherence and progress facts depend on the history alone, not on the disk images. */
  lemma DiskIrrelevant(su: Setup, st: Store, st': Store, o: Option<Intent>)
    requires st.issued == st'.issued && st.landed == st'.landed
    ensures Coherent(su, st, o) == Coherent(su, st', o)
    ensures o.Some? ==> Settled(su, st, o.value) == Settled(su, st', o.value)
  {
  }

  /** The store after process `p` has replaced the journal. */
  function SavedStore(st: Store, p: Proc): Store { st.(visible := st.visible.(intent := Some(p.state))) }

  /** A replaced journal that was settled is the same journal. */
  lemma SavedSettled(su: Setup, st: Store, p: Proc)
    requires DiskSound(su, st) && HolderSound(su, st, p) && p.pc.Saving?
    requires st.visible.intent.Some? && Settled(su, st, st.visible.intent.value)
    ensures SavedStore(st, p) == st
  {
    SettledIsFinal(su, st, st.visible.intent.value, p.state);
  }

  lemma SavedDiskSound(su: Setup, st: Store, p: Proc)
    requires HistorySound(su, st) && DiskSound(su, st) && HolderSound(su, st, p) && p.pc.Saving?
    ensures HistorySound(su, SavedStore(st, p)) && DiskSound(su, SavedStore(st, p))
  {
    if st.visible.receipt.Some? {
      SavedSettled(su, st, p);
    } else {
      DiskIrrelevant(su, st, SavedStore(st, p), Some(p.state));
      DiskIrrelevant(su, st, SavedStore(st, p), st.durable.intent);
    }
  }

  lemma SavedWriteSound(su: Setup, st: Store, p: Proc)
    requires HolderSound(su, st, p) && p.pc.Saving?
    ensures HolderSound(su, SavedStore(st, p), At(p, Syncing(p.pc.after)))
  {
    DiskIrrelevant(su, st, SavedStore(st, p), Some(p.state));
    assert WriteSound(su, SavedStore(st, p), p, p.pc.after);
  }

  lemma SavedOutcome(su: Setup, st: Store, p: Proc, q: Proc)
    requires DiskSound(su, st) && HolderSound(su, st, p) && p.pc.Saving? && OutcomeSound(su, st, q)
    ensures OutcomeSound(su, SavedStore(st, p), q)
  {
    if q.pc.Done? && q.pc.outcome.Published? { SavedSettled(su, st, p); }
  }

  lemma SaveKeeps(su: Setup, w: World, pid: nat)
    requires Inv(su, w) && CanSave(w, pid)
    ensures Inv(su, DoSave(w, pid))
  {
    var p := w.procs[pid];
    Holder(su, w, pid);
    SavedDiskSound(su, w.store, p);
    SavedWriteSound(su, w.store, p);
    forall q | q in w.procs && OutcomeSound(su, w.store, w.procs[q])
      ensures OutcomeSound(su, SavedStore(w.store, p), w.procs[q])
    {
      SavedOutcome(su, w.store, p, w.procs[q]);
    }
    Assemble(su, w, pid, At(p, Syncing(p.pc.after)), SavedStore(w.store, p));
  }

  /** Once its journal write is durable a process may rely on it. */
  lemma ResumeSound(su: Setup, st: Store, p: Proc, a: After)
    requires InSync(su, st, p) && WriteSound(su, st, p, a)
    ensures HolderSound(su, st, At(p, Resume(p, a)))
  {
    var p' := At(p, Resume(p, a));
    match a {
      case Created =>
      case MarkedPending(k) =>
      case MarkedAcknowledged(k) => assert CandidateSound(st, p', k);
      case CompletionRecorded =>
      case Adopted(k) => assert ObjectGood(su, st, p'.state, k);
    }
  }

  function SyncedStore(st: Store): Store { st.(durable := st.visible) }

  lemma SyncedSound(su: Setup, st: Store)
    requires HistorySound(su, st) && DiskSound(su, st)
    ensures HistorySound(su, SyncedStore(st)) && DiskSound(su, SyncedStore(st))
  {
    DiskIrrelevant(su, st, SyncedStore(st), st.visible.intent);
  }

  lemma SyncedWriteSound(su: Setup, st: Store, p: Proc)
    requires HolderSound(su, st, p) && p.pc.Syncing?
    ensures HolderSound(su, SyncedStore(st), At(p, Resume(p, p.pc.after)))
  {
    DiskIrrelevant(su, st, SyncedStore(st), Some(p.state));
    assert WriteSound(su, SyncedStore(st), p, p.pc.after);
    ResumeSound(su, SyncedStore(st), p, p.pc.after);
  }

  lemma SyncedOutcome(su: Setup, st: Store, q: Proc)
    requires OutcomeSound(su, st, q)
    ensures OutcomeSound(su, SyncedStore(st), q)
  {
  }

  lemma SyncKeeps(su: Setup, w: World, pid: nat)
    requires Inv(su, w) && CanSync(w, pid)
    ensures Inv(su, DoSync(w, pid))
  {
    var p := w.procs[pid];
    Holder(su, w, pid);
    SyncedSound(su, w.store);
    SyncedWriteSound(su, w.store, p);
    forall q | q in w.procs && OutcomeSound(su, w.store, w.procs[q])
      ensures OutcomeSound(su, SyncedStore(w.store), w.procs[q])
    {
      SyncedOutcome(su, w.store, w.procs[q]);
    }
    Assemble(su, w, pid, At(p, Resume(p, p.pc.after)), SyncedStore(w.store));
  }

  /** The process after a successful read-back. */
  function VerifiedProc(p: Proc): Proc
    requires p.pc.Verifying?
  {
    if p.role.Uploader? then At(p, AfterVerified(p, p.pc.k))
    else p.(state := p.state.MarkAcknowledged(p.pc.k, p.found), pc := Saving(Adopted(p.pc.k)))
  }

  lemma VerifiedIsGood(su: Setup, w: World, pid: nat, i: nat)
    requires HistorySound(su, w.store) && CanVerifyRemote(su, w, pid, i) && HolderSound(su, w.store, w.procs[pid])
    ensures ObjectGood(su, w.store, w.procs[pid].state, w.procs[pid].pc.k)
  {
    assert i == Index(w.procs[pid].pc.k);
  }

  lemma VerifiedSound(su: Setup, st: Store, p: Proc)
    requires HistorySound(su, st) && DiskSound(su, st) && HolderSound(su, st, p) && p.pc.Verifying?
    requires ObjectGood(su, st, p.state, p.pc.k)
    ensures HolderSound(su, st, VerifiedProc(p))
  {
    if p.role.Reconciler? { MarkAcknowledgedCoherent(su, st, p.state, p.pc.k, p.found); }
  }

  lemma VerifyRemoteKeeps(su: Setup, w: World, pid: nat, i: nat)
    requires Inv(su, w) && CanVerifyRemote(su, w, pid, i)
    ensures Inv(su, DoVerifyRemote(w, pid))
  {
    Holder(su, w, pid);
    VerifiedIsGood(su, w, pid, i);
    VerifiedSound(su, w.store, w.procs[pid]);
    Moves(su, w, pid, VerifiedProc(w.procs[pid]));
  }

  function Completed(su: Setup, p: Proc, now: string): Proc
    requires p.state.ciphertextFileId.Some?
  {
    p.(state := p.state.(completion := Some(CompletionRecord(su, p.state, p.dest, now))),
       pc := Saving(CompletionRecorded))
  }

  lemma CompletedSound(su: Setup, st: Store, p: Proc, now: string)
    requires HistorySound(su, st) && DiskSound(su, st) && HolderSound(su, st, p)
    requires p.pc.Completing? && p.state.ciphertextFileId.Some?
    ensures HolderSound(su, st, Completed(su, p, now))
  {
    var p' := Completed(su, p, now);
    assert forall j: Kind :: p'.state.StatusOf(j) == p.state.StatusOf(j);
    assert Coherent(su, st, Some(p'.state));
  }

  lemma CompleteKeeps(su: Setup, w: World, pid: nat, now: string)
    requires Inv(su, w) && CanComplete(w, pid)
    ensures Inv(su, DoComplete(su, w, pid, now))
  {
    Holder(su, w, pid);
    CompletedSound(su, w.store, w.procs[pid], now);
    Moves(su, w, pid, Completed(su, w.procs[pid], now));
  }

  /** The lock holder ends, leaving the store as `st`. */
  lemma Leave(su: Setup, w: World, pid: nat, o: Outcome, st: Store)
    requires Inv(su, w) && w.lock == Some(pid)
    requires HistorySound(su, st) && DiskSound(su, st) && OutcomeSound(su, st, At(w.procs[pid], Done(o)))
    requires forall q :: q in w.procs && OutcomeSound(su, w.store, w.procs[q]) ==> OutcomeSound(su, st, w.procs[q])
    ensures Inv(su, Stop(w, pid, o).(store := st))
  {
    var w' := Stop(w, pid, o).(store := st);
    assert OutcomesSound(su, st, w'.procs);
  }

  /** Listing a name finds at most the one request for that object. */
  lemma ListedIsOwn(su: Setup, st: Store, p: Proc, k: Kind, i: nat)
    requires HistorySound(su, st) && InSync(su, st, p) && Coherent(su, st, Some(p.state))
    requires i in Listed(st, p.dest.bucket, p.state.NameOf(k))
    ensures i == Index(k)
  {
    NamesDiffer(su, p.dest);
    var j := if i == 0 then Ciphertext else Marker;
    assert Index(j) == i && st.issued[Index(j)].name == p.state.NameOf(j);
  }

  lemma FoundSound(su: Setup, st: Store, p: Proc, i: nat)
    requires HistorySound(su, st) && DiskSound(su, st) && HolderSound(su, st, p) && p.pc.Looking?
    requires i in Listed(st, p.dest.bucket, p.state.NameOf(p.pc.k)) && Adoptable(p, p.pc.k, st.landed[i].id)
    ensures HolderSound(su, st, p.(found := st.landed[i].id, pc := CheckingLocal(p.pc.k)))
  {
    ListedIsOwn(su, st, p, p.pc.k, i);
  }

  lemma ListKeeps(su: Setup, w: World, pid: nat)
    requires Inv(su, w) && CanList(w, pid)
    ensures Inv(su, DoList(w, pid))
  {
    var p := w.procs[pid];
    var found := Listed(w.store, p.dest.bucket, p.state.NameOf(p.pc.k));
    Holder(su, w, pid);
    if found == {} {
      LeavesAlone(su, w, pid, ReadyToResume(p.pc.k));
    } else {
      var i := Sole(found);
      assert i in found;
      FoundSound(su, w.store, p, i);
      Moves(su, w, pid, p.(found := w.store.landed[i].id, pc := CheckingLocal(p.pc.k)));
    }
  }

  lemma LeavesAlone(su: Setup, w: World, pid: nat, o: Outcome)
    requires Inv(su, w) && w.lock == Some(pid) && !o.Published?
    ensures Inv(su, Stop(w, pid, o))
  {
    Leave(su, w, pid, o, w.store);
    assert Stop(w, pid, o).(store := w.store) == Stop(w, pid, o);
  }

  lemma CrashedDiskSound(su: Setup, w: World, intentSurvives: bool, receiptSurvives: bool)
    requires HistorySound(su, w.store) && DiskSound(su, w.store)
    ensures var st := DoCrash(w, intentSurvives, receiptSurvives).store; HistorySound(su, st) && DiskSound(su, st)
  {
    var st := DoCrash(w, intentSurvives, receiptSurvives).store;
    DiskIrrelevant(su, w.store, st, w.store.visible.intent);
    DiskIrrelevant(su, w.store, st, w.store.durable.intent);
  }

  lemma CrashedOutcome(su: Setup, w: World, intentSurvives: bool, receiptSurvives: bool, q: nat)
    requires q in w.procs && OutcomeSound(su, w.store, w.procs[q])
    ensures var w' := DoCrash(w, intentSurvives, receiptSurvives);
            q in w'.procs && OutcomeSound(su, w'.store, w'.procs[q])
  {
  }

  lemma CrashKeeps(su: Setup, w: World, intentSurvives: bool, receiptSurvives: bool)
    requires Inv(su, w)
    ensures Inv(su, DoCrash(w, intentSurvives, receiptSurvives))
  {
    var w' := DoCrash(w, intentSurvives, receiptSurvives);
    CrashedDiskSound(su, w, intentSurvives, receiptSurvives);
    forall q | q in w'.procs ensures OutcomeSound(su, w'.store, w'.procs[q]) {
      CrashedOutcome(su, w, intentSurvives, receiptSurvives, q);
    }
  }

  /** `st'` is `st` after one more request has landed. */
  ghost predicate Lands(st: Store, st': Store) {
    st'.visible == st.visible && st'.durable == st.durable && st'.issued == st.issued
    && (forall i :: i in st.landed ==> i in st'.landed && st'.landed[i] == st.landed[i])
  }

  lemma CoherentLands(su: Setup, st: Store, st': Store, o: Option<Intent>)
    requires Lands(st, st') && Coherent(su, st, o)
    ensures Coherent(su, st', o)
  {
  }

  lemma HolderLands(su: Setup, st: Store, st': Store, p: Proc)
    requires Lands(st, st') && HolderSound(su, st, p)
    ensures HolderSound(su, st', p)
  {
    if p.pc.Saving? || p.pc.Syncing? {
      CoherentLands(su, st, st', Some(p.state));
    }
  }

  lemma LandKeeps(su: Setup, w: World, i: nat, id: string, content: Bytes)
    requires Inv(su, w) && CanLand(w, i, id)
    ensures Inv(su, DoLand(w, i, id, content))
  {
    var w' := DoLand(w, i, id, content);
    var st := w'.store;
    CoherentLands(su, w.store, st, w.store.visible.intent);
    CoherentLands(su, w.store, st, w.store.durable.intent);
    assert HistorySound(su, st) && DiskSound(su, st);
    assert OutcomesSound(su, st, w'.procs) by {
      forall q | q in w'.procs ensures OutcomeSound(su, st, w'.procs[q]) {
        assert OutcomeSound(su, w.store, w.procs[q]);
      }
    }
    if w.lock.Some? { HolderLands(su, w.store, st, w.procs[w.lock.value]); }
  }

  lemma SpawnKeeps(su: Setup, w: World, pid: nat, role: Role, dest: Destination)
    requires Inv(su, w) && CanSpawn(w, pid)
    ensures Inv(su, DoSpawn(su, w, pid, role, dest))
  {
  }

  lemma CheckPackageKeeps(su: Setup, w: World, pid: nat)
    requires Inv(su, w) && CanCheckPackage(su, w, pid)
    ensures Inv(su, DoCheckPackage(w, pid))
  {
  }

  lemma AcquireKeeps(su: Setup, w: World, pid: nat)
    requires Inv(su, w) && CanAcquire(w, pid)
    ensures Inv(su, DoAcquire(w, pid))
  {
    var w' := DoAcquire(w, pid);
    SyncedSound(su, w.store);
    forall q | q in w'.procs ensures OutcomeSound(su, w'.store, w'.procs[q]) {
      if q != pid { SyncedOutcome(su, w.store, w.procs[q]); }
    }
  }

  lemma CheckReceiptKeeps(su: Setup, w: World, pid: nat)
    requires Inv(su, w) && CanCheckReceipt(w, pid)
    ensures Inv(su, DoCheckReceipt(w, pid))
  {
    Holder(su, w, pid);
    Moves(su, w, pid, At(w.procs[pid], Loading));
  }

  lemma LoadKeeps(su: Setup, w: World, pid: nat)
    requires Inv(su, w) && CanLoad(su, w, pid)
    ensures Inv(su, DoLoad(su, w, pid))
  {
  }

  lemma IssueKeeps(su: Setup, w: World, pid: nat)
    requires Inv(su, w) && CanIssue(w, pid)
    ensures Inv(su, DoIssue(su, w, pid))
  {
  }

  lemma AcknowledgeKeeps(su: Setup, w: World, pid: nat)
    requires Inv(su, w) && CanAcknowledge(su, w, pid)
    ensures Inv(su, DoAcknowledge(w, pid))
  {
    var p := w.procs[pid];
    var k := p.pc.k;
    var id := w.store.landed[p.pc.i].id;
    MarkAcknowledgedCoherent(su, w.store, p.state, k, id);
    Assemble(su, w, pid, p.(state := p.state.MarkAcknowledged(k, id), pc := Saving(MarkedAcknowledged(k))), w.store);
  }

  lemma CheckLocalKeeps(su: Setup, w: World, pid: nat)
    requires Inv(su, w) && CanCheckLocal(su, w, pid)
    ensures Inv(su, DoCheckLocal(w, pid))
  {
    Holder(su, w, pid);
    Moves(su, w, pid, At(w.procs[pid], Verifying(w.procs[pid].pc.k)));
  }

  lemma PublishKeeps(su: Setup, w: World, pid: nat)
    requires Inv(su, w) && CanPublish(su, w, pid)
    ensures Inv(su, DoPublish(su, w, pid))
  {
    var p := w.procs[pid];
    var st := w.store.(visible := w.store.visible.(receipt := Some(ReceiptFor(su, p.state))));
    DiskIrrelevant(su, w.store, st, w.store.visible.intent);
    assert DiskSound(su, st);
    Assemble(su, w, pid, At(p, SyncingReceipt), st);
  }

  lemma FinishKeeps(su: Setup, w: World, pid: nat)
    requires Inv(su, w) && CanFinish(w, pid)
    ensures Inv(su, DoFinish(su, w, pid))
  {
    var p := w.procs[pid];
    var st := w.store.(durable := w.store.visible);
    DiskIrrelevant(su, w.store, st, w.store.visible.intent);
    assert DiskSound(su, st);
    Leave(su, w, pid, Published(su.prims.sha256(su.prims.encodeReceipt(w.store.visible.receipt.value))), st);
  }

  lemma FailKeeps(su: Setup, w: World, pid: nat)
    requires Inv(su, w) && CanFail(w, pid)
    ensures Inv(su, Stop(w, pid, Failed))
  {
  }

  lemma EditFileKeeps(su: Setup, w: World, content: Bytes)
    requires Inv(su, w)
    ensures Inv(su, w.(file := content))
  {
  }

  lemma OpeningStepKeeps(su: Setup, w: World, s: Step)
    requires Inv(su, w) && Enabled(su, w, s)
    requires s.Spawn? || s.CheckPackage? || s.Acquire? || s.CheckReceipt? || s.Load?
    ensures Inv(su, Apply(su, w, s))
  {
    if s.Spawn? { SpawnKeeps(su, w, s.pid, s.role, s.dest); return; }
    if s.CheckPackage? { CheckPackageKeeps(su, w, s.pid); return; }
    if s.Acquire? { AcquireKeeps(su, w, s.pid); return; }
    if s.CheckReceipt? { CheckReceiptKeeps(su, w, s.pid); return; }
    LoadKeeps(su, w, s.pid);
  }

  lemma WritingStepKeeps(su: Setup, w: World, s: Step)
    requires Inv(su, w) && Enabled(su, w, s) && (s.SendOnce? || s.Save? || s.Sync?)
    ensures Inv(su, Apply(su, w, s))
  {
    if s.SendOnce? { SendOnceKeeps(su, w, s.pid); return; }
    if s.Save? { SaveKeeps(su, w, s.pid); return; }
    SyncKeeps(su, w, s.pid);
  }

  lemma SendingStepKeeps(su: Setup, w: World, s: Step)
    requires Inv(su, w) && Enabled(su, w, s) && (s.Issue? || s.Acknowledge?)
    ensures Inv(su, Apply(su, w, s))
  {
    if s.Issue? { IssueKeeps(su, w, s.pid); return; }
    AcknowledgeKeeps(su, w, s.pid);
  }

  lemma VerifyingStepKeeps(su: Setup, w: World, s: Step)
    requires Inv(su, w) && Enabled(su, w, s) && (s.CheckLocal? || s.VerifyRemote?)
    ensures Inv(su, Apply(su, w, s))
  {
    if s.CheckLocal? { CheckLocalKeeps(su, w, s.pid); return; }
    VerifyRemoteKeeps(su, w, s.pid, s.i);
  }

  lemma CompleteStepKeeps(su: Setup, w: World, s: Step)
    requires Inv(su, w) && Enabled(su, w, s) && s.Complete?
    ensures Inv(su, Apply(su, w, s))
  {
    CompleteKeeps(su, w, s.pid, s.now);
  }

  lemma ListStepKeeps(su: Setup, w: World, s: Step)
    requires Inv(su, w) && Enabled(su, w, s) && s.List?
    ensures Inv(su, Apply(su, w, s))
  {
    ListKeeps(su, w, s.pid);
  }

  lemma PublishStepKeeps(su: Setup, w: World, s: Step)
    requires Inv(su, w) && Enabled(su, w, s) && s.Publish?
    ensures Inv(su, Apply(su, w, s))
  {
    PublishKeeps(su, w, s.pid);
  }

  lemma FinishStepKeeps(su: Setup, w: World, s: Step)
    requires Inv(su, w) && Enabled(su, w, s) && s.Finish?
    ensures Inv(su, Apply(su, w, s))
  {
    FinishKeeps(su, w, s.pid);
  }

  lemma FailStepKeeps(su: Setup, w: World, s: Step)
    requires Inv(su, w) && Enabled(su, w, s) && s.Fail?
    ensures Inv(su, Apply(su, w, s))
  {
    FailKeeps(su, w, s.pid);
  }

  lemma CrashStepKeeps(su: Setup, w: World, s: Step)
    requires Inv(su, w) && Enabled(su, w, s) && s.Crash?
    ensures Inv(su, Apply(su, w, s))
  {
    CrashKeeps(su, w, s.intentSurvives, s.receiptSurvives);
  }

  lemma LandStepKeeps(su: Setup, w: World, s: Step)
    requires Inv(su, w) && Enabled(su, w, s) && s.Land?
    ensures Inv(su, Apply(su, w, s))
  {
    LandKeeps(su, w, s.i, s.id, s.content);
  }

  lemma EditStepKeeps(su: Setup, w: World, s: Step)
    requires Inv(su, w) && Enabled(su, w, s) && s.EditFile?
    ensures Inv(su, Apply(su, w, s))
  {
    EditFileKeeps(su, w, s.content);
  }

  lemma ProcessStepKeeps(su: Setup, w: World, s: Step)
    requires Inv(su, w) && Enabled(su, w, s) && !s.Fail? && !s.Crash? && !s.Land? && !s.EditFile?
    ensures Inv(su, Apply(su, w, s))
  {
    if s.Spawn? || s.CheckPackage? || s.Acquire? || s.CheckReceipt? || s.Load? { OpeningStepKeeps(su, w, s); return; }
    if s.SendOnce? || s.Save? || s.Sync? { WritingStepKeeps(su, w, s); return; }
    if s.Issue? || s.Acknowledge? { SendingStepKeeps(su, w, s); return; }
    if s.CheckLocal? || s.VerifyRemote? { VerifyingStepKeeps(su, w, s); return; }
    if s.Complete? { CompleteStepKeeps(su, w, s); return; }
    if s.List? { ListStepKeeps(su, w, s); return; }
    if s.Publish? { PublishStepKeeps(su, w, s); return; }
    FinishStepKeeps(su, w, s);
  }

  lemma StepKeeps(su: Setup, w: World, s: Step)
    requires Inv(su, w) && Enabled(su, w, s)
    ensures Inv(su, Apply(su, w, s))
  {
    if s.Fail? { FailStepKeeps(su, w, s); return; }
    if s.Crash? { CrashStepKeeps(su, w, s); return; }
    if s.Land? { LandStepKeeps(su, w, s); return; }
    if s.EditFile? { EditStepKeeps(su, w, s); return; }
    ProcessStepKeeps(su, w, s);
  }

  lemma NextKeeps(su: Setup, w: World, w': World)
    requires Inv(su, w) && Next(su, w, w')
    ensures Inv(su, w')
  {
    var s :| Enabled(su, w, s) && w' == Apply(su, w, s);
    StepKeeps(su, w, s);
  }

  lemma InitSound(su: Setup, file: Bytes)
    ensures Inv(su, Init(file))
  {
  }

  /** What holds at first and is kept from world to world holds along a run. */
  lemma {:induction false} HoldsAlong(run: seq<World>, holds: World -> bool, i: nat)
    requires i < |run| && holds(run[0])
    requires forall j :: 0 < j < |run| && holds(run[j - 1]) ==> holds(run[j])
    ensures holds(run[i])
  {
    if i > 0 { HoldsAlong(run, holds, i - 1); }
  }

  /** What every step keeps is kept by any number of steps. */
  lemma LeadsKeeps(su: Setup, w: World, w': World, holds: World -> bool)
    requires Leads(su, w, w') && holds(w)
    requires forall a, b :: holds(a) && Next(su, a, b) ==> holds(b)
    ensures holds(w')
  {
    var run := LeadsRun(su, w, w');
    forall j | 0 < j < |run| && holds(run[j - 1]) ensures holds(run[j]) { assert StepAt(su, run, j); }
    HoldsAlong(run, holds, |run| - 1);
  }

  lemma LeadsSound(su: Setup, w: World, w': World)
    requires Inv(su, w) && Leads(su, w, w')
    ensures Inv(su, w')
  {
    forall a, b | Inv(su, a) && Next(su, a, b) ensures Inv(su, b) { NextKeeps(su, a, b); }
    LeadsKeeps(su, w, w', x => Inv(su, x));
  }

  /** The invariant holds in every reachable world. */
  lemma ReachableSound(su: Setup, w: World)
    requires Reachable(su, w)
    ensures Inv(su, w)
  {
    var file: Bytes :| Leads(su, Init(file), w);
    InitSound(su, file);
    LeadsSound(su, Init(file), w);
  }

  lemma LeadsRun(su: Setup, w: World, w': World) returns (run: seq<World>)
    requires Leads(su, w, w')
    ensures Run(su, run) && run[0] == w && run[|run| - 1] == w'
  {
    run :| Run(su, run) && run[0] == w && run[|run| - 1] == w';
  }

  /** Two runs joined end to end are a run. */
  lemma LeadsTransitive(su: Setup, a: World, b: World, c: World)
    requires Leads(su, a, b) && Leads(su, b, c)
    ensures Leads(su, a, c)
  {
    var r :| Run(su, r) && r[0] == a && r[|r| - 1] == b;
    var t :| Run(su, t) && t[0] == b && t[|t| - 1] == c;
    var run := r + t[1..];
    forall i | 0 < i < |run| ensures StepAt(su, run, i) {
      if i < |r| {
        assert StepAt(su, r, i);
      } else {
        assert StepAt(su, t, i - |r| + 1);
      }
    }
    assert run[|run| - 1] == c;
  }

  lemma LeadsStep(su: Setup, a: World, s: Step)
    requires Enabled(su, a, s)
    ensures Leads(su, a, Apply(su, a, s))
  {
    var run := [a, Apply(su, a, s)];
    assert StepAt(su, run, 1);
    assert Run(su, run);
  }

  /** What is reached from a reachable world is reachable. */
  lemma ReachableLeads(su: Setup, w: World, w': World)
    requires Reachable(su, w) && Leads(su, w, w')
    ensures Reachable(su, w')
  {
    var file: Bytes :| Leads(su, Init(file), w);
    LeadsTransitive(su, Init(file), w, w');
  }

  lemma CalmSelf(su: Setup, w: World)
    ensures CalmLeads(su, w, w)
  {
    assert CalmRun(su, [w]) && [w][0] == w;
  }

  lemma CalmStep(su: Setup, a: World, s: Step)
    requires Enabled(su, a, s) && !s.Crash?
    ensures CalmLeads(su, a, Apply(su, a, s))
  {
    var run := [a, Apply(su, a, s)];
    assert CalmAt(su, run, 1);
    assert CalmRun(su, run);
  }

  lemma CalmTransitive(su: Setup, a: World, b: World, c: World)
    requires CalmLeads(su, a, b) && CalmLeads(su, b, c)
    ensures CalmLeads(su, a, c)
  {
    var r :| CalmRun(su, r) && r[0] == a && r[|r| - 1] == b;
    var t :| CalmRun(su, t) && t[0] == b && t[|t| - 1] == c;
    var run := r + t[1..];
    forall i | 0 < i < |run| ensures CalmAt(su, run, i) {
      if i < |r| {
        assert CalmAt(su, r, i);
      } else {
        assert CalmAt(su, t, i - |r| + 1);
      }
    }
    assert run[|run| - 1] == c;
  }

  lemma CalmLeadsRun(su: Setup, w: World, w': World) returns (run: seq<World>)
    requires CalmLeads(su, w, w')
    ensures CalmRun(su, run) && run[0] == w && run[|run| - 1] == w'
  {
    run :| CalmRun(su, run) && run[0] == w && run[|run| - 1] == w';
  }

  lemma CalmLeadsKeeps(su: Setup, w: World, w': World, holds: World -> bool)
    requires CalmLeads(su, w, w') && holds(w)
    requires forall a, b :: holds(a) && CalmNext(su, a, b) ==> holds(b)
    ensures holds(w')
  {
    var run := CalmLeadsRun(su, w, w');
    forall j | 0 < j < |run| && holds(run[j - 1]) ensures holds(run[j]) { assert CalmAt(su, run, j); }
    HoldsAlong(run, holds, |run| - 1);
  }

  lemma CalmIsNext(su: Setup, w: World, w': World)
    requires CalmNext(su, w, w')
    ensures Next(su, w, w')
  {
  }

  lemma CalmIsLeads(su: Setup, w: World, w': World)
    requires CalmLeads(su, w, w')
    ensures Leads(su, w, w')
  {
    var run := CalmLeadsRun(su, w, w');
    forall i | 0 < i < |run| ensures StepAt(su, run, i) {
      assert CalmAt(su, run, i);
      CalmIsNext(su, run[i - 1], run[i]);
    }
    assert Run(su, run);
  }
}
