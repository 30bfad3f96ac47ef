/**
 * `upload` and `reconcile_upload` as the sequential code they are. Every statement that touches the
 * disk, the lock or the network is one action of the transition system. Before each of them anything
 * else may happen: other processes run, requests land, files change, and this process may be killed.
 * Each method is shown to be a run of that system, so what is proved of its runs holds of the code.
 */
module UploadCode {
  import opened Wrappers
  import opened UploadIntent
  import opened UploadProtocol
  import opened UploadInvariant
  import opened UploadPreservation
  import opened UploadSafety
  import R = UploadRecords

  /** A run continued by one more step. */
  lemma Onward(su: Setup, w0: World, w: World, s: Step)
    requires Reachable(su, w0) && Leads(su, w0, w) && Enabled(su, w, s)
    ensures Leads(su, w0, Apply(su, w, s)) && Reachable(su, Apply(su, w, s))
  {
    LeadsStep(su, w, s);
    LeadsTransitive(su, w0, w, Apply(su, w, s));
    ReachableLeads(su, w0, Apply(su, w, s));
  }

  /** The durable journal acknowledges object `k` by the id of the version its request produced. */
  ghost predicate DurablyAcknowledged(st: Store, s: Intent, k: Kind) {
    st.durable.intent == Some(s) && s.StatusOf(k).Acknowledged? && s.FileIdOf(k).Some?
    && exists i :: i in st.landed && i < |st.issued| && st.issued[i].kind == k && st.landed[i].id == s.FileIdOf(k).value
  }

  lemma AcknowledgedBy(su: Setup, st: Store, p: Proc, k: Kind)
    requires HistorySound(su, st) && HolderSound(su, st, p) && p.pc == CheckingLocal(k) && p.role.Uploader?
    ensures DurablyAcknowledged(st, p.state, k)
  {
    assert CandidateSound(st, p, k);
    assert st.issued[Index(k)].kind == k;
  }

  lemma AcknowledgedAtCheck(su: Setup, w: World, pid: nat, k: Kind)
    requires Reachable(su, w) && AtPc(w, pid, CheckingLocal(k)) && w.procs[pid].role.Uploader?
    ensures DurablyAcknowledged(w.store, w.procs[pid].state, k)
  {
    ReachableSound(su, w);
    AcknowledgedBy(su, w.store, w.procs[pid], k);
  }

  /** Only an uploader is ever about to send. */
  lemma SenderIsUploader(su: Setup, w: World, pid: nat)
    requires Reachable(su, w) && pid in w.procs && w.procs[pid].pc.Sending?
    ensures w.procs[pid].role.Uploader?
  {
    ReachableSound(su, w);
    assert HolderSound(su, w.store, w.procs[pid]);
  }

  /** The version `p` examines stands under the object's name with the expected digest and size. */
  ghost predicate HoldsExpected(su: Setup, st: Store, p: Proc, k: Kind) {
    exists i :: i in st.landed && Expected(su, st.landed[i], p, k)
  }

  predicate Expected(su: Setup, v: Version, p: Proc, k: Kind) {
    v.id == Candidate(p, k) && v.bucket == p.dest.bucket && v.name == p.state.NameOf(k)
    && su.prims.sha256(v.content) == ExpectedSha(su, p, k) && |v.content| == ExpectedSize(su, p, k)
  }

  lemma ReceiptNamed(su: Setup, w: World)
    requires Reachable(su, w) && w.store.visible.receipt.Some? && w.store.durable == w.store.visible
    ensures exists d, b :: R.CompletionOf(su, d, b, w.store.durable.receipt.value.completion)
  {
    var d, b := R.ReceiptBinds(su, w);
  }

  class Machine {
    const su: Setup
    var w: World

    constructor (su: Setup, file: Bytes)
      ensures this.su == su && w == Init(file) && Reachable(su, w)
    {
      this.su := su;
      w := Init(file);
      assert Run(su, [Init(file)]) && [Init(file)][0] == Init(file);
    }

    /** Process `pid` is running, in a world some run has reached. */
    ghost predicate Live(pid: nat)
      reads this
    {
      Reachable(su, w) && pid in w.procs && !w.procs[pid].pc.Done?
    }

    /** A run led from `w0` to the present world, and process `pid` is now `p`. */
    ghost predicate Came(w0: World, pid: nat, p: Proc)
      reads this
    {
      Leads(su, w0, w) && Reachable(su, w) && pid in w.procs && w.procs[pid] == p
    }

    /** Everything else runs on; this process may be killed meanwhile. */
    method Interfere(pid: nat) returns (alive: bool)
      requires Live(pid)
      modifies this
      ensures Came(old(w), pid, if alive then old(w.procs[pid]) else At(old(w.procs[pid]), Done(Failed)))
    {
      alive := true;
      assert Run(su, [w]) && [w][0] == w;
    }

    /** An exception: the process, whose run began in `w0`, ends and releases the lock. */
    method Abandon(pid: nat, ghost w0: World)
      requires Live(pid) && Reachable(su, w0) && Leads(su, w0, w)
      modifies this
      ensures Came(w0, pid, At(old(w.procs[pid]), Done(Failed)))
    {
      Onward(su, w0, w, Fail(pid));
      w := Stop(w, pid, Failed);
    }

    /** upload_package. */
    method UploadPackage(pid: nat) returns (ok: bool)
      requires Live(pid) && w.procs[pid].pc.CheckingPackage?
      modifies this
      ensures Came(old(w), pid, if ok then At(old(w.procs[pid]), Locking) else At(old(w.procs[pid]), Done(Failed)))
    {
      ok := Interfere(pid);
      if !ok { return; }
      ok := CanCheckPackage(su, w, pid);
      if !ok { Abandon(pid, old(w)); return; }
      Onward(su, old(w), w, CheckPackage(pid));
      w := DoCheckPackage(w, pid);
    }

    /** upload_lock. */
    method UploadLock(pid: nat) returns (ok: bool)
      requires Live(pid) && w.procs[pid].pc.Locking?
      modifies this
      ensures Came(old(w), pid,
                   if ok then
                     At(old(w.procs[pid]), if old(w.procs[pid]).role.Uploader? then CheckingReceipt else Loading)
                   else At(old(w.procs[pid]), Done(Failed)))
    {
      ok := Interfere(pid);
      if !ok { return; }
      ok := CanAcquire(w, pid);
      if !ok { Abandon(pid, old(w)); return; }
      Onward(su, old(w), w, Acquire(pid));
      w := DoAcquire(w, pid);
    }

    /** The first statement of upload under the lock. */
    method RequireNoReceipt(pid: nat) returns (ok: bool)
      requires Live(pid) && w.procs[pid].pc.CheckingReceipt?
      modifies this
      ensures Came(old(w), pid, if ok then At(old(w.procs[pid]), Loading) else At(old(w.procs[pid]), Done(Failed)))
    {
      ok := Interfere(pid);
      if !ok { return; }
      ok := CanCheckReceipt(w, pid);
      if !ok { Abandon(pid, old(w)); return; }
      Onward(su, old(w), w, CheckReceipt(pid));
      w := DoCheckReceipt(w, pid);
    }

    /** atomic_json up to the replace. */
    method Replace(pid: nat) returns (ok: bool)
      requires Live(pid) && w.procs[pid].pc.Saving?
      modifies this
      ensures Came(old(w), pid,
                   if ok then At(old(w.procs[pid]), Syncing(old(w.procs[pid]).pc.after))
                   else At(old(w.procs[pid]), Done(Failed)))
    {
      ok := Interfere(pid);
      if !ok { return; }
      Onward(su, old(w), w, Save(pid));
      w := DoSave(w, pid);
    }

    /** The directory sync that ends atomic_json. */
    method SyncDirectory(pid: nat) returns (ok: bool)
      requires Live(pid) && w.procs[pid].pc.Syncing?
      modifies this
      ensures Came(old(w), pid,
                   if ok then At(old(w.procs[pid]), Resume(old(w.procs[pid]), old(w.procs[pid]).pc.after))
                   else At(old(w.procs[pid]), Done(Failed)))
      ensures ok ==> w.store.durable == w.store.visible && w.store.visible.intent == Some(old(w.procs[pid]).state)
    {
      ok := Interfere(pid);
      if !ok { return; }
      ReachableSound(su, w);
      assert HolderSound(su, w.store, w.procs[pid]);
      Onward(su, old(w), w, Sync(pid));
      w := DoSync(w, pid);
    }

    /** verify_remote_file: the local source. */
    method CheckLocalSource(pid: nat) returns (ok: bool)
      requires Live(pid) && w.procs[pid].pc.CheckingLocal?
      modifies this
      ensures Came(old(w), pid,
                   if ok then At(old(w.procs[pid]), Verifying(old(w.procs[pid]).pc.k))
                   else At(old(w.procs[pid]), Done(Failed)))
    {
      ok := Interfere(pid);
      if !ok { return; }
      ok := CanCheckLocal(su, w, pid);
      if !ok { Abandon(pid, old(w)); return; }
      Onward(su, old(w), w, CheckLocal(pid));
      w := DoCheckLocal(w, pid);
    }

    /** upload_intent up to the creation of a missing journal. */
    method LoadJournal(pid: nat) returns (ok: bool)
      requires Live(pid) && w.procs[pid].pc.Loading?
      modifies this
      ensures Leads(su, old(w), w) && Reachable(su, w) && pid in w.procs
      ensures !ok ==> w.procs[pid].pc == Done(Failed)
      ensures ok ==> w.procs[pid].role == old(w.procs[pid].role)
      ensures ok ==>
                w.procs[pid].pc == Saving(Created)
                || w.procs[pid].pc == if w.procs[pid].role.Uploader? then Sending(Ciphertext) else Looking(Ciphertext)
      ensures ok ==> (w.procs[pid].pc.Saving? ==> w.procs[pid].role.Uploader?)
    {
      ok := Interfere(pid);
      if !ok { return; }
      ok := CanLoad(su, w, pid);
      if !ok { Abandon(pid, old(w)); return; }
      Onward(su, old(w), w, Load(pid));
      w := DoLoad(su, w, pid);
    }

    /** send_once before its first write. */
    method ArmRequest(pid: nat) returns (ok: bool)
      requires Live(pid) && w.procs[pid].pc.Sending?
      modifies this
      ensures Leads(su, old(w), w) && Reachable(su, w) && pid in w.procs
      ensures !ok ==> w.procs[pid].pc == Done(Failed)
      ensures ok ==> w.procs[pid].role == old(w.procs[pid].role)
      ensures old(w.procs[pid].state.StatusOf(w.procs[pid].pc.k)).Pending? ==> !ok
      ensures ok ==> w.procs[pid].pc == if old(w.procs[pid].state.StatusOf(w.procs[pid].pc.k)).Ready?
                                        then Saving(MarkedPending(old(w.procs[pid].pc.k)))
                                        else CheckingLocal(old(w.procs[pid].pc.k))
    {
      ok := Interfere(pid);
      if !ok { return; }
      ok := CanSendOnce(w, pid);
      if !ok { Abandon(pid, old(w)); return; }
      Onward(su, old(w), w, SendOnce(pid));
      w := DoSendOnce(w, pid);
    }

    /** transport.upload: the request leaves. */
    method Transmit(pid: nat) returns (ok: bool)
      requires Live(pid) && w.procs[pid].pc.Issuing?
      modifies this
      ensures Leads(su, old(w), w) && Reachable(su, w) && pid in w.procs
      ensures !ok ==> w.procs[pid].pc == Done(Failed)
      ensures ok ==> w.procs[pid].role == old(w.procs[pid].role)
      ensures ok ==> w.procs[pid].pc.Awaiting? && w.procs[pid].pc.k == old(w.procs[pid].pc.k)
    {
      ok := Interfere(pid);
      if !ok { return; }
      Onward(su, old(w), w, Issue(pid));
      w := DoIssue(su, w, pid);
    }

    /** transport.upload: the acknowledgement, if it comes. */
    method ReceiveAcknowledgement(pid: nat) returns (ok: bool)
      requires Live(pid) && w.procs[pid].pc.Awaiting?
      modifies this
      ensures Leads(su, old(w), w) && Reachable(su, w) && pid in w.procs
      ensures !ok ==> w.procs[pid].pc == Done(Failed)
      ensures ok ==> w.procs[pid].role == old(w.procs[pid].role)
      ensures ok ==> w.procs[pid].pc == Saving(MarkedAcknowledged(old(w.procs[pid].pc.k)))
    {
      ok := Interfere(pid);
      if !ok { return; }
      ok := CanAcknowledge(su, w, pid);
      if !ok { Abandon(pid, old(w)); return; }
      Onward(su, old(w), w, Acknowledge(pid));
      w := DoAcknowledge(w, pid);
    }

    /** verify_remote_file: metadata and full read-back of the recorded version. */
    method ReadBack(pid: nat) returns (ok: bool)
      requires Live(pid) && w.procs[pid].pc.Verifying?
      modifies this
      ensures Leads(su, old(w), w) && Reachable(su, w) && pid in w.procs
      ensures !ok ==> w.procs[pid].pc == Done(Failed)
      ensures ok ==> w.procs[pid].role == old(w.procs[pid].role)
      ensures ok ==> var k := old(w.procs[pid].pc.k);
                     w.procs[pid].pc == if w.procs[pid].role.Reconciler? then Saving(Adopted(k))
                                        else AfterVerified(w.procs[pid], k)
      ensures ok ==> HoldsExpected(su, w.store, old(w.procs[pid]), old(w.procs[pid].pc.k))
    {
      ok := Interfere(pid);
      if !ok { return; }
      var id := Candidate(w.procs[pid], w.procs[pid].pc.k);
      var versions := set j | j in w.store.landed && w.store.landed[j].id == id;
      var i := 0;
      if versions != {} { i :| i in versions; }
      ok := versions != {} && CanVerifyRemote(su, w, pid, i);
      if !ok { Abandon(pid, old(w)); return; }
      assert Expected(su, w.store.landed[i], w.procs[pid], w.procs[pid].pc.k);
      Onward(su, old(w), w, VerifyRemote(pid, i));
      w := DoVerifyRemote(w, pid);
    }

    /** The completion record of both commands, stamped `now`. */
    method RecordCompletion(pid: nat, now: string) returns (ok: bool)
      requires Live(pid) && w.procs[pid].pc.Completing?
      modifies this
      ensures Leads(su, old(w), w) && Reachable(su, w) && pid in w.procs
      ensures !ok ==> w.procs[pid].pc == Done(Failed)
      ensures ok ==> w.procs[pid].role == old(w.procs[pid].role)
      ensures ok ==> w.procs[pid].pc == Saving(CompletionRecorded)
    {
      ok := Interfere(pid);
      if !ok { return; }
      ok := CanComplete(w, pid);
      if !ok { Abandon(pid, old(w)); return; }
      Onward(su, old(w), w, Complete(pid, now));
      w := DoComplete(su, w, pid, now);
    }

    /** publish_upload_receipt up to the exclusive link, or the comparison with an existing receipt. */
    method LinkReceipt(pid: nat) returns (ok: bool)
      requires Live(pid) && w.procs[pid].pc.Publishing?
      modifies this
      ensures Leads(su, old(w), w) && Reachable(su, w) && pid in w.procs
      ensures !ok ==> w.procs[pid].pc == Done(Failed)
      ensures ok ==> w.procs[pid].role == old(w.procs[pid].role)
      ensures ok ==> w.procs[pid].pc == SyncingReceipt
    {
      ok := Interfere(pid);
      if !ok { return; }
      ok := CanPublish(su, w, pid);
      if !ok { Abandon(pid, old(w)); return; }
      Onward(su, old(w), w, Publish(pid));
      w := DoPublish(su, w, pid);
    }

    /** The receipt becomes durable; its hash is the command's answer. */
    method SyncReceipt(pid: nat) returns (r: Option<string>)
      requires Live(pid) && w.procs[pid].pc.SyncingReceipt?
      modifies this
      ensures Leads(su, old(w), w) && Reachable(su, w) && pid in w.procs
      ensures w.procs[pid].pc == Done(if r.Some? then Published(r.value) else Failed)
      ensures r.Some? ==> w.store.durable.receipt.Some? && w.store.durable == w.store.visible
                          && r.value == su.prims.sha256(su.prims.encodeReceipt(w.store.durable.receipt.value))
    {
      var ok := Interfere(pid);
      if !ok { return None; }
      if !CanFinish(w, pid) { Abandon(pid, old(w)); return None; }
      r := Some(su.prims.sha256(su.prims.encodeReceipt(w.store.visible.receipt.value)));
      Onward(su, old(w), w, Finish(pid));
      w := DoFinish(su, w, pid);
    }

    /** reconcile_file up to its verification. */
    method ListVersions(pid: nat) returns (ok: bool)
      requires Live(pid) && w.procs[pid].pc.Looking?
      modifies this
      ensures Leads(su, old(w), w) && Reachable(su, w) && pid in w.procs
      ensures !ok ==> w.procs[pid].pc == Done(Failed)
      ensures ok ==> var k := old(w.procs[pid].pc.k);
                     w.procs[pid].role == old(w.procs[pid].role)
                     && (w.procs[pid].pc == CheckingLocal(k)
                         || (w.procs[pid].pc == Done(ReadyToResume(k))
                             && forall i :: 0 <= i < |w.store.issued| ==> w.store.issued[i].kind != k))
    {
      ok := Interfere(pid);
      if !ok { return; }
      ok := CanList(w, pid);
      if !ok { Abandon(pid, old(w)); return; }
      ghost var k := w.procs[pid].pc.k;
      if DoList(w, pid).procs[pid].pc == Done(ReadyToResume(k)) {
        forall i | 0 <= i < |w.store.issued| ensures w.store.issued[i].kind != k {
          ReadyToResumeMeansNeverSent(su, w, pid, k, i);
        }
      }
      Onward(su, old(w), w, List(pid));
      w := DoList(w, pid);
    }

    /** save_upload_intent: returns only once the new journal is durable. */
    method SaveUploadIntent(pid: nat) returns (ok: bool)
      requires Live(pid) && w.procs[pid].pc.Saving?
      modifies this
      ensures Came(old(w), pid, At(old(w.procs[pid]),
                                   if ok then Resume(old(w.procs[pid]), old(w.procs[pid].pc.after)) else Done(Failed)))
      ensures ok ==> w.store.durable == w.store.visible && w.store.visible.intent == Some(old(w.procs[pid]).state)
    {
      ok := Replace(pid);
      if !ok { return; }
      ghost var w1 := w;
      ok := SyncDirectory(pid);
      LeadsTransitive(su, old(w), w1, w);
    }

    /** send_once: write pending durably, send, write acknowledged durably. */
    method SendObjectOnce(pid: nat) returns (ok: bool)
      requires Live(pid) && w.procs[pid].pc.Sending?
      modifies this
      ensures Leads(su, old(w), w) && Reachable(su, w) && pid in w.procs
      ensures old(w.procs[pid].state.StatusOf(w.procs[pid].pc.k)).Pending? ==> !ok
      ensures w.procs[pid].pc == if ok then CheckingLocal(old(w.procs[pid].pc.k)) else Done(Failed)
      ensures ok ==> w.procs[pid].role == old(w.procs[pid].role)
      ensures ok ==> DurablyAcknowledged(w.store, w.procs[pid].state, old(w.procs[pid].pc.k))
    {
      ghost var k := w.procs[pid].pc.k;
      SenderIsUploader(su, w, pid);
      ok := ArmRequest(pid);
      if !ok { return; }
      if w.procs[pid].pc.CheckingLocal? {
        AcknowledgedAtCheck(su, w, pid, k);
        return;
      }
      ghost var w1 := w;
      ok := SaveUploadIntent(pid);
      LeadsTransitive(su, old(w), w1, w);
      if !ok { return; }
      ghost var w2 := w;
      ok := Transmit(pid);
      LeadsTransitive(su, old(w), w2, w);
      if !ok { return; }
      ghost var w3 := w;
      ok := ReceiveAcknowledgement(pid);
      LeadsTransitive(su, old(w), w3, w);
      if !ok { return; }
      ghost var w4 := w;
      ok := SaveUploadIntent(pid);
      LeadsTransitive(su, old(w), w4, w);
      if ok { AcknowledgedAtCheck(su, w, pid, k); }
    }

    /** verify_remote_file. */
    method VerifyRemoteFile(pid: nat) returns (ok: bool)
      requires Live(pid) && w.procs[pid].pc.CheckingLocal?
      modifies this
      ensures Leads(su, old(w), w) && Reachable(su, w) && pid in w.procs
      ensures !ok ==> w.procs[pid].pc == Done(Failed)
      ensures ok ==> var k := old(w.procs[pid].pc.k);
                     w.procs[pid].role == old(w.procs[pid].role)
                     && w.procs[pid].pc == if w.procs[pid].role.Reconciler? then Saving(Adopted(k))
                                           else AfterVerified(w.procs[pid], k)
      ensures ok ==> HoldsExpected(su, w.store, old(w.procs[pid]), old(w.procs[pid].pc.k))
    {
      ok := CheckLocalSource(pid);
      if !ok { return; }
      ghost var w1 := w;
      ok := ReadBack(pid);
      LeadsTransitive(su, old(w), w1, w);
      assert ok ==> HoldsExpected(su, w.store, w1.procs[pid], old(w.procs[pid].pc.k));
    }

    /** publish_upload_receipt. */
    method PublishUploadReceipt(pid: nat) returns (r: Option<string>)
      requires Live(pid) && w.procs[pid].pc.Publishing?
      modifies this
      ensures Leads(su, old(w), w) && Reachable(su, w) && pid in w.procs
      ensures w.procs[pid].pc == Done(if r.Some? then Published(r.value) else Failed)
      ensures r.Some? ==> w.store.durable.receipt.Some? && w.store.durable == w.store.visible
                          && r.value == su.prims.sha256(su.prims.encodeReceipt(w.store.durable.receipt.value))
    {
      var ok := LinkReceipt(pid);
      if !ok { return None; }
      ghost var w1 := w;
      r := SyncReceipt(pid);
      LeadsTransitive(su, old(w), w1, w);
    }

    /** The common beginning: package checks and lock. */
    method EnterPackage(pid: nat) returns (ok: bool)
      requires Live(pid) && w.procs[pid].pc.CheckingPackage?
      modifies this
      ensures Leads(su, old(w), w) && Reachable(su, w) && pid in w.procs
      ensures !ok ==> w.procs[pid].pc == Done(Failed)
      ensures ok ==> w.procs[pid].role == old(w.procs[pid].role)
                     && w.procs[pid].pc == if w.procs[pid].role.Uploader? then CheckingReceipt else Loading
    {
      ok := UploadPackage(pid);
      if !ok { return; }
      ghost var w1 := w;
      ok := UploadLock(pid);
      LeadsTransitive(su, old(w), w1, w);
    }

    /** upload_intent. */
    method LoadOrCreateIntent(pid: nat) returns (ok: bool)
      requires Live(pid) && w.procs[pid].pc.Loading?
      modifies this
      ensures Leads(su, old(w), w) && Reachable(su, w) && pid in w.procs
      ensures !ok ==> w.procs[pid].pc == Done(Failed)
      ensures ok ==> w.procs[pid].role == old(w.procs[pid].role)
                     && w.procs[pid].pc == if w.procs[pid].role.Uploader? then Sending(Ciphertext)
                                           else Looking(Ciphertext)
    {
      ok := LoadJournal(pid);
      if !ok || !w.procs[pid].pc.Saving? { return; }
      ghost var w1 := w;
      ok := SaveUploadIntent(pid);
      LeadsTransitive(su, old(w), w1, w);
    }

    /** The completion record, written durably. */
    method EnsureCompletion(pid: nat, now: string) returns (ok: bool)
      requires Live(pid) && w.procs[pid].pc.Completing?
      modifies this
      ensures Leads(su, old(w), w) && Reachable(su, w) && pid in w.procs
      ensures !ok ==> w.procs[pid].pc == Done(Failed)
      ensures ok ==> w.procs[pid].role == old(w.procs[pid].role)
                     && w.procs[pid].pc == if w.procs[pid].role.Uploader? then Sending(Marker) else Looking(Marker)
    {
      ok := RecordCompletion(pid, now);
      if !ok { return; }
      ghost var w1 := w;
      ok := SaveUploadIntent(pid);
      LeadsTransitive(su, old(w), w1, w);
    }

    /** Send one object and verify what arrived. */
    method SendAndVerify(pid: nat) returns (ok: bool)
      requires Live(pid) && w.procs[pid].pc.Sending? && w.procs[pid].role.Uploader?
      modifies this
      ensures Leads(su, old(w), w) && Reachable(su, w) && pid in w.procs
      ensures w.procs[pid].pc == if ok then AfterVerified(w.procs[pid], old(w.procs[pid].pc.k)) else Done(Failed)
      ensures ok ==> w.procs[pid].role.Uploader?
    {
      ok := SendObjectOnce(pid);
      if !ok { return; }
      ghost var w1 := w;
      ok := VerifyRemoteFile(pid);
      LeadsTransitive(su, old(w), w1, w);
    }

    /** The body of upload under the lock, up to the verified ciphertext and its completion record. */
    method UploadCiphertext(pid: nat, now: string) returns (ok: bool)
      requires Live(pid) && w.procs[pid].pc.Loading? && w.procs[pid].role.Uploader?
      modifies this
      ensures Leads(su, old(w), w) && Reachable(su, w) && pid in w.procs
      ensures w.procs[pid].pc == if ok then Sending(Marker) else Done(Failed)
      ensures ok ==> w.procs[pid].role.Uploader?
    {
      ok := LoadOrCreateIntent(pid);
      if !ok { return; }
      ghost var w1 := w;
      ok := SendAndVerify(pid);
      LeadsTransitive(su, old(w), w1, w);
      if !ok || !w.procs[pid].pc.Completing? { return; }
      ghost var w2 := w;
      ok := EnsureCompletion(pid, now);
      LeadsTransitive(su, old(w), w2, w);
    }

    /** `upload`: on success the receipt is durable and its hash is returned. */
    method Upload(pid: nat, now: string) returns (r: Option<string>)
      requires Live(pid) && w.procs[pid].pc.CheckingPackage? && w.procs[pid].role.Uploader?
      modifies this
      ensures Leads(su, old(w), w) && Reachable(su, w) && pid in w.procs
      ensures w.procs[pid].pc == Done(if r.Some? then Published(r.value) else Failed)
      ensures r.Some? ==> w.store.durable.receipt.Some? && w.store.durable == w.store.visible
                          && r.value == su.prims.sha256(su.prims.encodeReceipt(w.store.durable.receipt.value))
      ensures r.Some? ==> exists d, b :: R.CompletionOf(su, d, b, w.store.durable.receipt.value.completion)
    {
      r := None;
      var ok := EnterPackage(pid);
      if !ok { return; }
      ghost var w1 := w;
      ok := RequireNoReceipt(pid);
      LeadsTransitive(su, old(w), w1, w);
      if !ok { return; }
      ghost var w2 := w;
      ok := UploadCiphertext(pid, now);
      LeadsTransitive(su, old(w), w2, w);
      if !ok { return; }
      ghost var w3 := w;
      ok := SendAndVerify(pid);
      LeadsTransitive(su, old(w), w3, w);
      if !ok { return; }
      ghost var w4 := w;
      r := PublishUploadReceipt(pid);
      LeadsTransitive(su, old(w), w4, w);
      if r.Some? { ReceiptNamed(su, w); }
    }

    /** reconcile_file: false with the answer "ready to resume" when the object was never armed. */
    method ReconcileFile(pid: nat) returns (ok: bool)
      requires Live(pid) && w.procs[pid].pc.Looking? && w.procs[pid].role.Reconciler?
      modifies this
      ensures Leads(su, old(w), w) && Reachable(su, w) && pid in w.procs
      ensures var k := old(w.procs[pid].pc.k);
              if ok then w.procs[pid].pc == AfterVerified(w.procs[pid], k)
              else w.procs[pid].pc == Done(Failed)
                   || (w.procs[pid].pc == Done(ReadyToResume(k))
                       && forall i :: 0 <= i < |w.store.issued| ==> w.store.issued[i].kind != k)
      ensures ok ==> w.procs[pid].role.Reconciler?
    {
      ok := ListVersions(pid);
      if !ok { return; }
      if w.procs[pid].pc.Done? { return false; }
      ghost var w1 := w;
      ok := VerifyRemoteFile(pid);
      LeadsTransitive(su, old(w), w1, w);
      if !ok { return; }
      ghost var w2 := w;
      ok := SaveUploadIntent(pid);
      LeadsTransitive(su, old(w), w2, w);
    }

    /**
     * `reconcile_upload`: on success the receipt is durable and its hash is returned; otherwise it
     * failed, or some object has never been sent and may be sent by resuming the upload.
     */
    method ReconcileUpload(pid: nat, now: string) returns (r: Option<string>)
      requires Live(pid) && w.procs[pid].pc.CheckingPackage? && w.procs[pid].role.Reconciler?
      modifies this
      ensures Leads(su, old(w), w) && Reachable(su, w) && pid in w.procs && w.procs[pid].pc.Done?
      ensures r.Some? ==> w.procs[pid].pc == Done(Published(r.value)) && w.store.durable.receipt.Some?
                          && w.store.durable == w.store.visible
                          && r.value == su.prims.sha256(su.prims.encodeReceipt(w.store.durable.receipt.value))
      ensures r.Some? ==> exists d, b :: R.CompletionOf(su, d, b, w.store.durable.receipt.value.completion)
      ensures r.None? ==>
                w.procs[pid].pc == Done(Failed)
                || (w.procs[pid].pc.outcome.ReadyToResume?
                    && forall i :: 0 <= i < |w.store.issued| ==>
                         w.store.issued[i].kind != w.procs[pid].pc.outcome.next)
    {
      r := None;
      var ok := EnterPackage(pid);
      if !ok { return; }
      ghost var w1 := w;
      ok := LoadOrCreateIntent(pid);
      LeadsTransitive(su, old(w), w1, w);
      if !ok { return; }
      ghost var w2 := w;
      ok := ReconcileFile(pid);
      LeadsTransitive(su, old(w), w2, w);
      if !ok { return; }
      if w.procs[pid].pc.Completing? {
        ghost var w3 := w;
        ok := EnsureCompletion(pid, now);
        LeadsTransitive(su, old(w), w3, w);
        if !ok { return; }
      }
      ghost var w4 := w;
      ok := ReconcileFile(pid);
      LeadsTransitive(su, old(w), w4, w);
      if !ok { return; }
      ghost var w5 := w;
      r := PublishUploadReceipt(pid);
      LeadsTransitive(su, old(w), w5, w);
      if r.Some? { ReceiptNamed(su, w); }
    }
  }
}
