/** What the invariant means: safety of every run, stated without the invariant. */
module UploadSafety {
  import opened Wrappers
  import opened UploadIntent
  import opened UploadProtocol
  import opened UploadInvariant
  import opened UploadPreservation

  /** The history holds at most a ciphertext request and then a marker request, under the journal's names. */
  lemma IssuedShape(su: Setup, w: World, i: nat)
    requires Inv(su, w) && i < |w.store.issued|
    ensures w.store.visible.intent.Some?
    ensures w.store.issued[i].kind == if i == 0 then Ciphertext else Marker
    ensures i == Index(w.store.issued[i].kind)
    ensures w.store.issued[i].name == w.store.visible.intent.value.NameOf(w.store.issued[i].kind)
  {
    var k := if i == 0 then Ciphertext else Marker;
    assert Index(k) == i;
  }

  /** At most one request per object is ever issued, and a name never has two remote versions. */
  lemma AtMostOneRequestPerName(su: Setup, w: World, i: nat, j: nat)
    requires Reachable(su, w) && i < |w.store.issued| && j < |w.store.issued|
    requires w.store.issued[i].kind == w.store.issued[j].kind
          || (w.store.issued[i].bucket == w.store.issued[j].bucket && w.store.issued[i].name == w.store.issued[j].name)
    ensures i == j
  {
    ReachableSound(su, w);
    IssuedShape(su, w, i);
    IssuedShape(su, w, j);
    NamesDiffer(su, DestinationOf(w.store.visible.intent.value));
  }

  lemma AtMostOneRemoteVersion(su: Setup, w: World, bucket: string, name: string)
    requires Reachable(su, w)
    ensures |Listed(w.store, bucket, name)| <= 1
  {
    ReachableSound(su, w);
    var l := Listed(w.store, bucket, name);
    if l != {} {
      var i :| i in l;
      forall j | j in l ensures j == i { AtMostOneRequestPerName(su, w, i, j); }
      assert l == {i};
    }
  }

  /** No marker request leaves before the ciphertext has landed with the sealed digest and size. */
  lemma MarkerOnlyAfterCiphertext(su: Setup, w: World, i: nat)
    requires Reachable(su, w) && i < |w.store.issued| && w.store.issued[i].kind == Marker
    ensures exists j :: j < i && j in w.store.landed && w.store.issued[j].kind == Ciphertext
                        && su.prims.sha256(w.store.landed[j].content) == su.record.ciphertextSha256
                        && |w.store.landed[j].content| == su.record.ciphertextBytes
  {
    ReachableSound(su, w);
    assert Index(Ciphertext) < |w.store.issued|;
    assert w.store.issued[0].kind == Ciphertext;
    assert i == 1;
  }

  /**
   * A receipt names the sole versions of both objects. Whatever was read from a damaged local file
   * or arrived at the remote side, those versions hold the sealed ciphertext and the completion.
   */
  lemma ReceiptNamesSealedObjects(su: Setup, w: World, sealed: Bytes) returns (i: nat, j: nat)
    requires Reachable(su, w) && CollisionFree(su.prims.sha256)
    requires su.prims.sha256(sealed) == su.record.ciphertextSha256
    requires w.store.visible.receipt.Some?
    ensures i in w.store.landed && j in w.store.landed
    ensures var r := w.store.visible.receipt.value; var c := r.completion;
            c.record == su.record
            && Listed(w.store, c.bucketId, c.objectName) == {i}
            && w.store.landed[i].id == c.ciphertextFileId && w.store.landed[i].content == sealed
            && w.store.landed[j].bucket == c.bucketId && Listed(w.store, c.bucketId, w.store.landed[j].name) == {j}
            && w.store.landed[j].id == r.completionFileId
            && w.store.landed[j].content == su.prims.encodeCompletion(c)
            && r.completionSha256 == su.prims.sha256(w.store.landed[j].content)
  {
    ReachableSound(su, w);
    i, j := 0, 1;
    var s := w.store.visible.intent.value;
    assert s.StatusOf(Ciphertext).Acknowledged? && s.StatusOf(Marker).Acknowledged?;
    assert Index(Ciphertext) in w.store.landed && Index(Marker) in w.store.landed;
    assert w.store.issued[Index(Ciphertext)].name == s.NameOf(Ciphertext);
    assert w.store.issued[Index(Marker)].name == s.NameOf(Marker);
    var c := w.store.visible.receipt.value.completion;
    SoleVersion(su, w, 0);
    SoleVersion(su, w, 1);
  }

  lemma SoleVersion(su: Setup, w: World, i: nat)
    requires Reachable(su, w) && i in w.store.landed
    ensures Listed(w.store, w.store.landed[i].bucket, w.store.landed[i].name) == {i}
  {
    ReachableSound(su, w);
    var l := Listed(w.store, w.store.landed[i].bucket, w.store.landed[i].name);
    AtMostOneRemoteVersion(su, w, w.store.landed[i].bucket, w.store.landed[i].name);
    assert i in l;
    assert |l| == 1;
    SingletonOf(l);
  }

  /** Any journal on disk, visible or durable, loads for its own destination and for no other. */
  lemma OwnJournalAccepted(su: Setup, w: World, s: Intent, d: Destination)
    requires Reachable(su, w)
    requires w.store.visible.intent == Some(s) || w.store.durable.intent == Some(s)
    ensures LoadIntent(su, d, s) == if d == DestinationOf(s) then Ok(s) else Err(BindingMismatch)
  {
    ReachableSound(su, w);
  }

  lemma OnlyIssueSends(su: Setup, w: World, s: Step)
    requires Enabled(su, w, s)
    ensures s.Issue? || Apply(su, w, s).store.issued == w.store.issued
  {
  }

  /** The history only grows, and only by a step of an uploader: a reconciler never sends. */
  lemma ReconcilerNeverSends(su: Setup, w: World, s: Step)
    requires Reachable(su, w) && Enabled(su, w, s)
    requires Apply(su, w, s).store.issued != w.store.issued
    ensures s.Issue? && w.procs[s.pid].role == Uploader
  {
    OnlyIssueSends(su, w, s);
    ReachableSound(su, w);
    IssuerIsUploader(su, w, s.pid);
  }

  lemma IssuerIsUploader(su: Setup, w: World, pid: nat)
    requires Inv(su, w) && CanIssue(w, pid)
    ensures w.procs[pid].role == Uploader
  {
    assert HolderSound(su, w.store, w.procs[pid]);
  }

  /** A process about to send object `k` has its mark durable, and no request of that kind or name is out. */
  lemma MarkedFirst(su: Setup, st: Store, p: Proc, k: Kind)
    requires HistorySound(su, st) && DiskSound(su, st) && HolderSound(su, st, p) && p.pc == Issuing(k)
    ensures st.durable.intent == Some(p.state) && p.state.StatusOf(k).Pending?
    ensures forall i :: 0 <= i < |st.issued| ==> st.issued[i].kind != k && st.issued[i].name != p.state.NameOf(k)
  {
    NamesDiffer(su, p.dest);
    forall i | 0 <= i < |st.issued| ensures st.issued[i].kind != k && st.issued[i].name != p.state.NameOf(k) {
      assert i == Index(Ciphertext);
    }
  }

  /**
   * A request leaves only when the durable journal already says pending for its object, and no request
   * for that object, or under that name, has left before.
   */
  lemma RequestIsMarkedFirst(su: Setup, w: World, pid: nat)
    requires Reachable(su, w) && CanIssue(w, pid)
    ensures var r := DoIssue(su, w, pid).store.issued[|w.store.issued|];
            w.store.durable.intent.Some?
            && w.store.durable.intent.value.StatusOf(r.kind).Pending?
            && r.name == w.store.durable.intent.value.NameOf(r.kind)
            && forall i :: 0 <= i < |w.store.issued| ==>
                 w.store.issued[i].kind != r.kind && w.store.issued[i].name != r.name
  {
    ReachableSound(su, w);
    Holder(su, w, pid);
    MarkedFirst(su, w.store, w.procs[pid], w.procs[pid].pc.k);
  }

  /** "Ready to resume" is answered only for an object no request was ever issued for. */
  lemma ReadyToResumeMeansNeverSent(su: Setup, w: World, pid: nat, k: Kind, i: nat)
    requires Reachable(su, w) && CanList(w, pid)
    requires DoList(w, pid).procs[pid].pc == Done(ReadyToResume(k))
    requires i < |w.store.issued|
    ensures w.store.issued[i].kind != k
  {
    ReachableSound(su, w);
    IssuedShape(su, w, i);
    assert HolderSound(su, w.store, w.procs[pid]);
  }

  /** Every marker file built once a marker request exists holds exactly the bytes that were sent. */
  lemma MarkerFileIsStable(su: Setup, w: World, i: nat, pid: nat)
    requires Reachable(su, w)
    requires i < |w.store.issued| && w.store.issued[i].kind == Marker
    requires pid in w.procs && InLock(w.procs[pid].pc)
    requires w.procs[pid].pc != CheckingReceipt && w.procs[pid].pc != Loading
    ensures LocalBytes(su, w.file, w.procs[pid], Marker) == w.store.issued[i].content
  {
    ReachableSound(su, w);
    IssuedShape(su, w, i);
    HolderKeepsCompletion(su, w.store, w.procs[pid]);
  }

  lemma HolderKeepsCompletion(su: Setup, st: Store, p: Proc)
    requires HolderSound(su, st, p) && DiskSound(su, st) && |st.issued| == 2
    requires InLock(p.pc) && p.pc != CheckingReceipt && p.pc != Loading
    ensures p.state.completion.Some?
    ensures su.prims.encodeCompletion(p.state.completion.value) == st.issued[1].content
  {
  }

  /** The marker has landed as version `v`, and completion `c` is on record. */
  ghost predicate MarkerFixed(su: Setup, w: World, c: Option<Completion>, v: Version) {
    Inv(su, w) && |w.store.issued| == 2 && 1 in w.store.landed && w.store.landed[1] == v
    && w.store.visible.intent.Some? && w.store.visible.intent.value.completion == c
  }

  /** Once a marker request exists a saved journal carries the completion already on record. */
  lemma SavedCompletionFixed(su: Setup, w: World, pid: nat)
    requires Inv(su, w) && |w.store.issued| == 2 && CanSave(w, pid)
    ensures w.store.visible.intent.Some?
    ensures w.procs[pid].state.completion == w.store.visible.intent.value.completion
  {
    assert HolderSound(su, w.store, w.procs[pid]);
  }

  lemma DurableCompletionFixed(su: Setup, w: World)
    requires Inv(su, w) && |w.store.issued| == 2
    ensures w.store.visible.intent.Some? && w.store.durable.intent.Some?
    ensures w.store.durable.intent.value.completion == w.store.visible.intent.value.completion
  {
  }

  lemma StepKeepsMarker(su: Setup, w: World, s: Step, c: Option<Completion>, v: Version)
    requires MarkerFixed(su, w, c, v) && Enabled(su, w, s)
    ensures MarkerFixed(su, Apply(su, w, s), c, v)
  {
    StepKeeps(su, w, s);
    DurableCompletionFixed(su, w);
    if s.Save? { SavedCompletionFixed(su, w, s.pid); }
  }

  lemma NextKeepsMarker(su: Setup, w: World, w': World, c: Option<Completion>, v: Version)
    requires MarkerFixed(su, w, c, v) && Next(su, w, w')
    ensures MarkerFixed(su, w', c, v)
  {
    var s :| Enabled(su, w, s) && w' == Apply(su, w, s);
    StepKeepsMarker(su, w, s, c, v);
  }

  lemma LeadsKeepsMarker(su: Setup, w: World, w': World, c: Option<Completion>, v: Version)
    requires MarkerFixed(su, w, c, v) && Leads(su, w, w')
    ensures MarkerFixed(su, w', c, v)
  {
    forall a, b | MarkerFixed(su, a, c, v) && Next(su, a, b) ensures MarkerFixed(su, b, c, v) {
      NextKeepsMarker(su, a, b, c, v);
    }
    LeadsKeeps(su, w, w', x => MarkerFixed(su, x, c, v));
  }

  /** With the marker fixed there is only one receipt, and only one receipt hash to report. */
  lemma MarkerFixesReceipt(su: Setup, w: World, c: Completion, v: Version)
    requires MarkerFixed(su, w, Some(c), v)
    ensures w.store.visible.receipt.Some? ==> w.store.visible.receipt.value == Receipt(c, v.id, CompletionSha(su, c))
    ensures forall pid, h :: pid in w.procs && w.procs[pid].pc == Done(Published(h)) ==>
              h == su.prims.sha256(su.prims.encodeReceipt(Receipt(c, v.id, CompletionSha(su, c))))
  {
    if w.store.visible.receipt.Some? {
      FinalReceiptDetermined(su, w.store, w.store.visible.intent.value);
    }
    forall pid, h | pid in w.procs && w.procs[pid].pc == Done(Published(h))
      ensures h == su.prims.sha256(su.prims.encodeReceipt(Receipt(c, v.id, CompletionSha(su, c))))
    {
      assert OutcomeSound(su, w.store, w.procs[pid]);
      FinalReceiptDetermined(su, w.store, w.store.visible.intent.value);
    }
  }

  lemma ReceiptFixesMarker(su: Setup, w: World) returns (c: Completion, v: Version)
    requires Inv(su, w) && w.store.visible.receipt.Some?
    ensures MarkerFixed(su, w, Some(c), v)
    ensures w.store.visible.receipt.value == Receipt(c, v.id, CompletionSha(su, c))
  {
    var s := w.store.visible.intent.value;
    assert s.StatusOf(Marker).Acknowledged? && Index(Marker) in w.store.landed;
    c, v := s.completion.value, w.store.landed[1];
    FinalReceiptDetermined(su, w.store, s);
  }

  /**
   * The receipt is unique: a receipt seen now and a receipt, or a reported receipt hash, seen at
   * any later time of the same run agree, whatever crashes and republications lie between.
   */
  lemma ReceiptIsUnique(su: Setup, w: World, w': World)
    requires Reachable(su, w) && Leads(su, w, w') && w.store.visible.receipt.Some?
    ensures w'.store.visible.receipt.Some? ==> w'.store.visible.receipt == w.store.visible.receipt
    ensures forall pid, h :: pid in w'.procs && w'.procs[pid].pc == Done(Published(h)) ==>
              h == su.prims.sha256(su.prims.encodeReceipt(w.store.visible.receipt.value))
  {
    ReachableSound(su, w);
    var c, v := ReceiptFixesMarker(su, w);
    LeadsKeepsMarker(su, w, w', Some(c), v);
    MarkerFixesReceipt(su, w', c, v);
  }

  lemma FinalReceiptDetermined(su: Setup, st: Store, s: Intent)
    requires Coherent(su, st, Some(s)) && Settled(su, st, s)
    ensures ReceiptFor(su, s) == Receipt(s.completion.value, st.landed[1].id, CompletionSha(su, s.completion.value))
  {
    assert s.StatusOf(Marker).Acknowledged?;
  }
}
