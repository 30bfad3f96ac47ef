/** The inductive invariant of the upload protocol. */
module UploadInvariant {
  import opened Wrappers
  import opened UploadIntent
  import opened UploadProtocol

  /** Position of an object's only possible request in the history. */
  function Index(k: Kind): nat { if k.Ciphertext? then 0 else 1 }

  /** The ciphertext landed with the sealed digest and size. */
  ghost predicate CiphertextGood(su: Setup, st: Store) {
    0 in st.landed && su.prims.sha256(st.landed[0].content) == su.record.ciphertextSha256
    && |st.landed[0].content| == su.record.ciphertextBytes
  }

  /** The marker landed with the digests and size of the completion record. */
  ghost predicate MarkerGood(su: Setup, st: Store, c: Completion) {
    1 in st.landed && su.prims.sha256(st.landed[1].content) == CompletionSha(su, c)
    && |st.landed[1].content| == |su.prims.encodeCompletion(c)|
    && su.prims.sha1(st.landed[1].content) == su.prims.sha1(su.prims.encodeCompletion(c))
  }

  ghost predicate ObjectGood(su: Setup, st: Store, s: Intent, k: Kind) {
    if k.Ciphertext? then CiphertextGood(su, st)
    else s.completion.Some? && MarkerGood(su, st, s.completion.value)
  }

  /** A journal image agrees with the whole history of requests. */
  ghost predicate Coherent(su: Setup, st: Store, o: Option<Intent>) {
    match o
    case None => |st.issued| == 0
    case Some(s) =>
      LoadIntent(su, DestinationOf(s), s).Ok?
      && (s.ciphertextStatus.Ready? ==> |st.issued| == 0)
      && (s.markerStatus.Ready? ==> |st.issued| <= 1)
      && (forall k: Kind :: s.StatusOf(k).Acknowledged? ==>
            Index(k) in st.landed && st.landed[Index(k)].id == s.FileIdOf(k).value)
      && (forall k: Kind :: Index(k) < |st.issued| ==>
            st.issued[Index(k)].bucket == s.binding.bucketId && st.issued[Index(k)].name == s.NameOf(k))
      && (|st.issued| == 2 ==>
            s.completion.Some? && st.issued[1].content == su.prims.encodeCompletion(s.completion.value))
      && (s.completion.Some? ==> CiphertextGood(su, st))
  }

  /** Journal `b` may replace journal `a`: nothing already recorded is lost or altered. */
  ghost predicate Extends(a: Option<Intent>, b: Option<Intent>) {
    a.Some? ==>
      b.Some?
      && DestinationOf(a.value) == DestinationOf(b.value)
      && (forall k: Kind :: a.value.StatusOf(k).Acknowledged? ==>
            b.value.StatusOf(k).Acknowledged? && b.value.FileIdOf(k) == a.value.FileIdOf(k))
      && (forall k: Kind :: b.value.StatusOf(k).Ready? ==> a.value.StatusOf(k).Ready?)
      && (a.value.completion.Some? ==> b.value.completion == a.value.completion)
  }

  /** Both objects acknowledged and verified, with the completion on record. */
  ghost predicate Settled(su: Setup, st: Store, s: Intent) {
    s.ciphertextStatus.Acknowledged? && s.markerStatus.Acknowledged? && s.completion.Some?
    && s.completionFileId.Some?
    && CiphertextGood(su, st) && MarkerGood(su, st, s.completion.value)
  }

  ghost predicate ReceiptSound(su: Setup, st: Store, r: Option<Receipt>) {
    r.Some? ==>
      st.visible.intent.Some? && st.durable.intent == st.visible.intent
      && Settled(su, st, st.visible.intent.value) && r.value == ReceiptFor(su, st.visible.intent.value)
  }

  /** The history: at most a ciphertext request, then at most a marker request. */
  ghost predicate HistorySound(su: Setup, st: Store) {
    |st.issued| <= 2
    && (forall k: Kind :: Index(k) < |st.issued| ==> st.issued[Index(k)].kind == k)
    && (|st.issued| == 2 ==> CiphertextGood(su, st))
    && (forall i :: i in st.landed ==>
          i < |st.issued| && st.landed[i].bucket == st.issued[i].bucket && st.landed[i].name == st.issued[i].name)
    && (forall i, j :: i in st.landed && j in st.landed && st.landed[i].id == st.landed[j].id ==> i == j)
  }

  ghost predicate LockSound(w: World) {
    (w.lock.Some? ==> w.lock.value in w.procs && InLock(w.procs[w.lock.value].pc))
    && (forall pid :: pid in w.procs && InLock(w.procs[pid].pc) ==> w.lock == Some(pid))
  }

  ghost predicate DiskSound(su: Setup, st: Store) {
    Coherent(su, st, st.visible.intent) && Coherent(su, st, st.durable.intent)
    && Extends(st.durable.intent, st.visible.intent)
    && ReceiptSound(su, st, st.visible.receipt)
    && (st.durable.receipt.Some? ==> st.durable.receipt == st.visible.receipt)
  }

  /** The lock holder's journal is exactly the durable one. */
  ghost predicate InSync(su: Setup, st: Store, p: Proc) {
    st.visible.intent == Some(p.state) && st.durable.intent == Some(p.state) && p.dest == DestinationOf(p.state)
  }

  /** The version being verified is the only one its request can have produced. */
  ghost predicate CandidateSound(st: Store, p: Proc, k: Kind) {
    Index(k) in st.landed && st.landed[Index(k)].id == Candidate(p, k) && ValidFileId(Candidate(p, k))
    && (p.role.Uploader? ==> p.state.StatusOf(k).Acknowledged?)
    && (p.state.FileIdOf(k).Some? ==> p.state.FileIdOf(k).value == Candidate(p, k))
    && (k.Marker? ==> p.state.completion.Some?)
  }

  /** What a process about to send object `k` may rely on. */
  ghost predicate ReadyToIssue(st: Store, p: Proc, k: Kind) {
    p.role.Uploader? && p.state.StatusOf(k).Pending? && |st.issued| == Index(k)
    && (k.Marker? ==> p.state.completion.Some?)
  }

  /** The purpose of the journal write under way. */
  ghost predicate WriteSound(su: Setup, st: Store, p: Proc, a: After) {
    p.dest == DestinationOf(p.state) && Coherent(su, st, Some(p.state))
    && match a
       case Created => p.role.Uploader?
       case MarkedPending(k) => ReadyToIssue(st, p, k)
       case MarkedAcknowledged(k) => p.role.Uploader? && p.state.StatusOf(k).Acknowledged?
                                     && (k.Marker? ==> p.state.completion.Some?)
       case CompletionRecorded => p.state.completion.Some?
       case Adopted(k) => p.role.Reconciler? && p.state.StatusOf(k).Acknowledged? && ObjectGood(su, st, p.state, k)
  }

  ghost predicate HolderSound(su: Setup, st: Store, p: Proc) {
    match p.pc
    case CheckingReceipt => st.durable == st.visible
    case Loading => st.durable == st.visible
    case Sending(k) => InSync(su, st, p) && p.role.Uploader? && (k.Marker? ==> p.state.completion.Some?)
    case Saving(a) =>
      st.durable.intent == st.visible.intent && Extends(st.visible.intent, Some(p.state)) && WriteSound(su, st, p, a)
    case Syncing(a) => st.visible.intent == Some(p.state) && WriteSound(su, st, p, a)
    case Issuing(k) => InSync(su, st, p) && ReadyToIssue(st, p, k)
    case Awaiting(k, i) => InSync(su, st, p) && p.role.Uploader? && p.state.StatusOf(k).Pending? && i == Index(k)
                           && |st.issued| == i + 1
    case CheckingLocal(k) => InSync(su, st, p) && CandidateSound(st, p, k)
    case Verifying(k) => InSync(su, st, p) && CandidateSound(st, p, k)
    case Completing => InSync(su, st, p) && p.state.ciphertextStatus.Acknowledged? && p.state.completion.None?
                       && CiphertextGood(su, st)
    case Looking(k) => InSync(su, st, p) && p.role.Reconciler? && (k.Marker? ==> p.state.completion.Some?)
    case Publishing => InSync(su, st, p) && Settled(su, st, p.state)
    case SyncingReceipt => InSync(su, st, p) && st.visible.receipt.Some?
    case _ => true
  }

  /** A reported receipt hash is the hash of the one receipt this package can ever have. */
  ghost predicate OutcomeSound(su: Setup, st: Store, p: Proc) {
    p.pc.Done? && p.pc.outcome.Published? ==>
      st.visible.intent.Some? && st.durable.intent == st.visible.intent && Settled(su, st, st.visible.intent.value)
      && p.pc.outcome.receiptSha256 == su.prims.sha256(su.prims.encodeReceipt(ReceiptFor(su, st.visible.intent.value)))
  }

  ghost predicate HolderInv(su: Setup, w: World) {
    w.lock.Some? && w.lock.value in w.procs ==> HolderSound(su, w.store, w.procs[w.lock.value])
  }

  ghost predicate OutcomesSound(su: Setup, st: Store, procs: map<nat, Proc>) {
    forall pid :: pid in procs ==> OutcomeSound(su, st, procs[pid])
  }

  ghost predicate Inv(su: Setup, w: World) {
    HistorySound(su, w.store) && LockSound(w) && DiskSound(su, w.store) && HolderInv(su, w)
    && OutcomesSound(su, w.store, w.procs)
  }
}
