/**
 * When a package can still reach its receipt. An armed request that never left is never sent again,
 * and a version that landed damaged stays: these two obstacles, and no others, block for ever.
 */
module UploadBlocked {
  import opened Wrappers
  import opened UploadIntent
  import opened UploadProtocol
  import opened UploadInvariant
  import opened UploadPreservation

  /** A process that has marked object `k` pending and is on its way to send it. */
  predicate Armed(pc: Pc, k: Kind) {
    pc == Saving(MarkedPending(k)) || pc == Syncing(MarkedPending(k)) || pc == Issuing(k)
  }

  predicate HolderArmed(w: World, k: Kind) {
    w.lock.Some? && w.lock.value in w.procs && Armed(w.procs[w.lock.value].pc, k)
  }

  /** This image of the journal says pending, and no request for the object was ever issued. */
  predicate PendingUnsent(d: Disk, st: Store, k: Kind) {
    d.intent.Some? && d.intent.value.StatusOf(k).Pending? && |st.issued| <= Index(k)
  }

  /** The durable journal says pending, no request for the object was issued and nobody is about to. */
  predicate Lost(w: World, k: Kind) { PendingUnsent(w.store.durable, w.store, k) && !HolderArmed(w, k) }

  /** The same of the journal that processes see; its mark need not survive a power failure. */
  predicate Stranded(w: World, k: Kind) { PendingUnsent(w.store.visible, w.store, k) && !HolderArmed(w, k) }

  /** The program points a process can still reach under the lock. */
  predicate Harmless(pc: Pc, k: Kind) {
    pc.CheckingReceipt? || pc.Loading? || pc.Sending? || pc.Looking?
    || pc == Saving(Created) || pc == Syncing(Created)
    || (k.Marker? && (pc == CheckingLocal(Ciphertext) || pc == Verifying(Ciphertext)
                      || ((pc.Saving? || pc.Syncing?) && HarmlessWrite(pc.after))))
  }

  predicate HarmlessWrite(a: After) {
    a == MarkedAcknowledged(Ciphertext) || a == CompletionRecorded || a == Adopted(Ciphertext)
  }

  ghost predicate HolderBlocked(w: World, k: Kind) {
    w.lock.Some? && w.lock.value in w.procs ==>
      var p := w.procs[w.lock.value];
      Harmless(p.pc, k) && (p.pc.CheckingReceipt? || p.pc.Loading? || p.state.StatusOf(k).Pending?)
  }

  ghost predicate Halted(su: Setup, w: World, k: Kind) { Inv(su, w) && StaysHalted(w, k) }

  ghost predicate StaysHalted(w: World, k: Kind) { PendingUnsent(w.store.visible, w.store, k) && HolderBlocked(w, k) }

  /** Not even a power failure takes the mark back. */
  ghost predicate Blocked(su: Setup, w: World, k: Kind) {
    Halted(su, w, k) && PendingUnsent(w.store.durable, w.store, k)
  }

  /** What a pending object says of the rest of the journal. */
  predicate Excludes(s: Intent, k: Kind) {
    if k.Ciphertext? then s.completion.None? && s.markerStatus.Ready?
    else s.completion.Some? && s.ciphertextStatus.Acknowledged?
  }

  /** A pending object leaves no room for another one that is pending or completed after it. */
  lemma PendingExcludes(su: Setup, s: Intent, k: Kind)
    requires LoadIntent(su, DestinationOf(s), s).Ok? && s.StatusOf(k).Pending?
    ensures Excludes(s, k)
  {
  }

  /** What a process under the lock of a halted package knows, once it has read the journal. */
  predicate Knows(p: Proc, k: Kind) {
    Excludes(p.state, k)
    && ((p.pc.Sending? || p.pc.Looking?) && p.pc.k.Marker? ==> p.state.completion.Some?)
  }

  lemma HolderKnows(su: Setup, st: Store, p: Proc, k: Kind)
    requires DiskSound(su, st) && HolderSound(su, st, p) && p.state.StatusOf(k).Pending?
    requires p.pc.Sending? || p.pc.Looking? || p.pc.Saving? || p.pc.Syncing? || p.pc.CheckingLocal? || p.pc.Verifying?
    ensures Knows(p, k)
  {
    PendingExcludes(su, p.state, k);
  }

  lemma HaltedHolder(su: Setup, w: World, pid: nat, k: Kind)
    requires Halted(su, w, k) && pid in w.procs && InLock(w.procs[pid].pc)
    ensures w.lock == Some(pid)
    ensures var p := w.procs[pid]; p.pc.CheckingReceipt? || p.pc.Loading? || Knows(p, k)
  {
    Holder(su, w, pid);
    var p := w.procs[pid];
    if !p.pc.CheckingReceipt? && !p.pc.Loading? { HolderKnows(su, w.store, p, k); }
  }

  lemma LoadStaysHalted(su: Setup, w: World, pid: nat, k: Kind)
    requires StaysHalted(w, k) && w.lock == Some(pid) && CanLoad(su, w, pid)
    ensures StaysHalted(DoLoad(su, w, pid), k)
  {
  }

  lemma SendOnceStaysHalted(w: World, pid: nat, k: Kind)
    requires StaysHalted(w, k) && w.lock == Some(pid) && CanSendOnce(w, pid) && Knows(w.procs[pid], k)
    ensures StaysHalted(DoSendOnce(w, pid), k)
  {
  }

  lemma SaveStaysHalted(w: World, pid: nat, k: Kind)
    requires StaysHalted(w, k) && w.lock == Some(pid) && CanSave(w, pid)
    ensures StaysHalted(DoSave(w, pid), k)
  {
  }

  lemma SyncStaysHalted(w: World, pid: nat, k: Kind)
    requires StaysHalted(w, k) && w.lock == Some(pid) && CanSync(w, pid) && Knows(w.procs[pid], k)
    ensures StaysHalted(DoSync(w, pid), k)
  {
  }

  lemma CheckLocalStaysHalted(su: Setup, w: World, pid: nat, k: Kind)
    requires StaysHalted(w, k) && w.lock == Some(pid) && CanCheckLocal(su, w, pid)
    ensures StaysHalted(DoCheckLocal(w, pid), k)
  {
  }

  lemma VerifyRemoteStaysHalted(w: World, pid: nat, k: Kind)
    requires StaysHalted(w, k) && w.lock == Some(pid) && pid in w.procs && w.procs[pid].pc.Verifying?
    requires Knows(w.procs[pid], k)
    ensures StaysHalted(DoVerifyRemote(w, pid), k)
  {
  }

  lemma ListStaysHalted(su: Setup, w: World, pid: nat, k: Kind)
    requires StaysHalted(w, k) && w.lock == Some(pid) && CanList(w, pid) && Knows(w.procs[pid], k)
    requires HistorySound(su, w.store) && InSync(su, w.store, w.procs[pid])
    requires Coherent(su, w.store, Some(w.procs[pid].state))
    ensures StaysHalted(DoList(w, pid), k)
  {
    var p := w.procs[pid];
    var found := Listed(w.store, p.dest.bucket, p.state.NameOf(p.pc.k));
    if found != {} {
      var i := Sole(found);
      assert i in found;
      ListedIsOwn(su, w.store, p, p.pc.k, i);
    }
  }

  /** Nothing can be sent, recorded or published for the package while it is halted. */
  lemma NothingIssuedWhileHalted(w: World, pid: nat, k: Kind)
    requires StaysHalted(w, k) && w.lock == Some(pid) && pid in w.procs
    ensures !w.procs[pid].pc.Issuing? && !w.procs[pid].pc.Awaiting? && !w.procs[pid].pc.Completing?
    ensures !w.procs[pid].pc.Publishing? && !w.procs[pid].pc.SyncingReceipt?
  {
  }

  lemma LoadingStepStaysHalted(su: Setup, w: World, k: Kind, s: Step)
    requires Halted(su, w, k) && Enabled(su, w, s) && (s.Load? || s.SendOnce? || s.Save? || s.Sync?)
    ensures StaysHalted(Apply(su, w, s), k)
  {
    HaltedHolder(su, w, s.pid, k);
    if s.Load? { LoadStaysHalted(su, w, s.pid, k); return; }
    if s.SendOnce? { SendOnceStaysHalted(w, s.pid, k); return; }
    if s.Save? { SaveStaysHalted(w, s.pid, k); return; }
    SyncStaysHalted(w, s.pid, k);
  }

  lemma VerifyingStepStaysHalted(su: Setup, w: World, k: Kind, s: Step)
    requires Halted(su, w, k) && Enabled(su, w, s) && (s.CheckLocal? || s.VerifyRemote?)
    ensures StaysHalted(Apply(su, w, s), k)
  {
    HaltedHolder(su, w, s.pid, k);
    if s.CheckLocal? { CheckLocalStaysHalted(su, w, s.pid, k); return; }
    VerifyRemoteStaysHalted(w, s.pid, k);
  }

  lemma ListingStepStaysHalted(su: Setup, w: World, pid: nat, k: Kind)
    requires Halted(su, w, k) && CanList(w, pid)
    ensures StaysHalted(DoList(w, pid), k)
  {
    HaltedHolder(su, w, pid, k);
    Holder(su, w, pid);
    ListStaysHalted(su, w, pid, k);
  }

  lemma SendingStepCannotBe(su: Setup, w: World, k: Kind, s: Step)
    requires Halted(su, w, k) && Enabled(su, w, s)
    ensures !s.Issue? && !s.Acknowledge? && !s.Complete? && !s.Publish? && !s.Finish?
  {
    if s.Issue? || s.Acknowledge? || s.Complete? || s.Publish? || s.Finish? {
      HaltedHolder(su, w, s.pid, k);
      NothingIssuedWhileHalted(w, s.pid, k);
    }
  }

  lemma StartingStepStaysHalted(su: Setup, w: World, k: Kind, s: Step)
    requires StaysHalted(w, k) && LockSound(w) && Enabled(su, w, s)
    requires s.Spawn? || s.CheckPackage? || s.Acquire? || s.CheckReceipt?
    ensures StaysHalted(Apply(su, w, s), k)
  {
  }

  lemma OutsideStepStaysHalted(su: Setup, w: World, k: Kind, s: Step)
    requires StaysHalted(w, k) && LockSound(w) && Enabled(su, w, s) && (s.Land? || s.EditFile? || s.Fail?)
    ensures StaysHalted(Apply(su, w, s), k)
  {
  }

  lemma CalmStepStaysHalted(su: Setup, w: World, k: Kind, s: Step)
    requires Halted(su, w, k) && Enabled(su, w, s) && !s.Crash?
    ensures StaysHalted(Apply(su, w, s), k)
  {
    SendingStepCannotBe(su, w, k, s);
    if s.Load? || s.SendOnce? || s.Save? || s.Sync? {
      LoadingStepStaysHalted(su, w, k, s);
    } else if s.CheckLocal? || s.VerifyRemote? {
      VerifyingStepStaysHalted(su, w, k, s);
    } else if s.List? {
      ListingStepStaysHalted(su, w, s.pid, k);
    } else if s.Land? || s.EditFile? || s.Fail? {
      OutsideStepStaysHalted(su, w, k, s);
    } else {
      StartingStepStaysHalted(su, w, k, s);
    }
  }

  /** Without a power failure a halted package stays halted. */
  lemma StepStaysHalted(su: Setup, w: World, k: Kind, s: Step)
    requires Halted(su, w, k) && Enabled(su, w, s) && !s.Crash?
    ensures Halted(su, Apply(su, w, s), k)
  {
    StepKeeps(su, w, s);
    CalmStepStaysHalted(su, w, k, s);
  }

  /** The durable image stays or becomes the visible one, unless the power fails. */
  lemma DurableFollows(su: Setup, w: World, s: Step)
    requires Enabled(su, w, s) && !s.Crash?
    ensures var st := Apply(su, w, s).store; st.durable == w.store.durable || st.durable == st.visible
  {
  }

  lemma CrashStaysBlocked(su: Setup, w: World, k: Kind, s: Step)
    requires Blocked(su, w, k) && Enabled(su, w, s) && s.Crash?
    ensures Blocked(su, Apply(su, w, s), k)
  {
    StepKeeps(su, w, s);
  }

  lemma StepStaysBlocked(su: Setup, w: World, k: Kind, s: Step)
    requires Blocked(su, w, k) && Enabled(su, w, s)
    ensures Blocked(su, Apply(su, w, s), k)
  {
    if s.Crash? {
      CrashStaysBlocked(su, w, k, s);
    } else {
      StepStaysHalted(su, w, k, s);
      DurableFollows(su, w, s);
    }
  }

  lemma NextStaysBlocked(su: Setup, w: World, w': World, k: Kind)
    requires Blocked(su, w, k) && Next(su, w, w')
    ensures Blocked(su, w', k)
  {
    var s :| Enabled(su, w, s) && w' == Apply(su, w, s);
    StepStaysBlocked(su, w, k, s);
  }

  lemma LeadsStaysBlocked(su: Setup, w: World, w': World, k: Kind)
    requires Blocked(su, w, k) && Leads(su, w, w')
    ensures Blocked(su, w', k)
  {
    forall a, b | Blocked(su, a, k) && Next(su, a, b) ensures Blocked(su, b, k) { NextStaysBlocked(su, a, b, k); }
    LeadsKeeps(su, w, w', x => Blocked(su, x, k));
  }

  lemma CalmNextStaysHalted(su: Setup, w: World, w': World, k: Kind)
    requires Halted(su, w, k) && CalmNext(su, w, w')
    ensures Halted(su, w', k)
  {
    var s: Step :| !s.Crash? && Enabled(su, w, s) && w' == Apply(su, w, s);
    StepStaysHalted(su, w, k, s);
  }

  lemma CalmLeadsStaysHalted(su: Setup, w: World, w': World, k: Kind)
    requires Halted(su, w, k) && CalmLeads(su, w, w')
    ensures Halted(su, w', k)
  {
    forall a, b | Halted(su, a, k) && CalmNext(su, a, b) ensures Halted(su, b, k) { CalmNextStaysHalted(su, a, b, k); }
    CalmLeadsKeeps(su, w, w', x => Halted(su, x, k));
  }

  /** The lock holder, if any, cannot get past a stranded mark. */
  lemma StrandedIsHalted(su: Setup, w: World, k: Kind)
    requires Inv(su, w) && Stranded(w, k)
    ensures Halted(su, w, k)
  {
    if w.lock.Some? { HolderCannotPass(su, w.store, w.procs[w.lock.value], k); }
  }

  /** A lost request is lost in both images. */
  lemma LostIsStranded(su: Setup, w: World, k: Kind)
    requires Inv(su, w) && Lost(w, k)
    ensures Stranded(w, k)
  {
    assert w.store.visible.intent.value.StatusOf(k).Pending?;
  }

  lemma LostIsBlocked(su: Setup, w: World, k: Kind)
    requires Inv(su, w) && Lost(w, k)
    ensures Blocked(su, w, k)
  {
    LostIsStranded(su, w, k);
    StrandedIsHalted(su, w, k);
  }

  lemma HolderCannotPass(su: Setup, st: Store, p: Proc, k: Kind)
    requires HistorySound(su, st) && DiskSound(su, st) && HolderSound(su, st, p)
    requires PendingUnsent(st.visible, st, k) && InLock(p.pc) && !Armed(p.pc, k)
    ensures Harmless(p.pc, k) && (p.pc.CheckingReceipt? || p.pc.Loading? || p.state.StatusOf(k).Pending?)
  {
    if p.pc.Saving? || p.pc.Syncing? { WriterCannotPass(su, st, p, k); }
  }

  lemma WriterCannotPass(su: Setup, st: Store, p: Proc, k: Kind)
    requires HistorySound(su, st) && HolderSound(su, st, p) && PendingUnsent(st.visible, st, k)
    requires (p.pc.Saving? || p.pc.Syncing?) && !Armed(p.pc, k)
    ensures Harmless(p.pc, k) && p.state.StatusOf(k).Pending?
  {
    assert Coherent(su, st, Some(p.state));
    assert p.state.StatusOf(k).Pending? by {
      if p.pc.Saving? { assert Extends(st.visible.intent, Some(p.state)); }
    }
    PendingExcludes(su, p.state, k);
  }

  /** Whatever happens later, the lost request is never sent and no receipt appears. */
  lemma LostRequestBlocksForEver(su: Setup, w: World, w': World, k: Kind)
    requires Reachable(su, w) && Lost(w, k) && Leads(su, w, w')
    ensures w'.store.visible.receipt.None? && |w'.store.issued| <= Index(k)
  {
    ReachableSound(su, w);
    LostIsBlocked(su, w, k);
    LeadsStaysBlocked(su, w, w', k);
    HaltedHasNoReceipt(su, w', k);
  }

  lemma HaltedHasNoReceipt(su: Setup, w: World, k: Kind)
    requires Halted(su, w, k)
    ensures w.store.visible.receipt.None?
  {
  }

  /** As long as the power does not fail, a stranded mark blocks in the same way. */
  lemma StrandedBlocksCalmly(su: Setup, w: World, w': World, k: Kind)
    requires Reachable(su, w) && Stranded(w, k) && CalmLeads(su, w, w')
    ensures w'.store.visible.receipt.None? && |w'.store.issued| <= Index(k)
  {
    ReachableSound(su, w);
    StrandedIsHalted(su, w, k);
    CalmLeadsStaysHalted(su, w, w', k);
    HaltedHasNoReceipt(su, w', k);
  }

  /** A process id not in use. */
  lemma Unused(s: set<nat>) returns (n: nat)
    ensures n !in s
  {
    n := 0;
    var rest := s;
    while rest != {}
      invariant forall m :: m in s && m !in rest ==> m < n
      decreases rest
    {
      var m :| m in rest;
      rest := rest - {m};
      n := if m < n then n else m + 1;
    }
  }
}
