/**
 * When exactly a package can still reach its receipt: from every reachable world, whoever holds the
 * lock and whatever has crashed, unless a request was lost or a version landed damaged. The same for
 * what can be brought about without a power failure.
 */
module UploadRecoverable {
  import opened Wrappers
  import opened UploadIntent
  import opened UploadProtocol
  import opened UploadInvariant
  import opened UploadPreservation
  import opened UploadRecovery
  import opened UploadBlocked

  ghost predicate LandingsVerify(su: Setup, st: Store) { forall i :: i in st.landed ==> Verifies(su, st, i) }

  /** No landed version is damaged and no request was lost. */
  ghost predicate CanStillComplete(su: Setup, w: World) {
    LandingsVerify(su, w.store) && forall k: Kind :: !Lost(w, k)
  }

  /** No landed version is damaged, and the journal in use has no mark that leads nowhere. */
  ghost predicate CanCalmlyComplete(su: Setup, w: World) {
    LandingsVerify(su, w.store) && forall k: Kind :: !Stranded(w, k)
  }

  /** The visible journal has no pending object without a request. */
  ghost predicate NothingUnsent(st: Store) { st.visible.intent.Some? ==> NoLostRequest(st, st.visible.intent.value) }

  // What has happened at the remote side stays.

  ghost predicate Grows(st: Store, st': Store) {
    st.issued <= st'.issued && forall i :: i in st.landed ==> i in st'.landed && st'.landed[i] == st.landed[i]
  }

  lemma StepGrows(su: Setup, w: World, s: Step)
    requires Enabled(su, w, s)
    ensures Grows(w.store, Apply(su, w, s).store)
  {
  }

  lemma NextGrows(su: Setup, st: Store, w: World, w': World)
    requires Grows(st, w.store) && Next(su, w, w')
    ensures Grows(st, w'.store)
  {
    var s :| Enabled(su, w, s) && w' == Apply(su, w, s);
    StepGrows(su, w, s);
  }

  lemma LeadsGrows(su: Setup, w: World, w': World)
    requires Leads(su, w, w')
    ensures Grows(w.store, w'.store)
  {
    forall a: World, b: World | Grows(w.store, a.store) && Next(su, a, b) ensures Grows(w.store, b.store) {
      NextGrows(su, w.store, a, b);
    }
    LeadsKeeps(su, w, w', (x: World) => Grows(w.store, x.store));
  }

  /** A receipt is published only when everything that landed verifies. */
  lemma ReceiptVerifies(su: Setup, w: World, i: nat)
    requires Inv(su, w) && w.store.visible.receipt.Some? && i in w.store.landed
    ensures Verifies(su, w.store, i)
  {
    var s := w.store.visible.intent.value;
    assert s.StatusOf(Ciphertext).Acknowledged? && s.StatusOf(Marker).Acknowledged?;
    assert Index(Ciphertext) in w.store.landed && Index(Marker) in w.store.landed;
    assert ValidFileId(s.FileIdOf(Ciphertext).value) && ValidFileId(s.FileIdOf(Marker).value);
  }

  lemma DamageStays(su: Setup, w: World, w': World, i: nat)
    requires Reachable(su, w) && Leads(su, w, w') && w'.store.visible.receipt.Some? && i in w.store.landed
    ensures Verifies(su, w.store, i)
  {
    ReachableSound(su, w);
    LeadsSound(su, w, w');
    LeadsGrows(su, w, w');
    ReceiptVerifies(su, w', i);
  }

  // The way back, first for a journal that leaves nothing unsent.

  /** The local file that goes with what has landed. */
  function LocalFile(w: World, sealed: Bytes): Bytes {
    if 0 in w.store.landed then w.store.landed[0].content else sealed
  }

  lemma LocalFilePasses(su: Setup, w: World, sealed: Bytes)
    requires LandingsVerify(su, w.store) && PackageCheck(su, sealed).Ok?
    ensures PackageCheck(su, LocalFile(w, sealed)).Ok?
  {
    if 0 in w.store.landed { assert Verifies(su, w.store, 0); }
  }

  lemma CalmStepReached(su: Setup, w: World, s: Step)
    requires Reachable(su, w) && Enabled(su, w, s) && !s.Crash?
    ensures CalmLeads(su, w, Apply(su, w, s)) && Reachable(su, Apply(su, w, s))
  {
    CalmStep(su, w, s);
    LeadsStep(su, w, s);
    ReachableLeads(su, w, Apply(su, w, s));
  }

  /** The lock holder, if any, is stopped. */
  lemma Freed(su: Setup, w: World) returns (w': World)
    requires Reachable(su, w)
    ensures CalmLeads(su, w, w') && Reachable(su, w') && w'.lock.None? && w'.store == w.store
  {
    CalmSelf(su, w);
    w' := w;
    if w.lock.Some? {
      ReachableSound(su, w);
      w' := Stop(w, w.lock.value, Failed);
      CalmStepReached(su, w, Fail(w.lock.value));
    }
  }

  /** The lock holder is stopped, and the file put back. */
  lemma Restored(su: Setup, w: World, sealed: Bytes) returns (w': World)
    requires Reachable(su, w)
    ensures CalmLeads(su, w, w') && Reachable(su, w')
    ensures w'.lock.None? && w'.store == w.store && w'.file == LocalFile(w, sealed)
  {
    var w1 := Freed(su, w);
    w' := w1.(file := LocalFile(w, sealed));
    CalmStepReached(su, w1, EditFile(LocalFile(w, sealed)));
    CalmTransitive(su, w, w1, w');
  }

  /** Idle, every landing verifies, also against the local file. */
  ghost predicate Rested(su: Setup, w: World) { Inv(su, w) && AtRest(su, w) }

  ghost predicate AtRest(su: Setup, w: World) {
    w.lock.None? && PackageCheck(su, w.file).Ok? && LandingsVerify(su, w.store)
    && (0 in w.store.landed ==> su.prims.sha1(w.store.landed[0].content) == su.prims.sha1(w.file))
    && NothingUnsent(w.store)
  }

  lemma RestoredIsRested(su: Setup, w: World, sealed: Bytes) returns (w': World)
    requires Reachable(su, w) && PackageCheck(su, sealed).Ok? && LandingsVerify(su, w.store) && NothingUnsent(w.store)
    ensures CalmLeads(su, w, w') && Reachable(su, w') && Rested(su, w')
  {
    w' := Restored(su, w, sealed);
    ReachableSound(su, w');
    LocalFilePasses(su, w, sealed);
  }

  /** What arrives when request `i` lands intact. */
  function Arriving(w: World, i: nat): Bytes
    requires i < |w.store.issued|
  {
    if i == 0 then w.file else w.store.issued[i].content
  }

  /** A request still in flight lands intact. */
  lemma LandIntact(su: Setup, w: World, i: nat) returns (w': World)
    requires Rested(su, w) && i < |w.store.issued| && (i == 1 ==> 0 in w.store.landed)
    ensures CalmLeads(su, w, w') && Rested(su, w') && w'.store.issued == w.store.issued && w'.procs == w.procs
    ensures w'.store.landed.Keys == w.store.landed.Keys + {i}
    ensures i !in w.store.landed || w' == w
  {
    if i in w.store.landed {
      w' := w;
      CalmSelf(su, w);
      return;
    }
    var id := FreshId(w.store.landed);
    w' := DoLand(w, i, id, Arriving(w, i));
    LandingRests(su, w, i);
    LandingReached(su, w, i, id, Arriving(w, i));
  }

  lemma LandingReached(su: Setup, w: World, i: nat, id: string, content: Bytes)
    requires Inv(su, w) && CanLand(w, i, id)
    ensures CalmLeads(su, w, DoLand(w, i, id, content)) && Inv(su, DoLand(w, i, id, content))
  {
    LandKeeps(su, w, i, id, content);
    CalmStep(su, w, Land(i, id, content));
  }

  lemma LandingRests(su: Setup, w: World, i: nat)
    requires AtRest(su, w) && HistorySound(su, w.store)
    requires i < |w.store.issued| && i !in w.store.landed && (i == 1 ==> 0 in w.store.landed)
    ensures CanLand(w, i, FreshId(w.store.landed))
    ensures AtRest(su, DoLand(w, i, FreshId(w.store.landed), Arriving(w, i)))
  {
    var w' := DoLand(w, i, FreshId(w.store.landed), Arriving(w, i));
    forall j | j in w'.store.landed ensures Verifies(su, w'.store, j) {
      if j != i { assert Verifies(su, w.store, j); }
    }
  }

  lemma LandAll(su: Setup, w: World) returns (w': World)
    requires Rested(su, w)
    ensures CalmLeads(su, w, w') && Rested(su, w') && Landed(su, w')
  {
    w' := w;
    CalmSelf(su, w);
    if |w.store.issued| > 0 { w' := LandIntact(su, w, 0); }
    if |w.store.issued| > 1 {
      var w1 := w';
      w' := LandIntact(su, w1, 1);
      CalmTransitive(su, w, w1, w');
    }
    AllLanded(su, w');
  }

  lemma AllLanded(su: Setup, w: World)
    requires AtRest(su, w) && |w.store.issued| <= 2
    requires (|w.store.issued| > 0 ==> 0 in w.store.landed) && (|w.store.issued| > 1 ==> 1 in w.store.landed)
    ensures Landed(su, w)
  {
    forall i: nat | i < |w.store.issued| ensures Verifies(su, w.store, i) { assert i in w.store.landed; }
  }

  lemma RestedReachesReceipt(su: Setup, w: World) returns (w': World)
    requires Reachable(su, w) && Rested(su, w) && Landed(su, w)
    ensures CalmLeads(su, w, w') && w'.store.visible.receipt.Some?
  {
    var r := Unused(w.procs.Keys);
    var u := Unused(w.procs.Keys + {r});
    var intent := w.store.visible.intent;
    var dest := if intent.Some? then DestinationOf(intent.value) else Destination("", "");
    w' := RecoveryReachesReceipt(su, w, dest, r, u, "");
  }

  lemma NothingUnsentReachesReceipt(su: Setup, w: World, sealed: Bytes) returns (w': World)
    requires Reachable(su, w) && PackageCheck(su, sealed).Ok? && LandingsVerify(su, w.store) && NothingUnsent(w.store)
    ensures CalmLeads(su, w, w') && w'.store.visible.receipt.Some?
  {
    var w1 := RestoredIsRested(su, w, sealed);
    var w2 := LandAll(su, w1);
    CalmIsLeads(su, w1, w2);
    ReachableLeads(su, w1, w2);
    w' := RestedReachesReceipt(su, w2);
    CalmTransitive(su, w, w1, w2);
    CalmTransitive(su, w, w2, w');
  }

  // A holder that is about to send first does so.

  lemma IssueSends(su: Setup, w: World, pid: nat, k: Kind) returns (w': World)
    requires Reachable(su, w) && w.lock == Some(pid) && AtPc(w, pid, Issuing(k)) && LandingsVerify(su, w.store)
    ensures CalmLeads(su, w, w') && Reachable(su, w') && LandingsVerify(su, w'.store) && NothingUnsent(w'.store)
  {
    ReachableSound(su, w);
    CalmStepReached(su, w, Issue(pid));
    w' := DoIssue(su, w, pid);
    forall i | i in w'.store.landed ensures Verifies(su, w'.store, i) { assert Verifies(su, w.store, i); }
    PendingExcludes(su, w.procs[pid].state, k);
  }

  lemma ArmedSends(su: Setup, w: World, pid: nat, k: Kind) returns (w': World)
    requires Reachable(su, w) && w.lock == Some(pid) && pid in w.procs && Armed(w.procs[pid].pc, k)
    requires LandingsVerify(su, w.store)
    ensures CalmLeads(su, w, w') && Reachable(su, w') && LandingsVerify(su, w'.store) && NothingUnsent(w'.store)
  {
    var w1 := w;
    CalmSelf(su, w);
    if w1.procs[pid].pc.Saving? {
      CalmStepReached(su, w1, Save(pid));
      w1 := DoSave(w1, pid);
    }
    if w1.procs[pid].pc.Syncing? {
      CalmStepReached(su, w1, Sync(pid));
      CalmTransitive(su, w, w1, DoSync(w1, pid));
      w1 := DoSync(w1, pid);
    }
    forall i | i in w1.store.landed ensures Verifies(su, w1.store, i) { assert Verifies(su, w.store, i); }
    w' := IssueSends(su, w1, pid, k);
    CalmTransitive(su, w, w1, w');
  }

  lemma CalmlyReachesReceipt(su: Setup, w: World, sealed: Bytes) returns (w': World)
    requires Reachable(su, w) && PackageCheck(su, sealed).Ok? && CanCalmlyComplete(su, w)
    ensures CalmLeads(su, w, w') && w'.store.visible.receipt.Some?
  {
    if NothingUnsent(w.store) {
      w' := NothingUnsentReachesReceipt(su, w, sealed);
    } else {
      var k :| w.store.visible.intent.value.StatusOf(k).Pending? && Index(k) >= |w.store.issued|;
      assert !Stranded(w, k);
      var w1 := ArmedSends(su, w, w.lock.value, k);
      w' := NothingUnsentReachesReceipt(su, w1, sealed);
      CalmTransitive(su, w, w1, w');
    }
  }

  /**
   * From any reachable world some continuation without a power failure publishes a receipt exactly when
   * no landed version is damaged and no mark is stranded. `sealed` is the package as it was sealed.
   */
  lemma CalmlyRecoverableExactly(su: Setup, w: World, sealed: Bytes)
    requires Reachable(su, w) && PackageCheck(su, sealed).Ok?
    ensures (exists w' :: CalmLeads(su, w, w') && w'.store.visible.receipt.Some?) <==> CanCalmlyComplete(su, w)
  {
    if CanCalmlyComplete(su, w) {
      var w' := CalmlyReachesReceipt(su, w, sealed);
    } else {
      forall w' | CalmLeads(su, w, w') ensures w'.store.visible.receipt.None? {
        if w'.store.visible.receipt.Some? {
          CalmIsLeads(su, w, w');
          forall i | i in w.store.landed ensures Verifies(su, w.store, i) { DamageStays(su, w, w', i); }
          var k :| Stranded(w, k);
          StrandedBlocksCalmly(su, w, w', k);
        }
      }
    }
  }

  /** A power failure that loses whatever is not durable takes back every mark that is not lost. */
  lemma CrashFreesStranded(su: Setup, w: World, k: Kind)
    requires Reachable(su, w) && CanStillComplete(su, w) && Stranded(w, k)
    ensures CanCalmlyComplete(su, DoCrash(w, false, false))
  {
    ReachableSound(su, w);
    var w' := DoCrash(w, false, false);
    forall i | i in w'.store.landed ensures Verifies(su, w'.store, i) { assert Verifies(su, w.store, i); }
    forall j: Kind ensures !Stranded(w', j) {
      if PendingUnsent(w.store.durable, w.store, j) {
        assert !Lost(w, j);
        OnlyOnePending(su, w, j, k);
      }
    }
  }

  /** An object pending in the durable journal is the one pending in the visible journal. */
  lemma OnlyOnePending(su: Setup, w: World, j: Kind, k: Kind)
    requires Inv(su, w) && PendingUnsent(w.store.durable, w.store, j) && PendingUnsent(w.store.visible, w.store, k)
    ensures j == k
  {
    var v := w.store.visible.intent.value;
    assert v.StatusOf(j).Pending?;
    PendingExcludes(su, v, k);
    PendingExcludes(su, v, j);
  }

  lemma CompletableReachesReceipt(su: Setup, w: World, sealed: Bytes) returns (w': World)
    requires Reachable(su, w) && PackageCheck(su, sealed).Ok? && CanStillComplete(su, w)
    ensures Leads(su, w, w') && w'.store.visible.receipt.Some?
  {
    if CanCalmlyComplete(su, w) {
      w' := CalmlyReachesReceipt(su, w, sealed);
      CalmIsLeads(su, w, w');
    } else {
      var k :| Stranded(w, k);
      CrashFreesStranded(su, w, k);
      var w1 := DoCrash(w, false, false);
      LeadsStep(su, w, Crash(false, false));
      ReachableLeads(su, w, w1);
      w' := CalmlyReachesReceipt(su, w1, sealed);
      CalmIsLeads(su, w1, w');
      LeadsTransitive(su, w, w1, w');
    }
  }

  /**
   * From any reachable world some continuation publishes a receipt exactly when no landed version
   * is damaged and no request was lost. `sealed` is the package as it was sealed.
   */
  lemma RecoverableExactly(su: Setup, w: World, sealed: Bytes)
    requires Reachable(su, w) && PackageCheck(su, sealed).Ok?
    ensures (exists w' :: Leads(su, w, w') && w'.store.visible.receipt.Some?) <==> CanStillComplete(su, w)
  {
    if CanStillComplete(su, w) {
      var w' := CompletableReachesReceipt(su, w, sealed);
    } else {
      forall w' | Leads(su, w, w') ensures w'.store.visible.receipt.None? {
        if w'.store.visible.receipt.Some? {
          forall i | i in w.store.landed ensures Verifies(su, w.store, i) { DamageStays(su, w, w', i); }
          var k :| Lost(w, k);
          LostRequestBlocksForEver(su, w, w', k);
        }
      }
    }
  }

  // A request can be lost.

  /** One process continued by one enabled step. */
  lemma Then(su: Setup, w0: World, w: World, s: Step)
    requires Leads(su, w0, w) && Enabled(su, w, s)
    ensures Leads(su, w0, Apply(su, w, s))
  {
    LeadsStep(su, w, s);
    LeadsTransitive(su, w0, w, Apply(su, w, s));
  }

  /** A first uploader at program point `pc`, with journal `s` in memory and nothing sent. */
  predicate Alone(w: World, file: Bytes, dest: Destination, pc: Pc, s: Intent) {
    w.file == file && w.lock == Some(0) && w.procs == map[0 := Proc(Uploader, dest, pc, s, "")]
    && w.store.issued == [] && w.store.landed == map[] && w.store.visible.receipt.None?
  }

  lemma UploaderCreates(su: Setup, file: Bytes, dest: Destination) returns (w: World)
    requires PackageCheck(su, file).Ok?
    ensures Leads(su, Init(file), w) && Alone(w, file, dest, Saving(Created), FreshIntent(su, dest))
  {
    var w0 := Init(file);
    assert Run(su, [w0]) && [w0][0] == w0;
    w := DoSpawn(su, w0, 0, Uploader, dest);
    Then(su, w0, w0, Spawn(0, Uploader, dest));
    Then(su, w0, w, CheckPackage(0));
    w := DoCheckPackage(w, 0);
    Then(su, w0, w, Acquire(0));
    w := DoAcquire(w, 0);
    Then(su, w0, w, CheckReceipt(0));
    w := DoCheckReceipt(w, 0);
    Then(su, w0, w, Load(0));
    w := DoLoad(su, w, 0);
  }

  lemma UploaderArms(su: Setup, file: Bytes, dest: Destination) returns (w: World)
    requires PackageCheck(su, file).Ok?
    ensures Leads(su, Init(file), w)
    ensures Alone(w, file, dest, Saving(MarkedPending(Ciphertext)), FreshIntent(su, dest).MarkPending(Ciphertext))
    ensures w.store.durable.intent == Some(FreshIntent(su, dest))
  {
    w := UploaderCreates(su, file, dest);
    Then(su, Init(file), w, Save(0));
    w := DoSave(w, 0);
    Then(su, Init(file), w, Sync(0));
    w := DoSync(w, 0);
    Then(su, Init(file), w, SendOnce(0));
    w := DoSendOnce(w, 0);
  }

  /**
   * For every package a run loses a request: the uploader is killed after its mark is durable and
   * before the request leaves. With `RecoverableExactly` no continuation publishes a receipt, although
   * nothing was ever sent and the file is intact.
   */
  lemma RequestCanBeLost(su: Setup, file: Bytes, dest: Destination) returns (w: World)
    requires PackageCheck(su, file).Ok?
    ensures Reachable(su, w) && w.file == file && w.lock.None? && w.store.issued == [] && w.store.landed == map[]
    ensures Lost(w, Ciphertext) && forall w' :: Leads(su, w, w') ==> w'.store.visible.receipt.None?
  {
    w := UploaderArms(su, file, dest);
    Then(su, Init(file), w, Save(0));
    w := DoSave(w, 0);
    Then(su, Init(file), w, Sync(0));
    w := DoSync(w, 0);
    Then(su, Init(file), w, Fail(0));
    w := Stop(w, 0, Failed);
    assert Reachable(su, w);
    forall w' | Leads(su, w, w') ensures w'.store.visible.receipt.None? {
      LostRequestBlocksForEver(su, w, w', Ciphertext);
    }
  }

  /**
   * For every package a run strands a mark without losing it: the uploader is killed between the replace
   * and the sync of its mark. No continuation publishes a receipt unless the power fails first.
   */
  lemma MarkCanBeStranded(su: Setup, file: Bytes, dest: Destination) returns (w: World)
    requires PackageCheck(su, file).Ok?
    ensures Reachable(su, w) && w.file == file && w.lock.None? && w.store.issued == [] && w.store.landed == map[]
    ensures Stranded(w, Ciphertext) && CanStillComplete(su, w)
    ensures forall w' :: CalmLeads(su, w, w') ==> w'.store.visible.receipt.None?
    ensures exists w' :: Leads(su, w, w') && w'.store.visible.receipt.Some?
  {
    w := UploaderArms(su, file, dest);
    Then(su, Init(file), w, Save(0));
    w := DoSave(w, 0);
    Then(su, Init(file), w, Fail(0));
    w := Stop(w, 0, Failed);
    assert Reachable(su, w);
    forall w' | CalmLeads(su, w, w') ensures w'.store.visible.receipt.None? {
      StrandedBlocksCalmly(su, w, w', Ciphertext);
    }
    RecoverableExactly(su, w, file);
  }
}
