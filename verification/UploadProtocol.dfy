/**
 * Any number of `upload` and `reconcile` processes working on one package, as a transition
 * system. The package directory has two images: what running processes see, and what would
 * survive a power failure. Each action below is one step; steps of different processes interleave
 * freely, sent requests land at any later time with any content, and a process or the whole host
 * can stop between any two steps.
 */
module UploadProtocol {
  import opened Wrappers
  import opened UploadIntent

  datatype Disk = Disk(intent: Option<Intent>, receipt: Option<Receipt>)

  /** One upload request, as it left a process. `issued` is the history of all of them. */
  datatype Request = Request(kind: Kind, bucket: string, name: string, content: Bytes)

  /** One immutable remote version. */
  datatype Version = Version(id: string, bucket: string, name: string, content: Bytes)

  datatype Role = Uploader | Reconciler

  datatype Outcome =
    | Failed
    | ReadyToResume(next: Kind)
    | Published(receiptSha256: string)

  /** Which journal write is under way, hence where the process continues. */
  datatype After =
    | Created
    | MarkedPending(k: Kind)
    | MarkedAcknowledged(k: Kind)
    | CompletionRecorded
    | Adopted(k: Kind)

  datatype Pc =
    | CheckingPackage
    | Locking
    | CheckingReceipt
    | Loading
    | Sending(k: Kind)          // at the top of send_once
    | Saving(after: After)      // atomic_json before the replace
    | Syncing(after: After)     // replaced, directory not yet synced
    | Issuing(k: Kind)          // pending is durable, nothing sent yet
    | Awaiting(k: Kind, i: nat) // request i sent, no acknowledgement yet
    | CheckingLocal(k: Kind)    // verify_remote_file, local source
    | Verifying(k: Kind)        // verify_remote_file, remote metadata and read-back
    | Completing
    | Looking(k: Kind)          // reconcile_file, listing versions
    | Publishing
    | SyncingReceipt
    | Done(outcome: Outcome)

  /** `state` is the in-memory journal, `found` the version id a reconciler is examining. */
  datatype Proc = Proc(role: Role, dest: Destination, pc: Pc, state: Intent, found: string)

  /** Everything that outlives a process: both disk images and the remote side. */
  datatype Store = Store(visible: Disk, durable: Disk, issued: seq<Request>, landed: map<nat, Version>)

  datatype World = World(file: Bytes, store: Store, lock: Option<nat>, procs: map<nat, Proc>)

  /** The actions of processes, then those of the environment. */
  datatype Step =
    | Spawn(pid: nat, role: Role, dest: Destination)
    | CheckPackage(pid: nat)
    | Acquire(pid: nat)
    | CheckReceipt(pid: nat)
    | Load(pid: nat)
    | SendOnce(pid: nat)
    | Save(pid: nat)
    | Sync(pid: nat)
    | Issue(pid: nat)
    | Acknowledge(pid: nat)
    | CheckLocal(pid: nat)
    | VerifyRemote(pid: nat, i: nat)
    | Complete(pid: nat, now: string)
    | List(pid: nat)
    | Publish(pid: nat)
    | Finish(pid: nat)
    | Fail(pid: nat)
    | Crash(intentSurvives: bool, receiptSurvives: bool)
    | Land(i: nat, id: string, content: Bytes)
    | EditFile(content: Bytes)

  function Init(file: Bytes): World {
    World(file, Store(Disk(None, None), Disk(None, None), [], map[]), None, map[])
  }

  /** The program counters between acquiring and releasing the package lock. */
  predicate InLock(pc: Pc) { !pc.CheckingPackage? && !pc.Locking? && !pc.Done? }

  function With(w: World, pid: nat, p: Proc): World { w.(procs := w.procs[pid := p]) }

  function At(p: Proc, pc: Pc): Proc { p.(pc := pc) }

  /** A process ends: an exception, a kill or a normal return; its lock goes with it. */
  function Stop(w: World, pid: nat, o: Outcome): World
    requires pid in w.procs
  {
    With(w, pid, At(w.procs[pid], Done(o))).(lock := if w.lock == Some(pid) then None else w.lock)
  }

  /** Where a process continues after a journal write has become durable. */
  function Resume(p: Proc, a: After): Pc {
    match a
    case Created => Sending(Ciphertext)
    case MarkedPending(k) => Issuing(k)
    case MarkedAcknowledged(k) => CheckingLocal(k)
    case CompletionRecorded => if p.role.Uploader? then Sending(Marker) else Looking(Marker)
    case Adopted(k) => AfterVerified(p, k)
  }

  /** Where a process continues once an object's version id is recorded and verified. */
  function AfterVerified(p: Proc, k: Kind): Pc {
    if k.Marker? then Publishing
    else if p.state.completion.None? then Completing
    else if p.role.Uploader? then Sending(Marker)
    else Looking(Marker)
  }

  /** The bytes a process sends or compares for an object. */
  function LocalBytes(su: Setup, file: Bytes, p: Proc, k: Kind): Bytes {
    if k.Ciphertext? then file
    else if p.state.completion.Some? then su.prims.encodeCompletion(p.state.completion.value)
    else []
  }

  /** The digest and size verify_remote_file is given for an object. */
  function ExpectedSha(su: Setup, p: Proc, k: Kind): string {
    if k.Ciphertext? then su.record.ciphertextSha256
    else if p.state.completion.None? then ""
    else CompletionSha(su, p.state.completion.value)
  }

  function ExpectedSize(su: Setup, p: Proc, k: Kind): nat {
    if k.Ciphertext? then su.record.ciphertextBytes
    else if p.state.completion.None? then 0
    else |su.prims.encodeCompletion(p.state.completion.value)|
  }

  /** The version id being verified: recorded in the journal, or just found by listing. */
  function Candidate(p: Proc, k: Kind): string {
    if p.role.Reconciler? then p.found
    else if p.state.FileIdOf(k).Some? then p.state.FileIdOf(k).value else ""
  }

  /** The requests for one object name that have landed: what listing the name returns. */
  function Listed(st: Store, bucket: string, name: string): set<nat> {
    set i | i in st.landed && st.landed[i].bucket == bucket && st.landed[i].name == name
  }

  /** The element of a one-element listing. */
  function Sole(found: set<nat>): (i: nat)
    requires |found| == 1
    ensures found == {i}
  {
    SingletonOf(found);
    var i :| i in found;
    i
  }

  lemma SingletonOf(s: set<nat>)
    requires |s| == 1
    ensures forall i :: i in s ==> s == {i}
  {
    forall i | i in s ensures s == {i} {
      assert |s - {i}| == 0;
      assert s - {i} == {};
    }
  }

  /** A listed version may be examined: a usable id that does not contradict a recorded one. */
  predicate Adoptable(p: Proc, k: Kind, id: string) {
    ValidFileId(id) && (p.state.FileIdOf(k).Some? ==> p.state.FileIdOf(k).value == id)
  }

  predicate AtPc(w: World, pid: nat, pc: Pc) { pid in w.procs && w.procs[pid].pc == pc }

  // Each action has a guard Can… and an effect Do….

  predicate CanSpawn(w: World, pid: nat) { pid !in w.procs }

  function DoSpawn(su: Setup, w: World, pid: nat, role: Role, dest: Destination): World {
    With(w, pid, Proc(role, dest, CheckingPackage, FreshIntent(su, dest), ""))
  }

  /** upload_package. */
  predicate CanCheckPackage(su: Setup, w: World, pid: nat) {
    AtPc(w, pid, CheckingPackage) && PackageCheck(su, w.file).Ok?
  }

  function DoCheckPackage(w: World, pid: nat): World
    requires pid in w.procs
  {
    With(w, pid, At(w.procs[pid], Locking))
  }

  /** upload_lock: non-blocking, and the directory is synced while the lock is taken. */
  predicate CanAcquire(w: World, pid: nat) { AtPc(w, pid, Locking) && w.lock.None? }

  function DoAcquire(w: World, pid: nat): World
    requires pid in w.procs
  {
    With(w, pid, At(w.procs[pid], if w.procs[pid].role.Uploader? then CheckingReceipt else Loading))
    .(lock := Some(pid), store := w.store.(durable := w.store.visible))
  }

  predicate CanCheckReceipt(w: World, pid: nat) {
    AtPc(w, pid, CheckingReceipt) && w.store.visible.receipt.None?
  }

  function DoCheckReceipt(w: World, pid: nat): World
    requires pid in w.procs
  {
    With(w, pid, At(w.procs[pid], Loading))
  }

  /** upload_intent: an uploader may create the journal, a reconciler needs an existing one. */
  predicate CanLoad(su: Setup, w: World, pid: nat) {
    AtPc(w, pid, Loading)
    && if w.store.visible.intent.None? then w.procs[pid].role.Uploader?
       else LoadIntent(su, w.procs[pid].dest, w.store.visible.intent.value).Ok?
  }

  function DoLoad(su: Setup, w: World, pid: nat): World
    requires pid in w.procs
  {
    var p := w.procs[pid];
    if w.store.visible.intent.None? then
      With(w, pid, p.(state := FreshIntent(su, p.dest), pc := Saving(Created)))
    else
      With(w, pid, p.(state := w.store.visible.intent.value,
                      pc := if p.role.Uploader? then Sending(Ciphertext) else Looking(Ciphertext)))
  }

  /** send_once up to its first write: pending is refused, acknowledged needs no request. */
  predicate CanSendOnce(w: World, pid: nat) {
    pid in w.procs && w.procs[pid].pc.Sending? && !w.procs[pid].state.StatusOf(w.procs[pid].pc.k).Pending?
  }

  function DoSendOnce(w: World, pid: nat): World
    requires CanSendOnce(w, pid)
  {
    var p := w.procs[pid]; var k := p.pc.k;
    if p.state.StatusOf(k).Ready? then
      With(w, pid, p.(state := p.state.MarkPending(k), pc := Saving(MarkedPending(k))))
    else With(w, pid, At(p, CheckingLocal(k)))
  }

  /** atomic_json: the replace becomes visible, then the directory entry becomes durable. */
  predicate CanSave(w: World, pid: nat) { pid in w.procs && w.procs[pid].pc.Saving? }

  function DoSave(w: World, pid: nat): World
    requires CanSave(w, pid)
  {
    var p := w.procs[pid];
    With(w, pid, At(p, Syncing(p.pc.after)))
    .(store := w.store.(visible := w.store.visible.(intent := Some(p.state))))
  }

  predicate CanSync(w: World, pid: nat) { pid in w.procs && w.procs[pid].pc.Syncing? }

  function DoSync(w: World, pid: nat): World
    requires CanSync(w, pid)
  {
    var p := w.procs[pid];
    With(w, pid, At(p, Resume(p, p.pc.after))).(store := w.store.(durable := w.store.visible))
  }

  /** The first byte of a remote mutation leaves the process. */
  predicate CanIssue(w: World, pid: nat) { pid in w.procs && w.procs[pid].pc.Issuing? }

  function DoIssue(su: Setup, w: World, pid: nat): World
    requires CanIssue(w, pid)
  {
    var p := w.procs[pid]; var k := p.pc.k;
    var r := Request(k, p.dest.bucket, p.state.NameOf(k), LocalBytes(su, w.file, p, k));
    With(w, pid, At(p, Awaiting(k, |w.store.issued|))).(store := w.store.(issued := w.store.issued + [r]))
  }

  /** The acknowledgement checks of the transport and of send_once. */
  predicate CanAcknowledge(su: Setup, w: World, pid: nat) {
    pid in w.procs && w.procs[pid].pc.Awaiting?
    && var i := w.procs[pid].pc.i;
       i in w.store.landed && i < |w.store.issued|
       && |w.store.landed[i].content| == |w.store.issued[i].content|
       && su.prims.sha1(w.store.landed[i].content) == su.prims.sha1(w.store.issued[i].content)
       && ValidFileId(w.store.landed[i].id)
  }

  function DoAcknowledge(w: World, pid: nat): World
    requires pid in w.procs && w.procs[pid].pc.Awaiting? && w.procs[pid].pc.i in w.store.landed
  {
    var p := w.procs[pid]; var k := p.pc.k;
    With(w, pid, p.(state := p.state.MarkAcknowledged(k, w.store.landed[p.pc.i].id),
                    pc := Saving(MarkedAcknowledged(k))))
  }

  /** verify_remote_file, first the local source, then the remote metadata and the full read-back. */
  predicate CanCheckLocal(su: Setup, w: World, pid: nat) {
    pid in w.procs && w.procs[pid].pc.CheckingLocal?
    && var p := w.procs[pid]; var b := LocalBytes(su, w.file, p, p.pc.k);
       su.prims.sha256(b) == ExpectedSha(su, p, p.pc.k) && |b| == ExpectedSize(su, p, p.pc.k)
  }

  function DoCheckLocal(w: World, pid: nat): World
    requires pid in w.procs && w.procs[pid].pc.CheckingLocal?
  {
    With(w, pid, At(w.procs[pid], Verifying(w.procs[pid].pc.k)))
  }

  predicate CanVerifyRemote(su: Setup, w: World, pid: nat, i: nat) {
    pid in w.procs && w.procs[pid].pc.Verifying? && i in w.store.landed
    && var p := w.procs[pid]; var k := p.pc.k; var v := w.store.landed[i];
       v.id == Candidate(p, k) && v.bucket == p.dest.bucket && v.name == p.state.NameOf(k)
       && |v.content| == ExpectedSize(su, p, k)
       && su.prims.sha1(v.content) == su.prims.sha1(LocalBytes(su, w.file, p, k))
       && su.prims.sha256(v.content) == ExpectedSha(su, p, k)
  }

  function DoVerifyRemote(w: World, pid: nat): World
    requires pid in w.procs && w.procs[pid].pc.Verifying?
  {
    var p := w.procs[pid]; var k := p.pc.k;
    if p.role.Uploader? then With(w, pid, At(p, AfterVerified(p, k)))
    else With(w, pid, p.(state := p.state.MarkAcknowledged(k, p.found), pc := Saving(Adopted(k))))
  }

  /** The completion record is fixed, at time `now`. */
  predicate CanComplete(w: World, pid: nat) {
    AtPc(w, pid, Completing) && w.procs[pid].state.ciphertextFileId.Some?
  }

  function DoComplete(su: Setup, w: World, pid: nat, now: string): World
    requires CanComplete(w, pid)
  {
    var p := w.procs[pid];
    With(w, pid, p.(state := p.state.(completion := Some(CompletionRecord(su, p.state, p.dest, now))),
                    pc := Saving(CompletionRecorded)))
  }

  /** reconcile_file up to its verification: no version is fine only for an object never armed. */
  predicate CanList(w: World, pid: nat) {
    pid in w.procs && w.procs[pid].pc.Looking?
    && var p := w.procs[pid]; var k := p.pc.k;
       var found := Listed(w.store, p.dest.bucket, p.state.NameOf(k));
       if found == {} then p.state.StatusOf(k).Ready?
       else |found| == 1 && Adoptable(p, k, w.store.landed[Sole(found)].id)
  }

  function DoList(w: World, pid: nat): World
    requires CanList(w, pid)
  {
    var p := w.procs[pid]; var k := p.pc.k;
    var found := Listed(w.store, p.dest.bucket, p.state.NameOf(k));
    if found == {} then Stop(w, pid, ReadyToResume(k))
    else With(w, pid, p.(found := w.store.landed[Sole(found)].id, pc := CheckingLocal(k)))
  }

  /** publish_upload_receipt: an existing receipt must be the same one. */
  predicate CanPublish(su: Setup, w: World, pid: nat) {
    AtPc(w, pid, Publishing)
    && w.procs[pid].state.completion.Some? && w.procs[pid].state.completionFileId.Some?
    && (w.store.visible.receipt.Some? ==> w.store.visible.receipt.value == ReceiptFor(su, w.procs[pid].state))
  }

  function DoPublish(su: Setup, w: World, pid: nat): World
    requires CanPublish(su, w, pid)
  {
    var p := w.procs[pid];
    With(w, pid, At(p, SyncingReceipt))
    .(store := w.store.(visible := w.store.visible.(receipt := Some(ReceiptFor(su, p.state)))))
  }

  predicate CanFinish(w: World, pid: nat) { AtPc(w, pid, SyncingReceipt) && w.store.visible.receipt.Some? }

  function DoFinish(su: Setup, w: World, pid: nat): World
    requires CanFinish(w, pid)
  {
    Stop(w, pid, Published(su.prims.sha256(su.prims.encodeReceipt(w.store.visible.receipt.value))))
    .(store := w.store.(durable := w.store.visible))
  }

  /** An exception or a kill, at any point. */
  predicate CanFail(w: World, pid: nat) { pid in w.procs && !w.procs[pid].pc.Done? }

  /** Power failure: every process ends, and each file keeps either its durable or its visible image. */
  function DoCrash(w: World, intentSurvives: bool, receiptSurvives: bool): World {
    var d := Disk(if intentSurvives then w.store.visible.intent else w.store.durable.intent,
                  if receiptSurvives then w.store.visible.receipt else w.store.durable.receipt);
    w.(store := w.store.(visible := d, durable := d), lock := None,
       procs := map pid | pid in w.procs ::
         if w.procs[pid].pc.Done? then w.procs[pid] else At(w.procs[pid], Done(Failed)))
  }

  /** A request sent earlier becomes a remote version, with a new id and whatever content arrived. */
  predicate CanLand(w: World, i: nat, id: string) {
    i < |w.store.issued| && i !in w.store.landed
    && forall j :: j in w.store.landed ==> w.store.landed[j].id != id
  }

  function DoLand(w: World, i: nat, id: string, content: Bytes): World
    requires i < |w.store.issued|
  {
    var v := Version(id, w.store.issued[i].bucket, w.store.issued[i].name, content);
    w.(store := w.store.(landed := w.store.landed[i := v]))
  }

  predicate Enabled(su: Setup, w: World, s: Step) {
    match s
    case Spawn(pid, role, dest) => CanSpawn(w, pid)
    case CheckPackage(pid) => CanCheckPackage(su, w, pid)
    case Acquire(pid) => CanAcquire(w, pid)
    case CheckReceipt(pid) => CanCheckReceipt(w, pid)
    case Load(pid) => CanLoad(su, w, pid)
    case SendOnce(pid) => CanSendOnce(w, pid)
    case Save(pid) => CanSave(w, pid)
    case Sync(pid) => CanSync(w, pid)
    case Issue(pid) => CanIssue(w, pid)
    case Acknowledge(pid) => CanAcknowledge(su, w, pid)
    case CheckLocal(pid) => CanCheckLocal(su, w, pid)
    case VerifyRemote(pid, i) => CanVerifyRemote(su, w, pid, i)
    case Complete(pid, now) => CanComplete(w, pid)
    case List(pid) => CanList(w, pid)
    case Publish(pid) => CanPublish(su, w, pid)
    case Finish(pid) => CanFinish(w, pid)
    case Fail(pid) => CanFail(w, pid)
    case Crash(_, _) => true
    case Land(i, id, content) => CanLand(w, i, id)
    case EditFile(content) => true
  }

  function Apply(su: Setup, w: World, s: Step): World
    requires Enabled(su, w, s)
  {
    match s
    case Spawn(pid, role, dest) => DoSpawn(su, w, pid, role, dest)
    case CheckPackage(pid) => DoCheckPackage(w, pid)
    case Acquire(pid) => DoAcquire(w, pid)
    case CheckReceipt(pid) => DoCheckReceipt(w, pid)
    case Load(pid) => DoLoad(su, w, pid)
    case SendOnce(pid) => DoSendOnce(w, pid)
    case Save(pid) => DoSave(w, pid)
    case Sync(pid) => DoSync(w, pid)
    case Issue(pid) => DoIssue(su, w, pid)
    case Acknowledge(pid) => DoAcknowledge(w, pid)
    case CheckLocal(pid) => DoCheckLocal(w, pid)
    case VerifyRemote(pid, i) => DoVerifyRemote(w, pid)
    case Complete(pid, now) => DoComplete(su, w, pid, now)
    case List(pid) => DoList(w, pid)
    case Publish(pid) => DoPublish(su, w, pid)
    case Finish(pid) => DoFinish(su, w, pid)
    case Fail(pid) => Stop(w, pid, Failed)
    case Crash(intentSurvives, receiptSurvives) => DoCrash(w, intentSurvives, receiptSurvives)
    case Land(i, id, content) => DoLand(w, i, id, content)
    case EditFile(content) => w.(file := content)
  }

  ghost predicate Next(su: Setup, w: World, w': World) {
    exists s :: Enabled(su, w, s) && w' == Apply(su, w, s)
  }

  ghost predicate StepAt(su: Setup, run: seq<World>, i: nat)
    requires 0 < i < |run|
  {
    Next(su, run[i - 1], run[i])
  }

  /** A finite run: each world follows from the one before by one step. */
  ghost predicate Run(su: Setup, run: seq<World>) {
    |run| > 0 && forall i :: 0 < i < |run| ==> StepAt(su, run, i)
  }

  ghost predicate Leads(su: Setup, w: World, w': World) {
    exists run :: Run(su, run) && run[0] == w && run[|run| - 1] == w'
  }

  /** The same by steps among which the power never fails. */
  ghost predicate CalmNext(su: Setup, w: World, w': World) {
    exists s: Step :: !s.Crash? && Enabled(su, w, s) && w' == Apply(su, w, s)
  }

  ghost predicate CalmAt(su: Setup, run: seq<World>, i: nat)
    requires 0 < i < |run|
  {
    CalmNext(su, run[i - 1], run[i])
  }

  ghost predicate CalmRun(su: Setup, run: seq<World>) {
    |run| > 0 && forall i :: 0 < i < |run| ==> CalmAt(su, run, i)
  }

  ghost predicate CalmLeads(su: Setup, w: World, w': World) {
    exists run :: CalmRun(su, run) && run[0] == w && run[|run| - 1] == w'
  }

  ghost predicate Reachable(su: Setup, w: World) {
    exists file: Bytes :: Leads(su, Init(file), w)
  }
}
