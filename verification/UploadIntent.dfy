/** The durable upload journal (`upload-intent.json`) and the records derived from it. */
module UploadIntent {
  import opened Wrappers

  datatype Kind = Ciphertext | Marker

  datatype Status = Ready | Pending | Acknowledged

  datatype Destination = Destination(bucket: string, prefix: string)

  /** `seal.json`, the record that names the sealed ciphertext. */
  datatype SealRecord = SealRecord(
    createdAt: string, packageId: string, uploadProtocol: int, sourceMachineId: string, bundle: string, commit: string,
    manifestSha256: string, releaseSha256: string, snapshotSha256: string, recipientSha256: string,
    configurationIncluded: bool, evidenceCount: nat, ciphertextSha256: string, ciphertextBytes: nat)

  datatype Binding = Binding(
    bucketId: string, prefix: string, packageId: string, sealSha256: string, sourceMachineId: string,
    manifestSha256: string, snapshotSha256: string, ciphertextSha256: string, ciphertextBytes: nat)

  /** The completion record: the seal record extended by the verified ciphertext version. */
  datatype Completion = Completion(
    record: SealRecord, operationId: string, ciphertextFileId: string, bucketId: string,
    objectName: string, remoteVerifiedAt: string)

  datatype Receipt = Receipt(completion: Completion, completionFileId: string, completionSha256: string)

  datatype Intent = Intent(
    format: int, operationId: string, binding: Binding, objectName: string, completionName: string,
    ciphertextStatus: Status, ciphertextFileId: Option<string>,
    markerStatus: Status, completionFileId: Option<string>, completion: Option<Completion>)
  {
    function StatusOf(k: Kind): Status { if k.Ciphertext? then ciphertextStatus else markerStatus }

    function FileIdOf(k: Kind): Option<string> { if k.Ciphertext? then ciphertextFileId else completionFileId }

    function NameOf(k: Kind): string { if k.Ciphertext? then objectName else completionName }

    function MarkPending(k: Kind): Intent {
      if k.Ciphertext? then this.(ciphertextStatus := Pending) else this.(markerStatus := Pending)
    }

    function MarkAcknowledged(k: Kind, id: string): Intent {
      if k.Ciphertext? then this.(ciphertextStatus := Acknowledged, ciphertextFileId := Some(id))
      else this.(markerStatus := Acknowledged, completionFileId := Some(id))
    }
  }

  /** Hashes and serialisers. They are arbitrary functions; nothing is assumed of them here. */
  datatype Primitives = Primitives(
    sha256: Bytes -> string, sha1: Bytes -> string, operationId: Binding -> string,
    encodeCompletion: Completion -> Bytes, encodeReceipt: Receipt -> Bytes)

  /** What every process working on one package reads from that package. */
  datatype Setup = Setup(record: SealRecord, sealSha256: string, prims: Primitives)

  datatype Failure =
    | LocalCiphertextMismatch
    | UnsafePackageId
    | LegacyPackage
    | BindingMismatch
    | InvalidState
    | CompletionBindingMismatch

  predicate ValidFileId(id: string) { 0 < |id| <= 1024 }

  predicate SafeNameChar(c: char) {
    'a' <= c <= 'z' || 'A' <= c <= 'Z' || '0' <= c <= '9' || c == '_' || c == '-'
  }

  predicate SafeName(s: string) { |s| > 0 && forall i :: 0 <= i < |s| ==> SafeNameChar(s[i]) }

  /** Letters, digits, underscores and hyphens, at least one of them. */
  predicate PlainId(id: string) {
    id != ""
    && forall c :: c in id ==> 'a' <= c <= 'z' || 'A' <= c <= 'Z' || '0' <= c <= '9' || c == '_' || c == '-'
  }

  lemma SafeIsPlain(id: string)
    ensures SafeName(id) <==> PlainId(id)
  {
    if PlainId(id) {
      forall i | 0 <= i < |id| ensures SafeNameChar(id[i]) { assert id[i] in id; }
    }
  }

  /** The checks of `upload_package` on the seal record and the local ciphertext. */
  function PackageCheck(su: Setup, file: Bytes): Result<(), Failure> {
    if su.prims.sha256(file) != su.record.ciphertextSha256 || |file| != su.record.ciphertextBytes then
      Err(LocalCiphertextMismatch)
    else if !SafeName(su.record.packageId) then Err(UnsafePackageId)
    else if su.record.uploadProtocol != 2 then Err(LegacyPackage)
    else Ok(())
  }

  function BindingFor(su: Setup, d: Destination): Binding {
    var r := su.record;
    Binding(d.bucket, d.prefix, r.packageId, su.sealSha256, r.sourceMachineId, r.manifestSha256,
            r.snapshotSha256, r.ciphertextSha256, r.ciphertextBytes)
  }

  function OperationPrefix(su: Setup, d: Destination): string {
    d.prefix + su.record.packageId + "/" + su.prims.operationId(BindingFor(su, d)) + "/"
  }

  /** The intent written before anything is sent. */
  function FreshIntent(su: Setup, d: Destination): Intent {
    Intent(2, su.prims.operationId(BindingFor(su, d)), BindingFor(su, d),
           OperationPrefix(su, d) + "recovery.tar.gz.age", OperationPrefix(su, d) + "complete.json",
           Ready, None, Ready, None, None)
  }

  /** The five fields that must agree with the caller's package and destination. */
  predicate Bound(su: Setup, d: Destination, s: Intent) {
    var f := FreshIntent(su, d);
    s.format == f.format && s.operationId == f.operationId && s.binding == f.binding
    && s.objectName == f.objectName && s.completionName == f.completionName
  }

  predicate StatusConsistent(status: Status, id: Option<string>) {
    (status.Acknowledged? ==> id.Some? && ValidFileId(id.value)) && (!status.Acknowledged? ==> id.None?)
  }

  function CompletionRecord(su: Setup, s: Intent, d: Destination, verifiedAt: string): Completion
    requires s.ciphertextFileId.Some?
  {
    Completion(su.record, s.operationId, s.ciphertextFileId.value, d.bucket, s.objectName, verifiedAt)
  }

  /** `upload_intent` on an existing journal: every check, in the order the code makes them. */
  function LoadIntent(su: Setup, d: Destination, s: Intent): Result<Intent, Failure> {
    if !Bound(su, d, s) then Err(BindingMismatch)
    else if !StatusConsistent(s.ciphertextStatus, s.ciphertextFileId)
         || !StatusConsistent(s.markerStatus, s.completionFileId) then Err(InvalidState)
    else if s.completion.Some? && s.ciphertextFileId.None? then Err(CompletionBindingMismatch)
    else if s.completion.Some?
         && s.completion.value != CompletionRecord(su, s, d, s.completion.value.remoteVerifiedAt)
    then Err(CompletionBindingMismatch)
    else if (!s.ciphertextStatus.Acknowledged? && s.completion.Some?)
         || (!s.markerStatus.Ready? && s.completion.None?) then Err(InvalidState)
    else Ok(s)
  }

  /** The destination an intent is bound to. */
  function DestinationOf(s: Intent): Destination { Destination(s.binding.bucketId, s.binding.prefix) }

  function CompletionSha(su: Setup, c: Completion): string { su.prims.sha256(su.prims.encodeCompletion(c)) }

  /** The receipt `publish_upload_receipt` builds. */
  function ReceiptFor(su: Setup, s: Intent): Receipt
    requires s.completion.Some? && s.completionFileId.Some?
  {
    Receipt(s.completion.value, s.completionFileId.value, CompletionSha(su, s.completion.value))
  }

  /** The two object names of one operation are different. */
  lemma NamesDiffer(su: Setup, d: Destination)
    ensures FreshIntent(su, d).objectName != FreshIntent(su, d).completionName
  {
    var p := OperationPrefix(su, d);
    var f := FreshIntent(su, d);
    assert |f.objectName| == |p| + |"recovery.tar.gz.age"|;
    assert |f.completionName| == |p| + |"complete.json"|;
  }
}
