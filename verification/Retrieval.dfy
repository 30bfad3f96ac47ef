/** `retrieve`: fetching a sealed package back under a receipt hash. */
module Retrieval {
  import opened Wrappers
  import J = Json
  import opened Archive
  import opened ArchiveChecks
  import opened UploadIntent

  /** The JSON objects behind the seal record, the completion marker and the receipt. */
  function RecordFields(r: SealRecord): map<string, J.Json> {
    map["format" := J.Num(1.0), "created_at" := J.Str(r.createdAt), "package_id" := J.Str(r.packageId),
        "source_machine_id" := J.Str(r.sourceMachineId), "upload_protocol" := J.Num(r.uploadProtocol as real),
        "bundle" := J.Str(r.bundle), "commit" := J.Str(r.commit), "manifest_sha256" := J.Str(r.manifestSha256),
        "release_sha256" := J.Str(r.releaseSha256), "snapshot_sha256" := J.Str(r.snapshotSha256),
        "recipient_sha256" := J.Str(r.recipientSha256), "configuration_included" := J.Bool(r.configurationIncluded),
        "evidence_count" := J.Num(r.evidenceCount as real), "ciphertext_sha256" := J.Str(r.ciphertextSha256),
        "ciphertext_bytes" := J.Num(r.ciphertextBytes as real)]
  }

  function CompletionFields(c: Completion): map<string, J.Json> {
    RecordFields(c.record)
    + map["operation_id" := J.Str(c.operationId), "ciphertext_file_id" := J.Str(c.ciphertextFileId),
          "bucket_id" := J.Str(c.bucketId), "object_name" := J.Str(c.objectName),
          "remote_verified_at" := J.Str(c.remoteVerifiedAt)]
  }

  function ReceiptFields(r: Receipt): map<string, J.Json> {
    CompletionFields(r.completion)
    + map["completion_file_id" := J.Str(r.completionFileId), "completion_sha256" := J.Str(r.completionSha256)]
  }

  function CompletionJson(c: Completion): J.Json { J.Obj(CompletionFields(c)) }

  function ReceiptJson(r: Receipt): J.Json { J.Obj(ReceiptFields(r)) }

  lemma RecordGets(r: SealRecord)
    ensures var j := J.Obj(RecordFields(r));
            J.Get(j, "source_machine_id") == J.Str(r.sourceMachineId)
            && J.Get(j, "ciphertext_sha256") == J.Str(r.ciphertextSha256)
            && J.Get(j, "ciphertext_bytes") == J.Num(r.ciphertextBytes as real)
            && J.Get(j, "package_id") == J.Str(r.packageId)
            && J.Get(j, "manifest_sha256") == J.Str(r.manifestSha256)
  {
  }

  lemma RecordGetsRelease(r: SealRecord)
    ensures var j := J.Obj(RecordFields(r));
            J.Get(j, "release_sha256") == J.Str(r.releaseSha256)
            && J.Get(j, "snapshot_sha256") == J.Str(r.snapshotSha256)
            && J.Get(j, "commit") == J.Str(r.commit)
            && J.Get(j, "bundle") == J.Str(r.bundle)
            && J.Get(j, "configuration_included") == J.Bool(r.configurationIncluded)
            && J.Get(j, "evidence_count") == J.Num(r.evidenceCount as real)
  {
  }

  /** None of the keys added by the upload is one of the seal record. */
  lemma AddedKeysAreNew(r: SealRecord)
    ensures "operation_id" !in RecordFields(r) && "ciphertext_file_id" !in RecordFields(r)
    ensures "bucket_id" !in RecordFields(r) && "object_name" !in RecordFields(r)
    ensures "remote_verified_at" !in RecordFields(r)
  {
  }

  lemma FileIdIsNew(r: SealRecord)
    ensures "completion_file_id" !in RecordFields(r)
  {
  }

  lemma DigestIsNew(r: SealRecord)
    ensures "completion_sha256" !in RecordFields(r)
  {
  }

  lemma MarkerKeysAreNew(c: Completion)
    ensures "completion_file_id" !in CompletionFields(c) && "completion_sha256" !in CompletionFields(c)
  {
    FileIdIsNew(c.record);
    DigestIsNew(c.record);
  }

  /** `receipt.json` key by key, under the names other programs look for. */
  lemma ReceiptKeys(r: Receipt)
    ensures ReceiptFields(r).Keys
            == {"format", "created_at", "package_id", "source_machine_id", "upload_protocol", "bundle", "commit",
                "manifest_sha256", "release_sha256", "snapshot_sha256", "recipient_sha256", "configuration_included",
                "evidence_count", "ciphertext_sha256", "ciphertext_bytes"}
               + {"operation_id", "ciphertext_file_id", "bucket_id", "object_name", "remote_verified_at"}
               + {"completion_file_id", "completion_sha256"}
  {
  }

  /** The fields of the seal record are untouched by what the upload adds. */
  lemma CompletionKeepsRecord(c: Completion, key: string)
    requires key in RecordFields(c.record)
    ensures key in CompletionFields(c) && CompletionFields(c)[key] == RecordFields(c.record)[key]
  {
    AddedKeysAreNew(c.record);
  }

  lemma ReceiptKeepsRecord(r: Receipt, key: string)
    requires key in RecordFields(r.completion.record)
    ensures J.Get(ReceiptJson(r), key) == RecordFields(r.completion.record)[key]
  {
    CompletionKeepsRecord(r.completion, key);
    MarkerKeysAreNew(r.completion);
  }

  lemma RecordValues(r: SealRecord)
    ensures var m := RecordFields(r);
            m["format"] == J.Num(1.0) && m["upload_protocol"] == J.Num(r.uploadProtocol as real)
            && m["created_at"] == J.Str(r.createdAt) && m["recipient_sha256"] == J.Str(r.recipientSha256)
  {
  }

  lemma CompletionValues(c: Completion)
    ensures var m := CompletionFields(c);
            m["operation_id"] == J.Str(c.operationId) && m["remote_verified_at"] == J.Str(c.remoteVerifiedAt)
  {
  }

  /** The values of `receipt.json` that no check compares. */
  lemma ReceiptValues(r: Receipt)
    ensures var j, record := ReceiptJson(r), r.completion.record;
            J.Get(j, "format") == J.Num(1.0) && J.Get(j, "upload_protocol") == J.Num(record.uploadProtocol as real)
            && J.Get(j, "created_at") == J.Str(record.createdAt)
            && J.Get(j, "recipient_sha256") == J.Str(record.recipientSha256)
            && J.Get(j, "operation_id") == J.Str(r.completion.operationId)
            && J.Get(j, "remote_verified_at") == J.Str(r.completion.remoteVerifiedAt)
  {
    RecordValues(r.completion.record);
    CompletionValues(r.completion);
    MarkerKeysAreNew(r.completion);
    ReceiptKeepsRecord(r, "format");
    ReceiptKeepsRecord(r, "upload_protocol");
    ReceiptKeepsRecord(r, "created_at");
    ReceiptKeepsRecord(r, "recipient_sha256");
  }

  lemma CompletionGets(c: Completion)
    ensures var j := CompletionJson(c);
            J.Get(j, "bucket_id") == J.Str(c.bucketId)
            && J.Get(j, "object_name") == J.Str(c.objectName)
            && J.Get(j, "ciphertext_file_id") == J.Str(c.ciphertextFileId)
  {
  }

  lemma ReceiptNamesObject(r: Receipt)
    ensures var j := ReceiptJson(r);
            J.Get(j, "bucket_id") == J.Str(r.completion.bucketId)
            && J.Get(j, "object_name") == J.Str(r.completion.objectName)
            && J.Get(j, "ciphertext_file_id") == J.Str(r.completion.ciphertextFileId)
  {
    CompletionGets(r.completion);
    MarkerKeysAreNew(r.completion);
  }

  lemma ReceiptNamesMarker(r: Receipt)
    ensures var j := ReceiptJson(r);
            J.Get(j, "completion_file_id") == J.Str(r.completionFileId)
            && J.Get(j, "completion_sha256") == J.Str(r.completionSha256)
  {
  }

  /** Where the objects are, under the names `retrieve` looks for. */
  lemma ReceiptGets(r: Receipt)
    ensures var j := ReceiptJson(r);
            J.Get(j, "bucket_id") == J.Str(r.completion.bucketId)
            && J.Get(j, "object_name") == J.Str(r.completion.objectName)
            && J.Get(j, "ciphertext_file_id") == J.Str(r.completion.ciphertextFileId)
            && J.Get(j, "completion_file_id") == J.Str(r.completionFileId)
            && J.Get(j, "completion_sha256") == J.Str(r.completionSha256)
  {
    ReceiptNamesObject(r);
    ReceiptNamesMarker(r);
  }

  lemma ReceiptMinusMarker(r: Receipt)
    ensures ReceiptFields(r) - {"completion_file_id", "completion_sha256"} == CompletionFields(r.completion)
  {
    MarkerKeysAreNew(r.completion);
  }

  type Remote = string -> Option<Bytes>

  /** A download by id that succeeds within the size limit. */
  predicate Fetched(remote: Remote, id: J.Json) {
    id.Str? && remote(id.s).Some? && |remote(id.s).value| <= MAX_BYTES
  }

  /** The completion marker is the one the receipt names, and says what the receipt says. */
  predicate MarkerAccepted(pr: Codecs, record: J.Json, remote: Remote) {
    J.Has(record, "completion_file_id") && Fetched(remote, J.At(record, "completion_file_id"))
    && var marker := remote(J.At(record, "completion_file_id").s).value;
       J.Has(record, "completion_sha256") && HasDigest(pr, marker, J.At(record, "completion_sha256"))
       && pr.parseJson(marker).Some?
       && J.Equal(pr.parseJson(marker).value, J.Obj(record.m - {"completion_file_id", "completion_sha256"}))
  }

  predicate CiphertextAccepted(pr: Codecs, record: J.Json, remote: Remote) {
    J.Has(record, "ciphertext_file_id") && Fetched(remote, J.At(record, "ciphertext_file_id"))
    && var ciphertext := remote(J.At(record, "ciphertext_file_id").s).value;
       J.Has(record, "ciphertext_sha256") && HasDigest(pr, ciphertext, J.At(record, "ciphertext_sha256"))
       && J.Has(record, "ciphertext_bytes")
       && J.Equal(J.Num(|ciphertext| as real), J.At(record, "ciphertext_bytes"))
  }

  predicate DestinationMatches(record: J.Json, bucket: string, prefix: string) {
    J.Has(record, "bucket_id") && J.Equal(J.At(record, "bucket_id"), J.Str(bucket))
    && J.Has(record, "object_name") && J.At(record, "object_name").Str? && prefix <= J.At(record, "object_name").s
  }

  /** The package's directory can be made: `occupied` are the names in use below the output directory. */
  predicate NewDirectory(record: J.Json, occupied: set<string>) {
    J.Has(record, "package_id") && J.At(record, "package_id").Str? && SafeName(J.At(record, "package_id").s)
    && J.At(record, "package_id").s !in occupied
  }

  predicate Anchored(pr: Codecs, receipt: Bytes, expected: string) {
    LowerHex(expected, 64) && pr.sha256(receipt) == expected && pr.parseJson(receipt).Some?
  }

  predicate RetrieveAccepts(pr: Codecs, receipt: Bytes, expected: string, bucket: string, prefix: string,
                            remote: Remote, occupied: set<string>) {
    Anchored(pr, receipt, expected)
    && var record := pr.parseJson(receipt).value;
       DestinationMatches(record, bucket, prefix) && MarkerAccepted(pr, record, remote)
       && CiphertextAccepted(pr, record, remote) && NewDirectory(record, occupied)
  }

  /** The retrieved package: the marker and ciphertext as served, and the receipt written anew. */
  function PackageFiles(pr: Codecs, record: J.Json, remote: Remote): map<string, Bytes>
    requires MarkerAccepted(pr, record, remote) && CiphertextAccepted(pr, record, remote)
  {
    map["complete.json" := remote(J.At(record, "completion_file_id").s).value,
        "recovery.tar.gz.age" := remote(J.At(record, "ciphertext_file_id").s).value,
        "receipt.json" := pr.dumpJson(record)]
  }

  /**
   * What a retrieved package must hold for its receipt: three files, the ciphertext and the marker each under
   * its own name with the digest the receipt gives, and the receipt written anew.
   */
  predicate Holds(pr: Codecs, receipt: Bytes, files: map<string, Bytes>) {
    files.Keys == {"recovery.tar.gz.age", "complete.json", "receipt.json"}
    && pr.parseJson(receipt).Some?
    && var record := pr.parseJson(receipt).value;
       var ciphertext, marker := files["recovery.tar.gz.age"], files["complete.json"];
       J.Has(record, "ciphertext_sha256") && J.At(record, "ciphertext_sha256") == J.Str(pr.sha256(ciphertext))
       && J.Has(record, "ciphertext_bytes")
       && J.Equal(J.Num(|ciphertext| as real), J.At(record, "ciphertext_bytes"))
       && J.Has(record, "completion_sha256") && J.At(record, "completion_sha256") == J.Str(pr.sha256(marker))
       && |ciphertext| <= 134217728 && |marker| <= 134217728
       && files["receipt.json"] == pr.dumpJson(record)
  }

  lemma PackageHolds(pr: Codecs, receipt: Bytes, remote: Remote)
    requires pr.parseJson(receipt).Some?
    requires var record := pr.parseJson(receipt).value;
             MarkerAccepted(pr, record, remote) && CiphertextAccepted(pr, record, remote)
    ensures Holds(pr, receipt, PackageFiles(pr, pr.parseJson(receipt).value, remote))
  {
    var record := pr.parseJson(receipt).value;
    var marker := remote(J.At(record, "completion_file_id").s);
    var ciphertext := remote(J.At(record, "ciphertext_file_id").s);
    J.EqualString(J.At(record, "completion_sha256"), pr.sha256(marker.value));
    J.EqualString(J.At(record, "ciphertext_sha256"), pr.sha256(ciphertext.value));
  }

  datatype Failure =
    | HashRequired | UntrustedReceipt | MissingField | DestinationMismatch | DownloadFailed | MarkerMismatch
    | MarkerContentsMismatch | CiphertextMismatch | NewDirectoryRequired

  /** A download by id, in chunks of the sizes the connection happens to deliver. */
  method Download(remote: Remote, id: J.Json, chunk: nat -> nat) returns (content: Option<Bytes>)
    ensures content.Some? <==> Fetched(remote, id)
    ensures content.Some? ==> content == remote(id.s)
  {
    if !id.Str? { return None; }
    var served := remote(id.s);
    if served.None? { return None; }
    var body, written := served.value, [];
    var count := 0;
    while count < |body|
      invariant count <= |body| && count <= MAX_BYTES && written == body[..count]
    {
      var size := chunk(count) % (1024 * 1024) + 1;
      var next := if size < |body| - count then size else |body| - count;
      count := count + next;
      if count > MAX_BYTES { return None; }
      written := written + body[count - next..count];
    }
    assert body[..|body|] == body;
    content := Some(written);
  }

  /** The completion marker: named, downloaded, its digest compared and then its contents. */
  method FetchMarker(pr: Codecs, record: J.Json, remote: Remote, chunk: nat -> nat) returns (r: Result<Bytes, Failure>)
    requires record.Obj?
    ensures r.Ok? <==> MarkerAccepted(pr, record, remote)
    ensures r.Ok? ==> Some(r.value) == remote(J.At(record, "completion_file_id").s)
  {
    if !J.Has(record, "completion_file_id") { return Err(MissingField); }
    var marker := Download(remote, J.At(record, "completion_file_id"), chunk);
    if marker.None? { return Err(DownloadFailed); }
    if !J.Has(record, "completion_sha256") { return Err(MissingField); }
    if J.At(record, "completion_sha256") != J.Str(pr.sha256(marker.value)) {
      J.EqualString(J.At(record, "completion_sha256"), pr.sha256(marker.value));
      return Err(MarkerMismatch);
    }
    J.EqualReflexive(J.Str(pr.sha256(marker.value)));
    var contents := pr.parseJson(marker.value);
    var added := {"completion_file_id", "completion_sha256"};
    var uploaded := map key | key in record.m && key !in added :: record.m[key];
    assert uploaded == record.m - added;
    if contents.None? || !J.Equal(contents.value, J.Obj(uploaded)) { return Err(MarkerContentsMismatch); }
    r := Ok(marker.value);
  }

  /** The ciphertext: named, downloaded, its digest and then its size compared. */
  method FetchCiphertext(pr: Codecs, record: J.Json, remote: Remote, chunk: nat -> nat)
    returns (r: Result<Bytes, Failure>)
    requires record.Obj?
    ensures r.Ok? <==> CiphertextAccepted(pr, record, remote)
    ensures r.Ok? ==> Some(r.value) == remote(J.At(record, "ciphertext_file_id").s)
  {
    if !J.Has(record, "ciphertext_file_id") { return Err(MissingField); }
    var ciphertext := Download(remote, J.At(record, "ciphertext_file_id"), chunk);
    if ciphertext.None? { return Err(DownloadFailed); }
    if !J.Has(record, "ciphertext_sha256") { return Err(MissingField); }
    if J.At(record, "ciphertext_sha256") != J.Str(pr.sha256(ciphertext.value)) {
      J.EqualString(J.At(record, "ciphertext_sha256"), pr.sha256(ciphertext.value));
      return Err(CiphertextMismatch);
    }
    J.EqualReflexive(J.Str(pr.sha256(ciphertext.value)));
    if !J.Has(record, "ciphertext_bytes") { return Err(MissingField); }
    if !J.Equal(J.Num(|ciphertext.value| as real), J.At(record, "ciphertext_bytes")) { return Err(CiphertextMismatch); }
    r := Ok(ciphertext.value);
  }

  /** The output directory: its packages, and the staging directory of the run under way. */
  class Output {
    var packages: map<string, map<string, Bytes>>
    var stage: Option<map<string, Bytes>>

    constructor ()
      ensures packages == map[] && stage == None
    {
      packages, stage := map[], None;
    }

    /**
     * `retrieve`: a package appears under its own id, whole, exactly when receipt, destination, marker,
     * ciphertext and directory agree; otherwise the output directory is as before. No stage is left.
     */
    method Retrieve(pr: Codecs, receipt: Bytes, expected: string, bucket: string, prefix: string, remote: Remote,
                    chunk: nat -> nat) returns (r: Result<string, Failure>)
      requires stage.None?
      modifies this
      ensures stage.None?
      ensures r.Ok? <==> RetrieveAccepts(pr, receipt, expected, bucket, prefix, remote, old(packages).Keys)
      ensures r.Ok? ==> var record := pr.parseJson(receipt).value;
                        J.At(record, "package_id") == J.Str(r.value) && r.value !in old(packages)
                        && packages == old(packages)[r.value := PackageFiles(pr, record, remote)]
      ensures r.Ok? ==> Holds(pr, receipt, packages[r.value])
      ensures r.Err? ==> packages == old(packages)
    {
      if !LowerHex(expected, 64) { return Err(HashRequired); }
      if pr.sha256(receipt) != expected { return Err(UntrustedReceipt); }
      var parsed := pr.parseJson(receipt);
      if parsed.None? { return Err(UntrustedReceipt); }
      var record := parsed.value;
      if !J.Has(record, "bucket_id") { return Err(MissingField); }
      J.EqualString(J.At(record, "bucket_id"), bucket);
      if J.At(record, "bucket_id") != J.Str(bucket) { return Err(DestinationMismatch); }
      if !J.Has(record, "object_name") || !J.At(record, "object_name").Str? { return Err(MissingField); }
      if !(prefix <= J.At(record, "object_name").s) { return Err(DestinationMismatch); }
      stage := Some(map[]);
      r := FillStage(pr, record, remote, chunk);
      if r.Ok? {
        packages := packages[r.value := stage.value];
        PackageHolds(pr, receipt, remote);
      }
      stage := None;
    }

    /** Everything between making the staging directory and renaming it. */
    method FillStage(pr: Codecs, record: J.Json, remote: Remote, chunk: nat -> nat) returns (r: Result<string, Failure>)
      requires record.Obj? && stage == Some(map[])
      modifies this`stage
      ensures stage.Some?
      ensures r.Ok? <==> MarkerAccepted(pr, record, remote) && CiphertextAccepted(pr, record, remote)
                         && NewDirectory(record, packages.Keys)
      ensures r.Ok? ==> J.At(record, "package_id") == J.Str(r.value) && r.value !in packages
                        && stage.value == PackageFiles(pr, record, remote)
    {
      var marker := FetchMarker(pr, record, remote, chunk);
      if marker.Err? { return Err(marker.error); }
      stage := Some(stage.value["complete.json" := marker.value]);
      var ciphertext := FetchCiphertext(pr, record, remote, chunk);
      if ciphertext.Err? { return Err(ciphertext.error); }
      stage := Some(stage.value["recovery.tar.gz.age" := ciphertext.value]);
      stage := Some(stage.value["receipt.json" := pr.dumpJson(record)]);
      if !J.Has(record, "package_id") || !J.At(record, "package_id").Str? { return Err(MissingField); }
      var id := J.At(record, "package_id").s;
      if !SafeName(id) || id in packages { return Err(NewDirectoryRequired); }
      r := Ok(id);
    }
  }

  /** A receipt as `atomic_json` publishes it, read back as what was written. */
  predicate Published(pr: Codecs, r: Receipt, receipt: Bytes) {
    receipt == pr.dumpJson(ReceiptJson(r)) && pr.parseJson(receipt) == Some(ReceiptJson(r))
  }

  /** The receipt `retrieve` writes is accepted under the same hash exactly when it is the same file. */
  lemma RewriteKeepsAnchor(pr: Codecs, receipt: Bytes, expected: string)
    requires Anchored(pr, receipt, expected) && CollisionFree(pr.sha256)
    ensures var rewritten := pr.dumpJson(pr.parseJson(receipt).value);
            pr.sha256(rewritten) == expected <==> rewritten == receipt
    ensures forall r :: Published(pr, r, receipt) ==> pr.dumpJson(pr.parseJson(receipt).value) == receipt
  {
  }

  /** What the remote side must hold for a receipt to be redeemable. */
  predicate Redeemable(pr: Codecs, r: Receipt, remote: Remote) {
    Fetched(remote, J.Str(r.completionFileId)) && Fetched(remote, J.Str(r.completion.ciphertextFileId))
    && var marker, ciphertext := remote(r.completionFileId).value, remote(r.completion.ciphertextFileId).value;
       pr.sha256(marker) == r.completionSha256 && pr.parseJson(marker) == Some(CompletionJson(r.completion))
       && pr.sha256(ciphertext) == r.completion.record.ciphertextSha256
       && |ciphertext| == r.completion.record.ciphertextBytes
  }

  /** A published receipt retrieves its package wherever both objects are served as it says. */
  lemma PublishedReceiptRetrieves(pr: Codecs, r: Receipt, receipt: Bytes, bucket: string, prefix: string,
                                  remote: Remote, occupied: set<string>)
    requires Published(pr, r, receipt) && LowerHex(pr.sha256(receipt), 64) && Redeemable(pr, r, remote)
    requires SafeName(r.completion.record.packageId)
    ensures RetrieveAccepts(pr, receipt, pr.sha256(receipt), bucket, prefix, remote, occupied)
            <==> bucket == r.completion.bucketId && prefix <= r.completion.objectName
                 && r.completion.record.packageId !in occupied
  {
    PublishedDestination(r, bucket, prefix, occupied);
    PublishedMarkerAccepted(pr, r, remote);
    PublishedCiphertextAccepted(pr, r, remote);
  }

  lemma PublishedDestination(r: Receipt, bucket: string, prefix: string, occupied: set<string>)
    requires SafeName(r.completion.record.packageId)
    ensures DestinationMatches(ReceiptJson(r), bucket, prefix)
            <==> bucket == r.completion.bucketId && prefix <= r.completion.objectName
    ensures NewDirectory(ReceiptJson(r), occupied) <==> r.completion.record.packageId !in occupied
  {
    ReceiptGets(r);
    RecordGets(r.completion.record);
    ReceiptKeepsRecord(r, "package_id");
    J.EqualString(J.At(ReceiptJson(r), "bucket_id"), bucket);
  }

  lemma PublishedMarkerAccepted(pr: Codecs, r: Receipt, remote: Remote)
    requires Redeemable(pr, r, remote)
    ensures MarkerAccepted(pr, ReceiptJson(r), remote)
  {
    ReceiptGets(r);
    ReceiptMinusMarker(r);
    J.EqualReflexive(CompletionJson(r.completion));
    J.EqualReflexive(J.Str(r.completionSha256));
  }

  lemma PublishedCiphertextAccepted(pr: Codecs, r: Receipt, remote: Remote)
    requires Redeemable(pr, r, remote)
    ensures CiphertextAccepted(pr, ReceiptJson(r), remote)
  {
    ReceiptGets(r);
    RecordGets(r.completion.record);
    ReceiptKeepsRecord(r, "ciphertext_sha256");
    ReceiptKeepsRecord(r, "ciphertext_bytes");
    J.EqualReflexive(J.Str(r.completion.record.ciphertextSha256));
    J.EqualReflexive(J.Num(r.completion.record.ciphertextBytes as real));
  }
}
