/**
 * `decrypt` and `verify_archive` step by step, each deciding exactly what its predicate says; `decrypt`
 * with its staging directory and the rename at the end.
 */
module Decryption {
  import opened Wrappers
  import J = Json
  import opened Archive
  import opened ArchiveChecks
  import UploadIntent

  datatype Failure =
    | UntrustedReceipt | OnSourceHost | CiphertextMismatch | DecryptionFailed | NewDirectoryRequired
    | UnreadableArchive | ExtractionFailed(why: ExtractFailure)
    | InventoryMismatch | ManifestMismatch | CountMismatch | EvidenceMismatch | BundleInvalid | ReleaseMismatch
    | NotConfigurationFree | UnexpectedRelease

  /** The loop over the inventory's entries. */
  method CheckInventory(pr: Codecs, fs: Files, inventory: Bytes) returns (ok: bool)
    ensures ok <==> InventoryAccepted(pr, fs, inventory)
  {
    var parsed := pr.parseJson(inventory);
    if parsed.None? || !J.Has(parsed.value, "files") { return false; }
    var files := J.At(parsed.value, "files");
    if !files.Obj? || files.m.Keys != fs.Keys - {"inventory.json"} { return false; }
    var todo := files.m.Keys;
    while todo != {}
      invariant todo <= files.m.Keys
      invariant forall n :: n in files.m && n !in todo ==> HasDigest(pr, fs[n], files.m[n])
      decreases |todo|
    {
      var n :| n in todo;
      if !HasDigest(pr, fs[n], files.m[n]) { return false; }
      todo := todo - {n};
    }
    ok := true;
  }

  /** The loop over the evidence files. */
  method CheckEvidence(pr: Codecs, fs: Files, record: J.Json) returns (ok: bool)
    ensures ok <==> EvidencePaired(pr, fs, record)
  {
    var todo := EvidenceNames(fs);
    while todo != {}
      invariant todo <= EvidenceNames(fs)
      invariant forall n :: n in EvidenceNames(fs) && n !in todo ==>
                  J.Has(record, "commit") && J.Has(record, "bundle")
                  && EvidenceMatches(pr, fs[n], J.At(record, "commit"), J.At(record, "bundle"))
      decreases |todo|
    {
      var n :| n in todo;
      assert n in fs && EvidenceName(n);
      if !J.Has(record, "commit") || !J.Has(record, "bundle") { return false; }
      if !EvidenceMatches(pr, fs[n], J.At(record, "commit"), J.At(record, "bundle")) { return false; }
      todo := todo - {n};
    }
    forall n | n in fs && EvidenceName(n)
      ensures J.Has(record, "commit") && J.Has(record, "bundle")
              && EvidenceMatches(pr, fs[n], J.At(record, "commit"), J.At(record, "bundle"))
    {
      assert n in EvidenceNames(fs);
    }
    ok := true;
  }

  /** The content checks of `decrypt`, in its order. */
  method CheckFiles(pr: Codecs, record: J.Json, fs: Files) returns (r: Result<(), Failure>)
    requires FixedNames() <= fs.Keys
    ensures r.Ok? <==> DecryptFilesAccepted(pr, record, fs)
  {
    var core := CoreOf(fs);
    var listed := CheckInventory(pr, fs, core.inventory);
    if !listed { return Err(InventoryMismatch); }
    if !J.Has(record, "manifest_sha256") || !HasDigest(pr, core.bundle.manifest, J.At(record, "manifest_sha256")) {
      return Err(ManifestMismatch);
    }
    if !J.Has(record, "configuration_included") || !J.Has(record, "evidence_count")
       || !J.Equal(J.Bool(HasConfiguration(fs)), J.At(record, "configuration_included"))
       || !J.Equal(J.Num(|EvidenceNames(fs)| as real), J.At(record, "evidence_count"))
    {
      return Err(CountMismatch);
    }
    var paired := CheckEvidence(pr, fs, record);
    if !paired { return Err(EvidenceMismatch); }
    var valid := VerifyBundle(pr, core.bundle);
    if !valid { return Err(BundleInvalid); }
    var m := pr.parseJson(core.bundle.manifest).value;
    var shas := J.At(m, "sha256");
    if !J.Has(record, "commit") || !J.Equal(J.At(m, "commit"), J.At(record, "commit")) { return Err(ReleaseMismatch); }
    if !J.Has(record, "release_sha256")
       || !J.Equal(J.At(shas, "release.tar.gz"), J.At(record, "release_sha256"))
    {
      return Err(ReleaseMismatch);
    }
    if !J.Has(record, "snapshot_sha256")
       || !J.Equal(J.At(shas, "database.sqlite3"), J.At(record, "snapshot_sha256"))
    {
      return Err(ReleaseMismatch);
    }
    r := Ok(());
  }

  /** The checks of `decrypt` before it makes its staging directory. */
  method Trust(pr: Codecs, machine: string, receipt: Bytes, receiptSha: string, ciphertext: Bytes)
    returns (r: Result<J.Json, Failure>)
    ensures r.Ok? <==> DecryptTrusted(pr, machine, receipt, receiptSha, ciphertext)
    ensures r.Ok? ==> pr.parseJson(receipt) == Some(r.value)
  {
    if !LowerHex(receiptSha, 64) || pr.sha256(receipt) != receiptSha { return Err(UntrustedReceipt); }
    var parsed := pr.parseJson(receipt);
    if parsed.None? { return Err(UntrustedReceipt); }
    var record := parsed.value;
    if !J.Has(record, "source_machine_id") || J.Equal(J.Str(machine), J.At(record, "source_machine_id")) {
      return Err(OnSourceHost);
    }
    if !J.Has(record, "ciphertext_sha256") || !HasDigest(pr, ciphertext, J.At(record, "ciphertext_sha256")) {
      return Err(CiphertextMismatch);
    }
    r := Ok(record);
  }

  function TarFiles(pr: Codecs, plaintext: Bytes): Files {
    match pr.readTar(plaintext)
    case None => map[]
    case Some(members) => FilesOf(members)
  }

  /** The extraction, and the checks of what was extracted. */
  method OpenArchive(pr: Codecs, record: J.Json, plaintext: Bytes) returns (r: Result<Files, Failure>)
    ensures r.Ok? <==> DecryptArchiveAccepted(pr, record, plaintext)
    ensures r.Ok? ==> r.value == TarFiles(pr, plaintext)
  {
    var read := pr.readTar(plaintext);
    if read.None? { return Err(UnreadableArchive); }
    var extracted := Extract(read.value, DecryptName);
    if extracted.Err? { return Err(ExtractionFailed(extracted.error)); }
    forall n | n in FixedNames() ensures n in extracted.value { FilesOfNames(read.value, n); }
    var checked := CheckFiles(pr, record, extracted.value);
    if checked.Err? { return Err(checked.error); }
    r := Ok(extracted.value);
  }

  /** The files of the archive inside a ciphertext, if there is one. */
  function ArchivedFiles(pr: Codecs, ciphertext: Bytes): Files {
    match pr.decrypt(ciphertext)
    case None => map[]
    case Some(plaintext) => TarFiles(pr, plaintext)
  }

  /** The package a receipt names is among these. */
  predicate Taken(record: J.Json, names: set<string>) {
    J.Has(record, "package_id") && J.At(record, "package_id").Str? && J.At(record, "package_id").s in names
  }

  predicate PackageTaken(pr: Codecs, receipt: Bytes, names: set<string>) {
    match pr.parseJson(receipt)
    case None => false
    case Some(record) => Taken(record, names)
  }

  /** The plaintext fits, and its archive is acceptable. */
  predicate Opens(pr: Codecs, record: J.Json, ciphertext: Bytes) {
    PlaintextFits(pr, ciphertext) && DecryptArchiveAccepted(pr, record, pr.decrypt(ciphertext).value)
  }

  lemma RecoversArchived(pr: Codecs, machine: string, receipt: Bytes, receiptSha: string, ciphertext: Bytes,
                         taken: bool, fs: Files)
    ensures DecryptRecovers(pr, machine, receipt, receiptSha, ciphertext, taken, fs)
            <==> DecryptTrusted(pr, machine, receipt, receiptSha, ciphertext)
                 && Opens(pr, pr.parseJson(receipt).value, ciphertext)
                 && DestinationFree(pr.parseJson(receipt).value, taken) && fs == ArchivedFiles(pr, ciphertext)
  {
  }

  function NoteJson(record: J.Json, recoveredAt: string): J.Json
    requires record.Obj?
  {
    J.Obj(map["recovered_at" := J.Str(recoveredAt), "package_id" := J.Get(record, "package_id"),
              "commit" := J.Get(record, "commit"), "integrity" := J.Str("ok"),
              "configuration_included" := J.Get(record, "configuration_included"),
              "application_workflows" := J.Str("not_tested")])
  }

  /** A recovered directory: the archived files, and a note about the recovery. */
  function WithNote(pr: Codecs, record: J.Json, recoveredAt: string, fs: Files): Files
    requires record.Obj?
  {
    fs["recovery-evidence.json" := pr.dumpJson(NoteJson(record, recoveredAt))]
  }

  /** The output directory: what was recovered into it, and the staging directory of the run under way. */
  class Output {
    var recovered: map<string, Files>
    var stage: Option<Files>

    constructor ()
      ensures recovered == map[] && stage == None
    {
      recovered, stage := map[], None;
    }

    /**
     * `decrypt`: exactly when everything is acceptable the archived files appear, whole, under the package's
     * id; otherwise the output directory is as before. No stage is left, and no plaintext with it.
     */
    method Decrypt(pr: Codecs, machine: string, receipt: Bytes, receiptSha: string, ciphertext: Bytes,
                   recoveredAt: string) returns (r: Result<string, Failure>)
      requires stage.None?
      modifies this
      ensures stage.None?
      ensures r.Ok? ==>
                var fs := ArchivedFiles(pr, ciphertext);
                DecryptRecovers(pr, machine, receipt, receiptSha, ciphertext, false, fs)
                && var record := pr.parseJson(receipt).value;
                   J.At(record, "package_id") == J.Str(r.value) && r.value !in old(recovered)
                   && recovered == old(recovered)[r.value := WithNote(pr, record, recoveredAt, fs)]
      ensures r.Err? ==>
                recovered == old(recovered)
                && forall fs :: !DecryptRecovers(pr, machine, receipt, receiptSha, ciphertext,
                                                 PackageTaken(pr, receipt, old(recovered).Keys), fs)
    {
      ghost var taken := PackageTaken(pr, receipt, recovered.Keys);
      forall fs { RecoversArchived(pr, machine, receipt, receiptSha, ciphertext, taken, fs); }
      var trusted := Trust(pr, machine, receipt, receiptSha, ciphertext);
      if trusted.Err? { return Err(trusted.error); }
      stage := Some(map[]);
      r := FillStage(pr, trusted.value, ciphertext, recoveredAt);
      stage := None;
    }

    /** The plaintext goes into the staging directory and, unpacked and checked, gives way to its files. */
    method Unpack(pr: Codecs, record: J.Json, plaintext: Bytes) returns (r: Result<(), Failure>)
      requires stage == Some(map[])
      modifies this`stage
      ensures r.Ok? <==> DecryptArchiveAccepted(pr, record, plaintext)
      ensures r.Ok? ==> stage == Some(TarFiles(pr, plaintext))
    {
      stage := Some(map["plaintext.tar.gz" := plaintext]);
      var read := OpenArchive(pr, record, plaintext);
      if read.Err? { return Err(read.error); }
      stage := Some(read.value);
      r := Ok(());
    }

    /** Everything between making the staging directory and removing what is left of it. */
    method FillStage(pr: Codecs, record: J.Json, ciphertext: Bytes, recoveredAt: string)
      returns (r: Result<string, Failure>)
      requires stage == Some(map[])
      modifies this
      ensures r.Ok? <==> Opens(pr, record, ciphertext) && DestinationFree(record, Taken(record, old(recovered).Keys))
      ensures r.Ok? ==> J.At(record, "package_id") == J.Str(r.value) && r.value !in old(recovered)
                        && recovered == old(recovered)[
                             r.value := WithNote(pr, record, recoveredAt, ArchivedFiles(pr, ciphertext))]
      ensures r.Err? ==> recovered == old(recovered)
    {
      var plaintext := pr.decrypt(ciphertext);
      if plaintext.None? || |plaintext.value| > MAX_BYTES { return Err(DecryptionFailed); }
      var unpacked := Unpack(pr, record, plaintext.value);
      if unpacked.Err? { return Err(unpacked.error); }
      r := Place(pr, record, recoveredAt);
    }

    /** The note is added, and the staging directory becomes the package's. */
    method Place(pr: Codecs, record: J.Json, recoveredAt: string) returns (r: Result<string, Failure>)
      requires stage.Some?
      modifies this
      ensures r.Ok? <==> DestinationFree(record, Taken(record, old(recovered).Keys))
      ensures r.Ok? ==> J.At(record, "package_id") == J.Str(r.value) && r.value !in old(recovered)
                        && recovered == old(recovered)[r.value := WithNote(pr, record, recoveredAt, old(stage).value)]
      ensures r.Err? ==> recovered == old(recovered)
    {
      if !J.Has(record, "package_id") || !J.At(record, "package_id").Str? { return Err(NewDirectoryRequired); }
      var id := J.At(record, "package_id").s;
      if !UploadIntent.SafeName(id) || id in recovered { return Err(NewDirectoryRequired); }
      stage := Some(WithNote(pr, record, recoveredAt, stage.value));
      recovered := recovered[id := stage.value];
      r := Ok(id);
    }
  }

  /** The independent verifier's own bundle check: the manifest against the receipt, then the artifacts. */
  method VerifyPairing(pr: Codecs, record: J.Json, b: Bundle) returns (ok: bool)
    ensures ok <==> WindowsBundleValid(pr, record, b)
  {
    var parsed := pr.parseJson(b.manifest);
    if parsed.None? || !J.Has(record, "snapshot_sha256") || !J.Has(record, "release_sha256") { return false; }
    var m, snapshot, release := parsed.value, J.At(record, "snapshot_sha256"), J.At(record, "release_sha256");
    var expected := J.Obj(map["database.sqlite3" := snapshot, "release.tar.gz" := release]);
    if !J.Has(m, "sha256") || !J.Equal(J.At(m, "sha256"), expected) { return false; }
    if !J.Has(m, "commit") || !J.Has(record, "commit") { return false; }
    if !J.Equal(J.At(m, "commit"), J.At(record, "commit")) { return false; }
    if !HasDigest(pr, b.database, snapshot) || !HasDigest(pr, b.release, release) { return false; }
    if !J.Has(m, "release_files") { return false; }
    var valid := ValidateArchive(pr, b.release, J.At(m, "release_files"));
    if !valid { return false; }
    var schema := pr.inspectDatabase(b.database);
    if schema.None? || !J.Has(m, "schema_sha256") { return false; }
    ok := J.Equal(J.Str(schema.value), J.At(m, "schema_sha256"));
  }

  /** `verify_archive`, the independent verifier. */
  method VerifyArchive(pr: Codecs, receipt: Bytes, receiptSha: string, archive: Bytes)
    returns (r: Result<Files, Failure>)
    ensures r.Ok? <==> WindowsAccepts(pr, receipt, receiptSha, archive)
    ensures r.Ok? ==> r.value == FilesOf(pr.readTar(archive).value)
  {
    if !LowerHex(receiptSha, 64) || pr.sha256(receipt) != receiptSha || pr.parseJson(receipt).None? {
      return Err(UntrustedReceipt);
    }
    var record := pr.parseJson(receipt).value;
    if !J.Has(record, "configuration_included") || J.Truthy(J.At(record, "configuration_included")) {
      return Err(NotConfigurationFree);
    }
    if !J.Has(record, "commit") || !J.Equal(J.At(record, "commit"), J.Str(RELEASE))
       || !J.Has(record, "manifest_sha256") || !J.Equal(J.At(record, "manifest_sha256"), J.Str(MANIFEST_SHA))
    {
      return Err(UnexpectedRelease);
    }
    var read := pr.readTar(archive);
    if read.None? { return Err(UnreadableArchive); }
    var extracted := Extract(read.value, WindowsName);
    if extracted.Err? { return Err(ExtractionFailed(extracted.error)); }
    var fs := extracted.value;
    forall n | n in FixedNames() ensures n in fs { FilesOfNames(read.value, n); }
    var core := CoreOf(fs);
    if !NoConfigurationSources(pr, core.inventory) { return Err(InventoryMismatch); }
    var listed := CheckInventory(pr, fs, core.inventory);
    if !listed { return Err(InventoryMismatch); }
    if !HasDigest(pr, core.bundle.manifest, J.At(record, "manifest_sha256")) { return Err(ManifestMismatch); }
    var valid := VerifyPairing(pr, record, core.bundle);
    if !valid { return Err(BundleInvalid); }
    if !J.Has(record, "evidence_count")
       || !J.Equal(J.Num(|EvidenceNames(fs)| as real), J.At(record, "evidence_count"))
    {
      return Err(CountMismatch);
    }
    var paired := CheckEvidence(pr, fs, record);
    if !paired { return Err(EvidenceMismatch); }
    r := Ok(fs);
  }
}
