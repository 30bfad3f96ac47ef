/**
 * The two acceptance checks of a decrypted recovery archive, `decrypt` and the independent
 * `verify_archive`, with the release-archive and bundle checks they share. Each predicate says what
 * is accepted; each method makes the same decision step by step.
 */
module ArchiveChecks {
  import opened Wrappers
  import J = Json
  import opened Archive
  import UploadIntent

  const RELEASE := "a9e4ed59ae91d9964e5a5d1d7f8a2c44536222cb"
  const MANIFEST_SHA := "461d2e8a86620c7e" + "e627b247d5824079" + "abc6a851785bfe42" + "6331d429fcbca2fe"

  predicate HasDigest(pr: Codecs, content: Bytes, digest: J.Json) {
    J.Equal(J.Str(pr.sha256(content)), digest)
  }

  function NamesOf(ms: seq<Member>): set<string> { set i | 0 <= i < |ms| :: ms[i].name }

  /** `validate_archive`: exactly the recorded files, each allowed, regular and of the recorded digest. */
  predicate ReleaseMembersValid(pr: Codecs, ms: seq<Member>, hashes: map<string, J.Json>) {
    |ms| == |hashes| && NamesOf(ms) == hashes.Keys
    && forall i :: 0 <= i < |ms| ==>
         pr.releasePath(ms[i].name) && ms[i].regular
         && ms[i].name in hashes && HasDigest(pr, ms[i].content, hashes[ms[i].name])
  }

  /** An empty list or string of hashes only ever describes an empty archive. */
  predicate ReleaseValid(pr: Codecs, tar: Bytes, hashes: J.Json) {
    match pr.readTar(tar)
    case None => false
    case Some(ms) =>
      match hashes
      case Obj(m) => ReleaseMembersValid(pr, ms, m)
      case List(xs) => xs == [] && ms == []
      case Str(s) => s == "" && ms == []
      case _ => false
  }

  method ValidateArchive(pr: Codecs, tar: Bytes, hashes: J.Json) returns (ok: bool)
    ensures ok <==> ReleaseValid(pr, tar, hashes)
  {
    var read := pr.readTar(tar);
    if read.None? { return false; }
    var ms := read.value;
    match hashes {
      case Obj(m) =>
        if |ms| != |m| || NamesOf(ms) != m.Keys { return false; }
        for k := 0 to |ms|
          invariant forall i :: 0 <= i < k ==>
                      pr.releasePath(ms[i].name) && ms[i].regular
                      && ms[i].name in m && HasDigest(pr, ms[i].content, m[ms[i].name])
        {
          if !pr.releasePath(ms[k].name) || !ms[k].regular { return false; }
          assert ms[k].name in NamesOf(ms);
          if !HasDigest(pr, ms[k].content, m[ms[k].name]) { return false; }
        }
        return true;
      case List(xs) => return xs == [] && ms == [];
      case Str(s) => return s == "" && ms == [];
      case _ => return false;
    }
  }

  /** The four artifacts of a bundle. */
  datatype Bundle = Bundle(manifest: Bytes, verification: Bytes, database: Bytes, release: Bytes)

  /** `verify` of a bundle, permissions aside. */
  predicate BundleValid(pr: Codecs, b: Bundle) {
    match pr.parseJson(b.manifest)
    case None => false
    case Some(m) =>
      J.Has(m, "sha256") && J.At(m, "sha256").Obj?
      && J.At(m, "sha256").m.Keys == {"database.sqlite3", "release.tar.gz"}
      && HasDigest(pr, b.database, J.At(J.At(m, "sha256"), "database.sqlite3"))
      && HasDigest(pr, b.release, J.At(J.At(m, "sha256"), "release.tar.gz"))
      && J.Has(m, "release_files") && ReleaseValid(pr, b.release, J.At(m, "release_files"))
      && J.Has(m, "schema_sha256") && J.Has(m, "commit")
      && pr.inspectDatabase(b.database).Some?
      && J.Equal(J.Str(pr.inspectDatabase(b.database).value), J.At(m, "schema_sha256"))
  }

  /** `verify` of a bundle, check by check, with the loop of `validate_archive`. */
  method VerifyBundle(pr: Codecs, b: Bundle) returns (ok: bool)
    ensures ok <==> BundleValid(pr, b)
  {
    var parsed := pr.parseJson(b.manifest);
    if parsed.None? || !J.Has(parsed.value, "sha256") { return false; }
    var m := parsed.value;
    var shas := J.At(m, "sha256");
    if !shas.Obj? || shas.m.Keys != {"database.sqlite3", "release.tar.gz"} { return false; }
    if !HasDigest(pr, b.database, shas.m["database.sqlite3"]) { return false; }
    if !HasDigest(pr, b.release, shas.m["release.tar.gz"]) { return false; }
    if !J.Has(m, "release_files") { return false; }
    var release := ValidateArchive(pr, b.release, J.At(m, "release_files"));
    if !release { return false; }
    var schema := pr.inspectDatabase(b.database);
    if schema.None? || !J.Has(m, "schema_sha256") || !J.Has(m, "commit") { return false; }
    ok := J.Equal(J.Str(schema.value), J.At(m, "schema_sha256"));
  }

  /** The five files every archive holds. */
  datatype Core = Core(inventory: Bytes, bundle: Bundle)

  function CoreOf(fs: Files): Core
    requires FixedNames() <= fs.Keys
  {
    Core(fs["inventory.json"],
         Bundle(fs["bundle/manifest.json"], fs["bundle/verification.json"], fs["bundle/database.sqlite3"],
                fs["bundle/release.tar.gz"]))
  }

  function EvidenceNames(fs: Files): set<string> { set n | n in fs && EvidenceName(n) }

  /** An evidence file names the commit and the bundle. */
  predicate EvidenceMatches(pr: Codecs, content: Bytes, commit: J.Json, bundle: J.Json) {
    match pr.parseJson(content)
    case None => false
    case Some(e) => e.Obj? && J.Equal(J.Get(e, "commit"), commit) && J.Equal(J.Get(e, "bundle"), bundle)
  }

  /** Every evidence file is paired; `commit` and `bundle` are only needed when there is one. */
  predicate EvidencePaired(pr: Codecs, fs: Files, record: J.Json) {
    forall n :: n in fs && EvidenceName(n) ==>
      J.Has(record, "commit") && J.Has(record, "bundle")
      && EvidenceMatches(pr, fs[n], J.At(record, "commit"), J.At(record, "bundle"))
  }

  /** The inventory lists exactly the other files, with their digests. */
  predicate InventoryMatches(pr: Codecs, fs: Files, inventory: J.Json) {
    J.Has(inventory, "files") && J.At(inventory, "files").Obj?
    && J.At(inventory, "files").m.Keys == fs.Keys - {"inventory.json"}
    && forall n :: n in J.At(inventory, "files").m ==> HasDigest(pr, fs[n], J.At(inventory, "files").m[n])
  }

  predicate InventoryAccepted(pr: Codecs, fs: Files, inventory: Bytes) {
    pr.parseJson(inventory).Some? && InventoryMatches(pr, fs, pr.parseJson(inventory).value)
  }

  predicate HasConfiguration(fs: Files) { exists n :: n in fs && ConfigurationName(n) }

  /** The record agrees with what was recovered besides the bundle. */
  predicate CountsAgree(pr: Codecs, record: J.Json, fs: Files) {
    J.Has(record, "configuration_included")
    && J.Equal(J.Bool(HasConfiguration(fs)), J.At(record, "configuration_included"))
    && EvidenceAgrees(pr, record, fs)
  }

  predicate EvidenceAgrees(pr: Codecs, record: J.Json, fs: Files) {
    J.Has(record, "evidence_count") && J.Equal(J.Num(|EvidenceNames(fs)| as real), J.At(record, "evidence_count"))
    && EvidencePaired(pr, fs, record)
  }

  /** `decrypt`: the manifest of a valid bundle is the one the record is about. */
  predicate ManifestAgrees(m: J.Json, record: J.Json)
    requires J.Has(m, "commit") && J.Has(m, "sha256") && J.At(m, "sha256").Obj?
    requires J.At(m, "sha256").m.Keys == {"database.sqlite3", "release.tar.gz"}
  {
    J.Has(record, "commit") && J.Equal(J.At(m, "commit"), J.At(record, "commit"))
    && J.Has(record, "release_sha256")
    && J.Equal(J.At(J.At(m, "sha256"), "release.tar.gz"), J.At(record, "release_sha256"))
    && J.Has(record, "snapshot_sha256")
    && J.Equal(J.At(J.At(m, "sha256"), "database.sqlite3"), J.At(record, "snapshot_sha256"))
  }

  /** The content checks of `decrypt` on the extracted files. */
  predicate DecryptFilesAccepted(pr: Codecs, record: J.Json, fs: Files) {
    FixedNames() <= fs.Keys
    && var core := CoreOf(fs);
       InventoryAccepted(pr, fs, core.inventory)
       && J.Has(record, "manifest_sha256") && HasDigest(pr, core.bundle.manifest, J.At(record, "manifest_sha256"))
       && CountsAgree(pr, record, fs) && BundleValid(pr, core.bundle)
       && ManifestAgrees(pr.parseJson(core.bundle.manifest).value, record)
  }

  /** The archive part of `decrypt`: what is extracted and accepted. */
  predicate DecryptArchiveAccepted(pr: Codecs, record: J.Json, archive: Bytes) {
    pr.readTar(archive).Some? && Extractable(pr.readTar(archive).value, DecryptName)
    && DecryptFilesAccepted(pr, record, FilesOf(pr.readTar(archive).value))
  }

  /** What `decrypt` checks before it makes a directory: the anchor, the host and the ciphertext. */
  predicate DecryptTrusted(pr: Codecs, machine: string, receipt: Bytes, receiptSha: string, ciphertext: Bytes) {
    LowerHex(receiptSha, 64) && pr.sha256(receipt) == receiptSha && pr.parseJson(receipt).Some?
    && var record := pr.parseJson(receipt).value;
       J.Has(record, "source_machine_id") && !J.Equal(J.Str(machine), J.At(record, "source_machine_id"))
       && J.Has(record, "ciphertext_sha256") && HasDigest(pr, ciphertext, J.At(record, "ciphertext_sha256"))
  }

  predicate PlaintextFits(pr: Codecs, ciphertext: Bytes) {
    pr.decrypt(ciphertext).Some? && |pr.decrypt(ciphertext).value| <= MAX_BYTES
  }

  predicate DestinationFree(record: J.Json, occupied: bool) {
    J.Has(record, "package_id") && J.At(record, "package_id").Str?
    && UploadIntent.SafeName(J.At(record, "package_id").s) && !occupied
  }

  /** All of `decrypt` that is not about the archive. */
  predicate DecryptAdmitted(pr: Codecs, machine: string, receipt: Bytes, receiptSha: string, ciphertext: Bytes,
                            destinationExists: bool) {
    DecryptTrusted(pr, machine, receipt, receiptSha, ciphertext) && PlaintextFits(pr, ciphertext)
    && DestinationFree(pr.parseJson(receipt).value, destinationExists)
  }

  /** `decrypt` accepts and recovers these files. */
  predicate DecryptRecovers(pr: Codecs, machine: string, receipt: Bytes, receiptSha: string, ciphertext: Bytes,
                            destinationExists: bool, fs: Files) {
    DecryptAdmitted(pr, machine, receipt, receiptSha, ciphertext, destinationExists)
    && DecryptArchiveAccepted(pr, pr.parseJson(receipt).value, pr.decrypt(ciphertext).value)
    && fs == FilesOf(pr.readTar(pr.decrypt(ciphertext).value).value)
  }

  /** The independent verifier allows no configuration sources in the inventory. */
  predicate NoConfigurationSources(pr: Codecs, inventory: Bytes) {
    match pr.parseJson(inventory)
    case None => false
    case Some(j) => j.Obj? && J.Equal(J.Get(j, "configuration_sources"), J.List([]))
  }

  /** The independent verifier's own bundle check, against the digests of the receipt. */
  predicate WindowsBundleValid(pr: Codecs, record: J.Json, b: Bundle) {
    J.Has(record, "snapshot_sha256") && J.Has(record, "release_sha256") && J.Has(record, "commit")
    && match pr.parseJson(b.manifest)
       case None => false
       case Some(m) =>
         var snapshot, release := J.At(record, "snapshot_sha256"), J.At(record, "release_sha256");
         J.Has(m, "sha256")
         && J.Equal(J.At(m, "sha256"), J.Obj(map["database.sqlite3" := snapshot, "release.tar.gz" := release]))
         && J.Has(m, "commit") && J.Equal(J.At(m, "commit"), J.At(record, "commit"))
         && HasDigest(pr, b.database, snapshot) && HasDigest(pr, b.release, release)
         && J.Has(m, "release_files") && ReleaseValid(pr, b.release, J.At(m, "release_files"))
         && J.Has(m, "schema_sha256") && pr.inspectDatabase(b.database).Some?
         && J.Equal(J.Str(pr.inspectDatabase(b.database).value), J.At(m, "schema_sha256"))
  }

  /** The content checks of `verify_archive` on the extracted files. */
  predicate WindowsFilesAccepted(pr: Codecs, record: J.Json, fs: Files) {
    FixedNames() <= fs.Keys
    && var core := CoreOf(fs);
       NoConfigurationSources(pr, core.inventory) && InventoryAccepted(pr, fs, core.inventory)
       && J.Has(record, "manifest_sha256") && HasDigest(pr, core.bundle.manifest, J.At(record, "manifest_sha256"))
       && WindowsBundleValid(pr, record, core.bundle)
       && EvidenceAgrees(pr, record, fs)
  }

  /** `verify_archive` on a decrypted archive. */
  predicate WindowsAccepts(pr: Codecs, receipt: Bytes, receiptSha: string, archive: Bytes) {
    LowerHex(receiptSha, 64) && pr.sha256(receipt) == receiptSha && pr.parseJson(receipt).Some?
    && var record := pr.parseJson(receipt).value;
       J.Has(record, "configuration_included") && !J.Truthy(J.At(record, "configuration_included"))
       && J.Has(record, "commit") && J.Equal(J.At(record, "commit"), J.Str(RELEASE))
       && J.Has(record, "manifest_sha256") && J.Equal(J.At(record, "manifest_sha256"), J.Str(MANIFEST_SHA))
       && pr.readTar(archive).Some? && Extractable(pr.readTar(archive).value, WindowsName)
       && WindowsFilesAccepted(pr, record, FilesOf(pr.readTar(archive).value))
  }
}
