/** What the two verifiers accept, written out key by key and limit by limit. */
module RecoveryTerms {
  import opened Wrappers
  import J = Json
  import opened Archive
  import opened ArchiveChecks
  import opened ArchiveTheorems
  import Release
  import Retrieval
  import opened UploadIntent

  /** `n` lower-case hexadecimal digits. */
  predicate Hex(s: string, n: nat) { |s| == n && forall c :: c in s ==> '0' <= c <= '9' || 'a' <= c <= 'f' }

  lemma HexIsLowerHex(s: string, n: nat)
    ensures LowerHex(s, n) <==> Hex(s, n)
  {
    if Hex(s, n) {
      forall i | 0 <= i < n ensures '0' <= s[i] <= '9' || 'a' <= s[i] <= 'f' { assert s[i] in s; }
    }
  }

  /** The field `key` is the digest of this content. */
  predicate Names(pr: Codecs, j: J.Json, key: string, content: Bytes) {
    j.Obj? && key in j.m && j.m[key] == J.Str(pr.sha256(content))
  }

  lemma DigestIsText(pr: Codecs, content: Bytes, digest: J.Json)
    ensures HasDigest(pr, content, digest) <==> digest == J.Str(pr.sha256(content))
  {
    J.EqualString(digest, pr.sha256(content));
  }

  // Release archives and bundles.

  /** Every recorded file once, and nothing else; each allowed, a plain file, and of the recorded digest. */
  predicate ReleaseTerms(pr: Codecs, ms: seq<Member>, hashes: map<string, J.Json>) {
    (forall i, j :: 0 <= i < j < |ms| ==> ms[i].name != ms[j].name)
    && (forall n :: n in hashes ==> Named(ms, n))
    && forall i :: 0 <= i < |ms| ==>
         pr.releasePath(ms[i].name) && ms[i].regular
         && ms[i].name in hashes && hashes[ms[i].name] == J.Str(pr.sha256(ms[i].content))
  }

  lemma NamedIsListed(ms: seq<Member>, n: string)
    ensures n in NamesOf(ms) <==> Named(ms, n)
  {
  }

  /** Comparing sizes and name sets decides whether the archive holds the recorded files. */
  lemma ReleaseExactly(pr: Codecs, ms: seq<Member>, hashes: map<string, J.Json>)
    ensures ReleaseMembersValid(pr, ms, hashes) <==> ReleaseTerms(pr, ms, hashes)
  {
    forall i | 0 <= i < |ms| && ms[i].name in hashes
      ensures HasDigest(pr, ms[i].content, hashes[ms[i].name])
              <==> hashes[ms[i].name] == J.Str(pr.sha256(ms[i].content))
    {
      DigestIsText(pr, ms[i].content, hashes[ms[i].name]);
    }
    forall n ensures n in NamesOf(ms) <==> Named(ms, n) { NamedIsListed(ms, n); }
    if ReleaseMembersValid(pr, ms, hashes) {
      ValidReleaseIsExact(pr, ms, hashes);
    }
    if ReleaseTerms(pr, ms, hashes) {
      Release.DistinctNamesCount(ms);
      assert NamesOf(ms) == hashes.Keys && |hashes| == |hashes.Keys|;
    }
  }

  /** The release archive of a bundle, against `release_files`. */
  predicate ReleaseFits(pr: Codecs, tar: Bytes, files: J.Json) {
    pr.readTar(tar).Some?
    && var ms := pr.readTar(tar).value;
       if files.Obj? then ReleaseTerms(pr, ms, files.m) else ms == [] && (files == J.List([]) || files == J.Str(""))
  }

  lemma ReleaseFitsExactly(pr: Codecs, tar: Bytes, files: J.Json)
    ensures ReleaseValid(pr, tar, files) <==> ReleaseFits(pr, tar, files)
  {
    if pr.readTar(tar).Some? && files.Obj? { ReleaseExactly(pr, pr.readTar(tar).value, files.m); }
  }

  /** The manifest names database and release by digest, the release's files, the schema and a commit. */
  predicate BundleTerms(pr: Codecs, b: Bundle) {
    pr.parseJson(b.manifest).Some?
    && var m := pr.parseJson(b.manifest).value;
       m.Obj? && {"sha256", "release_files", "schema_sha256", "commit"} <= m.m.Keys
       && m.m["sha256"].Obj? && m.m["sha256"].m.Keys == {"database.sqlite3", "release.tar.gz"}
       && Names(pr, m.m["sha256"], "database.sqlite3", b.database)
       && Names(pr, m.m["sha256"], "release.tar.gz", b.release)
       && ReleaseFits(pr, b.release, m.m["release_files"])
       && pr.inspectDatabase(b.database).Some? && m.m["schema_sha256"] == J.Str(pr.inspectDatabase(b.database).value)
  }

  /** `verify` accepts exactly such bundles. */
  lemma BundleExactly(pr: Codecs, b: Bundle)
    ensures BundleValid(pr, b) <==> BundleTerms(pr, b)
  {
    if pr.parseJson(b.manifest).Some? {
      var m := pr.parseJson(b.manifest).value;
      if J.Has(m, "sha256") && J.At(m, "sha256").Obj? {
        var shas := J.At(m, "sha256").m;
        if "database.sqlite3" in shas { DigestIsText(pr, b.database, shas["database.sqlite3"]); }
        if "release.tar.gz" in shas { DigestIsText(pr, b.release, shas["release.tar.gz"]); }
      }
      if J.Has(m, "release_files") { ReleaseFitsExactly(pr, b.release, J.At(m, "release_files")); }
      if J.Has(m, "schema_sha256") && pr.inspectDatabase(b.database).Some? {
        J.EqualString(J.At(m, "schema_sha256"), pr.inspectDatabase(b.database).value);
      }
    }
  }

  // Recovery archives.

  /** A name of eighteen or thirteen characters: the directory, and four digits. */
  predicate NumberedName(directory: string, n: string) {
    |n| == |directory| + 4 && directory <= n && forall c :: c in n[|directory|..] ==> '0' <= c <= '9'
  }

  predicate RecoveryName(n: string) {
    n in {"inventory.json", "bundle/manifest.json", "bundle/verification.json", "bundle/database.sqlite3",
          "bundle/release.tar.gz"}
    || NumberedName("configuration/", n) || NumberedName("evidence/", n)
  }

  lemma DigitsOf(s: string)
    ensures Digits(s) <==> forall c :: c in s ==> '0' <= c <= '9'
  {
    if forall c :: c in s ==> '0' <= c <= '9' {
      forall i | 0 <= i < |s| ensures '0' <= s[i] <= '9' { assert s[i] in s; }
    }
  }

  lemma NumberedExactly(n: string)
    ensures ConfigurationName(n) <==> NumberedName("configuration/", n)
    ensures EvidenceName(n) <==> NumberedName("evidence/", n)
  {
    if |n| == 18 { DigitsOf(n[14..]); }
    if |n| == 13 { DigitsOf(n[9..]); }
  }

  lemma FixedLengths(n: string)
    requires n in FixedNames()
    ensures |n| != 18
  {
  }

  lemma NamesExactly(n: string)
    ensures DecryptName(n) <==> RecoveryName(n)
    ensures WindowsName(n) <==> RecoveryName(n) && !NumberedName("configuration/", n)
  {
    NumberedExactly(n);
    if n in FixedNames() { FixedLengths(n); }
  }

  /** Each member a plain file of an expected name, none twice, the five fixed ones there, and the limit kept. */
  predicate ArchiveTerms(ms: seq<Member>) {
    (forall i :: 0 <= i < |ms| ==> RecoveryName(ms[i].name)) && PlainMembers(ms)
  }

  predicate PlainMembers(ms: seq<Member>) {
    (forall i :: 0 <= i < |ms| ==> ms[i].regular)
    && (forall i, j :: 0 <= i < j < |ms| ==> ms[i].name != ms[j].name)
    && Named(ms, "inventory.json") && Named(ms, "bundle/manifest.json") && Named(ms, "bundle/verification.json")
    && Named(ms, "bundle/database.sqlite3") && Named(ms, "bundle/release.tar.gz")
    && SizeOf(ms) <= 134217728
  }

  function SizeOf(ms: seq<Member>): nat {
    if ms == [] then 0 else |ms[0].content| + SizeOf(ms[1..])
  }

  lemma {:induction false} SizeBehind(ms: seq<Member>, m: Member)
    ensures SizeOf(ms + [m]) == SizeOf(ms) + |m.content|
  {
    if ms == [] {
      assert [m][1..] == [];
    } else {
      assert (ms + [m])[1..] == ms[1..] + [m];
      SizeBehind(ms[1..], m);
    }
  }

  lemma {:induction false} TotalIsSize(ms: seq<Member>)
    ensures TotalSize(ms) == SizeOf(ms)
  {
    if ms != [] {
      var front, last := ms[..|ms| - 1], ms[|ms| - 1];
      assert ms == front + [last];
      TotalIsSize(front);
      SizeBehind(front, last);
    }
  }

  lemma MembersExactly(ms: seq<Member>, allowed: string -> bool)
    ensures Extractable(ms, allowed)
            <==> (forall i :: 0 <= i < |ms| ==> allowed(ms[i].name)) && PlainMembers(ms)
  {
    TotalIsSize(ms);
  }

  lemma ArchiveExactly(ms: seq<Member>)
    ensures Extractable(ms, DecryptName) <==> ArchiveTerms(ms)
  {
    MembersExactly(ms, DecryptName);
    forall i | 0 <= i < |ms| ensures DecryptName(ms[i].name) <==> RecoveryName(ms[i].name) { NamesExactly(ms[i].name); }
  }

  /** The recovered files are those of the archive. */
  predicate Unpacked(ms: seq<Member>, fs: Files) {
    (forall n :: n in fs ==> Named(ms, n))
    && forall i :: 0 <= i < |ms| ==> ms[i].name in fs && fs[ms[i].name] == ms[i].content
  }

  lemma UnpackedExactly(ms: seq<Member>, fs: Files)
    requires DistinctNames(ms)
    ensures fs == FilesOf(ms) <==> Unpacked(ms, fs)
  {
    forall n ensures n in FilesOf(ms) <==> Named(ms, n) { FilesOfNames(ms, n); }
    forall i | 0 <= i < |ms| ensures ms[i].name in FilesOf(ms) && FilesOf(ms)[ms[i].name] == ms[i].content {
      FilesOfContent(ms, i);
    }
    if Unpacked(ms, fs) {
      forall n | n in fs ensures n in FilesOf(ms) && fs[n] == FilesOf(ms)[n] {
        var i :| 0 <= i < |ms| && ms[i].name == n;
      }
      assert fs.Keys == FilesOf(ms).Keys;
    }
  }

  /** The inventory lists every other file by its digest, and nothing else. */
  predicate InventoryTerms(pr: Codecs, fs: Files) {
    "inventory.json" in fs && pr.parseJson(fs["inventory.json"]).Some?
    && var inventory := pr.parseJson(fs["inventory.json"]).value;
       inventory.Obj? && "files" in inventory.m && inventory.m["files"].Obj?
       && var files := inventory.m["files"];
          files.m.Keys == fs.Keys - {"inventory.json"}
          && forall n :: n in files.m ==> Names(pr, files, n, fs[n])
  }

  lemma InventoryExactly(pr: Codecs, fs: Files)
    requires "inventory.json" in fs
    ensures InventoryAccepted(pr, fs, fs["inventory.json"]) <==> InventoryTerms(pr, fs)
  {
    if pr.parseJson(fs["inventory.json"]).Some? {
      var inventory := pr.parseJson(fs["inventory.json"]).value;
      if J.Has(inventory, "files") && J.At(inventory, "files").Obj? {
        var files := J.At(inventory, "files").m;
        forall n | n in files && n in fs
          ensures HasDigest(pr, fs[n], files[n]) <==> files[n] == J.Str(pr.sha256(fs[n]))
        {
          DigestIsText(pr, fs[n], files[n]);
        }
      }
    }
  }

  /** An evidence file is about this commit and this bundle. */
  predicate About(pr: Codecs, content: Bytes, record: J.Json) {
    pr.parseJson(content).Some? && record.Obj? && {"commit", "bundle"} <= record.m.Keys
    && var e := pr.parseJson(content).value;
       e.Obj? && J.Equal(if "commit" in e.m then e.m["commit"] else J.Null, record.m["commit"])
       && J.Equal(if "bundle" in e.m then e.m["bundle"] else J.Null, record.m["bundle"])
  }

  /** The flag, the count and the evidence of the record against what was recovered. */
  predicate RecordTerms(pr: Codecs, fs: Files, record: J.Json) {
    record.Obj? && {"configuration_included", "evidence_count"} <= record.m.Keys
    && J.Equal(J.Bool(exists n :: n in fs && NumberedName("configuration/", n)), record.m["configuration_included"])
    && J.Equal(J.Num(|set n | n in fs && NumberedName("evidence/", n)| as real), record.m["evidence_count"])
    && forall n :: n in fs && NumberedName("evidence/", n) ==> About(pr, fs[n], record)
  }

  lemma RecordExactly(pr: Codecs, fs: Files, record: J.Json)
    ensures CountsAgree(pr, record, fs) <==> RecordTerms(pr, fs, record)
  {
    forall n
      ensures ConfigurationName(n) <==> NumberedName("configuration/", n)
      ensures EvidenceName(n) <==> NumberedName("evidence/", n)
    {
      NumberedExactly(n);
    }
    assert EvidenceNames(fs) == set n | n in fs && NumberedName("evidence/", n);
  }

  /** The recovered bundle is valid, and the one the record is about. */
  predicate PairingTerms(pr: Codecs, fs: Files, record: J.Json) {
    {"bundle/manifest.json", "bundle/verification.json", "bundle/database.sqlite3", "bundle/release.tar.gz"} <= fs.Keys
    && var b := Bundle(manifest := fs["bundle/manifest.json"], verification := fs["bundle/verification.json"],
                       database := fs["bundle/database.sqlite3"], release := fs["bundle/release.tar.gz"]);
       BundleTerms(pr, b) && Names(pr, record, "manifest_sha256", b.manifest)
       && Names(pr, record, "release_sha256", b.release) && Names(pr, record, "snapshot_sha256", b.database)
       && "commit" in record.m
       && J.Equal(pr.parseJson(b.manifest).value.m["commit"], record.m["commit"])
  }

  lemma PairingExactly(pr: Codecs, fs: Files, record: J.Json)
    requires FixedNames() <= fs.Keys
    ensures var b := CoreOf(fs).bundle;
            (J.Has(record, "manifest_sha256") && HasDigest(pr, b.manifest, J.At(record, "manifest_sha256"))
             && BundleValid(pr, b) && ManifestAgrees(pr.parseJson(b.manifest).value, record))
            <==> PairingTerms(pr, fs, record)
  {
    var b := CoreOf(fs).bundle;
    BundleExactly(pr, b);
    if J.Has(record, "manifest_sha256") { DigestIsText(pr, b.manifest, J.At(record, "manifest_sha256")); }
    if J.Has(record, "release_sha256") { J.EqualString(J.At(record, "release_sha256"), pr.sha256(b.release)); }
    if J.Has(record, "snapshot_sha256") { J.EqualString(J.At(record, "snapshot_sha256"), pr.sha256(b.database)); }
  }

  lemma FilesExactly(pr: Codecs, fs: Files, record: J.Json)
    requires FixedNames() <= fs.Keys
    ensures DecryptFilesAccepted(pr, record, fs)
            <==> InventoryTerms(pr, fs) && RecordTerms(pr, fs, record) && PairingTerms(pr, fs, record)
  {
    InventoryExactly(pr, fs);
    RecordExactly(pr, fs, record);
    PairingExactly(pr, fs, record);
  }

  /** The receipt is the expected one, of another host, and names this ciphertext and a package not there yet. */
  predicate ReceiptTerms(pr: Codecs, machine: string, receipt: Bytes, receiptSha: string,
                         ciphertext: Bytes, taken: bool) {
    Hex(receiptSha, 64) && pr.sha256(receipt) == receiptSha && pr.parseJson(receipt).Some?
    && var record := pr.parseJson(receipt).value;
       record.Obj? && {"source_machine_id", "package_id"} <= record.m.Keys
       && record.m["source_machine_id"] != J.Str(machine) && Names(pr, record, "ciphertext_sha256", ciphertext)
       && record.m["package_id"].Str? && PlainId(record.m["package_id"].s) && !taken
  }

  lemma ReceiptExactly(pr: Codecs, machine: string, receipt: Bytes, receiptSha: string,
                       ciphertext: Bytes, taken: bool)
    ensures (DecryptTrusted(pr, machine, receipt, receiptSha, ciphertext)
             && DestinationFree(pr.parseJson(receipt).value, taken))
            <==> ReceiptTerms(pr, machine, receipt, receiptSha, ciphertext, taken)
  {
    HexIsLowerHex(receiptSha, 64);
    if pr.parseJson(receipt).Some? {
      var record := pr.parseJson(receipt).value;
      if J.Has(record, "source_machine_id") { J.EqualString(J.At(record, "source_machine_id"), machine); }
      if J.Has(record, "ciphertext_sha256") { DigestIsText(pr, ciphertext, J.At(record, "ciphertext_sha256")); }
      if J.Has(record, "package_id") && J.At(record, "package_id").Str? { SafeIsPlain(J.At(record, "package_id").s); }
    }
  }

  /** The plaintext fits the limit, is an acceptable archive of these files, and they agree with the record. */
  predicate PlaintextTerms(pr: Codecs, record: J.Json, ciphertext: Bytes, fs: Files) {
    pr.decrypt(ciphertext).Some? && |pr.decrypt(ciphertext).value| <= 134217728
    && pr.readTar(pr.decrypt(ciphertext).value).Some?
    && var ms := pr.readTar(pr.decrypt(ciphertext).value).value;
       ArchiveTerms(ms) && Unpacked(ms, fs)
       && InventoryTerms(pr, fs) && RecordTerms(pr, fs, record) && PairingTerms(pr, fs, record)
  }

  lemma PlaintextExactly(pr: Codecs, record: J.Json, ciphertext: Bytes, fs: Files)
    requires PlaintextFits(pr, ciphertext) && pr.readTar(pr.decrypt(ciphertext).value).Some?
    ensures (DecryptArchiveAccepted(pr, record, pr.decrypt(ciphertext).value)
             && fs == FilesOf(pr.readTar(pr.decrypt(ciphertext).value).value))
            <==> PlaintextTerms(pr, record, ciphertext, fs)
  {
    var ms := pr.readTar(pr.decrypt(ciphertext).value).value;
    ArchiveExactly(ms);
    if Extractable(ms, DecryptName) {
      UnpackedExactly(ms, fs);
      forall n | n in FixedNames() ensures n in FilesOf(ms) { FilesOfNames(ms, n); }
      FilesExactly(pr, FilesOf(ms), record);
    }
  }

  /**
   * `decrypt` recovers these files exactly on these terms. In particular never on the host that sealed them, and
   * never for a receipt, ciphertext, inventory, bundle or evidence that does not fit.
   */
  lemma RecoversExactly(pr: Codecs, machine: string, receipt: Bytes, receiptSha: string,
                        ciphertext: Bytes, taken: bool, fs: Files)
    ensures DecryptRecovers(pr, machine, receipt, receiptSha, ciphertext, taken, fs)
            <==> ReceiptTerms(pr, machine, receipt, receiptSha, ciphertext, taken)
                 && PlaintextTerms(pr, pr.parseJson(receipt).value, ciphertext, fs)
  {
    ReceiptExactly(pr, machine, receipt, receiptSha, ciphertext, taken);
    if pr.parseJson(receipt).Some? && PlaintextFits(pr, ciphertext)
       && pr.readTar(pr.decrypt(ciphertext).value).Some?
    {
      PlaintextExactly(pr, pr.parseJson(receipt).value, ciphertext, fs);
    }
  }

  // The independent verifier.

  lemma WindowsPairingExactly(pr: Codecs, fs: Files, record: J.Json)
    requires FixedNames() <= fs.Keys
    ensures var b := CoreOf(fs).bundle;
            (J.Has(record, "manifest_sha256") && HasDigest(pr, b.manifest, J.At(record, "manifest_sha256"))
             && WindowsBundleValid(pr, record, b))
            <==> PairingTerms(pr, fs, record)
  {
    var b := CoreOf(fs).bundle;
    if J.Has(record, "manifest_sha256") { DigestIsText(pr, b.manifest, J.At(record, "manifest_sha256")); }
    if J.Has(record, "release_sha256") { DigestIsText(pr, b.release, J.At(record, "release_sha256")); }
    if J.Has(record, "snapshot_sha256") { DigestIsText(pr, b.database, J.At(record, "snapshot_sha256")); }
    if pr.parseJson(b.manifest).Some? { WindowsManifestExactly(pr, pr.parseJson(b.manifest).value, record, b); }
  }

  /** Comparing the manifest's digests with the receipt's and those with the files compares all three. */
  lemma WindowsManifestExactly(pr: Codecs, m: J.Json, record: J.Json, b: Bundle)
    requires pr.parseJson(b.manifest) == Some(m)
    ensures WindowsBundleValid(pr, record, b)
            <==> BundleTerms(pr, b) && Names(pr, record, "release_sha256", b.release)
                 && Names(pr, record, "snapshot_sha256", b.database) && "commit" in record.m
                 && J.Equal(m.m["commit"], record.m["commit"])
  {
    if J.Has(record, "release_sha256") { DigestIsText(pr, b.release, J.At(record, "release_sha256")); }
    if J.Has(record, "snapshot_sha256") { DigestIsText(pr, b.database, J.At(record, "snapshot_sha256")); }
    if J.Has(m, "release_files") { ReleaseFitsExactly(pr, b.release, J.At(m, "release_files")); }
    if J.Has(m, "schema_sha256") && pr.inspectDatabase(b.database).Some? {
      J.EqualString(J.At(m, "schema_sha256"), pr.inspectDatabase(b.database).value);
    }
    if J.Has(m, "sha256") { TwoDigests(J.At(m, "sha256"), pr.sha256(b.database), pr.sha256(b.release)); }
  }

  lemma TwoDigests(shas: J.Json, database: string, release: string)
    ensures J.Equal(shas, J.Obj(map["database.sqlite3" := J.Str(database), "release.tar.gz" := J.Str(release)]))
            <==> shas.Obj? && shas.m.Keys == {"database.sqlite3", "release.tar.gz"}
                 && shas.m["database.sqlite3"] == J.Str(database) && shas.m["release.tar.gz"] == J.Str(release)
  {
    var m := map["database.sqlite3" := J.Str(database), "release.tar.gz" := J.Str(release)];
    assert m.Keys == {"database.sqlite3", "release.tar.gz"};
    if shas.Obj? && shas.m.Keys == m.Keys {
      J.EqualString(shas.m["database.sqlite3"], database);
      J.EqualString(shas.m["release.tar.gz"], release);
      assert forall k :: k in shas.m ==> k == "database.sqlite3" || k == "release.tar.gz";
    }
  }

  /** No configuration, in the flag, the inventory and the archive. */
  predicate ConfigurationFree(pr: Codecs, fs: Files, record: J.Json, ms: seq<Member>) {
    record.Obj? && "configuration_included" in record.m
    && record.m["configuration_included"] in {J.Null, J.Bool(false), J.Num(0.0), J.Str(""), J.List([]), J.Obj(map[])}
    && (forall i :: 0 <= i < |ms| ==> !NumberedName("configuration/", ms[i].name))
    && "inventory.json" in fs && pr.parseJson(fs["inventory.json"]).Some?
    && var inventory := pr.parseJson(fs["inventory.json"]).value;
       inventory.Obj? && "configuration_sources" in inventory.m && inventory.m["configuration_sources"] == J.List([])
  }

  /** The pinned release, and the evidence the record counts. */
  predicate PinnedTerms(pr: Codecs, fs: Files, record: J.Json) {
    record.Obj? && {"commit", "manifest_sha256", "evidence_count"} <= record.m.Keys
    && record.m["commit"] == J.Str("a9e4ed59ae91d9964e5a5d1d7f8a2c44536222cb")
    && record.m["manifest_sha256"]
       == J.Str("461d2e8a86620c7e" + "e627b247d5824079" + "abc6a851785bfe42" + "6331d429fcbca2fe")
    && J.Equal(J.Num(|set n | n in fs && NumberedName("evidence/", n)| as real), record.m["evidence_count"])
    && forall n :: n in fs && NumberedName("evidence/", n) ==> About(pr, fs[n], record)
  }

  lemma SourcesExactly(j: J.Json)
    ensures J.Equal(j, J.List([])) <==> j == J.List([])
  {
  }

  lemma WindowsArchiveExactly(ms: seq<Member>)
    ensures Extractable(ms, WindowsName)
            <==> ArchiveTerms(ms) && forall i :: 0 <= i < |ms| ==> !NumberedName("configuration/", ms[i].name)
  {
    MembersExactly(ms, WindowsName);
    forall i | 0 <= i < |ms|
      ensures WindowsName(ms[i].name) <==> RecoveryName(ms[i].name) && !NumberedName("configuration/", ms[i].name)
    {
      NamesExactly(ms[i].name);
    }
  }

  /** The content checks of `verify_archive`. */
  lemma WindowsFilesExactly(pr: Codecs, fs: Files, record: J.Json)
    requires FixedNames() <= fs.Keys
    ensures WindowsFilesAccepted(pr, record, fs)
            <==> NoConfigurationSources(pr, fs["inventory.json"]) && InventoryTerms(pr, fs)
                 && PairingTerms(pr, fs, record) && EvidenceAgrees(pr, record, fs)
  {
    InventoryExactly(pr, fs);
    WindowsPairingExactly(pr, fs, record);
  }

  lemma EvidenceExactly(pr: Codecs, fs: Files, record: J.Json)
    ensures EvidenceAgrees(pr, record, fs)
            <==> record.Obj? && "evidence_count" in record.m
                 && J.Equal(J.Num(|set n | n in fs && NumberedName("evidence/", n)| as real),
                            record.m["evidence_count"])
                 && forall n :: n in fs && NumberedName("evidence/", n) ==> About(pr, fs[n], record)
  {
    forall n ensures EvidenceName(n) <==> NumberedName("evidence/", n) { NumberedExactly(n); }
    assert EvidenceNames(fs) == set n | n in fs && NumberedName("evidence/", n);
  }

  lemma FreeExactly(pr: Codecs, fs: Files, record: J.Json, ms: seq<Member>)
    requires FixedNames() <= fs.Keys && forall i :: 0 <= i < |ms| ==> !NumberedName("configuration/", ms[i].name)
    ensures (J.Has(record, "configuration_included") && !J.Truthy(J.At(record, "configuration_included"))
             && NoConfigurationSources(pr, fs["inventory.json"]))
            <==> ConfigurationFree(pr, fs, record, ms)
  {
    if pr.parseJson(fs["inventory.json"]).Some? && pr.parseJson(fs["inventory.json"]).value.Obj? {
      SourcesExactly(J.Get(pr.parseJson(fs["inventory.json"]).value, "configuration_sources"));
    }
  }

  lemma PinnedExactly(pr: Codecs, fs: Files, record: J.Json)
    ensures (J.Has(record, "commit") && J.Equal(J.At(record, "commit"), J.Str(RELEASE))
             && J.Has(record, "manifest_sha256") && J.Equal(J.At(record, "manifest_sha256"), J.Str(MANIFEST_SHA))
             && EvidenceAgrees(pr, record, fs))
            <==> PinnedTerms(pr, fs, record)
  {
    EvidenceExactly(pr, fs, record);
    if J.Has(record, "commit") { J.EqualString(J.At(record, "commit"), RELEASE); }
    if J.Has(record, "manifest_sha256") { J.EqualString(J.At(record, "manifest_sha256"), MANIFEST_SHA); }
  }

  /** `verify_archive` accepts an archive of these files exactly on these terms. */
  lemma WindowsAcceptsExactly(pr: Codecs, receipt: Bytes, receiptSha: string, archive: Bytes, fs: Files)
    ensures (WindowsAccepts(pr, receipt, receiptSha, archive) && fs == FilesOf(pr.readTar(archive).value))
            <==> Hex(receiptSha, 64) && pr.sha256(receipt) == receiptSha && pr.parseJson(receipt).Some?
                 && pr.readTar(archive).Some?
                 && var record, ms := pr.parseJson(receipt).value, pr.readTar(archive).value;
                    ArchiveTerms(ms) && Unpacked(ms, fs) && ConfigurationFree(pr, fs, record, ms)
                    && PinnedTerms(pr, fs, record) && InventoryTerms(pr, fs) && PairingTerms(pr, fs, record)
  {
    HexIsLowerHex(receiptSha, 64);
    if Hex(receiptSha, 64) && pr.parseJson(receipt).Some? && pr.readTar(archive).Some? {
      var record, ms := pr.parseJson(receipt).value, pr.readTar(archive).value;
      WindowsArchiveExactly(ms);
      if Extractable(ms, WindowsName) {
        UnpackedExactly(ms, fs);
        forall n | n in FixedNames() ensures n in FilesOf(ms) { FilesOfNames(ms, n); }
        WindowsFilesExactly(pr, FilesOf(ms), record);
        FreeExactly(pr, FilesOf(ms), record, ms);
        PinnedExactly(pr, FilesOf(ms), record);
      }
    }
  }

  // Retrieval.

  /** One served object: there, within the limit, and of the digest the receipt gives for it. */
  predicate ServedAs(pr: Codecs, m: map<string, J.Json>, remote: Retrieval.Remote, id: string, digest: string,
                     content: Bytes) {
    id in m && digest in m && m[id].Str? && remote(m[id].s) == Some(content) && |content| <= 134217728
    && m[digest] == J.Str(pr.sha256(content))
  }

  /** Where the object lies and what the package is called. */
  predicate Addressed(m: map<string, J.Json>, bucket: string, prefix: string, occupied: set<string>) {
    "bucket_id" in m && "object_name" in m && "package_id" in m && m["bucket_id"] == J.Str(bucket)
    && m["object_name"].Str? && prefix <= m["object_name"].s
    && m["package_id"].Str? && PlainId(m["package_id"].s) && m["package_id"].s !in occupied
  }

  /** The marker says all that the receipt says of the object, and the receipt adds only what names the marker. */
  predicate MarkerSays(pr: Codecs, m: map<string, J.Json>, marker: Bytes) {
    pr.parseJson(marker).Some?
    && J.Equal(pr.parseJson(marker).value,
               J.Obj(map key | key in m && key != "completion_file_id" && key != "completion_sha256" :: m[key]))
  }

  /** The terms on which `retrieve` makes a package. */
  ghost predicate RetrieveTerms(pr: Codecs, receipt: Bytes, expected: string, bucket: string, prefix: string,
                                remote: Retrieval.Remote, occupied: set<string>) {
    Hex(expected, 64) && pr.sha256(receipt) == expected
    && exists m, marker, ciphertext ::
         pr.parseJson(receipt) == Some(J.Obj(m)) && Addressed(m, bucket, prefix, occupied)
         && ServedAs(pr, m, remote, "completion_file_id", "completion_sha256", marker) && MarkerSays(pr, m, marker)
         && ServedAs(pr, m, remote, "ciphertext_file_id", "ciphertext_sha256", ciphertext)
         && "ciphertext_bytes" in m && J.Equal(J.Num(|ciphertext| as real), m["ciphertext_bytes"])
  }

  lemma MarkerTerms(pr: Codecs, m: map<string, J.Json>, remote: Retrieval.Remote)
    ensures Retrieval.MarkerAccepted(pr, J.Obj(m), remote)
            <==> exists marker :: ServedAs(pr, m, remote, "completion_file_id", "completion_sha256", marker)
                                  && MarkerSays(pr, m, marker)
  {
    var own := map key | key in m && key != "completion_file_id" && key != "completion_sha256" :: m[key];
    assert m - {"completion_file_id", "completion_sha256"} == own;
    if "completion_sha256" in m && "completion_file_id" in m && m["completion_file_id"].Str? {
      var served := remote(m["completion_file_id"].s);
      if served.Some? {
        DigestIsText(pr, served.value, m["completion_sha256"]);
        assert Retrieval.MarkerAccepted(pr, J.Obj(m), remote)
               <==> ServedAs(pr, m, remote, "completion_file_id", "completion_sha256", served.value)
                    && MarkerSays(pr, m, served.value);
      }
    }
  }

  lemma CiphertextTerms(pr: Codecs, m: map<string, J.Json>, remote: Retrieval.Remote)
    ensures Retrieval.CiphertextAccepted(pr, J.Obj(m), remote)
            <==> exists ciphertext ::
                   ServedAs(pr, m, remote, "ciphertext_file_id", "ciphertext_sha256", ciphertext)
                   && "ciphertext_bytes" in m && J.Equal(J.Num(|ciphertext| as real), m["ciphertext_bytes"])
  {
    if "ciphertext_sha256" in m && "ciphertext_file_id" in m && m["ciphertext_file_id"].Str? {
      var served := remote(m["ciphertext_file_id"].s);
      if served.Some? { DigestIsText(pr, served.value, m["ciphertext_sha256"]); }
    }
  }

  lemma AddressTerms(m: map<string, J.Json>, bucket: string, prefix: string, occupied: set<string>)
    ensures Retrieval.DestinationMatches(J.Obj(m), bucket, prefix) && Retrieval.NewDirectory(J.Obj(m), occupied)
            <==> Addressed(m, bucket, prefix, occupied)
  {
    if "bucket_id" in m { J.EqualString(m["bucket_id"], bucket); }
    if "package_id" in m && m["package_id"].Str? { SafeIsPlain(m["package_id"].s); }
  }

  /** `retrieve` makes a package exactly on its terms. */
  lemma RetrievesExactly(pr: Codecs, receipt: Bytes, expected: string, bucket: string, prefix: string,
                         remote: Retrieval.Remote, occupied: set<string>)
    ensures Retrieval.RetrieveAccepts(pr, receipt, expected, bucket, prefix, remote, occupied)
            <==> RetrieveTerms(pr, receipt, expected, bucket, prefix, remote, occupied)
  {
    HexIsLowerHex(expected, 64);
    if pr.parseJson(receipt).Some? && pr.parseJson(receipt).value.Obj? {
      var m := pr.parseJson(receipt).value.m;
      MarkerTerms(pr, m, remote);
      CiphertextTerms(pr, m, remote);
      AddressTerms(m, bucket, prefix, occupied);
    }
  }
}
