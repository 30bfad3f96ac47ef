/** Where the two verifiers disagree: a receipt that says null instead of false. */
module VerifierGap {
  import opened Wrappers
  import J = Json
  import opened Archive
  import opened ArchiveChecks
  import opened ArchiveTheorems

  /** The record with another value for its configuration flag. */
  function WithFlag(record: J.Json, flag: J.Json): J.Json
    requires record.Obj?
  {
    J.Obj(record.m["configuration_included" := flag])
  }

  predicate SameField(a: J.Json, b: J.Json, key: string) {
    J.Has(a, key) == J.Has(b, key) && (J.Has(a, key) ==> J.At(a, key) == J.At(b, key))
  }

  /** The fields the independent verifier reads besides the flag. */
  lemma OtherFields(record: J.Json, flag: J.Json)
    requires record.Obj?
    ensures var changed := WithFlag(record, flag);
            SameField(record, changed, "manifest_sha256") && SameField(record, changed, "snapshot_sha256")
            && SameField(record, changed, "release_sha256") && SameField(record, changed, "commit")
            && SameField(record, changed, "bundle") && SameField(record, changed, "evidence_count")
  {
    assert |"configuration_included"| == 22;
    assert |"manifest_sha256"| == 15 && |"snapshot_sha256"| == 15 && |"release_sha256"| == 14;
    assert |"commit"| == 6 && |"bundle"| == 6 && |"evidence_count"| == 14;
  }

  lemma FlagIsNotChecked(pr: Codecs, record: J.Json, flag: J.Json, fs: Files)
    requires record.Obj? && WindowsFilesAccepted(pr, record, fs)
    ensures WindowsFilesAccepted(pr, WithFlag(record, flag), fs)
  {
    OtherFields(record, flag);
  }

  /**
   * Whatever the codecs: a receipt that differs from an accepted one only in a falsy flag is accepted by
   * the independent verifier too, and refused by `decrypt` exactly when the flag is neither boolean nor
   * number, for instance null.
   */
  lemma FalsyFlagGap(pr: Codecs, receipt: Bytes, flagged: Bytes, flag: J.Json, archive: Bytes)
    requires WindowsAccepts(pr, receipt, pr.sha256(receipt), archive) && !J.Truthy(flag)
    requires pr.parseJson(flagged) == Some(WithFlag(pr.parseJson(receipt).value, flag))
    requires LowerHex(pr.sha256(flagged), 64)
    ensures WindowsAccepts(pr, flagged, pr.sha256(flagged), archive)
    ensures DecryptArchiveAccepted(pr, pr.parseJson(flagged).value, archive) <==> flag.Bool? || flag.Num?
  {
    FlaggedIsAccepted(pr, receipt, flagged, flag, archive);
    WindowsImpliesDecrypt(pr, flagged, pr.sha256(flagged), archive);
  }

  lemma FlaggedIsAccepted(pr: Codecs, receipt: Bytes, flagged: Bytes, flag: J.Json, archive: Bytes)
    requires WindowsAccepts(pr, receipt, pr.sha256(receipt), archive) && !J.Truthy(flag)
    requires pr.parseJson(flagged) == Some(WithFlag(pr.parseJson(receipt).value, flag))
    requires LowerHex(pr.sha256(flagged), 64)
    ensures WindowsAccepts(pr, flagged, pr.sha256(flagged), archive)
    ensures J.Has(pr.parseJson(flagged).value, "configuration_included")
    ensures J.At(pr.parseJson(flagged).value, "configuration_included") == flag
  {
    var record := pr.parseJson(receipt).value;
    OtherFields(record, flag);
    FlagIsNotChecked(pr, record, flag, FilesOf(pr.readTar(archive).value));
  }

  // A recovery on which they disagree, for an arbitrary hash.

  /** The receipt for release commit `c`; file 2 is the manifest, the other artifacts are empty. */
  function Receipt(h: Bytes -> string, c: string): J.Json {
    J.Obj(map["configuration_included" := J.Null, "commit" := J.Str(c), "bundle" := J.Str("b"),
              "manifest_sha256" := J.Str(h([2])), "snapshot_sha256" := J.Str(h([])), "release_sha256" := J.Str(h([])),
              "evidence_count" := J.Num(0.0)])
  }

  function ContentOf(name: string): Bytes { if name == "bundle/manifest.json" then [2] else [] }

  function Inventory(h: Bytes -> string): J.Json {
    J.Obj(map["configuration_sources" := J.List([]),
              "files" := J.Obj(map n | n in BundleNames() :: J.Str(h(ContentOf(n))))])
  }

  function Manifest(h: Bytes -> string, c: string): J.Json {
    J.Obj(map["sha256" := J.Obj(map["database.sqlite3" := J.Str(h([])), "release.tar.gz" := J.Str(h([]))]),
              "commit" := J.Str(c), "release_files" := J.Obj(map[]), "schema_sha256" := J.Str("")])
  }

  function Members(): seq<Member> {
    [Member("inventory.json", true, [1]), Member("bundle/manifest.json", true, [2]),
     Member("bundle/verification.json", true, []), Member("bundle/database.sqlite3", true, []),
     Member("bundle/release.tar.gz", true, [])]
  }

  /** File 0 is the receipt, 1 the inventory, 2 the manifest and 3 the archive. */
  function SampleCodecs(h: Bytes -> string, c: string): Codecs {
    Codecs(h,
           b => if b == [0] then Some(Receipt(h, c)) else if b == [1] then Some(Inventory(h))
                else if b == [2] then Some(Manifest(h, c)) else None,
           j => [], j => [], b => if b == [3] then Some(Members()) else if b == [] then Some([]) else None, ms => [],
           b => Some(b), b => b, b => Some(""), name => true)
  }

  lemma MembersNamed()
    ensures DistinctNames(Members())
    ensures forall n :: n in FixedNames() <==> Named(Members(), n)
  {
    var ms := Members();
    assert |ms[0].name| == 14 && |ms[1].name| == 20 && |ms[2].name| == 24 && |ms[3].name| == 23 && |ms[4].name| == 21;
    forall n ensures n in FixedNames() <==> Named(ms, n) {
      assert Named(ms, ms[0].name) && Named(ms, ms[1].name) && Named(ms, ms[2].name);
      assert Named(ms, ms[3].name) && Named(ms, ms[4].name);
    }
  }

  lemma MembersExtract()
    ensures Extractable(Members(), WindowsName)
    ensures FilesOf(Members()).Keys == FixedNames()
    ensures CoreOf(FilesOf(Members())) == Core([1], Bundle([2], [], [], []))
  {
    MembersNamed();
    MembersSize();
    MembersFiles();
    forall i | 0 <= i < |Members()| ensures WindowsName(Members()[i].name) {
      assert Named(Members(), Members()[i].name);
    }
  }

  lemma MembersFiles()
    requires DistinctNames(Members()) && forall n :: n in FixedNames() <==> Named(Members(), n)
    ensures FilesOf(Members()).Keys == FixedNames()
    ensures CoreOf(FilesOf(Members())) == Core([1], Bundle([2], [], [], []))
  {
    var ms := Members();
    forall n ensures n in FilesOf(ms) <==> n in FixedNames() { FilesOfNames(ms, n); }
    FilesOfContent(ms, 0);
    FilesOfContent(ms, 1);
    FilesOfContent(ms, 2);
    FilesOfContent(ms, 3);
    FilesOfContent(ms, 4);
  }

  lemma MembersSize()
    ensures TotalSize(Members()) == 2
  {
    var ms := Members();
    assert ms[..4][..3] == ms[..3] && ms[..3][..2] == ms[..2] && ms[..2][..1] == ms[..1] && ms[..1][..0] == [];
    assert TotalSize(ms[..1]) == 1;
    assert TotalSize(ms[..2]) == 2;
    assert TotalSize(ms[..3]) == 2;
    assert TotalSize(ms[..4]) == 2;
  }

  lemma ReceiptGets(h: Bytes -> string, c: string)
    ensures var r := Receipt(h, c);
            J.Get(r, "configuration_included") == J.Null && J.Has(r, "configuration_included")
            && J.Get(r, "commit") == J.Str(c) && J.Get(r, "bundle") == J.Str("b")
            && J.Get(r, "manifest_sha256") == J.Str(h([2])) && J.Get(r, "snapshot_sha256") == J.Str(h([]))
            && J.Get(r, "release_sha256") == J.Str(h([])) && J.Get(r, "evidence_count") == J.Num(0.0)
  {
  }

  lemma InventoryGets(h: Bytes -> string)
    ensures J.Has(Inventory(h), "files") && J.Get(Inventory(h), "configuration_sources") == J.List([])
    ensures J.At(Inventory(h), "files") == J.Obj(map n | n in BundleNames() :: J.Str(h(ContentOf(n))))
  {
    assert "files" != "configuration_sources" by { assert |"files"| != |"configuration_sources"|; }
  }

  lemma BundleContents(fs: Archive.Files, n: string)
    requires fs.Keys == FixedNames() && CoreOf(fs) == Core([1], Bundle([2], [], [], [])) && n in BundleNames()
    ensures fs[n] == ContentOf(n)
  {
  }

  lemma OtherNames(fs: Archive.Files)
    requires fs.Keys == FixedNames()
    ensures fs.Keys - {"inventory.json"} == BundleNames()
  {
    assert "inventory.json" !in BundleNames();
  }

  lemma InventoryFrom(pr: Codecs, fs: Archive.Files, inventory: Bytes, j: J.Json, files: map<string, J.Json>)
    requires pr.parseJson(inventory) == Some(j) && J.Has(j, "files") && J.At(j, "files") == J.Obj(files)
    requires files.Keys == fs.Keys - {"inventory.json"} && forall n :: n in files ==> HasDigest(pr, fs[n], files[n])
    ensures InventoryAccepted(pr, fs, inventory)
  {
  }

  lemma ListedDigests(h: Bytes -> string, c: string, fs: Archive.Files, files: map<string, J.Json>)
    requires fs.Keys == FixedNames() && CoreOf(fs) == Core([1], Bundle([2], [], [], []))
    requires files == map n | n in BundleNames() :: J.Str(h(ContentOf(n)))
    ensures forall n :: n in files ==> n in fs && HasDigest(SampleCodecs(h, c), fs[n], files[n])
  {
    forall n | n in files ensures HasDigest(SampleCodecs(h, c), fs[n], files[n]) {
      BundleContents(fs, n);
      J.EqualReflexive(J.Str(h(fs[n])));
    }
  }

  lemma InventoryHolds(h: Bytes -> string, c: string, fs: Archive.Files)
    requires fs.Keys == FixedNames() && CoreOf(fs) == Core([1], Bundle([2], [], [], []))
    ensures InventoryAccepted(SampleCodecs(h, c), fs, [1]) && NoConfigurationSources(SampleCodecs(h, c), [1])
  {
    InventoryGets(h);
    OtherNames(fs);
    var files := J.At(Inventory(h), "files").m;
    ListedDigests(h, c, fs, files);
    InventoryFrom(SampleCodecs(h, c), fs, [1], Inventory(h), files);
    J.EqualReflexive(J.List([]));
  }

  lemma ManifestGets(h: Bytes -> string, c: string)
    ensures var m := Manifest(h, c);
            J.Has(m, "sha256") && J.Has(m, "commit") && J.Has(m, "release_files") && J.Has(m, "schema_sha256")
            && J.At(m, "sha256") == J.Obj(map["database.sqlite3" := J.Str(h([])), "release.tar.gz" := J.Str(h([]))])
            && J.At(m, "commit") == J.Str(c) && J.At(m, "release_files") == J.Obj(map[])
            && J.At(m, "schema_sha256") == J.Str("")
  {
  }

  /** The bundle check of the independent verifier, once the fields it reads are known. */
  lemma BundleFrom(pr: Codecs, record: J.Json, m: J.Json, b: Bundle, digest: J.Json, commit: J.Json)
    requires pr.parseJson(b.manifest) == Some(m)
    requires J.Has(record, "snapshot_sha256") && J.Has(record, "release_sha256") && J.Has(record, "commit")
    requires J.At(record, "snapshot_sha256") == digest && J.At(record, "release_sha256") == digest
    requires J.At(record, "commit") == commit
    requires J.Has(m, "sha256") && J.Has(m, "commit") && J.Has(m, "release_files") && J.Has(m, "schema_sha256")
    requires J.At(m, "sha256") == J.Obj(map["database.sqlite3" := digest, "release.tar.gz" := digest])
    requires J.At(m, "commit") == commit
    requires HasDigest(pr, b.database, digest) && HasDigest(pr, b.release, digest)
    requires ReleaseValid(pr, b.release, J.At(m, "release_files"))
    requires pr.inspectDatabase(b.database).Some?
    requires J.Equal(J.Str(pr.inspectDatabase(b.database).value), J.At(m, "schema_sha256"))
    ensures WindowsBundleValid(pr, record, b)
  {
    J.EqualReflexive(J.At(m, "sha256"));
    J.EqualReflexive(commit);
  }

  lemma BundleHolds(h: Bytes -> string, c: string)
    ensures WindowsBundleValid(SampleCodecs(h, c), Receipt(h, c), Bundle([2], [], [], []))
  {
    ReceiptGets(h, c);
    ManifestGets(h, c);
    J.EqualReflexive(J.Str(h([])));
    J.EqualReflexive(J.Str(""));
    BundleFrom(SampleCodecs(h, c), Receipt(h, c), Manifest(h, c), Bundle([2], [], [], []), J.Str(h([])), J.Str(c));
  }

  lemma FixedIsNoEvidence(fs: Archive.Files)
    requires fs.Keys == FixedNames()
    ensures forall n :: n in fs ==> !EvidenceName(n)
    ensures EvidenceNames(fs) == {}
  {
    forall n | n in fs ensures !EvidenceName(n) { assert |n| != 13; }
  }

  lemma NoEvidence(h: Bytes -> string, c: string, fs: Archive.Files)
    requires fs.Keys == FixedNames()
    ensures EvidenceAgrees(SampleCodecs(h, c), Receipt(h, c), fs)
  {
    FixedIsNoEvidence(fs);
    ReceiptGets(h, c);
    J.EqualReflexive(J.Num(0.0));
    assert |EvidenceNames(fs)| as real == 0.0;
  }

  lemma FilesHold(h: Bytes -> string, c: string, fs: Archive.Files)
    requires fs.Keys == FixedNames() && CoreOf(fs) == Core([1], Bundle([2], [], [], []))
    ensures WindowsFilesAccepted(SampleCodecs(h, c), Receipt(h, c), fs)
  {
    InventoryHolds(h, c, fs);
    BundleHolds(h, c);
    NoEvidence(h, c, fs);
    ReceiptGets(h, c);
    J.EqualReflexive(J.Str(h([2])));
  }

  /**
   * The independent verifier accepts and `decrypt` does not, for any hash that gives the manifest its
   * pinned digest. The two constants are parameters so that the proof need not spell them out.
   */
  lemma Disagreement(h: Bytes -> string, d: string, c: string)
    requires d == MANIFEST_SHA && c == RELEASE && h([2]) == d && LowerHex(h([0]), 64)
    ensures WindowsAccepts(SampleCodecs(h, c), [0], h([0]), [3])
    ensures !DecryptArchiveAccepted(SampleCodecs(h, c), Receipt(h, c), [3])
  {
    MembersExtract();
    FilesHold(h, c, FilesOf(Members()));
    ReceiptGets(h, c);
    J.EqualReflexive(J.Str(d));
    J.EqualReflexive(J.Str(c));
    WindowsImpliesDecrypt(SampleCodecs(h, c), [0], h([0]), [3]);
  }
}
