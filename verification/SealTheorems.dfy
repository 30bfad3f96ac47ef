/** Sealing then decrypting: what is recovered, and exactly when. */
module SealTheorems {
  import opened Wrappers
  import J = Json
  import opened Archive
  import opened ArchiveChecks
  import opened Seal
  import Decimal
  import UploadIntent

  lemma Pad4Injective(a: nat, b: nat)
    requires a < 10000 && b < 10000 && Pad4(a) == Pad4(b)
    ensures a == b
  {
    assert Decimal.Pow10(1) == 10 && Decimal.Pow10(2) == 100 && Decimal.Pow10(4) == 10000;
    Decimal.PaddedInjective(a, b, 4);
  }

  lemma ConfigurationMember(x: Request, i: nat)
    requires CountsAllowed(x) && i < |x.secrets| + |x.publics|
    ensures SourceMembers(x)[4 + i].name == "configuration/" + Pad4(i)
    ensures ConfigurationName(SourceMembers(x)[4 + i].name)
  {
    var name := "configuration/" + Pad4(i);
    assert SourceMembers(x)[4 + i].name == name;
    assert name[..14] == "configuration/" && name[14..] == Pad4(i);
  }

  /** Where the evidence starts among the members. */
  function EvidenceStart(x: Request): nat { 4 + |x.secrets| + |x.publics| }

  lemma EvidenceMember(x: Request, i: nat)
    requires CountsAllowed(x) && i < |x.evidence|
    ensures SourceMembers(x)[EvidenceStart(x) + i] == Member("evidence/" + Pad4(i), true, x.evidence[i])
    ensures EvidenceName(SourceMembers(x)[EvidenceStart(x) + i].name)
  {
    var name := "evidence/" + Pad4(i);
    assert SourceMembers(x)[EvidenceStart(x) + i].name == name;
    assert name[..9] == "evidence/" && name[9..] == Pad4(i);
  }

  lemma BundleMemberNames(b: Bundle)
    ensures DistinctNames(BundleMembers(b))
    ensures forall i :: 0 <= i < 4 ==>
              var n := BundleMembers(b)[i].name;
              n in BundleNames() && n != "inventory.json" && !ConfigurationName(n) && !EvidenceName(n)
    ensures forall n :: n in BundleNames() ==> Named(BundleMembers(b), n)
  {
    var ms := BundleMembers(b);
    assert |ms[0].name| == 20 && |ms[1].name| == 24 && |ms[2].name| == 23 && |ms[3].name| == 21;
    forall n | n in BundleNames() ensures Named(ms, n) {
      assert n == ms[0].name || n == ms[1].name || n == ms[2].name || n == ms[3].name;
    }
  }

  /** What kind of name member `i` has: a bundle file, a configuration file or an evidence file. */
  lemma SourceMemberName(x: Request, i: nat)
    requires CountsAllowed(x) && i < |SourceMembers(x)|
    ensures var n := SourceMembers(x)[i].name;
            SourceMembers(x)[i].regular && n != "inventory.json" && DecryptName(n)
            && (n in BundleNames() <==> i < 4)
            && (ConfigurationName(n) <==> 4 <= i < EvidenceStart(x))
            && (EvidenceName(n) <==> EvidenceStart(x) <= i)
  {
    BundleMemberNames(x.bundle);
    if i < 4 {
      assert SourceMembers(x)[i] == BundleMembers(x.bundle)[i];
    } else if i < EvidenceStart(x) {
      ConfigurationMember(x, i - 4);
    } else {
      EvidenceMember(x, i - EvidenceStart(x));
    }
  }

  /** The generated names are pairwise distinct, on the whitelist, and none is the inventory's. */
  lemma SealedNamesDistinct(x: Request)
    requires CountsAllowed(x)
    ensures DistinctNames(SourceMembers(x))
    ensures forall i :: 0 <= i < |SourceMembers(x)| ==>
              DecryptName(SourceMembers(x)[i].name) && SourceMembers(x)[i].name != "inventory.json"
  {
    var ms := SourceMembers(x);
    forall i | 0 <= i < |ms| ensures DecryptName(ms[i].name) && ms[i].name != "inventory.json" {
      SourceMemberName(x, i);
    }
    forall i, j | 0 <= i < j < |ms| ensures ms[i].name != ms[j].name { NamesApart(x, i, j); }
  }

  lemma NumberedApart(prefix: string, i: nat, j: nat)
    requires i < j < 10000
    ensures prefix + Pad4(i) != prefix + Pad4(j)
  {
    assert (prefix + Pad4(i))[|prefix|..] == Pad4(i) && (prefix + Pad4(j))[|prefix|..] == Pad4(j);
    if Pad4(i) == Pad4(j) { Pad4Injective(i, j); }
  }

  lemma NamesApart(x: Request, i: nat, j: nat)
    requires CountsAllowed(x) && i < j < |SourceMembers(x)|
    ensures SourceMembers(x)[i].name != SourceMembers(x)[j].name
  {
    SourceMemberName(x, i);
    SourceMemberName(x, j);
    if j < 4 {
      BundleMemberNames(x.bundle);
    } else if 4 <= i && j < EvidenceStart(x) {
      ConfigurationMember(x, i - 4);
      ConfigurationMember(x, j - 4);
      NumberedApart("configuration/", i - 4, j - 4);
    } else if EvidenceStart(x) <= i {
      EvidenceMember(x, i - EvidenceStart(x));
      EvidenceMember(x, j - EvidenceStart(x));
      NumberedApart("evidence/", i - EvidenceStart(x), j - EvidenceStart(x));
    }
  }

  lemma {:induction false} RereadFiles(ms: seq<Member>, read: string -> Bytes)
    ensures FilesOf(Reread(ms, read)).Keys == FilesOf(ms).Keys
    ensures forall n :: n in FilesOf(ms) ==> FilesOf(Reread(ms, read))[n] == read(n)
  {
    if ms != [] {
      var front := ms[..|ms| - 1];
      assert Reread(ms, read)[..|ms| - 1] == Reread(front, read);
      RereadFiles(front, read);
    }
  }

  /** Nothing changed between the first reading of a source and the one that was archived. */
  predicate Intact(x: Request, env: Surroundings)
    requires CountsAllowed(x)
  {
    forall i :: 0 <= i < |SourceMembers(x)| ==>
      env.during(SourceMembers(x)[i].name) == SourceMembers(x)[i].content
  }

  lemma IntactFiles(x: Request, env: Surroundings)
    requires CountsAllowed(x)
    ensures var fs := FilesOf(SourceMembers(x)); Intact(x, env) <==> forall n :: n in fs ==> env.during(n) == fs[n]
  {
    var ms := SourceMembers(x);
    var fs := FilesOf(ms);
    SealedNamesDistinct(x);
    if Intact(x, env) {
      forall n | n in fs ensures env.during(n) == fs[n] {
        FilesOfNames(ms, n);
        var i :| 0 <= i < |ms| && ms[i].name == n;
        FilesOfContent(ms, i);
      }
    }
    if forall n :: n in fs ==> env.during(n) == fs[n] {
      forall i | 0 <= i < |ms| ensures env.during(ms[i].name) == ms[i].content { FilesOfContent(ms, i); }
    }
  }

  /** The files of the sealed archive: every source as it was archived, and the inventory. */
  lemma ArchiveFiles(pr: Codecs, x: Request, env: Surroundings)
    requires CountsAllowed(x)
    ensures var fs, src := FilesOf(ArchiveMembers(pr, x, env)), FilesOf(SourceMembers(x));
            fs.Keys == src.Keys + {"inventory.json"} && "inventory.json" !in src && BundleNames() <= src.Keys
            && fs["inventory.json"] == pr.compactJson(InventoryJson(pr, x))
            && forall n :: n in src ==> fs[n] == env.during(n)
  {
    var ms, all := SourceMembers(x), ArchiveMembers(pr, x, env);
    assert all[..|all| - 1] == Reread(ms, env.during);
    RereadFiles(ms, env.during);
    SealedNamesDistinct(x);
    FilesOfNames(ms, "inventory.json");
    BundleMemberNames(x.bundle);
    forall n | n in BundleNames() ensures n in FilesOf(ms) {
      var i :| 0 <= i < 4 && BundleMembers(x.bundle)[i].name == n;
      assert ms[i].name == n;
      FilesOfNames(ms, n);
    }
  }

  lemma SealedMembers(pr: Codecs, x: Request, env: Surroundings)
    requires CountsAllowed(x)
    ensures var all := ArchiveMembers(pr, x, env);
            DistinctNames(all) && forall i :: 0 <= i < |all| ==> DecryptName(all[i].name) && all[i].regular
  {
    var ms, all := SourceMembers(x), ArchiveMembers(pr, x, env);
    SealedNamesDistinct(x);
    forall i | 0 <= i < |ms| ensures all[i].name == ms[i].name && ms[i].regular && ms[i].name != "inventory.json" {
      SourceMemberName(x, i);
    }
    assert all[|ms|].name == "inventory.json";
  }

  lemma SealedHoldsFixed(pr: Codecs, x: Request, env: Surroundings, n: string)
    requires CountsAllowed(x) && n in FixedNames()
    ensures Named(ArchiveMembers(pr, x, env), n)
  {
    ArchiveFiles(pr, x, env);
    FilesOfNames(ArchiveMembers(pr, x, env), n);
  }

  /** Only the size can stop the extraction of a sealed archive. */
  lemma SealedExtractable(pr: Codecs, x: Request, env: Surroundings)
    requires CountsAllowed(x)
    ensures Extractable(ArchiveMembers(pr, x, env), DecryptName)
            <==> TotalSize(ArchiveMembers(pr, x, env)) <= MAX_BYTES
  {
    SealedMembers(pr, x, env);
    forall n | n in FixedNames() ensures Named(ArchiveMembers(pr, x, env), n) { SealedHoldsFixed(pr, x, env, n); }
  }

  lemma InventoryFields(pr: Codecs, x: Request)
    requires CountsAllowed(x)
    ensures J.Has(InventoryJson(pr, x), "files")
    ensures J.At(InventoryJson(pr, x), "files") == J.Obj(Digests(pr, FilesOf(SourceMembers(x))))
  {
    assert "files" != "configuration_sources" by { assert |"files"| != |"configuration_sources"|; }
  }

  lemma DigestsIffEqual(pr: Codecs, fs: Files, src: Files)
    requires CollisionFree(pr.sha256) && fs.Keys == src.Keys + {"inventory.json"} && "inventory.json" !in src
    ensures fs.Keys - {"inventory.json"} == Digests(pr, src).Keys
    ensures (forall n :: n in Digests(pr, src) ==> HasDigest(pr, fs[n], Digests(pr, src)[n]))
            <==> (forall n :: n in src ==> fs[n] == src[n])
  {
    forall n | n in src ensures HasDigest(pr, fs[n], Digests(pr, src)[n]) <==> fs[n] == src[n] {
      J.EqualString(Digests(pr, src)[n], pr.sha256(fs[n]));
    }
  }

  /** The inventory vouches for the archived files exactly when no source had changed by then. */
  lemma InventoryIffIntact(pr: Codecs, x: Request, env: Surroundings)
    requires CountsAllowed(x) && CollisionFree(pr.sha256)
    requires pr.parseJson(pr.compactJson(InventoryJson(pr, x))) == Some(InventoryJson(pr, x))
    ensures InventoryAccepted(pr, FilesOf(ArchiveMembers(pr, x, env)), pr.compactJson(InventoryJson(pr, x)))
            <==> Intact(x, env)
  {
    var fs, src := FilesOf(ArchiveMembers(pr, x, env)), FilesOf(SourceMembers(x));
    ArchiveFiles(pr, x, env);
    IntactFiles(x, env);
    InventoryFields(pr, x);
    DigestsIffEqual(pr, fs, src);
  }

  /** The names of the first `k` evidence files. */
  function EvidenceNameSet(k: nat): set<string>
    requires k <= 10000
  {
    if k == 0 then {} else EvidenceNameSet(k - 1) + {"evidence/" + Pad4(k - 1)}
  }

  lemma {:induction false} EvidenceNameSetMember(k: nat, name: string)
    requires k <= 10000
    ensures name in EvidenceNameSet(k) <==> exists i :: 0 <= i < k && name == "evidence/" + Pad4(i)
  {
    if k > 0 {
      EvidenceNameSetMember(k - 1, name);
    }
  }

  lemma {:induction false} EvidenceNameSetSize(k: nat)
    requires k <= 10000
    ensures |EvidenceNameSet(k)| == k
  {
    if k > 0 {
      EvidenceNameSetSize(k - 1);
      var last := "evidence/" + Pad4(k - 1);
      EvidenceNameSetMember(k - 1, last);
      forall i | 0 <= i < k - 1 ensures "evidence/" + Pad4(i) != last { NumberedApart("evidence/", i, k - 1); }
    }
  }

  /** There is a configuration file exactly when one was given. */
  lemma SealedConfiguration(pr: Codecs, x: Request, env: Surroundings)
    requires CountsAllowed(x)
    ensures HasConfiguration(FilesOf(ArchiveMembers(pr, x, env))) <==> x.secrets != [] || x.publics != []
  {
    var ms, fs := SourceMembers(x), FilesOf(ArchiveMembers(pr, x, env));
    ArchiveFiles(pr, x, env);
    if x.secrets != [] || x.publics != [] {
      SourceMemberName(x, 4);
      FilesOfNames(ms, ms[4].name);
    }
    forall n | n in fs && ConfigurationName(n) ensures x.secrets != [] || x.publics != [] {
      var i := SourceIndex(pr, x, env, n);
      SourceMemberName(x, i);
    }
  }

  lemma SealedEvidenceName(pr: Codecs, x: Request, env: Surroundings, n: string)
    requires CountsAllowed(x)
    ensures n in EvidenceNames(FilesOf(ArchiveMembers(pr, x, env))) <==> n in EvidenceNameSet(|x.evidence|)
  {
    var ms, fs := SourceMembers(x), FilesOf(ArchiveMembers(pr, x, env));
    ArchiveFiles(pr, x, env);
    EvidenceNameSetMember(|x.evidence|, n);
    if n in EvidenceNames(fs) {
      var i := SourceIndex(pr, x, env, n);
      SourceMemberName(x, i);
      EvidenceMember(x, i - EvidenceStart(x));
    }
    if n in EvidenceNameSet(|x.evidence|) {
      var i :| 0 <= i < |x.evidence| && n == "evidence/" + Pad4(i);
      EvidenceMember(x, i);
      FilesOfNames(ms, n);
    }
  }

  /** The evidence count the record gives is that of the archive. */
  lemma SealedEvidenceCount(pr: Codecs, x: Request, env: Surroundings)
    requires CountsAllowed(x)
    ensures |EvidenceNames(FilesOf(ArchiveMembers(pr, x, env)))| == |x.evidence|
  {
    var names := EvidenceNames(FilesOf(ArchiveMembers(pr, x, env)));
    forall n ensures n in names <==> n in EvidenceNameSet(|x.evidence|) { SealedEvidenceName(pr, x, env, n); }
    assert names == EvidenceNameSet(|x.evidence|);
    EvidenceNameSetSize(|x.evidence|);
  }

  /** Which source a file of the archive is. */
  lemma SourceIndex(pr: Codecs, x: Request, env: Surroundings, n: string) returns (i: nat)
    requires CountsAllowed(x) && n in FilesOf(ArchiveMembers(pr, x, env)) && n != "inventory.json"
    ensures i < |SourceMembers(x)| && SourceMembers(x)[i].name == n
  {
    ArchiveFiles(pr, x, env);
    FilesOfNames(SourceMembers(x), n);
    i :| 0 <= i < |SourceMembers(x)| && SourceMembers(x)[i].name == n;
  }

  /** A receipt carries the fields of a seal record that `decrypt` reads. */
  predicate Describes(j: J.Json, r: UploadIntent.SealRecord) {
    j.Obj?
    && J.Get(j, "source_machine_id") == J.Str(r.sourceMachineId)
    && J.Get(j, "ciphertext_sha256") == J.Str(r.ciphertextSha256)
    && J.Get(j, "package_id") == J.Str(r.packageId)
    && J.Get(j, "manifest_sha256") == J.Str(r.manifestSha256)
    && J.Get(j, "release_sha256") == J.Str(r.releaseSha256)
    && J.Get(j, "snapshot_sha256") == J.Str(r.snapshotSha256)
    && J.Get(j, "commit") == J.Str(r.commit)
    && J.Get(j, "bundle") == J.Str(r.bundle)
    && J.Get(j, "configuration_included") == J.Bool(r.configurationIncluded)
    && J.Get(j, "evidence_count") == J.Num(r.evidenceCount as real)
  }

  lemma SealedEvidence(pr: Codecs, x: Request, env: Surroundings, record: J.Json)
    requires Sealable(pr, x) && Intact(x, env) && Describes(record, RecordOf(pr, x, env))
    ensures EvidencePaired(pr, FilesOf(ArchiveMembers(pr, x, env)), record)
  {
    var fs := FilesOf(ArchiveMembers(pr, x, env));
    ArchiveFiles(pr, x, env);
    forall n | n in fs && EvidenceName(n)
      ensures EvidenceMatches(pr, fs[n], J.At(record, "commit"), J.At(record, "bundle"))
    {
      var i := SourceIndex(pr, x, env, n);
      SourceMemberName(x, i);
      var k := i - EvidenceStart(x);
      EvidenceMember(x, k);
      assert env.during(n) == x.evidence[k];
      assert EvidenceSealable(pr, x, CommitOf(pr, x), x.evidence[k]);
    }
  }

  /** An intact archive holds the bundle that was sealed. */
  lemma SealedCore(pr: Codecs, x: Request, env: Surroundings)
    requires CountsAllowed(x) && Intact(x, env)
    ensures FixedNames() <= FilesOf(ArchiveMembers(pr, x, env)).Keys
    ensures CoreOf(FilesOf(ArchiveMembers(pr, x, env)))
            == Core(pr.compactJson(InventoryJson(pr, x)), x.bundle)
  {
    ArchiveFiles(pr, x, env);
    var ms := SourceMembers(x);
    assert ms[0] == BundleMembers(x.bundle)[0] && ms[1] == BundleMembers(x.bundle)[1];
    assert ms[2] == BundleMembers(x.bundle)[2] && ms[3] == BundleMembers(x.bundle)[3];
    assert env.during(ms[0].name) == ms[0].content && env.during(ms[1].name) == ms[1].content;
    assert env.during(ms[2].name) == ms[2].content && env.during(ms[3].name) == ms[3].content;
  }

  lemma CountsAgreeFrom(pr: Codecs, record: J.Json, fs: Files, included: bool, count: nat)
    requires record.Obj? && J.Get(record, "configuration_included") == J.Bool(included)
    requires J.Get(record, "evidence_count") == J.Num(count as real)
    requires HasConfiguration(fs) == included && |EvidenceNames(fs)| == count && EvidencePaired(pr, fs, record)
    ensures CountsAgree(pr, record, fs)
  {
    J.EqualReflexive(J.Bool(included));
    J.EqualReflexive(J.Num(count as real));
    assert J.At(record, "configuration_included") == J.Bool(HasConfiguration(fs));
    assert J.At(record, "evidence_count") == J.Num(|EvidenceNames(fs)| as real);
  }

  /** The counts and pairings `decrypt` checks hold of an intact archive. */
  lemma SealedCountsAgree(pr: Codecs, x: Request, env: Surroundings, record: J.Json)
    requires Sealable(pr, x) && Intact(x, env) && Describes(record, RecordOf(pr, x, env))
    ensures CountsAgree(pr, record, FilesOf(ArchiveMembers(pr, x, env)))
  {
    SealedConfiguration(pr, x, env);
    SealedEvidenceCount(pr, x, env);
    SealedEvidence(pr, x, env, record);
    CountsAgreeFrom(pr, record, FilesOf(ArchiveMembers(pr, x, env)), x.secrets != [] || x.publics != [], |x.evidence|);
  }

  /** The checks of `decrypt` on files, once their five fixed members are known. */
  lemma FilesAcceptedByCore(pr: Codecs, record: J.Json, fs: Files, inventory: Bytes, b: Bundle)
    requires FixedNames() <= fs.Keys && CoreOf(fs) == Core(inventory, b)
    requires InventoryAccepted(pr, fs, inventory) && BundleValid(pr, b) && CountsAgree(pr, record, fs)
    requires J.Has(record, "manifest_sha256") && HasDigest(pr, b.manifest, J.At(record, "manifest_sha256"))
    requires ManifestAgrees(pr.parseJson(b.manifest).value, record)
    ensures DecryptFilesAccepted(pr, record, fs)
  {
  }

  /** The checks of `decrypt` on the files: they all pass exactly when the archive is intact. */
  lemma SealedFilesAccepted(pr: Codecs, x: Request, env: Surroundings, record: J.Json)
    requires Sealable(pr, x) && CollisionFree(pr.sha256) && Describes(record, RecordOf(pr, x, env))
    requires pr.parseJson(pr.compactJson(InventoryJson(pr, x))) == Some(InventoryJson(pr, x))
    ensures DecryptFilesAccepted(pr, record, FilesOf(ArchiveMembers(pr, x, env))) <==> Intact(x, env)
  {
    var fs, inventory := FilesOf(ArchiveMembers(pr, x, env)), pr.compactJson(InventoryJson(pr, x));
    InventoryIffIntact(pr, x, env);
    if Intact(x, env) {
      SealedCore(pr, x, env);
      SealedCountsAgree(pr, x, env, record);
      SealedManifestAgrees(pr, x, env, record);
      J.EqualReflexive(J.Str(x.manifestSha256));
      FilesAcceptedByCore(pr, record, fs, inventory, x.bundle);
    } else if DecryptFilesAccepted(pr, record, fs) {
      ArchiveFiles(pr, x, env);
      AcceptedInventory(pr, record, fs);
    }
  }

  lemma AcceptedInventory(pr: Codecs, record: J.Json, fs: Files)
    requires DecryptFilesAccepted(pr, record, fs)
    ensures InventoryAccepted(pr, fs, fs["inventory.json"])
  {
  }

  lemma SealedManifestAgrees(pr: Codecs, x: Request, env: Surroundings, record: J.Json)
    requires Sealable(pr, x) && Describes(record, RecordOf(pr, x, env))
    ensures ManifestAgrees(pr.parseJson(x.bundle.manifest).value, record)
  {
    var shas := J.At(pr.parseJson(x.bundle.manifest).value, "sha256");
    J.EqualString(J.At(shas, "release.tar.gz"), pr.sha256(x.bundle.release));
    J.EqualString(J.At(shas, "database.sqlite3"), pr.sha256(x.bundle.database));
  }

  /** The two size limits `decrypt` sets on what `seal` wrote. */
  predicate Fits(pr: Codecs, x: Request, env: Surroundings)
    requires CountsAllowed(x)
  {
    TotalSize(ArchiveMembers(pr, x, env)) <= MAX_BYTES && |pr.writeTar(ArchiveMembers(pr, x, env))| <= MAX_BYTES
  }

  /** The stored forms of one sealing read back as what was written. */
  predicate CodecsFaithful(pr: Codecs, x: Request, env: Surroundings)
    requires CountsAllowed(x)
  {
    var ms := ArchiveMembers(pr, x, env);
    pr.readTar(pr.writeTar(ms)) == Some(ms) && pr.decrypt(pr.encrypt(pr.writeTar(ms))) == Some(pr.writeTar(ms))
    && pr.parseJson(pr.compactJson(InventoryJson(pr, x))) == Some(InventoryJson(pr, x))
  }

  /** What a lossless recovery yields: every source as it was first read, and the inventory. */
  function SealedFiles(pr: Codecs, x: Request): Files
    requires CountsAllowed(x)
  {
    FilesOf(SourceMembers(x))["inventory.json" := pr.compactJson(InventoryJson(pr, x))]
  }

  /** A receipt about a record is trusted for its ciphertext anywhere but on the record's own host. */
  lemma DescribedTrusted(pr: Codecs, r: UploadIntent.SealRecord, receipt: Bytes, machine: string, ciphertext: Bytes)
    requires pr.parseJson(receipt).Some? && Describes(pr.parseJson(receipt).value, r)
    requires LowerHex(pr.sha256(receipt), 64) && machine != r.sourceMachineId
    requires r.ciphertextSha256 == pr.sha256(ciphertext)
    ensures DecryptTrusted(pr, machine, receipt, pr.sha256(receipt), ciphertext)
  {
    J.EqualReflexive(J.Str(r.ciphertextSha256));
    J.EqualString(J.Str(machine), r.sourceMachineId);
  }

  lemma DescribedFree(j: J.Json, r: UploadIntent.SealRecord)
    requires Describes(j, r) && UploadIntent.SafeName(r.packageId)
    ensures DestinationFree(j, false)
  {
  }

  /** Everything `decrypt` asks before it looks into the archive, for a receipt about this sealing. */
  lemma SealedAdmitted(pr: Codecs, x: Request, env: Surroundings, receipt: Bytes, machine: string)
    requires SealAccepts(pr, x, env) && CodecsFaithful(pr, x, env)
    requires LowerHex(env.suffix, 32) && machine != env.machineId && LowerHex(pr.sha256(receipt), 64)
    requires pr.parseJson(receipt).Some? && Describes(pr.parseJson(receipt).value, RecordOf(pr, x, env))
    ensures DecryptAdmitted(pr, machine, receipt, pr.sha256(receipt), Sealed(pr, x, env), false)
            <==> |pr.writeTar(ArchiveMembers(pr, x, env))| <= MAX_BYTES
  {
    PackageIdSafe(x.bundleName, env.suffix);
    DescribedTrusted(pr, RecordOf(pr, x, env), receipt, machine, Sealed(pr, x, env));
    DescribedFree(pr.parseJson(receipt).value, RecordOf(pr, x, env));
  }

  /** An intact archive unpacks to the sources as first read. */
  lemma IntactRecovery(pr: Codecs, x: Request, env: Surroundings)
    requires CountsAllowed(x) && Intact(x, env)
    ensures FilesOf(ArchiveMembers(pr, x, env)) == SealedFiles(pr, x)
  {
    IntactFiles(x, env);
    ArchiveFiles(pr, x, env);
  }

  /**
   * Sealing then decrypting elsewhere. It recovers exactly the sealed files if and only if no source
   * differed from its first reading while it was archived and the archive fits the limits. The digest
   * check at the end of `seal` does not see a source that was changed and changed back; `decrypt` does.
   */
  lemma SealedPackageRecovers(pr: Codecs, x: Request, env: Surroundings, receipt: Bytes, machine: string, fs: Files)
    requires SealAccepts(pr, x, env) && CollisionFree(pr.sha256) && CodecsFaithful(pr, x, env)
    requires LowerHex(env.suffix, 32) && machine != env.machineId && LowerHex(pr.sha256(receipt), 64)
    requires pr.parseJson(receipt).Some? && Describes(pr.parseJson(receipt).value, RecordOf(pr, x, env))
    ensures DecryptRecovers(pr, machine, receipt, pr.sha256(receipt), Sealed(pr, x, env), false, fs)
            <==> Intact(x, env) && Fits(pr, x, env) && fs == SealedFiles(pr, x)
  {
    SealedAdmitted(pr, x, env, receipt, machine);
    SealedExtractable(pr, x, env);
    SealedFilesAccepted(pr, x, env, pr.parseJson(receipt).value);
    if Intact(x, env) { IntactRecovery(pr, x, env); }
  }

  lemma PackageIdSafe(bundleName: string, suffix: string)
    requires UploadIntent.SafeName(bundleName) && LowerHex(suffix, 32)
    ensures UploadIntent.SafeName(bundleName + "-" + suffix)
  {
  }

  lemma {:induction false} TotalSizeConcat(a: seq<Member>, b: seq<Member>)
    ensures TotalSize(a + b) == TotalSize(a) + TotalSize(b)
  {
    if b == [] {
      assert a + b == a;
    } else {
      assert (a + b)[..|a + b| - 1] == a + b[..|b| - 1];
      TotalSizeConcat(a, b[..|b| - 1]);
    }
  }

  /** With unchanging sources the allowance `seal` leaves covers an inventory of up to 1 MiB. */
  lemma SmallInventoryFits(pr: Codecs, x: Request, env: Surroundings)
    requires SealAccepts(pr, x, env) && Intact(x, env)
    requires |pr.compactJson(InventoryJson(pr, x))| <= INVENTORY_ALLOWANCE
    ensures Fits(pr, x, env) <==> |pr.writeTar(ArchiveMembers(pr, x, env))| <= MAX_BYTES
  {
    var ms := SourceMembers(x);
    assert Reread(ms, env.during) == ms;
    TotalSizeConcat(ms, [Member("inventory.json", true, pr.compactJson(InventoryJson(pr, x)))]);
  }
}
