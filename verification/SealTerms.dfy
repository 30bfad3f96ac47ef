/** What `seal` asks for and what it writes, written out member by member and field by field. */
module SealTerms {
  import opened Wrappers
  import J = Json
  import opened Archive
  import opened ArchiveChecks
  import opened RecoveryTerms
  import opened Seal
  import opened SealTheorems
  import Decimal
  import UploadIntent

  /** The directory and the number in four decimal digits. */
  predicate NumberIn(directory: string, n: nat, name: string) {
    |name| == |directory| + 4 && directory <= name
    && var d := |directory|;
       name[d] as int == '0' as int + n / 1000 % 10 && name[d + 1] as int == '0' as int + n / 100 % 10
       && name[d + 2] as int == '0' as int + n / 10 % 10 && name[d + 3] as int == '0' as int + n % 10
  }

  lemma LastDigit(n: nat, width: nat)
    requires width > 0
    ensures Decimal.Padded(n, width)[..width - 1] == Decimal.Padded(n / 10, width - 1)
    ensures Decimal.Padded(n, width)[width - 1] as int == '0' as int + n % 10
  {
  }

  lemma FourDigits(n: nat)
    requires n < 10000
    ensures var s := Pad4(n);
            s[0] as int == '0' as int + n / 1000 % 10 && s[1] as int == '0' as int + n / 100 % 10
            && s[2] as int == '0' as int + n / 10 % 10 && s[3] as int == '0' as int + n % 10
  {
    LastDigit(n, 4);
    LastDigit(n / 10, 3);
    LastDigit(n / 100, 2);
    LastDigit(n / 1000, 1);
    assert n / 10 / 10 == n / 100 && n / 100 / 10 == n / 1000;
    var s, t, u := Pad4(n), Decimal.Padded(n / 10, 3), Decimal.Padded(n / 100, 2);
    assert s[2] == s[..3][2] && s[1] == s[..3][1] && s[0] == s[..3][0];
    assert t[1] == t[..2][1] && t[0] == t[..2][0] && u[0] == u[..1][0];
  }

  lemma NumberedIs(directory: string, n: nat)
    requires n < 10000
    ensures NumberIn(directory, n, directory + Pad4(n))
  {
    FourDigits(n);
    var name, d := directory + Pad4(n), |directory|;
    assert name[d] == Pad4(n)[0] && name[d + 1] == Pad4(n)[1] && name[d + 2] == Pad4(n)[2] && name[d + 3] == Pad4(n)[3];
  }

  // What is read.

  /** The files of a sealing as first read: the bundle, the configuration and the evidence, each numbered from zero. */
  predicate Collected(x: Request, ms: seq<Member>) {
    |ms| == 4 + |x.secrets| + |x.publics| + |x.evidence| && (forall k :: 0 <= k < |ms| ==> ms[k].regular)
    && CollectedBundle(x.bundle, ms) && CollectedConfiguration(x, ms) && CollectedEvidence(x, ms)
  }

  predicate CollectedBundle(b: Bundle, ms: seq<Member>)
    requires |ms| >= 4
  {
    ms[0].name == "bundle/manifest.json" && ms[0].content == b.manifest
    && ms[1].name == "bundle/verification.json" && ms[1].content == b.verification
    && ms[2].name == "bundle/database.sqlite3" && ms[2].content == b.database
    && ms[3].name == "bundle/release.tar.gz" && ms[3].content == b.release
  }

  predicate CollectedConfiguration(x: Request, ms: seq<Member>)
    requires |ms| >= 4 + |x.secrets| + |x.publics|
  {
    (forall i :: 0 <= i < |x.secrets| ==>
       NumberIn("configuration/", i, ms[4 + i].name) && ms[4 + i].content == x.secrets[i].content)
    && forall i :: 0 <= i < |x.publics| ==>
         var n := |x.secrets| + i;
         NumberIn("configuration/", n, ms[4 + n].name) && ms[4 + n].content == x.publics[i].content
  }

  predicate CollectedEvidence(x: Request, ms: seq<Member>)
    requires |ms| == 4 + |x.secrets| + |x.publics| + |x.evidence|
  {
    forall i :: 0 <= i < |x.evidence| ==>
      var k := 4 + |x.secrets| + |x.publics| + i;
      NumberIn("evidence/", i, ms[k].name) && ms[k].content == x.evidence[i]
  }

  lemma BundleCollected(x: Request)
    requires CountsAllowed(x)
    ensures CollectedBundle(x.bundle, SourceMembers(x))
  {
    var ms, b := SourceMembers(x), BundleMembers(x.bundle);
    assert ms[0] == b[0] && ms[1] == b[1] && ms[2] == b[2] && ms[3] == b[3];
  }

  lemma ConfigurationAt(x: Request, i: nat)
    requires CountsAllowed(x) && i < |x.secrets| + |x.publics|
    ensures |SourceMembers(x)| == 4 + |x.secrets| + |x.publics| + |x.evidence|
    ensures var m := SourceMembers(x)[4 + i];
            NumberIn("configuration/", i, m.name) && m.content == (x.secrets + x.publics)[i].content
  {
    NumberedIs("configuration/", i);
    var ms, b, all := SourceMembers(x), BundleMembers(x.bundle), x.secrets + x.publics;
    assert ms[4 + i] == (b + Numbered("configuration/", Contents(all)))[4 + i];
  }

  lemma SecretAt(x: Request, i: nat)
    requires CountsAllowed(x) && i < |x.secrets|
    ensures |SourceMembers(x)| == 4 + |x.secrets| + |x.publics| + |x.evidence|
    ensures var m := SourceMembers(x)[4 + i];
            NumberIn("configuration/", i, m.name) && m.content == x.secrets[i].content
  {
    ConfigurationAt(x, i);
  }

  lemma PublicAt(x: Request, i: nat)
    requires CountsAllowed(x) && i < |x.publics|
    ensures |SourceMembers(x)| == 4 + |x.secrets| + |x.publics| + |x.evidence|
    ensures var n := |x.secrets| + i;
            var m := SourceMembers(x)[4 + n];
            NumberIn("configuration/", n, m.name) && m.content == x.publics[i].content
  {
    ConfigurationAt(x, |x.secrets| + i);
  }

  lemma ConfigurationCollected(x: Request)
    requires CountsAllowed(x)
    ensures |SourceMembers(x)| == 4 + |x.secrets| + |x.publics| + |x.evidence|
    ensures CollectedConfiguration(x, SourceMembers(x))
  {
    var ms := SourceMembers(x);
    assert |ms| == 4 + |x.secrets| + |x.publics| + |x.evidence|;
    forall i | 0 <= i < |x.secrets|
      ensures NumberIn("configuration/", i, ms[4 + i].name) && ms[4 + i].content == x.secrets[i].content
    {
      SecretAt(x, i);
    }
    forall i | 0 <= i < |x.publics|
      ensures var n := |x.secrets| + i;
              NumberIn("configuration/", n, ms[4 + n].name) && ms[4 + n].content == x.publics[i].content
    {
      PublicAt(x, i);
    }
  }

  lemma EvidenceAt(x: Request, i: nat)
    requires CountsAllowed(x) && i < |x.evidence|
    ensures |SourceMembers(x)| == 4 + |x.secrets| + |x.publics| + |x.evidence|
    ensures var m := SourceMembers(x)[4 + |x.secrets| + |x.publics| + i];
            NumberIn("evidence/", i, m.name) && m.content == x.evidence[i]
  {
    NumberedIs("evidence/", i);
  }

  lemma EvidenceCollected(x: Request)
    requires CountsAllowed(x)
    ensures |SourceMembers(x)| == 4 + |x.secrets| + |x.publics| + |x.evidence|
    ensures CollectedEvidence(x, SourceMembers(x))
  {
    var ms := SourceMembers(x);
    assert |ms| == 4 + |x.secrets| + |x.publics| + |x.evidence|;
    forall i | 0 <= i < |x.evidence|
      ensures var k := 4 + |x.secrets| + |x.publics| + i;
              NumberIn("evidence/", i, ms[k].name) && ms[k].content == x.evidence[i]
    {
      EvidenceAt(x, i);
    }
  }

  lemma AllRegular(x: Request)
    requires CountsAllowed(x)
    ensures forall k :: 0 <= k < |SourceMembers(x)| ==> SourceMembers(x)[k].regular
  {
  }

  lemma SourcesCollected(x: Request)
    requires CountsAllowed(x)
    ensures Collected(x, SourceMembers(x))
  {
    AllRegular(x);
    BundleCollected(x);
    ConfigurationCollected(x);
    EvidenceCollected(x);
  }

  // What is written.

  /** The inventory: the digest of every file as first read, and where each configuration file came from. */
  predicate InventorySays(pr: Codecs, x: Request, ms: seq<Member>, inventory: J.Json) {
    inventory.Obj? && inventory.m.Keys == {"files", "configuration_sources"}
    && inventory.m["files"].Obj? && inventory.m["configuration_sources"].List?
    && var files, sources := inventory.m["files"].m, inventory.m["configuration_sources"].xs;
       |sources| == |x.secrets| + |x.publics|
       && (forall i :: 0 <= i < |x.secrets| ==> sources[i] == J.Str(x.secrets[i].path))
       && (forall i :: 0 <= i < |x.publics| ==> sources[|x.secrets| + i] == J.Str(x.publics[i].path))
       && (forall n :: n in files ==> Named(ms, n))
       && forall k :: 0 <= k < |ms| ==> ms[k].name in files && files[ms[k].name] == J.Str(pr.sha256(ms[k].content))
  }

  lemma InventoryIs(pr: Codecs, x: Request)
    requires CountsAllowed(x) && DistinctNames(SourceMembers(x))
    ensures InventorySays(pr, x, SourceMembers(x), InventoryJson(pr, x))
  {
    var ms := SourceMembers(x);
    var files := Digests(pr, FilesOf(ms));
    forall n | n in files ensures Named(ms, n) { FilesOfNames(ms, n); }
    forall k | 0 <= k < |ms| ensures ms[k].name in files && files[ms[k].name] == J.Str(pr.sha256(ms[k].content)) {
      FilesOfContent(ms, k);
    }
  }

  /** The archive: every collected file as it reads while it is archived, then the inventory of the first reading. */
  lemma ArchiveSays(pr: Codecs, x: Request, env: Surroundings)
    requires CountsAllowed(x)
    ensures var first, ms := SourceMembers(x), ArchiveMembers(pr, x, env);
            Collected(x, first) && |ms| == |first| + 1
            && (forall k :: 0 <= k < |first| ==>
                  ms[k].name == first[k].name && ms[k].regular && ms[k].content == env.during(first[k].name))
            && ms[|first|].name == "inventory.json" && ms[|first|].regular
            && exists inventory :: InventorySays(pr, x, first, inventory)
                                   && ms[|first|].content == pr.compactJson(inventory)
  {
    SourcesCollected(x);
    SealedNamesDistinct(x);
    DistinctSources(x);
    InventoryIs(pr, x);
  }

  lemma DistinctSources(x: Request)
    requires CountsAllowed(x)
    ensures DistinctNames(SourceMembers(x))
  {
    SealedNamesDistinct(x);
  }

  /** `seal.json`, field by field. */
  predicate RecordSays(pr: Codecs, x: Request, env: Surroundings, ciphertext: Bytes, r: UploadIntent.SealRecord) {
    r.createdAt == env.createdAt && r.packageId == x.bundleName + "-" + env.suffix && r.uploadProtocol == 2
    && r.sourceMachineId == env.machineId && r.recipientSha256 == env.recipientSha256
    && r.bundle == x.bundleName && r.manifestSha256 == x.manifestSha256
    && r.releaseSha256 == pr.sha256(x.bundle.release) && r.snapshotSha256 == pr.sha256(x.bundle.database)
    && pr.parseJson(x.bundle.manifest).Some? && pr.parseJson(x.bundle.manifest).value.Obj?
    && "commit" in pr.parseJson(x.bundle.manifest).value.m
    && pr.parseJson(x.bundle.manifest).value.m["commit"] == J.Str(r.commit)
    && (r.configurationIncluded <==> |x.secrets| + |x.publics| > 0) && r.evidenceCount == |x.evidence|
    && r.ciphertextSha256 == pr.sha256(ciphertext) && r.ciphertextBytes == |ciphertext|
  }

  lemma RecordIs(pr: Codecs, x: Request, env: Surroundings)
    requires Sealable(pr, x)
    ensures RecordSays(pr, x, env, Sealed(pr, x, env), RecordOf(pr, x, env))
  {
  }

  // What is accepted.

  /** An evidence file names the commit, the bundle and, if any, the manifest of this sealing. */
  predicate EvidenceTerms(pr: Codecs, x: Request, commit: J.Json, content: Bytes) {
    pr.parseJson(content).Some?
    && var e := pr.parseJson(content).value;
       e.Obj? && {"commit", "bundle"} <= e.m.Keys && e.m["commit"] == commit && e.m["bundle"] == J.Str(x.bundleName)
       && ("manifest_sha256" in e.m ==> e.m["manifest_sha256"] == J.Str(x.manifestSha256))
  }

  lemma EvidenceTermsExactly(pr: Codecs, x: Request, commit: J.Json, content: Bytes)
    requires commit.Str?
    ensures EvidenceSealable(pr, x, commit, content) <==> EvidenceTerms(pr, x, commit, content)
  {
    if pr.parseJson(content).Some? && pr.parseJson(content).value.Obj? {
      var e := pr.parseJson(content).value;
      J.EqualString(J.Get(e, "commit"), commit.s);
      J.EqualString(J.Get(e, "bundle"), x.bundleName);
      J.EqualString(J.Get(e, "manifest_sha256"), x.manifestSha256);
    }
  }

  predicate CommitIs(pr: Codecs, b: Bundle, commit: J.Json) {
    pr.parseJson(b.manifest).Some? && pr.parseJson(b.manifest).value.Obj?
    && "commit" in pr.parseJson(b.manifest).value.m && pr.parseJson(b.manifest).value.m["commit"] == commit
  }

  /** Manifest, bundle, commit, counts, evidence, size and name, as asked before anything is encrypted. */
  ghost predicate SealableTerms(pr: Codecs, x: Request, commit: J.Json) {
    Hex(x.manifestSha256, 64) && pr.sha256(x.bundle.manifest) == x.manifestSha256 && BundleTerms(pr, x.bundle)
    && CommitIs(pr, x.bundle, commit) && commit.Str? && Hex(commit.s, 40)
    && |x.secrets| + |x.publics| <= 100 && |x.evidence| <= 100
    && (forall i :: 0 <= i < |x.evidence| ==> EvidenceTerms(pr, x, commit, x.evidence[i]))
    && (forall ms :: Collected(x, ms) ==> SizeOf(ms) <= 133169152) && UploadIntent.PlainId(x.bundleName)
  }

  lemma {:induction false} SameContentsSameSize(a: seq<Member>, b: seq<Member>)
    requires |a| == |b| && forall k :: 0 <= k < |a| ==> a[k].content == b[k].content
    ensures SizeOf(a) == SizeOf(b)
  {
    if a != [] { SameContentsSameSize(a[1..], b[1..]); }
  }

  lemma CollectedContents(x: Request, a: seq<Member>, b: seq<Member>, k: nat)
    requires Collected(x, a) && Collected(x, b) && k < |a|
    ensures a[k].content == b[k].content
  {
    if 4 <= k < 4 + |x.secrets| {
      var i := k - 4;
      assert a[4 + i].content == x.secrets[i].content && b[4 + i].content == x.secrets[i].content;
    } else if 4 + |x.secrets| <= k < 4 + |x.secrets| + |x.publics| {
      var i := k - 4 - |x.secrets|;
      assert a[k].content == x.publics[i].content && b[k].content == x.publics[i].content;
    } else if 4 + |x.secrets| + |x.publics| <= k {
      var i := k - 4 - |x.secrets| - |x.publics|;
      assert a[k].content == x.evidence[i] && b[k].content == x.evidence[i];
    }
  }

  lemma CollectedSize(x: Request, ms: seq<Member>)
    requires CountsAllowed(x) && Collected(x, ms)
    ensures SizeOf(ms) == TotalSize(SourceMembers(x))
  {
    SourcesCollected(x);
    forall k | 0 <= k < |ms| ensures ms[k].content == SourceMembers(x)[k].content {
      CollectedContents(x, ms, SourceMembers(x), k);
    }
    SameContentsSameSize(ms, SourceMembers(x));
    TotalIsSize(SourceMembers(x));
  }

  lemma SizeExactly(x: Request)
    requires CountsAllowed(x)
    ensures TotalSize(SourceMembers(x)) <= MAX_BYTES - INVENTORY_ALLOWANCE
            <==> forall ms :: Collected(x, ms) ==> SizeOf(ms) <= 133169152
  {
    forall ms | Collected(x, ms) ensures SizeOf(ms) == TotalSize(SourceMembers(x)) { CollectedSize(x, ms); }
    SourcesCollected(x);
  }

  lemma SealableExactly(pr: Codecs, x: Request)
    ensures Sealable(pr, x) <==> exists commit :: SealableTerms(pr, x, commit)
  {
    BundleExactly(pr, x.bundle);
    HexIsLowerHex(x.manifestSha256, 64);
    UploadIntent.SafeIsPlain(x.bundleName);
    if BundleValid(pr, x.bundle) {
      var commit := CommitOf(pr, x);
      if commit.Str? {
        HexIsLowerHex(commit.s, 40);
        forall i | 0 <= i < |x.evidence|
          ensures EvidenceSealable(pr, x, commit, x.evidence[i]) <==> EvidenceTerms(pr, x, commit, x.evidence[i])
        {
          EvidenceTermsExactly(pr, x, commit, x.evidence[i]);
        }
      }
      if CountsAllowed(x) { SizeExactly(x); }
      assert Sealable(pr, x) ==> SealableTerms(pr, x, commit);
      assert forall other :: SealableTerms(pr, x, other) ==> other == commit;
    }
  }

  /** `seal` accepts exactly on these terms: afterwards the ciphertext must fit, and every file read as at first. */
  lemma SealsExactly(pr: Codecs, x: Request, env: Surroundings)
    ensures SealAccepts(pr, x, env)
            <==> |x.secrets| + |x.publics| <= 100 && |x.evidence| <= 100
                 && (exists commit :: SealableTerms(pr, x, commit)) && |Sealed(pr, x, env)| <= 134217728
                 && forall k :: 0 <= k < |SourceMembers(x)| ==>
                      pr.sha256(env.after(SourceMembers(x)[k].name)) == pr.sha256(SourceMembers(x)[k].content)
  {
    SealableExactly(pr, x);
  }
}
