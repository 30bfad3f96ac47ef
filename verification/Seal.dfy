/** `seal`: what goes into a recovery archive, under which names, and the record about it. */
module Seal {
  import opened Wrappers
  import J = Json
  import opened Archive
  import opened ArchiveChecks
  import Decimal
  import UploadIntent

  const INVENTORY_ALLOWANCE: nat := 1024 * 1024

  datatype Source = Source(path: string, content: Bytes)

  /** The arguments of `seal`, with the content each source has when it is first read. */
  datatype Request = Request(
    bundleName: string, bundle: Bundle, manifestSha256: string,
    secrets: seq<Source>, publics: seq<Source>, evidence: seq<Bytes>)

  /** What else one run of `seal` sees: identities, the clock, and the sources when read again. */
  datatype Surroundings = Surroundings(
    suffix: string, createdAt: string, machineId: string, recipientSha256: string,
    during: string -> Bytes, after: string -> Bytes)

  /** An index in four decimal digits. */
  function Pad4(n: nat): (s: string)
    requires n < 10000
  {
    Decimal.Padded(n, 4)
  }

  function Contents(sources: seq<Source>): seq<Bytes> {
    seq(|sources|, i requires 0 <= i < |sources| => sources[i].content)
  }

  function Numbered(prefix: string, contents: seq<Bytes>): seq<Member>
    requires |contents| <= 10000
  {
    seq(|contents|, i requires 0 <= i < |contents| => Member(prefix + Pad4(i), true, contents[i]))
  }

  function BundleMembers(b: Bundle): seq<Member> {
    [Member("bundle/manifest.json", true, b.manifest), Member("bundle/verification.json", true, b.verification),
     Member("bundle/database.sqlite3", true, b.database), Member("bundle/release.tar.gz", true, b.release)]
  }

  predicate CountsAllowed(x: Request) { |x.secrets| + |x.publics| <= 100 && |x.evidence| <= 100 }

  /** The sources under their archive names, in archive order, as first read. */
  function SourceMembers(x: Request): seq<Member>
    requires CountsAllowed(x)
  {
    BundleMembers(x.bundle) + Numbered("configuration/", Contents(x.secrets + x.publics))
    + Numbered("evidence/", x.evidence)
  }

  /** The same members holding what is read from the sources at another moment. */
  function Reread(ms: seq<Member>, read: string -> Bytes): seq<Member> {
    seq(|ms|, i requires 0 <= i < |ms| => ms[i].(content := read(ms[i].name)))
  }

  function Digests(pr: Codecs, fs: Files): map<string, J.Json> { map n | n in fs :: J.Str(pr.sha256(fs[n])) }

  function Paths(sources: seq<Source>): seq<J.Json> {
    seq(|sources|, i requires 0 <= i < |sources| => J.Str(sources[i].path))
  }

  function InventoryJson(pr: Codecs, x: Request): J.Json
    requires CountsAllowed(x)
  {
    J.Obj(map["files" := J.Obj(Digests(pr, FilesOf(SourceMembers(x)))),
              "configuration_sources" := J.List(Paths(x.secrets + x.publics))])
  }

  /** The members written to the archive: the sources as read again, then the inventory. */
  function ArchiveMembers(pr: Codecs, x: Request, env: Surroundings): seq<Member>
    requires CountsAllowed(x)
  {
    Reread(SourceMembers(x), env.during)
    + [Member("inventory.json", true, pr.compactJson(InventoryJson(pr, x)))]
  }

  function Sealed(pr: Codecs, x: Request, env: Surroundings): Bytes
    requires CountsAllowed(x)
  {
    pr.encrypt(pr.writeTar(ArchiveMembers(pr, x, env)))
  }

  /** An evidence file may be sealed with this bundle. */
  predicate EvidenceSealable(pr: Codecs, x: Request, commit: J.Json, content: Bytes) {
    EvidenceMatches(pr, content, commit, J.Str(x.bundleName))
    && (J.Has(pr.parseJson(content).value, "manifest_sha256") ==>
          J.Equal(J.At(pr.parseJson(content).value, "manifest_sha256"), J.Str(x.manifestSha256)))
  }

  function CommitOf(pr: Codecs, x: Request): J.Json
    requires BundleValid(pr, x.bundle)
  {
    J.At(pr.parseJson(x.bundle.manifest).value, "commit")
  }

  /** The checks made before anything is encrypted. */
  predicate Sealable(pr: Codecs, x: Request) {
    LowerHex(x.manifestSha256, 64) && pr.sha256(x.bundle.manifest) == x.manifestSha256
    && BundleValid(pr, x.bundle) && CommitOf(pr, x).Str? && LowerHex(CommitOf(pr, x).s, 40)
    && CountsAllowed(x)
    && (forall i :: 0 <= i < |x.evidence| ==> EvidenceSealable(pr, x, CommitOf(pr, x), x.evidence[i]))
    && TotalSize(SourceMembers(x)) <= MAX_BYTES - INVENTORY_ALLOWANCE
    && UploadIntent.SafeName(x.bundleName)
  }

  /** The checks made afterwards: the ciphertext's size, and each source's digest once more. */
  predicate SealCompletes(pr: Codecs, x: Request, env: Surroundings)
    requires CountsAllowed(x)
  {
    |Sealed(pr, x, env)| <= MAX_BYTES
    && forall i :: 0 <= i < |SourceMembers(x)| ==>
         pr.sha256(env.after(SourceMembers(x)[i].name)) == pr.sha256(SourceMembers(x)[i].content)
  }

  predicate SealAccepts(pr: Codecs, x: Request, env: Surroundings) {
    Sealable(pr, x) && SealCompletes(pr, x, env)
  }

  /** `seal.json`. The manifest's digests are those of the artifacts, which the bundle check compared. */
  function RecordOf(pr: Codecs, x: Request, env: Surroundings): UploadIntent.SealRecord
    requires Sealable(pr, x)
  {
    UploadIntent.SealRecord(
      env.createdAt, x.bundleName + "-" + env.suffix, 2, env.machineId, x.bundleName, CommitOf(pr, x).s,
      x.manifestSha256, pr.sha256(x.bundle.release), pr.sha256(x.bundle.database), env.recipientSha256,
      x.secrets != [] || x.publics != [], |x.evidence|, pr.sha256(Sealed(pr, x, env)), |Sealed(pr, x, env)|)
  }

  datatype Failure =
    | HashRequired | UntrustedManifest | InvalidBundle | InvalidReleaseCommit | CountLimit
    | EvidenceMismatch | ArchiveSizeLimit | UnsafeBundleId | CiphertextSizeLimit | SourceChanged

  /** A successful run: the stored ciphertext and its record. */
  datatype Package = Package(record: UploadIntent.SealRecord, ciphertext: Bytes)

  /** The configuration files numbered on: secret ones from zero, public ones after them. */
  method CollectConfiguration(x: Request) returns (files: seq<Member>)
    requires CountsAllowed(x)
    ensures files == Numbered("configuration/", Contents(x.secrets + x.publics))
  {
    files := [];
    ghost var all := Numbered("configuration/", Contents(x.secrets + x.publics));
    for index := 0 to |x.secrets|
      invariant files == all[..index]
    {
      files := files + [Member("configuration/" + Pad4(index), true, x.secrets[index].content)];
    }
    for index := |x.secrets| to |x.secrets| + |x.publics|
      invariant files == all[..index]
    {
      files := files + [Member("configuration/" + Pad4(index), true, x.publics[index - |x.secrets|].content)];
    }
  }

  /** The evidence files, each checked against the bundle before it is numbered. */
  method CollectEvidence(pr: Codecs, x: Request, commit: J.Json) returns (r: Result<seq<Member>, Failure>)
    requires CountsAllowed(x)
    ensures r.Ok? <==> forall i :: 0 <= i < |x.evidence| ==> EvidenceSealable(pr, x, commit, x.evidence[i])
    ensures r.Ok? ==> r.value == Numbered("evidence/", x.evidence)
    ensures r.Err? ==> r.error == EvidenceMismatch
  {
    var files := [];
    for index := 0 to |x.evidence|
      invariant forall i :: 0 <= i < index ==> EvidenceSealable(pr, x, commit, x.evidence[i])
      invariant files == Numbered("evidence/", x.evidence)[..index]
    {
      if !EvidenceSealable(pr, x, commit, x.evidence[index]) { return Err(EvidenceMismatch); }
      files := files + [Member("evidence/" + Pad4(index), true, x.evidence[index])];
    }
    r := Ok(files);
  }

  method Total(ms: seq<Member>) returns (total: nat)
    ensures total == TotalSize(ms)
  {
    total := 0;
    for k := 0 to |ms|
      invariant total == TotalSize(ms[..k])
    {
      assert ms[..k + 1][..k] == ms[..k];
      total := total + |ms[k].content|;
    }
    assert ms[..|ms|] == ms;
  }

  /** Are the digests of the sources still those of the first reading? */
  method Unchanged(pr: Codecs, ms: seq<Member>, read: string -> Bytes) returns (same: bool)
    ensures same <==> forall i :: 0 <= i < |ms| ==> pr.sha256(read(ms[i].name)) == pr.sha256(ms[i].content)
  {
    for k := 0 to |ms|
      invariant forall i :: 0 <= i < k ==> pr.sha256(read(ms[i].name)) == pr.sha256(ms[i].content)
    {
      if pr.sha256(read(ms[k].name)) != pr.sha256(ms[k].content) { return false; }
    }
    same := true;
  }

  /** `seal` accepts exactly these requests and stores the archive of exactly these members. */
  method Seal(pr: Codecs, x: Request, env: Surroundings) returns (r: Result<Package, Failure>)
    ensures r.Ok? <==> SealAccepts(pr, x, env)
    ensures r.Ok? ==> r.value == Package(RecordOf(pr, x, env), Sealed(pr, x, env))
  {
    if !LowerHex(x.manifestSha256, 64) { return Err(HashRequired); }
    if pr.sha256(x.bundle.manifest) != x.manifestSha256 { return Err(UntrustedManifest); }
    var valid := VerifyBundle(pr, x.bundle);
    if !valid { return Err(InvalidBundle); }
    var manifest := pr.parseJson(x.bundle.manifest).value;
    var commit := J.At(manifest, "commit");
    if !commit.Str? || !LowerHex(commit.s, 40) { return Err(InvalidReleaseCommit); }
    if !CountsAllowed(x) { return Err(CountLimit); }
    var configuration := CollectConfiguration(x);
    var evidence := CollectEvidence(pr, x, commit);
    if evidence.Err? { return Err(evidence.error); }
    var files := BundleMembers(x.bundle) + configuration + evidence.value;
    var size := Total(files);
    if size > MAX_BYTES - INVENTORY_ALLOWANCE { return Err(ArchiveSizeLimit); }
    if !UploadIntent.SafeName(x.bundleName) { return Err(UnsafeBundleId); }
    var metadata := pr.compactJson(InventoryJson(pr, x));
    var archive := Reread(files, env.during) + [Member("inventory.json", true, metadata)];
    var ciphertext := pr.encrypt(pr.writeTar(archive));
    if |ciphertext| > MAX_BYTES { return Err(CiphertextSizeLimit); }
    var same := Unchanged(pr, files, env.after);
    if !same { return Err(SourceChanged); }
    var shas := J.At(manifest, "sha256");
    J.EqualString(J.At(shas, "release.tar.gz"), pr.sha256(x.bundle.release));
    J.EqualString(J.At(shas, "database.sqlite3"), pr.sha256(x.bundle.database));
    r := Ok(Package(
      UploadIntent.SealRecord(
        env.createdAt, x.bundleName + "-" + env.suffix, 2, env.machineId, x.bundleName, commit.s,
        x.manifestSha256, J.At(shas, "release.tar.gz").s, J.At(shas, "database.sqlite3").s, env.recipientSha256,
        x.secrets != [] || x.publics != [], |x.evidence|, pr.sha256(ciphertext), |ciphertext|),
      ciphertext));
  }
}
