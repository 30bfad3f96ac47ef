/** What the digest check at the end of `seal` cannot see: a source changed and changed back. */
module SealGap {
  import opened Wrappers
  import J = Json
  import opened Archive
  import opened ArchiveChecks
  import opened ArchiveTheorems
  import opened Seal
  import opened SealTheorems
  import opened VerifierGap
  import UploadIntent

  /** The same run, except that the file archived as `name` held other bytes when it was archived. */
  function ChangedAndBack(env: Surroundings, name: string, content: Bytes): Surroundings {
    env.(during := n => if n == name then content else env.during(n))
  }

  /**
   * In every accepted sealing any one source may be changed before it is archived and changed back
   * afterwards: as long as the ciphertext is not too large `seal` accepts, the archive is not what the
   * record and inventory say, and `decrypt` refuses it whatever it would recover.
   */
  lemma ChangedSourceIsSealed(pr: Codecs, x: Request, env: Surroundings, i: nat, content: Bytes)
    requires SealAccepts(pr, x, env) && i < |SourceMembers(x)| && content != SourceMembers(x)[i].content
    requires |Sealed(pr, x, ChangedAndBack(env, SourceMembers(x)[i].name, content))| <= MAX_BYTES
    ensures var changed := ChangedAndBack(env, SourceMembers(x)[i].name, content);
            SealAccepts(pr, x, changed) && !Intact(x, changed)
  {
    var changed := ChangedAndBack(env, SourceMembers(x)[i].name, content);
    assert changed.during(SourceMembers(x)[i].name) == content;
  }

  lemma ChangedSourceIsRefused(pr: Codecs, x: Request, env: Surroundings, i: nat, content: Bytes,
                               receipt: Bytes, machine: string, fs: Files)
    requires SealAccepts(pr, x, env) && i < |SourceMembers(x)| && content != SourceMembers(x)[i].content
    requires |Sealed(pr, x, ChangedAndBack(env, SourceMembers(x)[i].name, content))| <= MAX_BYTES
    requires CollisionFree(pr.sha256)
    requires CodecsFaithful(pr, x, ChangedAndBack(env, SourceMembers(x)[i].name, content))
    requires LowerHex(env.suffix, 32) && machine != env.machineId && LowerHex(pr.sha256(receipt), 64)
    requires pr.parseJson(receipt).Some?
    requires Describes(pr.parseJson(receipt).value,
                       RecordOf(pr, x, ChangedAndBack(env, SourceMembers(x)[i].name, content)))
    ensures !DecryptRecovers(pr, machine, receipt, pr.sha256(receipt),
                             Sealed(pr, x, ChangedAndBack(env, SourceMembers(x)[i].name, content)), false, fs)
  {
    var changed := ChangedAndBack(env, SourceMembers(x)[i].name, content);
    ChangedSourceIsSealed(pr, x, env, i, content);
    SealedPackageRecovers(pr, x, changed, receipt, machine, fs);
  }

  // An accepted sealing to start from, for an arbitrary hash.

  function SampleRequest(h: Bytes -> string): Request { Request("b", Bundle([2], [], [], []), h([2]), [], [], []) }

  function SampleSurroundings(): Surroundings { Surroundings("", "", "", "", ContentOf, ContentOf) }

  lemma SampleMembers(h: Bytes -> string)
    ensures SourceMembers(SampleRequest(h)) == BundleMembers(Bundle([2], [], [], []))
    ensures forall m :: m in BundleMembers(Bundle([2], [], [], [])) ==> m.content == ContentOf(m.name)
    ensures TotalSize(BundleMembers(Bundle([2], [], [], []))) == 1
  {
    var ms := BundleMembers(Bundle([2], [], [], []));
    assert |ms[0].name| == 20 && |ms[1].name| == 24 && |ms[2].name| == 23 && |ms[3].name| == 21;
    assert ms[..3][..2] == ms[..2] && ms[..2][..1] == ms[..1] && ms[..1][..0] == [];
    assert TotalSize(ms[..1]) == 1;
    assert TotalSize(ms[..2]) == 1;
    assert TotalSize(ms[..3]) == 1;
  }

  lemma SampleSize(h: Bytes -> string)
    ensures TotalSize(SourceMembers(SampleRequest(h))) == 1
  {
    SampleMembers(h);
  }

  lemma SampleBundle(h: Bytes -> string, c: string)
    ensures BundleValid(SampleCodecs(h, c), SampleRequest(h).bundle)
    ensures CommitOf(SampleCodecs(h, c), SampleRequest(h)) == J.Str(c)
  {
    BundleHolds(h, c);
    WindowsBundleImpliesBundle(SampleCodecs(h, c), Receipt(h, c), SampleRequest(h).bundle);
    ManifestGets(h, c);
  }

  /** Without evidence there is nothing to pair. */
  lemma PlainSealable(pr: Codecs, x: Request, c: string)
    requires LowerHex(x.manifestSha256, 64) && pr.sha256(x.bundle.manifest) == x.manifestSha256
    requires BundleValid(pr, x.bundle) && CommitOf(pr, x) == J.Str(c) && LowerHex(c, 40)
    requires x.evidence == [] && CountsAllowed(x) && UploadIntent.SafeName(x.bundleName)
    requires TotalSize(SourceMembers(x)) <= MAX_BYTES - INVENTORY_ALLOWANCE
    ensures Sealable(pr, x)
  {
  }

  lemma SampleSealable(h: Bytes -> string, c: string)
    requires LowerHex(h([2]), 64) && LowerHex(c, 40)
    ensures Sealable(SampleCodecs(h, c), SampleRequest(h))
  {
    SampleBundle(h, c);
    SampleSize(h);
    PlainSealable(SampleCodecs(h, c), SampleRequest(h), c);
  }

  lemma SampleAccepted(h: Bytes -> string, c: string)
    requires LowerHex(h([2]), 64) && LowerHex(c, 40)
    ensures SealAccepts(SampleCodecs(h, c), SampleRequest(h), SampleSurroundings())
  {
    SampleSealable(h, c);
    SampleMembers(h);
  }

  /** The input on which `seal` accepts an archive that is not what was checked: the manifest, changed and back. */
  lemma AcceptedButNotIntact(h: Bytes -> string, c: string)
    requires LowerHex(h([2]), 64) && LowerHex(c, 40)
    ensures var changed := ChangedAndBack(SampleSurroundings(), "bundle/manifest.json", [7]);
            SealAccepts(SampleCodecs(h, c), SampleRequest(h), changed) && !Intact(SampleRequest(h), changed)
  {
    SampleAccepted(h, c);
    SampleMembers(h);
    ChangedSourceIsSealed(SampleCodecs(h, c), SampleRequest(h), SampleSurroundings(), 0, [7]);
  }
}
