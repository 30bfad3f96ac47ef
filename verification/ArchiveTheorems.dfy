/** How the two verifiers relate, and what one receipt hash pins down. */
module ArchiveTheorems {
  import opened Wrappers
  import J = Json
  import opened Archive
  import opened ArchiveChecks

  /** A digest check against two equal values of which one is a string holds for both. */
  lemma DigestTransfers(pr: Codecs, content: Bytes, a: J.Json, b: J.Json)
    requires J.Equal(a, b) && HasDigest(pr, content, b)
    ensures HasDigest(pr, content, a)
  {
    J.EqualString(b, pr.sha256(content));
    J.EqualString(a, pr.sha256(content));
  }

  lemma WindowsNameIsNoConfiguration(name: string)
    requires WindowsName(name)
    ensures DecryptName(name) && !ConfigurationName(name)
  {
  }

  lemma WindowsExtractsLess(ms: seq<Member>)
    requires Extractable(ms, WindowsName)
    ensures Extractable(ms, DecryptName)
    ensures forall n :: n in FilesOf(ms) ==> !ConfigurationName(n)
    ensures FixedNames() <= FilesOf(ms).Keys
  {
    forall i | 0 <= i < |ms| ensures DecryptName(ms[i].name) { WindowsNameIsNoConfiguration(ms[i].name); }
    forall n | n in FilesOf(ms) ensures !ConfigurationName(n) {
      FilesOfNames(ms, n);
      var i :| 0 <= i < |ms| && ms[i].name == n;
      WindowsNameIsNoConfiguration(n);
    }
    forall n | n in FixedNames() ensures n in FilesOf(ms) { FilesOfNames(ms, n); }
  }

  /** The independent verifier's bundle check implies `decrypt`'s. */
  lemma WindowsBundleImpliesBundle(pr: Codecs, record: J.Json, b: Bundle)
    requires WindowsBundleValid(pr, record, b)
    ensures BundleValid(pr, b) && ManifestAgrees(pr.parseJson(b.manifest).value, record)
  {
    var m := pr.parseJson(b.manifest).value;
    var shas := J.At(m, "sha256");
    assert shas.Obj? && shas.m.Keys == {"database.sqlite3", "release.tar.gz"};
    DigestTransfers(pr, b.database, shas.m["database.sqlite3"], J.At(record, "snapshot_sha256"));
    DigestTransfers(pr, b.release, shas.m["release.tar.gz"], J.At(record, "release_sha256"));
  }

  /** With no configuration recovered, a falsy flag is accepted exactly if it is a boolean or a number. */
  lemma FalsyFlag(included: J.Json)
    requires !J.Truthy(included)
    ensures J.Equal(J.Bool(false), included) <==> included.Bool? || included.Num?
  {
  }

  lemma WindowsFilesImplyDecrypt(pr: Codecs, record: J.Json, fs: Files)
    requires WindowsFilesAccepted(pr, record, fs) && !HasConfiguration(fs)
    requires J.Has(record, "configuration_included") && !J.Truthy(J.At(record, "configuration_included"))
    ensures var included := J.At(record, "configuration_included");
            DecryptFilesAccepted(pr, record, fs) <==> included.Bool? || included.Num?
  {
    WindowsBundleImpliesBundle(pr, record, CoreOf(fs).bundle);
    FalsyFlag(J.At(record, "configuration_included"));
  }

  /**
   * The independent verifier is at least as strict: what it accepts passes every content check of
   * `decrypt`, exactly when the receipt spells "no configuration" as a boolean or a number. Its own
   * truth test also lets null, an empty string, list or object through, which `decrypt` refuses.
   */
  lemma WindowsImpliesDecrypt(pr: Codecs, receipt: Bytes, receiptSha: string, archive: Bytes)
    requires WindowsAccepts(pr, receipt, receiptSha, archive)
    ensures var record := pr.parseJson(receipt).value;
            var included := J.At(record, "configuration_included");
            DecryptArchiveAccepted(pr, record, archive) <==> included.Bool? || included.Num?
  {
    var record := pr.parseJson(receipt).value;
    var ms := pr.readTar(archive).value;
    WindowsExtractsLess(ms);
    WindowsFilesImplyDecrypt(pr, record, FilesOf(ms));
  }

  /** Under a collision-free hash, two recoveries accepted against one receipt hash are identical. */
  lemma SameReceiptSameRecovery(pr: Codecs, sha: string, m1: string, r1: Bytes, c1: Bytes, fs1: Files,
                                m2: string, r2: Bytes, c2: Bytes, fs2: Files)
    requires CollisionFree(pr.sha256)
    requires DecryptRecovers(pr, m1, r1, sha, c1, false, fs1)
    requires DecryptRecovers(pr, m2, r2, sha, c2, false, fs2)
    ensures r1 == r2 && c1 == c2 && fs1 == fs2
  {
    assert r1 == r2;
    var record := pr.parseJson(r1).value;
    J.EqualString(J.At(record, "ciphertext_sha256"), pr.sha256(c1));
    J.EqualString(J.At(record, "ciphertext_sha256"), pr.sha256(c2));
  }

  /** The bundle a record names: its manifest, database and release by their digests. */
  lemma RecordPinsBundle(pr: Codecs, record: J.Json, a: Bundle, b: Bundle)
    requires CollisionFree(pr.sha256) && J.Has(record, "manifest_sha256")
    requires HasDigest(pr, a.manifest, J.At(record, "manifest_sha256"))
    requires HasDigest(pr, b.manifest, J.At(record, "manifest_sha256"))
    requires BundleValid(pr, a) && BundleValid(pr, b)
    ensures a.manifest == b.manifest && a.database == b.database && a.release == b.release
  {
    J.EqualString(J.At(record, "manifest_sha256"), pr.sha256(a.manifest));
    J.EqualString(J.At(record, "manifest_sha256"), pr.sha256(b.manifest));
    var shas := J.At(pr.parseJson(a.manifest).value, "sha256").m;
    J.EqualString(shas["database.sqlite3"], pr.sha256(a.database));
    J.EqualString(shas["database.sqlite3"], pr.sha256(b.database));
    J.EqualString(shas["release.tar.gz"], pr.sha256(a.release));
    J.EqualString(shas["release.tar.gz"], pr.sha256(b.release));
  }

  /**
   * Both verifiers, given the same receipt hash, accept only the same manifest, database and release,
   * even for different archives: nothing is assumed about decryption.
   */
  lemma VerifiersAgreeOnBundle(pr: Codecs, sha: string, r1: Bytes, archive: Bytes,
                               machine: string, r2: Bytes, ciphertext: Bytes, fs: Files)
    requires CollisionFree(pr.sha256)
    requires WindowsAccepts(pr, r1, sha, archive)
    requires DecryptRecovers(pr, machine, r2, sha, ciphertext, false, fs)
    ensures FixedNames() <= FilesOf(pr.readTar(archive).value).Keys && FixedNames() <= fs.Keys
    ensures var a, b := CoreOf(FilesOf(pr.readTar(archive).value)).bundle, CoreOf(fs).bundle;
            a.manifest == b.manifest && a.database == b.database && a.release == b.release
  {
    assert r1 == r2;
    var record := pr.parseJson(r1).value;
    var gs := FilesOf(pr.readTar(archive).value);
    WindowsBundleImpliesBundle(pr, record, CoreOf(gs).bundle);
    RecordPinsBundle(pr, record, CoreOf(gs).bundle, CoreOf(fs).bundle);
  }

  /** A valid release archive holds every recorded file exactly once, each on the allowed list. */
  lemma ValidReleaseIsExact(pr: Codecs, ms: seq<Member>, hashes: map<string, J.Json>)
    requires ReleaseMembersValid(pr, ms, hashes)
    ensures DistinctNames(ms) && FilesOf(ms).Keys == hashes.Keys
    ensures forall n :: n in hashes ==> pr.releasePath(n) && HasDigest(pr, FilesOf(ms)[n], hashes[n])
  {
    assert |NamesOf(ms)| == |ms|;
    SurjectionIsInjection(ms);
    forall n ensures n in FilesOf(ms) <==> n in hashes {
      FilesOfNames(ms, n);
    }
    forall n | n in hashes ensures pr.releasePath(n) && HasDigest(pr, FilesOf(ms)[n], hashes[n]) {
      assert n in NamesOf(ms);
      var i :| 0 <= i < |ms| && ms[i].name == n;
      FilesOfContent(ms, i);
    }
  }

  /** As many names as members means no name twice. */
  lemma {:induction false} SurjectionIsInjection(ms: seq<Member>)
    requires |NamesOf(ms)| == |ms|
    ensures DistinctNames(ms)
  {
    if ms != [] {
      var last := |ms| - 1;
      var front := ms[..last];
      assert NamesOf(ms) == NamesOf(front) + {ms[last].name} by {
        forall n ensures n in NamesOf(ms) <==> n in NamesOf(front) || n == ms[last].name {
          NamedAfter(ms, n);
        }
      }
      NamesAtMost(front);
      assert ms[last].name !in NamesOf(front);
      SurjectionIsInjection(front);
      forall i, j | 0 <= i < j < |ms| ensures ms[i].name != ms[j].name {
        if j == last { assert front[i].name in NamesOf(front); } else { assert front[i].name != front[j].name; }
      }
    }
  }

  lemma {:induction false} NamesAtMost(ms: seq<Member>)
    ensures |NamesOf(ms)| <= |ms|
  {
    if ms != [] {
      var last := |ms| - 1;
      var front := ms[..last];
      assert NamesOf(ms) == NamesOf(front) + {ms[last].name} by {
        forall n ensures n in NamesOf(ms) <==> n in NamesOf(front) || n == ms[last].name {
          NamedAfter(ms, n);
        }
      }
      NamesAtMost(front);
    }
  }
}
