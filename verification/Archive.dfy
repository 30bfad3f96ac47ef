/** The sealed recovery archive: its members, the release archive inside it and the bundle checks. */
module Archive {
  import opened Wrappers
  import J = Json

  const MAX_BYTES: nat := 128 * 1024 * 1024

  /** A tar member; the size of a regular one is the length of its content. */
  datatype Member = Member(name: string, regular: bool, content: Bytes)

  /** Hashes, codecs, SQLite and the release policy, as arbitrary functions; None is an exception. */
  datatype Codecs = Codecs(
    sha256: Bytes -> string,
    parseJson: Bytes -> Option<J.Json>, dumpJson: J.Json -> Bytes, compactJson: J.Json -> Bytes,
    readTar: Bytes -> Option<seq<Member>>, writeTar: seq<Member> -> Bytes,
    decrypt: Bytes -> Option<Bytes>, encrypt: Bytes -> Bytes,
    inspectDatabase: Bytes -> Option<string>, releasePath: string -> bool)

  type Files = map<string, Bytes>

  /** `n` lower-case hexadecimal digits. */
  predicate LowerHex(s: string, n: nat) {
    |s| == n && forall i :: 0 <= i < n ==> '0' <= s[i] <= '9' || 'a' <= s[i] <= 'f'
  }

  function BundleNames(): set<string> {
    {"bundle/manifest.json", "bundle/verification.json", "bundle/database.sqlite3", "bundle/release.tar.gz"}
  }

  function FixedNames(): set<string> { {"inventory.json"} + BundleNames() }

  predicate Digits(s: string) { forall i :: 0 <= i < |s| ==> '0' <= s[i] <= '9' }

  predicate ConfigurationName(name: string) {
    |name| == 18 && name[..14] == "configuration/" && Digits(name[14..])
  }

  predicate EvidenceName(name: string) { |name| == 13 && name[..9] == "evidence/" && Digits(name[9..]) }

  /** The names `decrypt` extracts, and the fewer ones the independent verifier does. */
  predicate DecryptName(name: string) { name in FixedNames() || ConfigurationName(name) || EvidenceName(name) }

  predicate WindowsName(name: string) { name in FixedNames() || EvidenceName(name) }

  function TotalSize(ms: seq<Member>): nat {
    if ms == [] then 0 else TotalSize(ms[..|ms| - 1]) + |ms[|ms| - 1].content|
  }

  predicate DistinctNames(ms: seq<Member>) {
    forall i, j :: 0 <= i < j < |ms| ==> ms[i].name != ms[j].name
  }

  predicate Named(ms: seq<Member>, name: string) { exists i :: 0 <= i < |ms| && ms[i].name == name }

  /** What a streaming extraction accepts member by member: allowed, regular, no name twice, within the limit. */
  predicate Acceptable(ms: seq<Member>, allowed: string -> bool) {
    (forall i :: 0 <= i < |ms| ==> allowed(ms[i].name) && ms[i].regular)
    && DistinctNames(ms) && TotalSize(ms) <= MAX_BYTES
  }

  /** What is extracted, whatever order the members come in: acceptable, and nothing fixed is missing. */
  predicate Extractable(ms: seq<Member>, allowed: string -> bool) {
    Acceptable(ms, allowed) && forall n :: n in FixedNames() ==> Named(ms, n)
  }

  /** The extracted files. */
  function FilesOf(ms: seq<Member>): Files {
    if ms == [] then map[] else FilesOf(ms[..|ms| - 1])[ms[|ms| - 1].name := ms[|ms| - 1].content]
  }

  lemma NamedAfter(ms: seq<Member>, name: string)
    requires ms != []
    ensures Named(ms, name) <==> Named(ms[..|ms| - 1], name) || ms[|ms| - 1].name == name
  {
    var front := ms[..|ms| - 1];
    if Named(front, name) {
      var i :| 0 <= i < |front| && front[i].name == name;
      assert ms[i].name == name;
    }
    if Named(ms, name) {
      var i :| 0 <= i < |ms| && ms[i].name == name;
      assert i < |front| ==> front[i].name == name;
    }
  }

  lemma {:induction false} FilesOfNames(ms: seq<Member>, name: string)
    ensures name in FilesOf(ms) <==> Named(ms, name)
  {
    if ms != [] {
      FilesOfNames(ms[..|ms| - 1], name);
      NamedAfter(ms, name);
    }
  }

  lemma {:induction false} FilesOfContent(ms: seq<Member>, i: nat)
    requires i < |ms| && DistinctNames(ms)
    ensures ms[i].name in FilesOf(ms) && FilesOf(ms)[ms[i].name] == ms[i].content
  {
    var last := |ms| - 1;
    if i < last {
      assert ms[..last][i] == ms[i];
      FilesOfContent(ms[..last], i);
    }
  }

  lemma DistinctAfter(ms: seq<Member>)
    requires ms != []
    ensures DistinctNames(ms) <==> DistinctNames(ms[..|ms| - 1]) && !Named(ms[..|ms| - 1], ms[|ms| - 1].name)
  {
    var front, last := ms[..|ms| - 1], ms[|ms| - 1];
    if DistinctNames(ms) {
      forall i, j | 0 <= i < j < |front| ensures front[i].name != front[j].name { assert ms[i].name != ms[j].name; }
    }
    if DistinctNames(front) && !Named(front, last.name) {
      forall i, j | 0 <= i < j < |ms| ensures ms[i].name != ms[j].name {
        assert front[i].name == ms[i].name;
        if j < |front| { assert front[j].name == ms[j].name; }
      }
    }
  }

  /** One member further on. */
  lemma OneMore(ms: seq<Member>, allowed: string -> bool, k: nat)
    requires k < |ms|
    ensures forall n :: Named(ms[..k + 1], n) <==> Named(ms[..k], n) || ms[k].name == n
    ensures TotalSize(ms[..k + 1]) == TotalSize(ms[..k]) + |ms[k].content|
    ensures FilesOf(ms[..k + 1]) == FilesOf(ms[..k])[ms[k].name := ms[k].content]
    ensures Acceptable(ms[..k + 1], allowed)
            <==> Acceptable(ms[..k], allowed) && allowed(ms[k].name) && ms[k].regular
                 && !Named(ms[..k], ms[k].name) && TotalSize(ms[..k]) + |ms[k].content| <= MAX_BYTES
  {
    var longer := ms[..k + 1];
    assert longer[..k] == ms[..k];
    forall n ensures Named(longer, n) <==> Named(ms[..k], n) || ms[k].name == n { NamedAfter(longer, n); }
    DistinctAfter(longer);
    forall i | 0 <= i < k ensures ms[..k][i] == longer[i] {}
  }

  /** What is refused early stays refused. */
  lemma PrefixAcceptable(ms: seq<Member>, allowed: string -> bool, k: nat)
    requires k <= |ms|
    ensures Acceptable(ms, allowed) ==> Acceptable(ms[..k], allowed)
  {
    TotalGrows(ms, k);
  }

  lemma FixedListed(ms: seq<Member>, seen: set<string>)
    requires forall n :: n in seen <==> Named(ms, n)
    ensures FixedNames() <= seen <==> forall n :: n in FixedNames() ==> Named(ms, n)
  {
  }

  datatype ExtractFailure = UnsafeMember | ExpandedTooLarge | Incomplete

  /** The extraction loop of both verifiers, with its set of names seen and running total. */
  method Stage(ms: seq<Member>, allowed: string -> bool)
    returns (r: Result<(set<string>, Files), ExtractFailure>)
    ensures r.Ok? <==> Acceptable(ms, allowed)
    ensures r.Ok? ==> r.value.1 == FilesOf(ms) && forall n :: n in r.value.0 <==> Named(ms, n)
    ensures r.Err? && r.error.ExpandedTooLarge? ==> TotalSize(ms) > MAX_BYTES
  {
    var seen: set<string>, total: nat, staged: Files := {}, 0, map[];
    for k := 0 to |ms|
      invariant Acceptable(ms[..k], allowed)
      invariant forall n :: n in seen <==> Named(ms[..k], n)
      invariant total == TotalSize(ms[..k]) <= MAX_BYTES
      invariant staged == FilesOf(ms[..k])
    {
      OneMore(ms, allowed, k);
      PrefixAcceptable(ms, allowed, k + 1);
      var m := ms[k];
      if !allowed(m.name) || !m.regular || m.name in seen { return Err(UnsafeMember); }
      seen := seen + {m.name};
      total := total + |m.content|;
      if total > MAX_BYTES {
        TotalGrows(ms, k + 1);
        return Err(ExpandedTooLarge);
      }
      staged := staged[m.name := m.content];
    }
    assert ms[..|ms|] == ms;
    r := Ok((seen, staged));
  }

  /** The extraction accepts exactly the extractable archives and yields their files. */
  method Extract(ms: seq<Member>, allowed: string -> bool) returns (r: Result<Files, ExtractFailure>)
    ensures r.Ok? <==> Extractable(ms, allowed)
    ensures r.Ok? ==> r.value == FilesOf(ms)
    ensures r.Err? && r.error.ExpandedTooLarge? ==> TotalSize(ms) > MAX_BYTES
  {
    var staged := Stage(ms, allowed);
    if staged.Err? { return Err(staged.error); }
    FixedListed(ms, staged.value.0);
    if !(FixedNames() <= staged.value.0) { return Err(Incomplete); }
    r := Ok(staged.value.1);
  }

  lemma {:induction false} TotalGrows(ms: seq<Member>, k: nat)
    requires k <= |ms|
    ensures TotalSize(ms[..k]) <= TotalSize(ms)
    decreases |ms|
  {
    if k < |ms| {
      TotalGrows(ms[..|ms| - 1], k);
      assert ms[..|ms| - 1][..k] == ms[..k];
    } else {
      assert ms[..k] == ms;
    }
  }
}
