/** `release_archive`: what is taken from a commit, and that `validate_archive` accepts it. */
module Release {
  import opened Wrappers
  import J = Json
  import opened Archive
  import opened ArchiveChecks
  import opened ArchiveTheorems
  import ReleasePolicy

  /** One line of `git ls-tree` with its object; `plain` is a blob of mode 100644 or 100755. */
  datatype Entry = Entry(path: string, plain: bool, data: Bytes)

  /** What the source looks for in the tree. */
  datatype Wanted = Wanted(required: set<string>, versionPath: string, versionOf: Bytes -> Option<string>)

  datatype Failure = NotRegular | MissingFiles

  /** The archive written and the digests recorded for it. */
  datatype Built = Built(members: seq<Member>, hashes: map<string, J.Json>, version: string)

  predicate PlainWhereAllowed(pr: Codecs, entries: seq<Entry>) {
    forall i :: 0 <= i < |entries| && pr.releasePath(entries[i].path) ==> entries[i].plain
  }

  /** The members of the first `n` entries. */
  function Taken(pr: Codecs, entries: seq<Entry>, n: nat): seq<Member>
    requires n <= |entries|
  {
    if n == 0 then []
    else
      var e := entries[n - 1];
      Taken(pr, entries, n - 1) + if pr.releasePath(e.path) then [Member(e.path, true, e.data)] else []
  }

  /** The digest kept for each path; a path listed twice keeps the later one. */
  function Recorded(pr: Codecs, ms: seq<Member>): map<string, J.Json> {
    if ms == [] then map[]
    else Recorded(pr, ms[..|ms| - 1])[ms[|ms| - 1].name := J.Str(pr.sha256(ms[|ms| - 1].content))]
  }

  /** The version found last in the file that declares it. */
  function VersionIn(pr: Codecs, want: Wanted, entries: seq<Entry>, n: nat): Option<string>
    requires n <= |entries|
  {
    if n == 0 then None
    else
      var e := entries[n - 1];
      if pr.releasePath(e.path) && e.path == want.versionPath && want.versionOf(e.data).Some?
      then want.versionOf(e.data)
      else VersionIn(pr, want, entries, n - 1)
  }

  /** These entries, and no others of the first `n`, have an allowed path; the members are theirs, in order. */
  predicate Picked(pr: Codecs, entries: seq<Entry>, n: nat, ms: seq<Member>, at: seq<nat>)
    requires n <= |entries|
  {
    |at| == |ms| && (forall j, k :: 0 <= j < k < |at| ==> at[j] < at[k])
    && (forall k :: 0 <= k < |at| ==>
          at[k] < n && pr.releasePath(entries[at[k]].path)
          && ms[k] == Member(name := entries[at[k]].path, regular := true, content := entries[at[k]].data))
    && forall i :: 0 <= i < n && pr.releasePath(entries[i].path) ==> i in at
  }

  lemma PicksNext(pr: Codecs, entries: seq<Entry>, n: nat, ms: seq<Member>, at: seq<nat>)
    requires n < |entries| && Picked(pr, entries, n, ms, at) && pr.releasePath(entries[n].path)
    ensures Picked(pr, entries, n + 1, ms + [Member(entries[n].path, true, entries[n].data)], at + [n])
  {
    forall i | 0 <= i < n + 1 && pr.releasePath(entries[i].path) ensures i in at + [n] {
      if i == n { assert (at + [n])[|at|] == n; }
    }
  }

  lemma {:induction false} TakenExactly(pr: Codecs, entries: seq<Entry>, n: nat) returns (at: seq<nat>)
    requires n <= |entries|
    ensures Picked(pr, entries, n, Taken(pr, entries, n), at)
  {
    if n == 0 {
      at := [];
    } else {
      at := TakenExactly(pr, entries, n - 1);
      if pr.releasePath(entries[n - 1].path) {
        PicksNext(pr, entries, n - 1, Taken(pr, entries, n - 1), at);
        at := at + [n - 1];
      }
    }
  }

  /** The allowed file that declares the version, when it declares one. */
  predicate Declares(pr: Codecs, want: Wanted, e: Entry) {
    pr.releasePath(e.path) && e.path == want.versionPath && want.versionOf(e.data).Some?
  }

  lemma {:induction false} VersionIsLast(pr: Codecs, want: Wanted, entries: seq<Entry>, n: nat)
    requires n <= |entries|
    ensures match VersionIn(pr, want, entries, n)
            case None => forall i :: 0 <= i < n ==> !Declares(pr, want, entries[i])
            case Some(v) =>
              exists i :: 0 <= i < n && Declares(pr, want, entries[i]) && want.versionOf(entries[i].data) == Some(v)
                          && forall j :: i < j < n ==> !Declares(pr, want, entries[j])
  {
    if n > 0 {
      VersionIsLast(pr, want, entries, n - 1);
      assert Declares(pr, want, entries[n - 1]) ==>
               VersionIn(pr, want, entries, n) == want.versionOf(entries[n - 1].data);
    }
  }

  predicate Buildable(pr: Codecs, want: Wanted, entries: seq<Entry>) {
    PlainWhereAllowed(pr, entries) && want.required <= NamesOf(Taken(pr, entries, |entries|))
    && VersionIn(pr, want, entries, |entries|).Some?
  }

  lemma NamesOfNext(ms: seq<Member>, m: Member)
    ensures NamesOf(ms + [m]) == NamesOf(ms) + {m.name}
  {
    forall n ensures n in NamesOf(ms + [m]) <==> n in NamesOf(ms) || n == m.name {
      if n in NamesOf(ms) {
        var i :| 0 <= i < |ms| && ms[i].name == n;
        assert (ms + [m])[i].name == n;
      }
      assert (ms + [m])[|ms|] == m;
    }
  }

  /** The loop of `release_archive`, with its list, its digests and its version. */
  method ReleaseArchive(pr: Codecs, want: Wanted, entries: seq<Entry>) returns (r: Result<Built, Failure>)
    ensures r.Ok? <==> Buildable(pr, want, entries)
    ensures r.Ok? ==> r.value.members == Taken(pr, entries, |entries|)
                      && r.value.hashes == Recorded(pr, r.value.members)
                      && Some(r.value.version) == VersionIn(pr, want, entries, |entries|)
    ensures r.Ok? ==> exists at :: Picked(pr, entries, |entries|, r.value.members, at)
    ensures r.Err? ==> (r.error.NotRegular? <==> !PlainWhereAllowed(pr, entries))
  {
    var members: seq<Member>, hashes: map<string, J.Json>, approved: set<string> := [], map[], {};
    var version: Option<string> := None;
    for n := 0 to |entries|
      invariant forall i :: 0 <= i < n && pr.releasePath(entries[i].path) ==> entries[i].plain
      invariant members == Taken(pr, entries, n) && hashes == Recorded(pr, members) && approved == NamesOf(members)
      invariant version == VersionIn(pr, want, entries, n)
    {
      var e := entries[n];
      if !pr.releasePath(e.path) { continue; }
      if !e.plain { return Err(NotRegular); }
      if e.path == want.versionPath && want.versionOf(e.data).Some? { version := want.versionOf(e.data); }
      var m := Member(e.path, true, e.data);
      NamesOfNext(members, m);
      assert (members + [m])[..|members|] == members;
      members := members + [m];
      approved := approved + {e.path};
      hashes := hashes[e.path := J.Str(pr.sha256(e.data))];
    }
    ghost var at := TakenExactly(pr, entries, |entries|);
    if !(want.required <= approved) || version.None? { return Err(MissingFiles); }
    r := Ok(Built(members, hashes, version.value));
  }

  lemma {:induction false} RecordedNames(pr: Codecs, ms: seq<Member>)
    ensures Recorded(pr, ms).Keys == NamesOf(ms)
  {
    if ms != [] {
      var front, last := ms[..|ms| - 1], ms[|ms| - 1];
      RecordedNames(pr, front);
      NamesOfNext(front, last);
      assert ms == front + [last];
    }
  }

  /** The digest recorded for a path is that of the last member with this name. */
  lemma {:induction false} RecordedLast(pr: Codecs, ms: seq<Member>, i: nat)
    requires i < |ms| && forall j :: i < j < |ms| ==> ms[j].name != ms[i].name
    ensures ms[i].name in Recorded(pr, ms) && Recorded(pr, ms)[ms[i].name] == J.Str(pr.sha256(ms[i].content))
  {
    var last := |ms| - 1;
    if i < last {
      assert ms[..last][i] == ms[i];
      RecordedLast(pr, ms[..last], i);
    }
  }

  lemma {:induction false} TakenAreAllowed(pr: Codecs, entries: seq<Entry>, n: nat)
    requires n <= |entries|
    ensures forall i :: 0 <= i < |Taken(pr, entries, n)| ==>
              pr.releasePath(Taken(pr, entries, n)[i].name) && Taken(pr, entries, n)[i].regular
  {
    if n > 0 { TakenAreAllowed(pr, entries, n - 1); }
  }

  lemma {:induction false} DistinctNamesCount(ms: seq<Member>)
    requires DistinctNames(ms)
    ensures |NamesOf(ms)| == |ms|
  {
    if ms != [] {
      var front, last := ms[..|ms| - 1], ms[|ms| - 1];
      DistinctNamesCount(front);
      assert ms == front + [last];
      NamesOfNext(front, last);
      assert last.name !in NamesOf(front);
    }
  }

  lemma BuiltMembersValid(pr: Codecs, entries: seq<Entry>)
    ensures var ms := Taken(pr, entries, |entries|);
            ReleaseMembersValid(pr, ms, Recorded(pr, ms)) <==> DistinctNames(ms)
  {
    var ms := Taken(pr, entries, |entries|);
    var hashes := Recorded(pr, ms);
    RecordedNames(pr, ms);
    TakenAreAllowed(pr, entries, |entries|);
    assert |hashes| == |hashes.Keys|;
    if DistinctNames(ms) {
      DistinctNamesCount(ms);
      forall i | 0 <= i < |ms| ensures ms[i].name in hashes && HasDigest(pr, ms[i].content, hashes[ms[i].name]) {
        RecordedLast(pr, ms, i);
        J.EqualReflexive(hashes[ms[i].name]);
      }
    }
    if ReleaseMembersValid(pr, ms, hashes) {
      SurjectionIsInjection(ms);
    }
  }

  /**
   * The archive file built from a commit, read back against the digests recorded for it in the bundle's
   * manifest, is valid exactly when no path was taken twice.
   */
  lemma BuiltArchiveValidates(pr: Codecs, entries: seq<Entry>)
    requires var ms := Taken(pr, entries, |entries|); pr.readTar(pr.writeTar(ms)) == Some(ms)
    ensures var ms := Taken(pr, entries, |entries|);
            ReleaseValid(pr, pr.writeTar(ms), J.Obj(Recorded(pr, ms))) <==> DistinctNames(ms)
  {
    BuiltMembersValid(pr, entries);
  }

  /** The allowed paths among the first `n` entries are those taken. */
  lemma {:induction false} TakenNames(pr: Codecs, entries: seq<Entry>, n: nat, name: string)
    requires n <= |entries|
    ensures name in NamesOf(Taken(pr, entries, n))
            <==> pr.releasePath(name) && exists i :: 0 <= i < n && entries[i].path == name
  {
    if n > 0 {
      TakenNames(pr, entries, n - 1, name);
      var e := entries[n - 1];
      if pr.releasePath(e.path) {
        NamesOfNext(Taken(pr, entries, n - 1), Member(e.path, true, e.data));
      } else {
        assert Taken(pr, entries, n) == Taken(pr, entries, n - 1);
      }
    }
  }

  predicate Listed(entries: seq<Entry>, name: string) { exists i :: 0 <= i < |entries| && entries[i].path == name }

  /** When no required file is filtered out, a commit needs to list them all. */
  lemma BuildableIff(pr: Codecs, want: Wanted, entries: seq<Entry>)
    requires forall name :: name in want.required ==> pr.releasePath(name)
    ensures Buildable(pr, want, entries)
            <==> PlainWhereAllowed(pr, entries) && (forall name :: name in want.required ==> Listed(entries, name))
                 && VersionIn(pr, want, entries, |entries|).Some?
  {
    forall name | name in want.required
      ensures name in NamesOf(Taken(pr, entries, |entries|)) <==> Listed(entries, name)
    {
      TakenNames(pr, entries, |entries|, name);
    }
  }

  /**
   * Under the shipped list of allowed paths a commit can be released exactly when it lists every required
   * file, no allowed path is a link or a directory, and a version is found.
   */
  lemma ShippedReleaseBuilds(pr: Codecs, want: Wanted, entries: seq<Entry>)
    requires forall name :: pr.releasePath(name) == ReleasePolicy.ShippedPath(name)
    requires want.required == ReleasePolicy.RequiredPaths()
    ensures Buildable(pr, want, entries)
            <==> PlainWhereAllowed(pr, entries) && (forall name :: name in want.required ==> Listed(entries, name))
                 && VersionIn(pr, want, entries, |entries|).Some?
  {
    forall name | name in want.required ensures pr.releasePath(name) { ReleasePolicy.RequiredPathsAllowed(name); }
    BuildableIff(pr, want, entries);
  }
}
