/** Which texts of steps are accepted, and which steps they mean, in terms of the lines of the text alone. */
module PlaybookReadings {
  import opened Wrappers
  import Decimal
  import opened PyText
  import opened Scalars
  import opened PlaybookText

  // The values.

  /** This word, in capitals or not. */
  predicate Spells(t: string, lower: string, upper: string)
    requires |lower| == |upper|
  {
    |t| == |lower| && forall i :: 0 <= i < |t| ==> t[i] == lower[i] || t[i] == upper[i]
  }

  predicate Digits(cv: Conventions, u: string) { u != "" && forall i :: 0 <= i < |u| ==> cv.digit(u[i]).Some? }

  /** The number that digits stand for, the leading ones first. */
  function Value(cv: Conventions, u: string, lead: nat): nat
    requires u == "" || Digits(cv, u)
  {
    if u == "" then lead else Value(cv, u[1..], lead * 10 + cv.digit(u[0]).value)
  }

  /** An optional sign, and at most this many digits. */
  predicate Whole(cv: Conventions, t: string, u: string) {
    Digits(cv, u) && |u| <= 4300 && (t == u || t == "-" + u)
  }

  /** An optional sign, and digits on both sides of a point. */
  predicate Pointed(cv: Conventions, t: string, u: string, w: string) {
    Digits(cv, u) && Digits(cv, w) && (t == u + "." + w || t == "-" + (u + "." + w))
  }

  lemma WordsSpelled(t: string)
    ensures Reads(t, "true") <==> Spells(t, "true", "TRUE")
    ensures Reads(t, "false") <==> Spells(t, "false", "FALSE")
  {
  }

  lemma NullSpelled(t: string)
    ensures IsNull(t) <==> Spells(t, "none", "NONE") || Spells(t, "null", "NULL") || t == "~"
  {
    if Reads(t, "~") { assert t[0] == '~'; assert t == "~"; }
  }

  lemma {:induction false} ValueOfLast(cv: Conventions, u: string, c: char, lead: nat)
    requires (u == "" || Digits(cv, u)) && cv.digit(c).Some?
    ensures Digits(cv, u + [c]) && Value(cv, u + [c], lead) == Value(cv, u, lead) * 10 + cv.digit(c).value
  {
    if u == "" {
      assert (u + [c])[1..] == "";
    } else {
      assert (u + [c])[1..] == u[1..] + [c];
      ValueOfLast(cv, u[1..], c, lead * 10 + cv.digit(u[0]).value);
    }
  }

  lemma {:induction false} ValueIsNumber(cv: Conventions, u: string)
    requires u == "" || Digits(cv, u)
    ensures Value(cv, u, 0) == NumberOf(cv, u)
  {
    if u != "" {
      var front := u[..|u| - 1];
      assert u == front + [u[|u| - 1]];
      ValueIsNumber(cv, front);
      ValueOfLast(cv, front, u[|u| - 1], 0);
    }
  }

  lemma NoSign(cv: Conventions, u: string)
    requires PythonText(cv) && Digits(cv, u)
    ensures u[0] != '-' && u[0] != '.' && Unsigned(u) == u && Unsigned("-" + u) == u
  {
    var minus, point := '-', '.';
    assert minus as int < 128 && point as int < 128;
    assert ("-" + u)[1..] == u;
  }

  lemma WholeIsInt(cv: Conventions, t: string)
    requires PythonText(cv)
    ensures IntText(cv, t) <==> exists u :: Whole(cv, t, u)
    ensures forall u :: Whole(cv, t, u) ==>
              IntText(cv, t) && IntValue(cv, t) == if t == u then Value(cv, u, 0) else -(Value(cv, u, 0) as int)
  {
    if IntText(cv, t) {
      assert t[0] == '-' ==> t == "-" + t[1..];
      assert Whole(cv, t, Unsigned(t));
    }
    forall u | Whole(cv, t, u)
      ensures IntText(cv, t) && IntValue(cv, t) == if t == u then Value(cv, u, 0) else -(Value(cv, u, 0) as int)
    {
      NoSign(cv, u);
      ValueIsNumber(cv, u);
    }
  }

  lemma CutAtPoint(s: string, k: nat)
    requires k < |s| && s[k] == '.'
    ensures s == s[..k] + "." + s[k + 1..]
  {
  }

  lemma SignOrNone(t: string)
    ensures t == Unsigned(t) || t == "-" + Unsigned(t)
  {
    if t != "" && t[0] == '-' { assert t == [t[0]] + t[1..]; }
  }

  lemma FloatIsPointed(cv: Conventions, t: string)
    requires FloatText(cv, t)
    ensures exists u, w :: Pointed(cv, t, u, w)
  {
    var s := Unsigned(t);
    var k :| 0 <= k < |s| && s[k] == '.' && AllDigits(cv, s[..k]) && AllDigits(cv, s[k + 1..]);
    var u, w := s[..k], s[k + 1..];
    CutAtPoint(s, k);
    SignOrNone(t);
    assert Pointed(cv, t, u, w);
  }

  lemma PointedIsFloat(cv: Conventions, t: string, u: string, w: string)
    requires PythonText(cv) && Pointed(cv, t, u, w)
    ensures FloatText(cv, t)
  {
    NoSign(cv, u);
    var s := u + "." + w;
    assert s[0] == u[0] && ("-" + s)[1..] == s;
    assert Unsigned(t) == s && s[|u|] == '.' && s[..|u|] == u && s[|u| + 1..] == w;
  }

  /**
   * What a value means: true, false and three spellings of nothing in any case, at most 4300 digits with an
   * optional sign, such digits around a point, and anything else for itself without quotes at its ends.
   */
  lemma ValueReads(cv: Conventions, value: string)
    requires PythonText(cv)
    ensures var t, v := Trim(value, Space), ParseScalar(cv, value);
            (v == Bool(true) <==> Spells(t, "true", "TRUE")) && (v == Bool(false) <==> Spells(t, "false", "FALSE"))
            && (v == Null <==> Spells(t, "none", "NONE") || Spells(t, "null", "NULL") || t == "~")
            && (v.Int? <==> exists u :: Whole(cv, t, u))
            && (v.Float? <==> exists u, w :: Pointed(cv, t, u, w))
            && (forall u :: Whole(cv, t, u) ==>
                  v == Int(if t == u then Value(cv, u, 0) else -(Value(cv, u, 0) as int)))
            && (v.Float? ==> v.repr == cv.floatRepr(t))
            && (v.Str? ==> v.s == Trim(t, c => c == '"' || c == '\''))
  {
    var t := Trim(value, Space);
    WordsSpelled(t);
    NullSpelled(t);
    WholeIsInt(cv, t);
    if FloatText(cv, t) { FloatIsPointed(cv, t); }
    forall u, w | Pointed(cv, t, u, w) ensures FloatText(cv, t) { PointedIsFloat(cv, t, u, w); }
    DigitsAreNoWords(cv, t);
    QuotesTrimmed(t);
  }

  lemma {:induction false} TrimLeftAlike(s: string, p: char -> bool, q: char -> bool)
    requires forall c :: p(c) <==> q(c)
    ensures TrimLeft(s, p) == TrimLeft(s, q)
  {
    if s != "" && p(s[0]) { TrimLeftAlike(s[1..], p, q); }
  }

  lemma {:induction false} TrimRightAlike(s: string, p: char -> bool, q: char -> bool)
    requires forall c :: p(c) <==> q(c)
    ensures TrimRight(s, p) == TrimRight(s, q)
  {
    if s != "" && p(s[|s| - 1]) { TrimRightAlike(s[..|s| - 1], p, q); }
  }

  lemma QuotesTrimmed(t: string)
    ensures Trim(t, Quote) == Trim(t, c => c == '"' || c == '\'')
  {
    TrimRightAlike(t, Quote, c => c == '"' || c == '\'');
    TrimLeftAlike(TrimRight(t, Quote), Quote, c => c == '"' || c == '\'');
  }

  lemma DigitsAreNoWords(cv: Conventions, t: string)
    requires PythonText(cv)
    ensures IntText(cv, t) || FloatText(cv, t) ==> !Reads(t, "true") && !Reads(t, "false") && !IsNull(t)
    ensures !(IntText(cv, t) && FloatText(cv, t))
  {
    var point, minus := '.', '-';
    assert point as int < 128 && cv.digit(point) == None && cv.digit(minus) == None;
    if (IntText(cv, t) || FloatText(cv, t)) && t != "" {
      var last := t[|t| - 1];
      if Lower(last) == 'e' || Lower(last) == 'l' || last == '~' {
        assert last as int < 128;
        assert cv.digit(last) == None;
      }
    }
  }

  // The lines.

  /** The ten characters a text is cut at. */
  predicate Cuts(c: char) { c as int in [10, 11, 12, 13, 28, 29, 30, 0x85, 0x2028, 0x2029] }

  /** Lines with the characters they were cut at. */
  function Rejoined(ls: seq<string>, cuts: string): string
    requires |ls| == |cuts| + 1
  {
    if cuts == "" then ls[0] else ls[0] + [cuts[0]] + Rejoined(ls[1..], cuts[1..])
  }

  predicate Uncut(ls: seq<string>) { forall i, c :: 0 <= i < |ls| && c in ls[i] ==> !Cuts(c) }

  /** The lines are what stands between such characters, and nothing of a text is lost. */
  lemma {:induction false} LinesExactly(t: string) returns (cuts: string)
    ensures |Lines(t)| == |cuts| + 1 && Uncut(Lines(t)) && t == Rejoined(Lines(t), cuts)
    ensures forall c :: c in cuts ==> Cuts(c)
  {
    if t == "" {
      cuts := "";
    } else {
      var rest := LinesExactly(t[1..]);
      var ls := Lines(t[1..]);
      cuts := if Cuts(t[0]) then [t[0]] + rest else rest;
      assert t == [t[0]] + t[1..];
      if Cuts(t[0]) {
        assert ([""] + ls)[1..] == ls && cuts[1..] == rest;
      } else {
        FirstLonger(t[0], ls, rest);
      }
    }
  }

  lemma FirstLonger(c: char, ls: seq<string>, cuts: string)
    requires |ls| == |cuts| + 1
    ensures Rejoined([[c] + ls[0]] + ls[1..], cuts) == [c] + Rejoined(ls, cuts)
  {
    assert ([[c] + ls[0]] + ls[1..])[1..] == ls[1..];
    if cuts != "" {
      assert [c] + ls[0] + [cuts[0]] + Rejoined(ls[1..], cuts[1..])
          == [c] + (ls[0] + [cuts[0]] + Rejoined(ls[1..], cuts[1..]));
    }
  }

  /** The word in front of a colon, or alone, that may stand before the steps. */
  predicate Metadata(line: string) {
    exists key :: key in ["name", "description", "kind", "category", "approval"] && (line == key || key + ":" <= line)
  }

  /** A line with a field on it: no comment and no heading. */
  predicate Says(line: string) { line != "" && line[0] != '#' && line != "steps:" }

  predicate Heading(ls: seq<string>, i: nat)
    requires i < |ls|
  {
    ls[i] == "steps:"
  }

  predicate Inside(ls: seq<string>, i: nat)
    requires i <= |ls|
  {
    exists j :: 0 <= j < i && Heading(ls, j)
  }

  predicate Begins(ls: seq<string>, i: nat)
    requires i < |ls|
  {
    Inside(ls, i) && "- " <= ls[i]
  }

  /** The reason for which the parser refuses this line. */
  predicate Fault(ls: seq<string>, i: nat, why: Failure)
    requires i < |ls|
  {
    Says(ls[i])
    && match why
       case OnlyDeclarative => !Inside(ls, i) && !Metadata(ls[i])
       case KeyValueExpected => Begins(ls, i) && ':' !in ls[i]
       case FieldOutsideStep =>
         Inside(ls, i) && !Begins(ls, i) && (':' !in ls[i] || !exists j :: 0 <= j < i && Begins(ls, j))
       case _ => false
  }

  ghost predicate Faultless(ls: seq<string>, n: nat)
    requires n <= |ls|
  {
    forall i, why :: 0 <= i < n ==> !Fault(ls, i, why)
  }

  /** The field on a line, without the dash that opens a step. */
  function Field(line: string): string { if "- " <= line then Trim(line[2..], Space) else line }

  /** Its key and the text of its value, around the first colon. */
  function Key(line: string): string { Trim(Field(line)[..FirstColon(Field(line))], Space) }

  function Text(line: string): string {
    if ':' in Field(line) then Field(line)[FirstColon(Field(line)) + 1..] else ""
  }

  /** What a line says: a key and its value, or nothing. */
  datatype Entry = Nothing | Entry(key: string, value: Scalar)

  function EntryOn(cv: Conventions, line: string): Entry {
    if Says(line) then Entry(Key(line), ParseScalar(cv, Text(line))) else Nothing
  }

  function Entries(cv: Conventions, ls: seq<string>): (es: seq<Entry>)
    ensures |es| == |ls| && forall i :: 0 <= i < |ls| ==> es[i] == EntryOn(cv, ls[i])
  {
    seq(|ls|, i requires 0 <= i < |ls| => EntryOn(cv, ls[i]))
  }

  predicate Has(es: seq<Entry>, j: nat, key: string)
    requires j < |es|
  {
    es[j].Entry? && es[j].key == key
  }

  /** The last line with this key. */
  predicate LastWith(es: seq<Entry>, from: nat, to: nat, key: string, j: nat)
    requires to <= |es|
  {
    from <= j < to && Has(es, j, key) && forall i :: j < i < to ==> !Has(es, i, key)
  }

  ghost predicate Gives(es: seq<Entry>, from: nat, to: nat, key: string, v: Scalar)
    requires to <= |es|
  {
    exists j: nat :: LastWith(es, from, to, key, j) && es[j].value == v
  }

  /** A step holds the last value of each key on its lines, and no other key. */
  ghost predicate StepFrom(es: seq<Entry>, from: nat, to: nat, step: Step)
    requires to <= |es|
  {
    (forall key :: key in step ==> Gives(es, from, to, key, step[key]))
    && (forall j, key :: from <= j < to && Has(es, j, key) ==> key in step)
  }

  /** All the lines that open a step, in order. */
  predicate Openings(ls: seq<string>, n: nat, ds: seq<nat>)
    requires n <= |ls|
  {
    (forall i, j :: 0 <= i < j < |ds| ==> ds[i] < ds[j])
    && (forall i :: 0 <= i < |ds| ==> ds[i] < n && Begins(ls, ds[i]))
    && (forall j :: 0 <= j < n && Begins(ls, j) ==> j in ds)
  }

  function EndOf(ds: seq<nat>, i: nat, n: nat): nat
    requires i < |ds|
  {
    if i + 1 < |ds| then ds[i + 1] else n
  }

  /** The steps are those on the lines from each opening to the next one. */
  ghost predicate StepsOn(cv: Conventions, ls: seq<string>, n: nat, ds: seq<nat>, steps: seq<Step>)
    requires n <= |ls|
  {
    Openings(ls, n, ds) && |steps| == |ds|
    && forall i :: 0 <= i < |ds| ==> EndOf(ds, i, n) <= n && StepFrom(Entries(cv, ls), ds[i], EndOf(ds, i, n), steps[i])
  }

  function AllSteps(st: State): seq<Step> { if st.current.Some? then st.steps + [st.current.value] else st.steps }

  /** Where the parser stands after `n` lines. */
  ghost predicate Reached(cv: Conventions, ls: seq<string>, n: nat, ds: seq<nat>, st: State)
    requires n <= |ls|
  {
    st.inSteps == Inside(ls, n) && (st.current.Some? <==> ds != []) && StepsOn(cv, ls, n, ds, AllSteps(st))
  }

  predicate Stripped(ls: seq<string>) { forall i :: 0 <= i < |ls| ==> ls[i] != "" && Trimmed(ls[i], Space) }

  lemma MetadataKeys(cv: Conventions, line: string)
    requires Shipped(cv)
    ensures line[..FirstColon(line)] in cv.metadataKeys <==> Metadata(line)
  {
    var head := line[..FirstColon(line)];
    if head in cv.metadataKeys {
      assert head in ["name", "description", "kind", "category", "approval"];
      if FirstColon(line) < |line| { assert line[..|head| + 1] == head + ":"; } else { assert line == head; }
    }
    forall key | key in ["name", "description", "kind", "category", "approval"] && (line == key || key + ":" <= line)
      ensures head == key
    {
      NoColon(key);
      if line != key { assert line[|key|] == ':'; assert forall i :: 0 <= i < |key| ==> line[i] == key[i]; }
      assert FirstColon(line) == |key|;
    }
  }

  lemma NoColon(key: string)
    requires key in ["name", "description", "kind", "category", "approval"]
    ensures ':' !in key
  {
  }

  lemma DashField(line: string)
    requires "- " <= line && Trimmed(line, Space)
    ensures Says(line) && Field(line) != "" && (':' in Field(line) <==> ':' in line)
  {
    assert line[0] == '-' && line[1] == ' ';
    var i, j := TrimShape(line[2..], Space);
    if ':' in line {
      var k :| 0 <= k < |line| && line[k] == ':';
      assert line[2..][k - 2] == ':' && i <= k - 2 < j;
      assert Field(line)[k - 2 - i] == ':';
    }
  }

  lemma FirstField(es: seq<Entry>, n: nat)
    requires n < |es| && es[n].Entry?
    ensures StepFrom(es, n, n + 1, map[es[n].key := es[n].value])
  {
    assert LastWith(es, n, n + 1, es[n].key, n);
  }

  /** The value of a key stays when a line has another key or none. */
  lemma StillGives(es: seq<Entry>, from: nat, to: nat, key: string, v: Scalar)
    requires to < |es| && Gives(es, from, to, key, v) && !Has(es, to, key)
    ensures Gives(es, from, to + 1, key, v)
  {
    var j: nat :| LastWith(es, from, to, key, j) && es[j].value == v;
    assert LastWith(es, from, to + 1, key, j);
  }

  lemma NoField(es: seq<Entry>, from: nat, to: nat, step: Step)
    requires to < |es| && StepFrom(es, from, to, step) && es[to].Nothing?
    ensures StepFrom(es, from, to + 1, step)
  {
    forall key | key in step ensures Gives(es, from, to + 1, key, step[key]) {
      StillGives(es, from, to, key, step[key]);
    }
  }

  lemma NextField(es: seq<Entry>, from: nat, to: nat, step: Step)
    requires from <= to < |es| && StepFrom(es, from, to, step) && es[to].Entry?
    ensures StepFrom(es, from, to + 1, step[es[to].key := es[to].value])
  {
    var next := step[es[to].key := es[to].value];
    forall key | key in next ensures Gives(es, from, to + 1, key, next[key]) {
      if key == es[to].key {
        assert LastWith(es, from, to + 1, key, to);
      } else {
        StillGives(es, from, to, key, step[key]);
      }
    }
  }

  lemma InsideNext(ls: seq<string>, n: nat)
    requires n < |ls|
    ensures Inside(ls, n + 1) <==> Inside(ls, n) || Heading(ls, n)
  {
  }

  /** A line that opens nothing leaves the openings as they are. */
  lemma SameOpenings(ls: seq<string>, n: nat, ds: seq<nat>)
    requires n < |ls| && Openings(ls, n, ds) && !Begins(ls, n)
    ensures Openings(ls, n + 1, ds)
  {
  }

  lemma OneMoreOpening(ls: seq<string>, n: nat, ds: seq<nat>)
    requires n < |ls| && Openings(ls, n, ds) && Begins(ls, n)
    ensures Openings(ls, n + 1, ds + [n])
  {
    forall j | 0 <= j < n + 1 && Begins(ls, j) ensures j in ds + [n] { if j < n { assert j in ds; } }
  }

  /** The step on its way grows by the line, and the finished ones stay. */
  lemma StepGrows(cv: Conventions, ls: seq<string>, n: nat, ds: seq<nat>, steps: seq<Step>, last: Step)
    requires n < |ls| && StepsOn(cv, ls, n, ds, steps) && !Begins(ls, n) && ds != []
    requires StepFrom(Entries(cv, ls), ds[|ds| - 1], n + 1, last)
    ensures StepsOn(cv, ls, n + 1, ds, steps[..|steps| - 1] + [last])
  {
    SameOpenings(ls, n, ds);
    var next := steps[..|steps| - 1] + [last];
    forall i | 0 <= i < |ds|
      ensures EndOf(ds, i, n + 1) <= n + 1 && StepFrom(Entries(cv, ls), ds[i], EndOf(ds, i, n + 1), next[i])
    {
      assert EndOf(ds, i, n) <= n && StepFrom(Entries(cv, ls), ds[i], EndOf(ds, i, n), steps[i]);
    }
  }

  lemma StepOpens(cv: Conventions, ls: seq<string>, n: nat, ds: seq<nat>, steps: seq<Step>, first: Step)
    requires n < |ls| && StepsOn(cv, ls, n, ds, steps) && Begins(ls, n) && StepFrom(Entries(cv, ls), n, n + 1, first)
    ensures StepsOn(cv, ls, n + 1, ds + [n], steps + [first])
  {
    OneMoreOpening(ls, n, ds);
    var more, next := ds + [n], steps + [first];
    forall i | 0 <= i < |more|
      ensures EndOf(more, i, n + 1) <= n + 1 && StepFrom(Entries(cv, ls), more[i], EndOf(more, i, n + 1), next[i])
    {
      if i < |ds| {
        assert EndOf(ds, i, n) <= n && StepFrom(Entries(cv, ls), ds[i], EndOf(ds, i, n), steps[i]);
        assert EndOf(more, i, n + 1) == EndOf(ds, i, n);
      }
    }
  }

  lemma Opened(ls: seq<string>, n: nat, ds: seq<nat>)
    requires n <= |ls| && Openings(ls, n, ds)
    ensures ds != [] <==> exists j :: 0 <= j < n && Begins(ls, j)
  {
    if ds != [] { assert Begins(ls, ds[0]); }
  }

  /** A comment or heading. */
  lemma ReadNothing(cv: Conventions, ls: seq<string>, n: nat, ds: seq<nat>, st: State)
    requires n < |ls| && Reached(cv, ls, n, ds, st) && ls[n] != "" && !Says(ls[n])
    ensures Reached(cv, ls, n + 1, ds, if ls[n] == "steps:" then st.(inSteps := true) else st)
  {
    InsideNext(ls, n);
    if ls[n] == "steps:" { assert ls[n][0] == 's'; }
    assert !Begins(ls, n);
    SameOpenings(ls, n, ds);
    var steps := AllSteps(st);
    if ds != [] {
      var last := |ds| - 1;
      assert EndOf(ds, last, n) == n && StepFrom(Entries(cv, ls), ds[last], EndOf(ds, last, n), steps[last]);
      NoField(Entries(cv, ls), ds[last], n, steps[last]);
      StepGrows(cv, ls, n, ds, steps, steps[last]);
      assert steps[..last] + [steps[last]] == steps;
    }
  }

  /** A line before the steps. */
  lemma ReadOutside(cv: Conventions, ls: seq<string>, n: nat, ds: seq<nat>, st: State)
    requires n < |ls| && Reached(cv, ls, n, ds, st) && Says(ls[n]) && !st.inSteps
    ensures Reached(cv, ls, n + 1, ds, st)
  {
    InsideNext(ls, n);
    SameOpenings(ls, n, ds);
    Opened(ls, n, ds);
  }

  /** A line that opens a step. */
  lemma ReadOpening(cv: Conventions, ls: seq<string>, n: nat, ds: seq<nat>, st: State)
    requires n < |ls| && Reached(cv, ls, n, ds, st) && Begins(ls, n) && Stripped(ls) && ':' in ls[n]
    ensures Says(ls[n]) && Feed(cv, st, ls[n]).Ok? && Reached(cv, ls, n + 1, ds + [n], Feed(cv, st, ls[n]).value)
  {
    DashField(ls[n]);
    InsideNext(ls, n);
    FirstField(Entries(cv, ls), n);
    StepOpens(cv, ls, n, ds, AllSteps(st), map[Key(ls[n]) := ParseScalar(cv, Text(ls[n]))]);
    Closes(cv, ls, n, ds, st);
    assert AllSteps(Feed(cv, st, ls[n]).value) == AllSteps(st) + [map[Key(ls[n]) := ParseScalar(cv, Text(ls[n]))]];
  }

  /** A step on its way is never empty: its opening line has a field. */
  lemma Closes(cv: Conventions, ls: seq<string>, n: nat, ds: seq<nat>, st: State)
    requires n <= |ls| && Reached(cv, ls, n, ds, st) && Stripped(ls)
    ensures Close(st) == AllSteps(st)
  {
    if ds != [] {
      var last := |ds| - 1;
      var d := ds[last];
      assert Begins(ls, d);
      DashField(ls[d]);
      assert EndOf(ds, last, n) == n && StepFrom(Entries(cv, ls), d, n, AllSteps(st)[last]);
      assert Has(Entries(cv, ls), d, Key(ls[d])) && Key(ls[d]) in AllSteps(st)[last];
    }
  }

  lemma FeedEntry(cv: Conventions, st: State, line: string)
    requires Says(line) && st.inSteps && !("- " <= line) && st.current.Some? && ':' in line
    ensures Feed(cv, st, line)
         == Ok(st.(current := Some(st.current.value[Key(line) := ParseScalar(cv, Text(line))])))
  {
  }

  /** A line with a further field of the step. */
  lemma ReadField(cv: Conventions, ls: seq<string>, n: nat, ds: seq<nat>, st: State, e: Entry)
    requires n < |ls| && Reached(cv, ls, n, ds, st) && st.current.Some? && !Begins(ls, n)
    requires Entries(cv, ls)[n] == e && e.Entry? && !Heading(ls, n)
    ensures Reached(cv, ls, n + 1, ds, st.(current := Some(st.current.value[e.key := e.value])))
  {
    InsideNext(ls, n);
    var es, steps, last := Entries(cv, ls), AllSteps(st), |ds| - 1;
    assert EndOf(ds, last, n) == n && StepFrom(es, ds[last], EndOf(ds, last, n), steps[last]);
    NextField(es, ds[last], n, steps[last]);
    StepGrows(cv, ls, n, ds, steps, steps[last][e.key := e.value]);
    assert steps[..last] == st.steps && steps[last] == st.current.value;
  }

  /** One line: refused for its own fault, or read. */
  lemma ReadLine(cv: Conventions, ls: seq<string>, n: nat, ds: seq<nat>, st: State) returns (more: seq<nat>)
    requires Shipped(cv) && Stripped(ls) && n < |ls| && Reached(cv, ls, n, ds, st)
    ensures match Feed(cv, st, ls[n])
            case Err(e) => Fault(ls, n, e)
            case Ok(next) => (forall why :: !Fault(ls, n, why)) && Reached(cv, ls, n + 1, more, next)
  {
    more := ds;
    var line := ls[n];
    if !Says(line) {
      ReadNothing(cv, ls, n, ds, st);
    } else if !st.inSteps {
      MetadataKeys(cv, line);
      ReadOutside(cv, ls, n, ds, st);
    } else if "- " <= line {
      DashField(line);
      if ':' in line {
        ReadOpening(cv, ls, n, ds, st);
        more := ds + [n];
      }
    } else {
      Opened(ls, n, ds);
      if st.current.Some? && ':' in line {
        FeedEntry(cv, st, line);
        ReadField(cv, ls, n, ds, st, EntryOn(cv, line));
      }
    }
  }

  /** A line with a fault, and none before it. */
  ghost predicate FirstFault(ls: seq<string>, why: Failure) {
    exists i: nat :: i < |ls| && Fault(ls, i, why) && Faultless(ls, i)
  }

  lemma NextFault(ls: seq<string>, n: nat)
    requires n < |ls| && Faultless(ls, n)
    ensures (forall why :: !Fault(ls, n, why)) ==> Faultless(ls, n + 1)
    ensures forall why :: Fault(ls, n, why) ==> FirstFault(ls, why)
  {
  }

  lemma FoldStops(cv: Conventions, ls: seq<string>, n: nat)
    requires n < |ls| && NonEmpty(ls)
    ensures Fold(cv, ls[..n], START).Err? ==> Fold(cv, ls[..n + 1], START) == Fold(cv, ls[..n], START)
    ensures Fold(cv, ls[..n], START).Ok? ==>
              Fold(cv, ls[..n + 1], START) == Feed(cv, Fold(cv, ls[..n], START).value, ls[n])
  {
    assert ls[..n + 1] == ls[..n] + [ls[n]];
    FoldConcat(cv, ls[..n], [ls[n]], START);
    assert [ls[n]][1..] == [];
  }

  /** What becomes of the first `n` lines: the first fault is reported, or the steps on them are found. */
  ghost predicate ReadTo(cv: Conventions, ls: seq<string>, n: nat, ds: seq<nat>, r: Result<State, Failure>)
    requires n <= |ls|
  {
    match r
    case Err(why) => FirstFault(ls, why)
    case Ok(st) => Faultless(ls, n) && Reached(cv, ls, n, ds, st)
  }

  lemma ReadMore(cv: Conventions, ls: seq<string>, n: nat, ds: seq<nat>, st: State) returns (more: seq<nat>)
    requires Shipped(cv) && Stripped(ls) && n < |ls| && ReadTo(cv, ls, n, ds, Ok(st))
    ensures ls[n] != "" && ReadTo(cv, ls, n + 1, more, Feed(cv, st, ls[n]))
  {
    more := ReadLine(cv, ls, n, ds, st);
    NextFault(ls, n);
  }

  lemma {:induction false} ReadLines(cv: Conventions, ls: seq<string>, n: nat) returns (ds: seq<nat>)
    requires Shipped(cv) && Stripped(ls) && n <= |ls| && NonEmpty(ls)
    ensures ReadTo(cv, ls, n, ds, Fold(cv, ls[..n], START))
  {
    if n == 0 {
      ds := [];
    } else {
      ds := ReadLines(cv, ls, n - 1);
      FoldStops(cv, ls, n - 1);
      if Fold(cv, ls[..n - 1], START).Ok? { ds := ReadMore(cv, ls, n - 1, ds, Fold(cv, ls[..n - 1], START).value); }
    }
  }

  /** A word that looks like a command stands here, as a word of its own. */
  predicate CommandAt(cv: Conventions, t: string, i: nat, w: string) {
    i <= |t| && w in ["shell", "script", "python", "exec", "subprocess", "curl", "wget", "bash", "sh"]
    && w <= t[i..] && (i > 0 ==> Space(t[i - 1])) && (i + |w| < |t| ==> !cv.word(t[i + |w|]))
  }

  /** What a text of steps must not contain: such a word, or a character of the shell. */
  ghost predicate Dangerous(cv: Conventions, t: string) {
    (exists i: nat, w :: CommandAt(cv, t, i, w))
    || ';' in t || '&' in t || '|' in t || '<' in t || '>' in t || '`' in t || '$' in t
  }

  lemma ForbiddenIsCommand(cv: Conventions, t: string, i: nat)
    requires Shipped(cv) && i <= |t|
    ensures ForbiddenAt(cv, t, i) <==> exists w :: CommandAt(cv, t, i, w)
  {
    if ForbiddenAt(cv, t, i) {
      var w :| w in cv.forbiddenWords && w <= t[i..] && (i + |w| == |t| || !cv.word(t[i + |w|]));
      assert CommandAt(cv, t, i, w);
    }
    if w :| CommandAt(cv, t, i, w) {
      assert w in cv.forbiddenWords;
    }
  }

  lemma CharsForbidden(t: string)
    ensures (exists c :: c in t && c in FORBIDDEN_CHARS)
            <==> ';' in t || '&' in t || '|' in t || '<' in t || '>' in t || '`' in t || '$' in t
  {
    var chars := [';', '&', '|', '<', '>', '`', '$'];
    assert forall c :: c in FORBIDDEN_CHARS <==> c in chars;
    if exists i :: 0 <= i < 7 && chars[i] in t {
      var i :| 0 <= i < 7 && chars[i] in t;
      assert chars[i] in FORBIDDEN_CHARS;
    }
    assert chars[0] == ';' && chars[1] == '&' && chars[2] == '|' && chars[3] == '<' && chars[4] == '>'
        && chars[5] == '`' && chars[6] == '$';
  }

  lemma DangerousIsForbidden(cv: Conventions, t: string)
    requires Shipped(cv)
    ensures Forbidden(cv, t) <==> Dangerous(cv, t)
  {
    if i :| 0 <= i <= |t| && ForbiddenAt(cv, t, i) {
      ForbiddenIsCommand(cv, t, i);
    }
    if i: nat, w :| CommandAt(cv, t, i, w) {
      ForbiddenIsCommand(cv, t, i);
    }
    CharsForbidden(t);
  }

  /** The actions a step may have. */
  predicate Acts(step: Step) {
    "action" in step && step["action"].Str?
    && Trim(step["action"].s, Space)
       in ["review_evidence", "record_note", "request_approval", "create_report", "close_incident"]
  }

  ghost predicate StepsMeant(cv: Conventions, ls: seq<string>, steps: seq<Step>) {
    exists ds :: StepsOn(cv, ls, |ls|, ds, steps)
  }

  lemma OneValue(es: seq<Entry>, from: nat, to: nat, key: string, v: Scalar, w: Scalar)
    requires to <= |es| && Gives(es, from, to, key, v) && Gives(es, from, to, key, w)
    ensures v == w
  {
    var i: nat :| LastWith(es, from, to, key, i) && es[i].value == v;
    var j: nat :| LastWith(es, from, to, key, j) && es[j].value == w;
  }

  lemma HasKey(es: seq<Entry>, from: nat, to: nat, step: Step, key: string)
    requires to <= |es| && StepFrom(es, from, to, step)
    ensures key in step <==> exists j: nat :: from <= j < to && Has(es, j, key)
  {
    if key in step {
      var j: nat :| LastWith(es, from, to, key, j) && es[j].value == step[key];
    }
  }

  /** The same lines mean one step only. */
  lemma OneMeaning(es: seq<Entry>, from: nat, to: nat, a: Step, b: Step)
    requires to <= |es| && StepFrom(es, from, to, a) && StepFrom(es, from, to, b)
    ensures a == b
  {
    forall key ensures key in a <==> key in b {
      HasKey(es, from, to, a, key);
      HasKey(es, from, to, b, key);
    }
    forall key | key in a ensures a[key] == b[key] { OneValue(es, from, to, key, a[key], b[key]); }
  }

  lemma ActsIsAllowed(cv: Conventions, step: Step)
    requires Shipped(cv)
    ensures AllowedAction(cv, step) <==> Acts(step)
  {
  }

  /** What becomes of the lines of a text. */
  ghost predicate LinesMean(cv: Conventions, ls: seq<string>, r: Result<seq<Step>, Failure>) {
    match r
    case Err(StepsRequired) => false
    case Err(ForbiddenContent) => false
    case Err(NoSteps) => Faultless(ls, |ls|) && StepsMeant(cv, ls, [])
    case Err(UnsupportedAction) =>
      Faultless(ls, |ls|) && exists steps :: StepsMeant(cv, ls, steps) && exists step :: step in steps && !Acts(step)
    case Err(why) => FirstFault(ls, why)
    case Ok(steps) =>
      Faultless(ls, |ls|) && StepsMeant(cv, ls, steps) && steps != [] && forall step :: step in steps ==> Acts(step)
  }

  lemma ActsAreAllowed(cv: Conventions, steps: seq<Step>)
    requires Shipped(cv)
    ensures ActionsAllowed(cv, steps) <==> forall step :: step in steps ==> Acts(step)
  {
    forall step | step in steps ensures AllowedAction(cv, step) <==> Acts(step) { ActsIsAllowed(cv, step); }
  }

  /** What the parser makes of the state behind the last line. */
  lemma StateMeans(cv: Conventions, ls: seq<string>, ds: seq<nat>, st: State)
    requires Shipped(cv) && Stripped(ls) && ReadTo(cv, ls, |ls|, ds, Ok(st))
    ensures Close(st) == [] ==> LinesMean(cv, ls, Err(NoSteps))
    ensures !ActionsAllowed(cv, Close(st)) ==> LinesMean(cv, ls, Err(UnsupportedAction))
    ensures Close(st) != [] && ActionsAllowed(cv, Close(st)) ==> LinesMean(cv, ls, Ok(Close(st)))
  {
    Closes(cv, ls, |ls|, ds, st);
    ActsAreAllowed(cv, Close(st));
    assert StepsMeant(cv, ls, Close(st));
  }

  lemma LinesRead(cv: Conventions, ls: seq<string>)
    requires Shipped(cv) && Stripped(ls) && NonEmpty(ls)
    ensures LinesMean(cv, ls, ParsedLines(cv, ls))
  {
    var ds := ReadLines(cv, ls, |ls|);
    assert ls[..|ls|] == ls;
    if Fold(cv, ls, START).Ok? { StateMeans(cv, ls, ds, Fold(cv, ls, START).value); }
  }

  /**
   * A text is refused when it is empty, for what looks like a command, for the first line with a fault, for
   * having no steps or for a step without an allowed action; otherwise it means the steps on its lines.
   */
  lemma TextReads(cv: Conventions, text: string)
    requires Shipped(cv)
    ensures var t := Trim(text, Space);
            match ParsedSteps(cv, text)
            case Err(StepsRequired) => t == ""
            case Err(ForbiddenContent) => t != "" && Dangerous(cv, t)
            case r => t != "" && !Dangerous(cv, t) && LinesMean(cv, Clean(Lines(t)), r)
  {
    var t := Trim(text, Space);
    DangerousIsForbidden(cv, t);
    LinesAreLines(t);
    CleanLinesAreLines(Lines(t));
    LinesRead(cv, Clean(Lines(t)));
  }

  lemma FirstIn(b: seq<nat>)
    ensures b != [] ==> b[0] in b
  {
  }

  lemma {:induction false} OneOrder(a: seq<nat>, b: seq<nat>)
    requires (forall i, j :: 0 <= i < j < |a| ==> a[i] < a[j]) && (forall i, j :: 0 <= i < j < |b| ==> b[i] < b[j])
    requires forall x :: x in a <==> x in b
    ensures a == b
  {
    if a == [] {
      FirstIn(b);
    } else {
      assert a[0] in b;
      assert b[0] in a;
      assert a[0] == b[0];
      forall x ensures x in a[1..] <==> x in b[1..] {
        assert x in a[1..] <==> x in a && x != a[0];
        assert x in b[1..] <==> x in b && x != b[0];
      }
      OneOrder(a[1..], b[1..]);
    }
  }

  lemma OneOpenings(ls: seq<string>, n: nat, ds: seq<nat>, es: seq<nat>)
    requires n <= |ls| && Openings(ls, n, ds) && Openings(ls, n, es)
    ensures ds == es
  {
    forall x ensures x in ds <==> x in es {
      if x in ds { assert Begins(ls, x); }
      if x in es { assert Begins(ls, x); }
    }
    OneOrder(ds, es);
  }

  lemma OneStepOn(cv: Conventions, ls: seq<string>, n: nat, ds: seq<nat>, a: seq<Step>, b: seq<Step>, i: nat)
    requires n <= |ls| && StepsOn(cv, ls, n, ds, a) && StepsOn(cv, ls, n, ds, b) && i < |ds|
    ensures a[i] == b[i]
  {
    OneMeaning(Entries(cv, ls), ds[i], EndOf(ds, i, n), a[i], b[i]);
  }

  /** The lines of a text mean one list of steps only. */
  lemma OneReading(cv: Conventions, ls: seq<string>, a: seq<Step>, b: seq<Step>)
    requires StepsMeant(cv, ls, a) && StepsMeant(cv, ls, b)
    ensures a == b
  {
    var ds :| StepsOn(cv, ls, |ls|, ds, a);
    var es :| StepsOn(cv, ls, |ls|, es, b);
    OneOpenings(ls, |ls|, ds, es);
    forall i | 0 <= i < |a| ensures a[i] == b[i] { OneStepOn(cv, ls, |ls|, ds, a, b, i); }
  }

  // The printed text.

  /** One text stands before another: it is its beginning, or has the smaller character where they first differ. */
  predicate Before(a: string, b: string) {
    a != b && (a <= b || exists i :: 0 <= i < |a| && i < |b| && a[..i] == b[..i] && a[i] < b[i])
  }

  lemma {:induction false} BeforeIsLess(a: string, b: string)
    ensures Leq(a, b) && a != b <==> Before(a, b)
  {
    if a != "" && b != "" && a[0] == b[0] {
      BeforeIsLess(a[1..], b[1..]);
      assert a == b <==> a[1..] == b[1..] by { assert a == [a[0]] + a[1..] && b == [b[0]] + b[1..]; }
      if i :| 0 <= i < |a| && i < |b| && a[..i] == b[..i] && a[i] < b[i] {
        assert a[1..][..i - 1] == a[..i][1..] && b[1..][..i - 1] == b[..i][1..];
      }
      if i :| 0 <= i < |a[1..]| && i < |b[1..]| && a[1..][..i] == b[1..][..i] && a[1..][i] < b[1..][i] {
        assert a[..i + 1] == [a[0]] + a[1..][..i] && b[..i + 1] == [b[0]] + b[1..][..i];
      }
    } else if a != "" && b != "" {
      assert a[..0] == b[..0];
    }
  }

  function Shown(v: Scalar): string {
    match v
    case Null => ""
    case Bool(true) => "true"
    case Bool(false) => "false"
    case Int(n) => (if n < 0 then "-" else "") + Decimal.Numeral(if n < 0 then -n else n)
    case Float(repr) => repr
    case Str(text) => text
  }

  /** These keys are in order, and none but the action's is missing. */
  predicate OtherKeys(step: Step, keys: seq<string>) {
    (forall i, j :: 0 <= i < j < |keys| ==> Before(keys[i], keys[j]))
    && forall key :: key in step ==> key == "action" || key in keys
  }

  /** The lines of one step. */
  function StepText(step: Step, keys: seq<string>): seq<string>
    requires HasAction(step) && FieldsOf(keys, step)
  {
    ["  - action: " + step["action"].s]
    + seq(|keys|, i requires 0 <= i < |keys| => "    " + keys[i] + ": " + Shown(step[keys[i]]))
  }

  lemma KeysAreOther(step: Step, keys: seq<string>)
    requires HasAction(step) && FieldsOf(keys, step) && OtherKeys(step, keys)
    ensures keys == FieldKeys(step)
  {
    forall i, j | 0 <= i < j < |keys| ensures Leq(keys[i], keys[j]) && keys[i] != keys[j] {
      BeforeIsLess(keys[i], keys[j]);
    }
    forall key ensures key in keys <==> key in step.Keys - {"action"} {
      if key in keys { var i :| 0 <= i < |keys| && keys[i] == key; }
    }
    SortedIsOnly(step.Keys - {"action"}, keys);
  }

  lemma FieldLineIs(step: Step, key: string)
    requires key in step
    ensures FieldLine(step, key) == "    " + key + ": " + Shown(step[key])
  {
  }

  function FieldLines(step: Step, keys: seq<string>, n: nat): seq<string>
    requires FieldsOf(keys, step) && n <= |keys|
  {
    seq(n, i requires 0 <= i < n => FieldLine(step, keys[i]))
  }

  lemma {:induction false} StepLinesAre(step: Step, keys: seq<string>, n: nat)
    requires HasAction(step) && FieldsOf(keys, step) && n <= |keys|
    ensures StepLines(step, keys, n) == StepLines(step, keys, 0) + FieldLines(step, keys, n)
  {
    if n > 0 {
      StepLinesAre(step, keys, n - 1);
      assert FieldLines(step, keys, n) == FieldLines(step, keys, n - 1) + [FieldLine(step, keys[n - 1])];
    }
  }

  lemma StepTextIs(step: Step, keys: seq<string>)
    requires HasAction(step) && FieldsOf(keys, step)
    ensures StepLines(step, keys, |keys|) == StepText(step, keys)
  {
    StepLinesAre(step, keys, |keys|);
    var fields := seq(|keys|, i requires 0 <= i < |keys| => "    " + keys[i] + ": " + Shown(step[keys[i]]));
    forall i | 0 <= i < |keys| ensures FieldLines(step, keys, |keys|)[i] == fields[i] { FieldLineIs(step, keys[i]); }
    assert FieldLines(step, keys, |keys|) == fields;
  }

  /** The heading and the lines of the steps, in order. */
  function StepsText(steps: seq<Step>, keys: seq<seq<string>>): seq<string>
    requires HaveActions(steps) && |keys| == |steps|
    requires forall i :: 0 <= i < |steps| ==> FieldsOf(keys[i], steps[i])
  {
    if steps == [] then ["steps:"]
    else
      var n := |steps| - 1;
      StepsText(steps[..n], keys[..n]) + StepText(steps[n], keys[n])
  }

  lemma {:induction false} StepsTextIs(steps: seq<Step>, keys: seq<seq<string>>, n: nat)
    requires HaveActions(steps) && |keys| == |steps| && n <= |steps| && Orders(FieldKeys, steps)
    requires forall i :: 0 <= i < |steps| ==> FieldsOf(keys[i], steps[i]) && OtherKeys(steps[i], keys[i])
    ensures CanonicalLines(FieldKeys, steps, n) == StepsText(steps[..n], keys[..n])
  {
    if n > 0 {
      StepsTextIs(steps, keys, n - 1);
      assert steps[..n][..n - 1] == steps[..n - 1] && keys[..n][..n - 1] == keys[..n - 1];
      KeysAreOther(steps[n - 1], keys[n - 1]);
      StepTextIs(steps[n - 1], keys[n - 1]);
    }
  }

  /** The stored text: a heading, and for each step its action and its other fields in the order of their keys. */
  lemma CanonicalSays(steps: seq<Step>, keys: seq<seq<string>>)
    requires HaveActions(steps) && |keys| == |steps|
    requires forall i :: 0 <= i < |steps| ==> FieldsOf(keys[i], steps[i]) && OtherKeys(steps[i], keys[i])
    ensures Canonical(steps) == JoinLines(StepsText(steps, keys))
  {
    StepsTextIs(steps, keys, |steps|);
    assert steps[..|steps|] == steps && keys[..|steps|] == keys;
  }
}
