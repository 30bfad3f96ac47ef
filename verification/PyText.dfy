/** Python's `strip`, `splitlines` and lexicographic order on strings. */
module PyText {
  /** The characters `str.strip()` removes and `\s` matches. */
  predicate Space(c: char) {
    var n := c as int;
    9 <= n <= 13 || 28 <= n <= 32 || n == 0x85 || n == 0xA0 || n == 0x1680 || 0x2000 <= n <= 0x200A
    || n == 0x2028 || n == 0x2029 || n == 0x202F || n == 0x205F || n == 0x3000
  }

  /** The characters `str.splitlines()` breaks at. */
  predicate LineBreak(c: char)
    ensures LineBreak(c) ==> Space(c)
  {
    var n := c as int;
    10 <= n <= 13 || 28 <= n <= 30 || n == 0x85 || n == 0x2028 || n == 0x2029
  }

  predicate OneLine(s: string) { forall i :: 0 <= i < |s| ==> !LineBreak(s[i]) }

  function TrimLeft(s: string, p: char -> bool): string {
    if s != "" && p(s[0]) then TrimLeft(s[1..], p) else s
  }

  function TrimRight(s: string, p: char -> bool): string {
    if s != "" && p(s[|s| - 1]) then TrimRight(s[..|s| - 1], p) else s
  }

  function Trim(s: string, p: char -> bool): string { TrimLeft(TrimRight(s, p), p) }

  /** Neither end is a character to be removed. */
  predicate Trimmed(s: string, p: char -> bool) { s == "" || (!p(s[0]) && !p(s[|s| - 1])) }

  lemma {:induction false} TrimLeftShape(s: string, p: char -> bool) returns (k: nat)
    ensures k <= |s| && TrimLeft(s, p) == s[k..] && forall i :: 0 <= i < k ==> p(s[i])
    ensures TrimLeft(s, p) != "" ==> !p(TrimLeft(s, p)[0])
  {
    if s != "" && p(s[0]) {
      k := TrimLeftShape(s[1..], p);
      k := k + 1;
    } else {
      k := 0;
    }
  }

  lemma {:induction false} TrimRightShape(s: string, p: char -> bool) returns (k: nat)
    ensures k <= |s| && TrimRight(s, p) == s[..k] && forall i :: k <= i < |s| ==> p(s[i])
    ensures k > 0 ==> !p(s[k - 1])
  {
    if s != "" && p(s[|s| - 1]) {
      k := TrimRightShape(s[..|s| - 1], p);
    } else {
      k := |s|;
    }
  }

  /** `strip` cuts off an end on each side and leaves a string with trimmed ends. */
  lemma TrimShape(s: string, p: char -> bool) returns (i: nat, j: nat)
    ensures i <= j <= |s| && Trim(s, p) == s[i..j] && Trimmed(Trim(s, p), p)
    ensures (forall k :: 0 <= k < i ==> p(s[k])) && forall k :: j <= k < |s| ==> p(s[k])
  {
    j := TrimRightShape(s, p);
    i := TrimLeftShape(s[..j], p);
    if i < j {
      assert Trim(s, p)[|Trim(s, p)| - 1] == s[j - 1];
    }
  }

  /** Only a string with trimmed ends is its own `strip`. */
  lemma TrimFixed(s: string, p: char -> bool)
    ensures Trim(s, p) == s <==> Trimmed(s, p)
  {
    var i, j := TrimShape(s, p);
  }

  lemma TrimIdempotent(s: string, p: char -> bool)
    ensures Trim(Trim(s, p), p) == Trim(s, p)
  {
    var i, j := TrimShape(s, p);
    TrimFixed(Trim(s, p), p);
  }

  lemma TrimAppend(s: string, c: char, p: char -> bool)
    requires p(c)
    ensures Trim(s + [c], p) == Trim(s, p)
  {
    assert (s + [c])[..|s|] == s;
  }

  lemma {:induction false} TrimRightCons(c: char, s: string, p: char -> bool)
    ensures TrimRight([c] + s, p) == if TrimRight(s, p) == "" && p(c) then "" else [c] + TrimRight(s, p)
  {
    if s == "" {
      assert [c] + s == [c];
      assert [c][..0] == "";
    } else if p(s[|s| - 1]) {
      assert ([c] + s)[..|s|] == [c] + s[..|s| - 1];
      TrimRightCons(c, s[..|s| - 1], p);
    }
  }

  lemma TrimCons(c: char, s: string, p: char -> bool)
    requires p(c)
    ensures Trim([c] + s, p) == Trim(s, p)
  {
    TrimRightCons(c, s, p);
    if TrimRight(s, p) != "" {
      assert ([c] + TrimRight(s, p))[1..] == TrimRight(s, p);
    }
  }

  /**
   * The lines of a text. A carriage return and line feed count as two breaks here, which only adds
   * an empty line, and an empty line at the end is kept; the parser skips empty lines.
   */
  function Lines(t: string): (ls: seq<string>)
    ensures |ls| > 0
  {
    if t == "" then [""] else Prepended(t[0], Lines(t[1..]))
  }

  /** The lines of a text one character longer, at the front or at the back. */
  function Prepended(c: char, ls: seq<string>): (r: seq<string>)
    requires |ls| > 0
    ensures |r| > 0
  {
    if LineBreak(c) then [""] + ls else [[c] + ls[0]] + ls[1..]
  }

  function Extended(ls: seq<string>, c: char): (r: seq<string>)
    requires |ls| > 0
    ensures |r| > 0
  {
    if LineBreak(c) then ls + [""] else ls[..|ls| - 1] + [ls[|ls| - 1] + [c]]
  }

  lemma EndsCommute(d: char, ls: seq<string>, c: char)
    requires |ls| > 0
    ensures Extended(Prepended(d, ls), c) == Prepended(d, Extended(ls, c))
  {
    var a, b := Extended(Prepended(d, ls), c), Prepended(d, Extended(ls, c));
    if !LineBreak(d) && !LineBreak(c) && |ls| == 1 {
      assert a == [([d] + ls[0]) + [c]] && b == [[d] + (ls[0] + [c])];
      assert ([d] + ls[0]) + [c] == [d] + (ls[0] + [c]);
    } else {
      assert |a| == |b|;
      assert forall i :: 0 <= i < |a| ==> a[i] == b[i];
    }
  }

  predicate NonEmpty(ls: seq<string>) { forall i :: 0 <= i < |ls| ==> ls[i] != "" }

  /** The stripped lines that are not empty. */
  function Clean(ls: seq<string>): (r: seq<string>)
    ensures NonEmpty(r)
  {
    if ls == [] then [] else CleanLine(ls[0]) + Clean(ls[1..])
  }

  function CleanLine(l: string): seq<string> { if Trim(l, Space) == "" then [] else [Trim(l, Space)] }

  lemma {:induction false} CleanConcat(a: seq<string>, b: seq<string>)
    ensures Clean(a + b) == Clean(a) + Clean(b)
  {
    if a == [] {
      assert a + b == b;
    } else {
      assert (a + b)[1..] == a[1..] + b;
      CleanConcat(a[1..], b);
    }
  }

  lemma {:induction false} LinesAppend(t: string, c: char)
    ensures Lines(t + [c]) == Extended(Lines(t), c)
  {
    if t == "" {
      assert t + [c] == [c];
      assert [c][1..] == "";
      assert Lines([c]) == Prepended(c, [""]);
      assert [c] + "" == "" + [c];
      assert Prepended(c, [""]) == Extended([""], c);
    } else {
      assert (t + [c])[0] == t[0];
      assert (t + [c])[1..] == t[1..] + [c];
      LinesAppend(t[1..], c);
      EndsCommute(t[0], Lines(t[1..]), c);
    }
  }

  lemma CleanFront(t: string, c: char)
    requires Space(c)
    ensures Clean(Lines([c] + t)) == Clean(Lines(t))
  {
    assert ([c] + t)[1..] == t;
    var rest := Lines(t);
    if LineBreak(c) {
      assert ([""] + rest)[1..] == rest;
    } else {
      TrimCons(c, rest[0], Space);
    }
  }

  lemma CleanBack(t: string, c: char)
    requires Space(c)
    ensures Clean(Lines(t + [c])) == Clean(Lines(t))
  {
    LinesAppend(t, c);
    var ls := Lines(t);
    var front, last := ls[..|ls| - 1], ls[|ls| - 1];
    if LineBreak(c) {
      CleanConcat(ls, [""]);
    } else {
      assert ls == front + [last];
      CleanConcat(front, [last]);
      CleanConcat(front, [last + [c]]);
      TrimAppend(last, c, Space);
      assert CleanLine(last) == CleanLine(last + [c]);
      assert [last][1..] == [] && [last + [c]][1..] == [];
    }
  }

  /** Stripping a text loses only empty lines and the outer space of lines. */
  lemma CleanOfTrim(t: string)
    ensures Clean(Lines(Trim(t, Space))) == Clean(Lines(t))
  {
    CleanOfTrimRight(t);
    CleanOfTrimLeft(TrimRight(t, Space));
  }

  lemma {:induction false} CleanOfTrimLeft(t: string)
    ensures Clean(Lines(TrimLeft(t, Space))) == Clean(Lines(t))
  {
    if t != "" && Space(t[0]) {
      CleanOfTrimLeft(t[1..]);
      assert [t[0]] + t[1..] == t;
      CleanFront(t[1..], t[0]);
    }
  }

  lemma {:induction false} CleanOfTrimRight(t: string)
    ensures Clean(Lines(TrimRight(t, Space))) == Clean(Lines(t))
  {
    if t != "" && Space(t[|t| - 1]) {
      var front := t[..|t| - 1];
      CleanOfTrimRight(front);
      assert front + [t[|t| - 1]] == t;
      CleanBack(front, t[|t| - 1]);
    }
  }

  /** Lines written out, each ended by a line feed. */
  function JoinLines(ls: seq<string>): string {
    if ls == [] then "" else ls[0] + "\n" + JoinLines(ls[1..])
  }

  lemma {:induction false} LinesConcat(a: string, b: string)
    requires OneLine(a)
    ensures Lines(a + "\n" + b) == [a] + Lines(b)
  {
    var t := a + "\n" + b;
    if a == "" {
      assert t[1..] == b;
    } else {
      assert t[1..] == a[1..] + "\n" + b;
      LinesConcat(a[1..], b);
      assert [a[0]] + a[1..] == a;
    }
  }

  /** Reading back lines that were written out. */
  lemma {:induction false} CleanOfJoin(ls: seq<string>)
    requires forall i :: 0 <= i < |ls| ==> OneLine(ls[i])
    ensures Clean(Lines(JoinLines(ls))) == Clean(ls)
  {
    if ls != [] {
      CleanOfJoin(ls[1..]);
      LinesConcat(ls[0], JoinLines(ls[1..]));
      CleanConcat([ls[0]], Lines(JoinLines(ls[1..])));
      assert [ls[0]][1..] == [];
    }
  }

  /** A line of a text has no line break. */
  lemma {:induction false} LinesAreLines(t: string)
    ensures forall i :: 0 <= i < |Lines(t)| ==> OneLine(Lines(t)[i])
  {
    if t != "" { LinesAreLines(t[1..]); }
  }

  lemma {:induction false} CleanLinesAreLines(ls: seq<string>)
    requires forall i :: 0 <= i < |ls| ==> OneLine(ls[i])
    ensures forall i :: 0 <= i < |Clean(ls)| ==>
              OneLine(Clean(ls)[i]) && Clean(ls)[i] != "" && Trimmed(Clean(ls)[i], Space)
  {
    if ls != [] {
      CleanLinesAreLines(ls[1..]);
      var i, j := TrimShape(ls[0], Space);
    }
  }

  /** Python's order on strings, by code point. */
  predicate Leq(a: string, b: string) {
    a == "" || (b != "" && (a[0] < b[0] || (a[0] == b[0] && Leq(a[1..], b[1..]))))
  }

  lemma {:induction false} LeqTotal(a: string, b: string)
    ensures Leq(a, b) || Leq(b, a)
  {
    if a != "" && b != "" { LeqTotal(a[1..], b[1..]); }
  }

  lemma {:induction false} LeqAntisymmetric(a: string, b: string)
    requires Leq(a, b) && Leq(b, a)
    ensures a == b
  {
    if a != "" && b != "" {
      LeqAntisymmetric(a[1..], b[1..]);
      assert a == [a[0]] + a[1..] && b == [b[0]] + b[1..];
    }
  }

  lemma {:induction false} LeqTransitive(a: string, b: string, c: string)
    requires Leq(a, b) && Leq(b, c)
    ensures Leq(a, c)
  {
    if a != "" && a[0] == b[0] && b[0] == c[0] { LeqTransitive(a[1..], b[1..], c[1..]); }
  }

  predicate Least(k: string, s: set<string>) { k in s && forall x :: x in s ==> Leq(k, x) }

  lemma {:induction false} LeastExists(s: set<string>)
    requires s != {}
    ensures exists k :: Least(k, s)
  {
    var x :| x in s;
    LeqTotal(x, x);
    if s != {x} {
      var rest := s - {x};
      LeastExists(rest);
      var m :| Least(m, rest);
      LeqTotal(x, m);
      if Leq(x, m) {
        forall y | y in s ensures Leq(x, y) { if y != x { LeqTransitive(x, m, y); } }
        assert Least(x, s);
      } else {
        assert Least(m, s);
      }
    } else {
      assert Least(x, s);
    }
  }

  lemma LeastUnique(s: set<string>)
    ensures forall a, b :: Least(a, s) && Least(b, s) ==> a == b
  {
    forall a, b | Least(a, s) && Least(b, s) ensures a == b { LeqAntisymmetric(a, b); }
  }

  /** `sorted`. */
  function Sorted(s: set<string>): seq<string> {
    if s == {} then []
    else
      LeastExists(s);
      LeastUnique(s);
      var k :| Least(k, s);
      [k] + Sorted(s - {k})
  }

  /** It lists exactly the elements, each once. */
  lemma {:induction false} SortedElements(s: set<string>)
    ensures |Sorted(s)| == |s|
    ensures forall k :: k in Sorted(s) <==> k in s
  {
    if s != {} {
      LeastExists(s);
      LeastUnique(s);
      var k :| Least(k, s);
      assert Sorted(s) == [k] + Sorted(s - {k});
      SortedElements(s - {k});
    }
  }

  lemma {:induction false} SortedAscends(s: set<string>, i: nat, j: nat)
    requires i < j < |Sorted(s)|
    ensures Leq(Sorted(s)[i], Sorted(s)[j]) && Sorted(s)[i] != Sorted(s)[j]
  {
    LeastExists(s);
    LeastUnique(s);
    var k :| Least(k, s);
    var rest := Sorted(s - {k});
    assert Sorted(s) == [k] + rest;
    SortedElements(s - {k});
    if i == 0 {
      assert rest[j - 1] in rest;
    } else {
      SortedAscends(s - {k}, i - 1, j - 1);
    }
  }

  /** Strictly ascending, so each entry stands there once. */
  predicate Ascending(t: seq<string>) {
    forall i, j | 0 <= i < j < |t| :: Leq(t[i], t[j]) && t[i] != t[j]
  }

  ghost predicate Lists(t: seq<string>, s: set<string>) {
    forall k :: k in t <==> k in s
  }

  /** An ascending listing starts with the least element, and the rest lists what remains. */
  lemma AscendingSplits(s: set<string>, t: seq<string>)
    requires Ascending(t) && Lists(t, s) && t != []
    ensures Least(t[0], s)
    ensures Ascending(t[1..]) && Lists(t[1..], s - {t[0]})
  {
    forall x | x in s ensures Leq(t[0], x) {
      var j :| 0 <= j < |t| && t[j] == x;
      LeqTotal(x, x);
    }
    forall k ensures k in t[1..] <==> k in s - {t[0]} {
      if k in t && k != t[0] {
        var j :| 0 <= j < |t| && t[j] == k;
        assert t[1..][j - 1] == k;
      }
    }
  }

  lemma {:induction false} AscendingIsSorted(s: set<string>, t: seq<string>)
    requires Ascending(t) && Lists(t, s)
    ensures t == Sorted(s)
  {
    if t == [] {
      assert forall k :: k !in s;
    } else {
      AscendingSplits(s, t);
      LeastUnique(s);
      AscendingIsSorted(s - {t[0]}, t[1..]);
    }
  }

  /** The only strictly ascending listing of the elements is the sorted one. */
  lemma SortedIsOnly(s: set<string>, t: seq<string>)
    ensures t == Sorted(s) <==> Ascending(t) && Lists(t, s)
  {
    SortedElements(s);
    forall i, j | 0 <= i < j < |Sorted(s)| ensures Leq(Sorted(s)[i], Sorted(s)[j]) && Sorted(s)[i] != Sorted(s)[j] {
      SortedAscends(s, i, j);
    }
    if Ascending(t) && Lists(t, s) { AscendingIsSorted(s, t); }
  }
}
