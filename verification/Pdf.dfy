/** The PDF writer: escaped strings, byte offsets and the cross-reference table (ISO 32000-1). */
module Pdf {
  import opened Wrappers
  import opened Decimal

  // Literal strings, ISO 32000-1 section 7.3.4.2.

  /** `str.replace` of one character. */
  function Replaced(s: string, c: char, sub: string): string {
    if s == "" then "" else Replaced(s[..|s| - 1], c, sub) + if s[|s| - 1] == c then sub else [s[|s| - 1]]
  }

  /** The three replacements, one after the other. */
  function Escaped(line: string): string {
    Replaced(Replaced(Replaced(line, '\\', "\\\\"), '(', "\\("), ')', "\\)")
  }

  predicate Special(c: char) { c == '\\' || c == '(' || c == ')' }

  function EscapedChar(c: char): string { if Special(c) then ['\\', c] else [c] }

  /** Escaping character by character. */
  function EscapedEach(line: string): string {
    if line == "" then "" else EscapedChar(line[0]) + EscapedEach(line[1..])
  }

  lemma {:induction false} ReplacedConcat(a: string, b: string, c: char, sub: string)
    ensures Replaced(a + b, c, sub) == Replaced(a, c, sub) + Replaced(b, c, sub)
  {
    if b == "" {
      assert a + b == a;
    } else {
      var front, last := b[..|b| - 1], b[|b| - 1];
      var end := if last == c then sub else [last];
      assert (a + b)[..|a + b| - 1] == a + front && (a + b)[|a + b| - 1] == last;
      ReplacedConcat(a, front, c, sub);
      assert Replaced(a, c, sub) + Replaced(front, c, sub) + end
             == Replaced(a, c, sub) + (Replaced(front, c, sub) + end);
    }
  }

  lemma ReplacedOne(d: char, c: char, sub: string)
    ensures Replaced([d], c, sub) == if d == c then sub else [d]
  {
    assert [d][..0] == "";
  }

  lemma ReplacedPair(x: char, y: char, c: char, sub: string)
    requires x != c && y != c
    ensures Replaced([x, y], c, sub) == [x, y]
  {
    assert [x, y][..1] == [x];
    ReplacedOne(x, c, sub);
  }

  lemma EscapedOne(c: char)
    ensures Escaped([c]) == EscapedChar(c)
  {
    ReplacedOne(c, '\\', "\\\\");
    ReplacedOne(c, '(', "\\(");
    ReplacedOne(c, ')', "\\)");
    ReplacedPair('\\', '\\', '(', "\\(");
    ReplacedPair('\\', '\\', ')', "\\)");
    ReplacedPair('\\', '(', ')', "\\)");
  }

  lemma EscapedConcat(a: string, b: string)
    ensures Escaped(a + b) == Escaped(a) + Escaped(b)
  {
    ReplacedConcat(a, b, '\\', "\\\\");
    ReplacedConcat(Replaced(a, '\\', "\\\\"), Replaced(b, '\\', "\\\\"), '(', "\\(");
    ReplacedConcat(Replaced(Replaced(a, '\\', "\\\\"), '(', "\\("), Replaced(Replaced(b, '\\', "\\\\"), '(', "\\("),
                   ')', "\\)");
  }

  /** Three passes over the line do what one pass does: no pass touches what another one added. */
  lemma {:induction false} PassesAreOne(line: string)
    ensures Escaped(line) == EscapedEach(line)
  {
    if line != "" {
      assert line == [line[0]] + line[1..];
      EscapedConcat([line[0]], line[1..]);
      EscapedOne(line[0]);
      PassesAreOne(line[1..]);
    }
  }

  predicate OctalDigit(c: char) { '0' <= c <= '7' }

  /** How many octal digits stand at the front, three at most. */
  function OctalDigits(s: string, most: nat): (n: nat)
    ensures n <= |s| && n <= most && forall i :: 0 <= i < n ==> OctalDigit(s[i])
  {
    if most == 0 || s == "" || !OctalDigit(s[0]) then 0 else 1 + OctalDigits(s[1..], most - 1)
  }

  function OctalValue(digits: string): nat
    requires forall i :: 0 <= i < |digits| ==> OctalDigit(digits[i])
  {
    if digits == "" then 0
    else
      var last := digits[|digits| - 1];
      assert OctalDigit(last);
      OctalValue(digits[..|digits| - 1]) * 8 + (last as int - '0' as int)
  }

  /** An escape sequence: the text it stands for, and its length. A backslash before anything else is ignored. */
  function EscapeAt(s: string): (r: (string, nat))
    requires |s| >= 2 && s[0] == '\\'
    ensures 2 <= r.1 <= |s|
  {
    var c := s[1];
    if c == 'n' then ("\n", 2)
    else if c == 'r' then ("\r", 2)
    else if c == 't' then ("\t", 2)
    else if c == 'b' then ([8 as char], 2)
    else if c == 'f' then ([12 as char], 2)
    else if c == '\n' then ("", 2)
    else if c == '\r' then ("", if |s| > 2 && s[2] == '\n' then 3 else 2)
    else if OctalDigit(c) then
      var n := OctalDigits(s[1..], 3);
      ([(OctalValue(s[1..][..n]) % 256) as char], 1 + n)
    else ([c], 2)
  }

  /**
   * Reading a literal string behind its opening parenthesis, at nesting depth `depth`: the text and
   * what follows the closing one. A bare end-of-line marker is read as a line feed.
   */
  function ReadLiteral(s: string, depth: nat): Option<(string, string)> {
    if s == "" then None
    else if s[0] == '\\' then
      if |s| < 2 then None else Prepend(EscapeAt(s).0, ReadLiteral(s[EscapeAt(s).1..], depth))
    else if s[0] == ')' then
      if depth == 0 then Some(("", s[1..])) else Prepend(")", ReadLiteral(s[1..], depth - 1))
    else if s[0] == '(' then Prepend("(", ReadLiteral(s[1..], depth + 1))
    else if s[0] == '\r' then
      Prepend("\n", ReadLiteral(if |s| > 1 && s[1] == '\n' then s[2..] else s[1..], depth))
    else Prepend([s[0]], ReadLiteral(s[1..], depth))
  }

  function Prepend(text: string, r: Option<(string, string)>): Option<(string, string)> {
    if r.None? then None else Some((text + r.value.0, r.value.1))
  }

  /** End-of-line markers as they are read. */
  function LineFeeds(line: string): string {
    if line == "" then ""
    else if line[0] == '\r' then "\n" + LineFeeds(if |line| > 1 && line[1] == '\n' then line[2..] else line[1..])
    else [line[0]] + LineFeeds(line[1..])
  }

  lemma {:induction false} LineFeedsSame(line: string)
    ensures |LineFeeds(line)| <= |line|
    ensures LineFeeds(line) == line <==> '\r' !in line
  {
    if line != "" {
      var rest := if line[0] == '\r' && |line| > 1 && line[1] == '\n' then line[2..] else line[1..];
      LineFeedsSame(rest);
      assert line == [line[0]] + line[1..];
      if line[0] == '\r' { assert LineFeeds(line)[0] == '\n'; }
    }
  }

  lemma EscapedEachHead(line: string, rest: string)
    requires line != ""
    ensures EscapedEach(line) + rest == EscapedChar(line[0]) + (EscapedEach(line[1..]) + rest)
  {
  }

  lemma ReadsSpecial(c: char, after: string)
    requires Special(c)
    ensures ReadLiteral(['\\', c] + after, 0) == Prepend([c], ReadLiteral(after, 0))
  {
    var s := ['\\', c] + after;
    assert s[0] == '\\' && s[1] == c && s[2..] == after;
  }

  lemma ReadsPlain(c: char, after: string)
    requires !Special(c) && c != '\r'
    ensures ReadLiteral([c] + after, 0) == Prepend([c], ReadLiteral(after, 0))
  {
    var s := [c] + after;
    assert s[0] == c && s[1..] == after;
  }

  /** A carriage return, with its line feed or alone. */
  lemma ReadsReturn(after: string)
    ensures ReadLiteral("\r\n" + after, 0) == Prepend("\n", ReadLiteral(after, 0))
    ensures after != "" && after[0] != '\n' ==> ReadLiteral("\r" + after, 0) == Prepend("\n", ReadLiteral(after, 0))
  {
    var s, t := "\r\n" + after, "\r" + after;
    assert s[0] == '\r' && s[1] == '\n' && s[2..] == after;
    assert t[0] == '\r' && t[1..] == after && (after != "" ==> t[1] == after[0]);
  }

  /** An escaped line between parentheses is read as the line, up to its end-of-line markers. */
  lemma {:induction false} EscapedReads(line: string, rest: string)
    ensures ReadLiteral(EscapedEach(line) + (")" + rest), 0) == Some((LineFeeds(line), rest))
  {
    var tail := ")" + rest;
    if line == "" {
      assert "" + tail == tail && tail[1..] == rest;
    } else {
      EscapedEachHead(line, tail);
      var after := EscapedEach(line[1..]) + tail;
      EscapedReads(line[1..], rest);
      if Special(line[0]) {
        ReadsSpecial(line[0], after);
      } else if line[0] != '\r' {
        ReadsPlain(line[0], after);
      } else if |line| > 1 && line[1] == '\n' {
        EscapedEachHead(line[1..], tail);
        EscapedReads(line[2..], rest);
        assert line[1..][1..] == line[2..];
        var next := EscapedEach(line[2..]) + tail;
        assert ['\r'] + (['\n'] + next) == "\r\n" + next;
        ReadsReturn(next);
      } else {
        NextIsNoLineFeed(line, tail);
        ReadsReturn(after);
      }
    }
  }

  /** Escaping does not create or remove a line feed behind a carriage return. */
  lemma NextIsNoLineFeed(line: string, tail: string)
    requires line != "" && tail != "" && tail[0] == ')'
    requires !(|line| > 1 && line[1] == '\n')
    ensures var after := EscapedEach(line[1..]) + tail; after != "" && after[0] != '\n'
  {
    if |line| > 1 { EscapedEachHead(line[1..], tail); }
  }

  /** The text shown is the line itself exactly when it holds no carriage return. */
  lemma ShownLine(line: string, rest: string)
    ensures ReadLiteral(Escaped(line) + ")" + rest, 0) == Some((LineFeeds(line), rest))
    ensures ReadLiteral(Escaped(line) + ")" + rest, 0) == Some((line, rest)) <==> '\r' !in line
  {
    PassesAreOne(line);
    EscapedReads(line, rest);
    assert Escaped(line) + ")" + rest == Escaped(line) + (")" + rest);
    LineFeedsSame(line);
  }

  // The file.

  /** How a character is encoded; ASCII takes one byte. */
  type Encoder = char -> Bytes

  ghost predicate Utf8(enc: Encoder) { forall c: char :: |enc(c)| >= 1 && (c as int < 128 ==> |enc(c)| == 1) }

  /** The bytes of the first `n` characters. */
  function EncodedTo(enc: Encoder, s: string, n: nat): Bytes
    requires n <= |s|
  {
    if n == 0 then [] else EncodedTo(enc, s, n - 1) + enc(s[n - 1])
  }

  function Encoded(enc: Encoder, s: string): Bytes { EncodedTo(enc, s, |s|) }

  lemma {:induction false} EncodedFront(enc: Encoder, a: string, b: string, n: nat)
    requires n <= |a|
    ensures EncodedTo(enc, a + b, n) == EncodedTo(enc, a, n)
  {
    if n > 0 { EncodedFront(enc, a, b, n - 1); }
  }

  lemma {:induction false} EncodedBack(enc: Encoder, a: string, b: string, n: nat)
    requires n <= |b|
    ensures EncodedTo(enc, a + b, |a| + n) == Encoded(enc, a) + EncodedTo(enc, b, n)
  {
    if n == 0 {
      EncodedFront(enc, a, b, |a|);
    } else {
      EncodedBack(enc, a, b, n - 1);
      var whole, before := a + b, EncodedTo(enc, b, n - 1);
      assert whole[|a| + n - 1] == b[n - 1];
      assert EncodedTo(enc, whole, |a| + n) == EncodedTo(enc, whole, |a| + n - 1) + enc(b[n - 1]);
      assert Encoded(enc, a) + before + enc(b[n - 1]) == Encoded(enc, a) + (before + enc(b[n - 1]));
    }
  }

  lemma EncodedConcat(enc: Encoder, a: string, b: string)
    ensures Encoded(enc, a + b) == Encoded(enc, a) + Encoded(enc, b)
  {
    EncodedBack(enc, a, b, |b|);
  }

  predicate Ascii(s: string) { forall i :: 0 <= i < |s| ==> s[i] as int < 128 }

  lemma {:induction false} AsciiLengthTo(enc: Encoder, s: string, n: nat)
    requires Utf8(enc) && Ascii(s) && n <= |s|
    ensures |EncodedTo(enc, s, n)| == n
  {
    if n > 0 { AsciiLengthTo(enc, s, n - 1); }
  }

  lemma AsciiLength(enc: Encoder, s: string)
    requires Utf8(enc) && Ascii(s)
    ensures |Encoded(enc, s)| == |s|
  {
    AsciiLengthTo(enc, s, |s|);
  }

  /** The first `n` parts, one after the other. */
  function Cat(parts: seq<string>, n: nat): string
    requires n <= |parts|
  {
    if n == 0 then "" else Cat(parts, n - 1) + parts[n - 1]
  }

  lemma {:induction false} CatSplits(parts: seq<string>, n: nat) returns (rest: string)
    requires 0 < n <= |parts|
    ensures Cat(parts, |parts|) == Cat(parts, n - 1) + parts[n - 1] + rest
    decreases |parts| - n
  {
    if n == |parts| {
      rest := "";
      assert Cat(parts, n) == Cat(parts, n - 1) + parts[n - 1] + rest;
    } else {
      var further := CatSplits(parts, n + 1);
      rest := parts[n] + further;
      assert Cat(parts, n) + parts[n] + further == Cat(parts, n) + (parts[n] + further);
    }
  }

  /** Each object is written on lines of its own. */
  function Written(objects: seq<string>): (parts: seq<string>)
    ensures |parts| == |objects|
  {
    seq(|objects|, i requires 0 <= i < |objects| => objects[i] + "\n")
  }

  const HEADER := "%PDF-1.4\n"

  /** The header and the first `n` objects. */
  function Body(objects: seq<string>, n: nat): string
    requires n <= |objects|
  {
    HEADER + Cat(Written(objects), n)
  }

  /** Where object `n`, counted from one, starts. */
  function Offset(enc: Encoder, objects: seq<string>, n: nat): nat
    requires 0 < n <= |objects|
  {
    |Encoded(enc, Body(objects, n - 1))|
  }

  /** `f"{off:010d}"`. */
  function TenDigits(n: nat): (s: string)
    ensures |s| >= 10 && Ascii(s)
  {
    if n < Pow10(10) then Padded(n, 10) else (NumeralLength(n, 10); Numeral(n))
  }

  function Entry(off: nat): string { TenDigits(off) + " 00000 n \n" }

  /** The entries of all objects. */
  function Entries(enc: Encoder, objects: seq<string>): (entries: seq<string>)
    ensures |entries| == |objects|
  {
    seq(|objects|, i requires 0 <= i < |objects| => Entry(Offset(enc, objects, i + 1)))
  }

  function TableHead(count: nat): string { "xref\n0 " + Numeral(count + 1) + "\n" }

  const FREE_ENTRY := "0000000000 65535 f \n"

  function Table(enc: Encoder, objects: seq<string>): string {
    TableHead(|objects|) + FREE_ENTRY + Cat(Entries(enc, objects), |objects|)
  }

  function Trailer(count: nat, xref: nat): string {
    "trailer << /Size " + Numeral(count + 1) + " /Root 1 0 R >>\nstartxref\n" + Numeral(xref) + "\n%%EOF\n"
  }

  function TableOffset(enc: Encoder, objects: seq<string>): nat { |Encoded(enc, Body(objects, |objects|))| }

  function Document(enc: Encoder, objects: seq<string>): string {
    Body(objects, |objects|) + Table(enc, objects) + Trailer(|objects|, TableOffset(enc, objects))
  }

  /** The writer's loops, with its growing text and list of offsets. */
  method Write(enc: Encoder, objects: seq<string>) returns (bytes: Bytes)
    ensures bytes == Encoded(enc, Document(enc, objects))
  {
    var pdf, offsets := HEADER + "", [];
    for n := 0 to |objects|
      invariant pdf == Body(objects, n)
      invariant |offsets| == n && forall k :: 0 <= k < n ==> offsets[k] == Offset(enc, objects, k + 1)
    {
      offsets := offsets + [|Encoded(enc, pdf)|];
      assert pdf + objects[n] + "\n" == HEADER + (Cat(Written(objects), n) + Written(objects)[n]);
      pdf := pdf + objects[n] + "\n";
    }
    var xref := |Encoded(enc, pdf)|;
    var entries := "";
    for n := 0 to |offsets|
      invariant entries == Cat(Entries(enc, objects), n)
    {
      entries := entries + Entry(offsets[n]);
    }
    pdf := pdf + (TableHead(|objects|) + FREE_ENTRY + entries);
    pdf := pdf + Trailer(|objects|, xref);
    bytes := Encoded(enc, pdf);
  }

  /** These bytes stand at this place of the file. */
  predicate StandsAt(bytes: Bytes, at: nat, text: Bytes) {
    at + |text| <= |bytes| && forall i :: 0 <= i < |text| ==> text[i] == bytes[at + i]
  }

  /** What stands in a part that stands in the file stands in the file. */
  lemma StandsInside(bytes: Bytes, at: nat, text: Bytes, inner: nat, part: Bytes, place: nat)
    requires StandsAt(bytes, at, text) && StandsAt(text, inner, part) && place == at + inner
    ensures StandsAt(bytes, place, part)
  {
    forall i | 0 <= i < |part| ensures part[i] == bytes[place + i] {
      assert part[i] == text[inner + i];
    }
  }

  /** The bytes of a part stand where the parts before it end. */
  lemma PartStands(enc: Encoder, a: string, b: string, c: string)
    ensures StandsAt(Encoded(enc, a + b + c), |Encoded(enc, a)|, Encoded(enc, b))
  {
    EncodedConcat(enc, a + b, c);
    EncodedConcat(enc, a, b);
  }

  lemma Regrouped(a: string, b: string, c: string, d: string, e: string)
    ensures a + (b + c + d) + e == a + (b + c) + d + e
  {
  }

  /** A part of the body stands behind the header and the parts before it. */
  lemma BodyPartStands(enc: Encoder, header: string, parts: seq<string>, n: nat, table: string, trailer: string)
    requires 0 < n <= |parts|
    ensures StandsAt(Encoded(enc, header + Cat(parts, |parts|) + table + trailer),
                     |Encoded(enc, header + Cat(parts, n - 1))|, Encoded(enc, parts[n - 1]))
  {
    var rest := CatSplits(parts, n);
    var before, after := header + Cat(parts, n - 1), rest + (table + trailer);
    assert header + Cat(parts, |parts|) + table + trailer == before + parts[n - 1] + after;
    PartStands(enc, before, parts[n - 1], after);
  }

  /** Each object starts at the byte its offset says. */
  lemma ObjectStandsAtOffset(enc: Encoder, objects: seq<string>, n: nat)
    requires 0 < n <= |objects|
    ensures StandsAt(Encoded(enc, Document(enc, objects)), Offset(enc, objects, n), Encoded(enc, objects[n - 1] + "\n"))
  {
    BodyPartStands(enc, HEADER, Written(objects), n, Table(enc, objects),
                   Trailer(|objects|, TableOffset(enc, objects)));
  }

  /** The number behind `startxref` is the byte where the table starts. */
  lemma TableStandsAtOffset(enc: Encoder, objects: seq<string>)
    ensures StandsAt(Encoded(enc, Document(enc, objects)), TableOffset(enc, objects), Encoded(enc, Table(enc, objects)))
  {
    PartStands(enc, Body(objects, |objects|), Table(enc, objects), Trailer(|objects|, TableOffset(enc, objects)));
  }

  /** The file ends by naming that byte. */
  lemma EndNamesTable(enc: Encoder, objects: seq<string>)
    ensures ValueOf(Numeral(TableOffset(enc, objects))) == TableOffset(enc, objects)
    ensures var text, end := Document(enc, objects),
                             "startxref\n" + Numeral(TableOffset(enc, objects)) + "\n%%EOF\n";
            |end| <= |text| && text[|text| - |end|..] == end
  {
    var start := TableOffset(enc, objects);
    var end := "startxref\n" + Numeral(start) + "\n%%EOF\n";
    var before := Body(objects, |objects|) + Table(enc, objects);
    var size := "trailer << /Size " + Numeral(|objects| + 1) + " /Root 1 0 R >>\n";
    NumeralValue(start);
    assert Trailer(|objects|, start) == size + end;
    assert Document(enc, objects) == (before + size) + end;
  }

  /** An entry has twenty bytes exactly when its offset has at most ten digits. */
  lemma EntryWidth(enc: Encoder, off: nat)
    requires Utf8(enc)
    ensures |Encoded(enc, Entry(off))| == 20 <==> off < Pow10(10)
    ensures off < Pow10(10) ==> ValueOf(Entry(off)[..10]) == off
  {
    var tail := " 00000 n \n";
    assert |tail| == 10 && Ascii(tail);
    assert Ascii(Entry(off));
    AsciiLength(enc, Entry(off));
    if off < Pow10(10) {
      PaddedValue(off, 10);
      assert Entry(off)[..10] == Padded(off, 10);
    } else {
      NumeralLength(off, 10);
    }
  }

  predicate OffsetsFit(enc: Encoder, objects: seq<string>) {
    forall n :: 0 < n <= |objects| ==> Offset(enc, objects, n) < Pow10(10)
  }

  predicate TwentyBytesEach(enc: Encoder, parts: seq<string>) {
    forall i :: 0 <= i < |parts| ==> |Encoded(enc, parts[i])| == 20
  }

  lemma {:induction false} EqualWidths(enc: Encoder, parts: seq<string>, n: nat)
    requires n <= |parts| && TwentyBytesEach(enc, parts)
    ensures |Encoded(enc, Cat(parts, n))| == 20 * n
  {
    if n > 0 {
      EqualWidths(enc, parts, n - 1);
      EncodedConcat(enc, Cat(parts, n - 1), parts[n - 1]);
    }
  }

  lemma EntriesWidth(enc: Encoder, objects: seq<string>)
    requires Utf8(enc) && OffsetsFit(enc, objects)
    ensures TwentyBytesEach(enc, Entries(enc, objects))
  {
    forall i | 0 <= i < |objects| ensures |Encoded(enc, Entries(enc, objects)[i])| == 20 {
      EntryWidth(enc, Offset(enc, objects, i + 1));
    }
  }

  /** With twenty bytes an entry, entry `n` of the list of entries has a fixed place. */
  lemma TwentiethByte(enc: Encoder, parts: seq<string>, n: nat)
    requires 0 < n <= |parts| && TwentyBytesEach(enc, parts)
    ensures StandsAt(Encoded(enc, Cat(parts, |parts|)), 20 * (n - 1), Encoded(enc, parts[n - 1]))
  {
    var rest := CatSplits(parts, n);
    EqualWidths(enc, parts, n - 1);
    PartStands(enc, Cat(parts, n - 1), parts[n - 1], rest);
  }

  lemma HeadWidth(enc: Encoder, count: nat)
    requires Utf8(enc)
    ensures |Encoded(enc, TableHead(count))| == |TableHead(count)| && |Encoded(enc, FREE_ENTRY)| == 20
  {
    assert Ascii("xref\n0 ");
    assert Ascii(TableHead(count)) && Ascii(FREE_ENTRY) && |FREE_ENTRY| == 20;
    AsciiLength(enc, TableHead(count));
    AsciiLength(enc, FREE_ENTRY);
  }

  /** Entry `n` of the table is the padded offset of object `n`. */
  lemma EntryOfObject(enc: Encoder, objects: seq<string>, n: nat)
    requires 0 < n <= |objects| && Offset(enc, objects, n) < Pow10(10)
    ensures ValueOf(Entries(enc, objects)[n - 1][..10]) == Offset(enc, objects, n)
  {
    PaddedValue(Offset(enc, objects, n), 10);
    assert Entries(enc, objects)[n - 1][..10] == Padded(Offset(enc, objects, n), 10);
  }

  /** What stands in front of the first entry. */
  function TableFront(objects: seq<string>): string {
    Body(objects, |objects|) + (TableHead(|objects|) + FREE_ENTRY)
  }

  lemma DocumentParts(enc: Encoder, objects: seq<string>)
    ensures Document(enc, objects) == TableFront(objects) + Cat(Entries(enc, objects), |objects|)
                                      + Trailer(|objects|, TableOffset(enc, objects))
  {
    Regrouped(Body(objects, |objects|), TableHead(|objects|), FREE_ENTRY, Cat(Entries(enc, objects), |objects|),
              Trailer(|objects|, TableOffset(enc, objects)));
  }

  lemma FrontWidth(enc: Encoder, objects: seq<string>)
    requires Utf8(enc)
    ensures |Encoded(enc, TableFront(objects))| == TableOffset(enc, objects) + |TableHead(|objects|)| + 20
  {
    HeadWidth(enc, |objects|);
    EncodedConcat(enc, Body(objects, |objects|), TableHead(|objects|) + FREE_ENTRY);
    EncodedConcat(enc, TableHead(|objects|), FREE_ENTRY);
  }

  /** The entries stand behind the body, the heading and the entry of the free object. */
  lemma EntriesStand(enc: Encoder, objects: seq<string>)
    ensures var entries := Entries(enc, objects);
            StandsAt(Encoded(enc, Document(enc, objects)), |Encoded(enc, TableFront(objects))|,
                     Encoded(enc, Cat(entries, |entries|)))
  {
    DocumentParts(enc, objects);
    PartStands(enc, TableFront(objects), Cat(Entries(enc, objects), |objects|),
               Trailer(|objects|, TableOffset(enc, objects)));
  }

  lemma EntryPlace(enc: Encoder, objects: seq<string>, n: nat)
    requires Utf8(enc) && OffsetsFit(enc, objects) && 0 < n <= |Entries(enc, objects)|
    ensures StandsAt(Encoded(enc, Document(enc, objects)), TableOffset(enc, objects) + |TableHead(|objects|)| + 20 * n,
                     Encoded(enc, Entries(enc, objects)[n - 1]))
  {
    FrontWidth(enc, objects);
    EntriesWidth(enc, objects);
    EntriesStand(enc, objects);
    TwentyOn(enc, Encoded(enc, Document(enc, objects)), |Encoded(enc, TableFront(objects))|, Entries(enc, objects), n,
             TableOffset(enc, objects) + |TableHead(|objects|)| + 20 * n);
  }

  lemma TwentyOn(enc: Encoder, bytes: Bytes, front: nat, parts: seq<string>, n: nat, place: nat)
    requires 0 < n <= |parts| && TwentyBytesEach(enc, parts) && place == front + 20 * (n - 1)
    requires StandsAt(bytes, front, Encoded(enc, Cat(parts, |parts|)))
    ensures StandsAt(bytes, place, Encoded(enc, parts[n - 1]))
  {
    TwentiethByte(enc, parts, n);
    StandsInside(bytes, front, Encoded(enc, Cat(parts, |parts|)), 20 * (n - 1), Encoded(enc, parts[n - 1]), place);
  }

  /**
   * Object `n` is looked up twenty bytes per entry into the table; the entry there names in decimal the
   * byte where the object stands.
   */
  lemma EntryStandsInTable(enc: Encoder, objects: seq<string>, n: nat)
    requires Utf8(enc) && OffsetsFit(enc, objects) && 0 < n <= |objects|
    ensures var bytes, entry := Encoded(enc, Document(enc, objects)), Entries(enc, objects)[n - 1];
            StandsAt(bytes, TableOffset(enc, objects) + |TableHead(|objects|)| + 20 * n, Encoded(enc, entry))
            && |Encoded(enc, entry)| == 20
            && StandsAt(bytes, ValueOf(entry[..10]), Encoded(enc, objects[n - 1] + "\n"))
  {
    EntryPlace(enc, objects, n);
    EntryOfObject(enc, objects, n);
    EntriesWidth(enc, objects);
    ObjectStandsAtOffset(enc, objects, n);
  }

  // The content stream.

  function ShowStrings(lines: seq<string>): string {
    if lines == [] then ""
    else if |lines| == 1 then "(" + Escaped(lines[0]) + ")"
    else "(" + Escaped(lines[0]) + ")" + " T* " + ShowStrings(lines[1..])
  }

  const BEGIN := "BT /F1 10 Tf 40 780 Td 14 TL "

  const END := " ET"

  function Content(lines: seq<string>): string { BEGIN + ShowStrings(lines) + END }

  /** The heading of the stream object, with the stream's length in bytes. */
  function StreamHead(enc: Encoder, lines: seq<string>): string {
    "5 0 obj << /Length " + Numeral(|Encoded(enc, Content(lines))|) + " >> stream\n"
  }

  const STREAM_TAIL := "\nendstream endobj"

  function ContentObject(enc: Encoder, lines: seq<string>): string {
    StreamHead(enc, lines) + Content(lines) + STREAM_TAIL
  }

  const CATALOG := "1 0 obj << /Type /Catalog /Pages 2 0 R >> endobj"

  const PAGES := "2 0 obj << /Type /Pages /Kids [3 0 R] /Count 1 >> endobj"

  const PAGE := "3 0 obj << /Type /Page /Parent 2 0 R /MediaBox [0 0 612 792] "
                + "/Resources << /Font << /F1 4 0 R >> >> /Contents 5 0 R >> endobj"

  const FONT := "4 0 obj << /Type /Font /Subtype /Type1 /BaseFont /Courier >> endobj"

  function Objects(enc: Encoder, lines: seq<string>): seq<string> {
    [CATALOG, PAGES, PAGE, FONT, ContentObject(enc, lines)]
  }

  /** `_pdf_bytes`. */
  method PdfBytes(enc: Encoder, lines: seq<string>) returns (bytes: Bytes)
    ensures bytes == Encoded(enc, Document(enc, Objects(enc, lines)))
  {
    bytes := Write(enc, Objects(enc, lines));
  }

  /** The stream's bytes stand between its markers, as many as its stated length, and nothing else. */
  lemma StreamLengthExact(enc: Encoder, lines: seq<string>)
    ensures Encoded(enc, ContentObject(enc, lines))
            == Encoded(enc, StreamHead(enc, lines)) + Encoded(enc, Content(lines)) + Encoded(enc, STREAM_TAIL)
    ensures ValueOf(Numeral(|Encoded(enc, Content(lines))|)) == |Encoded(enc, Content(lines))|
  {
    NumeralValue(|Encoded(enc, Content(lines))|);
    EncodedConcat(enc, StreamHead(enc, lines) + Content(lines), STREAM_TAIL);
    EncodedConcat(enc, StreamHead(enc, lines), Content(lines));
  }

  lemma StandsInOrder(a: Bytes, b: Bytes, c: Bytes, d: Bytes)
    ensures StandsAt(a + b + c + d, 0, a) && StandsAt(a + b + c + d, |a|, b) && StandsAt(a + b + c + d, |a| + |b|, c)
  {
  }

  /** Object `n` of a file is a stream showing these lines: its heading, its content and its end marker. */
  predicate StreamStands(enc: Encoder, objects: seq<string>, n: nat, lines: seq<string>)
    requires 0 < n <= |objects|
  {
    var bytes, at := Encoded(enc, Document(enc, objects)), Offset(enc, objects, n);
    var head, content := Encoded(enc, StreamHead(enc, lines)), Encoded(enc, Content(lines));
    StandsAt(bytes, at, head) && StandsAt(bytes, at + |head|, content)
    && StandsAt(bytes, at + |head| + |content|, Encoded(enc, STREAM_TAIL))
  }

  lemma ContentObjectStands(enc: Encoder, objects: seq<string>, n: nat, lines: seq<string>)
    requires 0 < n <= |objects| && objects[n - 1] == ContentObject(enc, lines)
    ensures StreamStands(enc, objects, n, lines)
  {
    ObjectPartsStand(enc, objects, n, StreamHead(enc, lines), Content(lines), STREAM_TAIL);
  }

  /**
   * In the written file: behind the last object's offset and its heading stand exactly as many bytes of
   * content as the heading states, then the end marker.
   */
  lemma StreamStandsInFile(enc: Encoder, lines: seq<string>)
    ensures StreamStands(enc, Objects(enc, lines), |Objects(enc, lines)|, lines)
  {
    ContentObjectStands(enc, Objects(enc, lines), |Objects(enc, lines)|, lines);
  }

  /** The parts of an object stand behind its offset, one after the other. */
  lemma ObjectPartsStand(enc: Encoder, objects: seq<string>, n: nat, a: string, b: string, c: string)
    requires 0 < n <= |objects| && objects[n - 1] == a + b + c
    ensures var bytes, at := Encoded(enc, Document(enc, objects)), Offset(enc, objects, n);
            StandsAt(bytes, at, Encoded(enc, a)) && StandsAt(bytes, at + |Encoded(enc, a)|, Encoded(enc, b))
            && StandsAt(bytes, at + |Encoded(enc, a)| + |Encoded(enc, b)|, Encoded(enc, c))
  {
    ObjectStandsAtOffset(enc, objects, n);
    EncodedConcat(enc, a + b + c, "\n");
    EncodedConcat(enc, a + b, c);
    EncodedConcat(enc, a, b);
    ThreeStand(Encoded(enc, Document(enc, objects)), Offset(enc, objects, n),
               Encoded(enc, a), Encoded(enc, b), Encoded(enc, c), Encoded(enc, "\n"));
  }

  lemma ThreeStand(bytes: Bytes, at: nat, a: Bytes, b: Bytes, c: Bytes, d: Bytes)
    requires StandsAt(bytes, at, a + b + c + d)
    ensures StandsAt(bytes, at, a) && StandsAt(bytes, at + |a|, b) && StandsAt(bytes, at + |a| + |b|, c)
  {
    StandsInOrder(a, b, c, d);
    StandsInside(bytes, at, a + b + c + d, 0, a, at);
    StandsInside(bytes, at, a + b + c + d, |a|, b, at + |a|);
    StandsInside(bytes, at, a + b + c + d, |a| + |b|, c, at + |a| + |b|);
  }

  /** The literal strings of a content stream, in order, as a reader finds them. */
  function Shown(s: string): Option<seq<string>>
    decreases |s|
  {
    if s == "" then Some([])
    else if s[0] != '(' then Shown(s[1..])
    else
      match ReadLiteral(s[1..], 0)
      case None => None
      case Some((text, rest)) =>
        ReadShrinks(s[1..], 0);
        match Shown(rest)
        case None => None
        case Some(others) => Some([text] + others)
  }

  lemma {:induction false} ReadShrinks(s: string, depth: nat)
    ensures ReadLiteral(s, depth).Some? ==> |ReadLiteral(s, depth).value.1| < |s|
  {
    if s == "" {
    } else if s[0] == '\\' {
      if |s| >= 2 { ReadShrinks(s[EscapeAt(s).1..], depth); }
    } else if s[0] == ')' {
      if depth > 0 { ReadShrinks(s[1..], depth - 1); }
    } else if s[0] == '(' {
      ReadShrinks(s[1..], depth + 1);
    } else if s[0] == '\r' {
      ReadShrinks(if |s| > 1 && s[1] == '\n' then s[2..] else s[1..], depth);
    } else {
      ReadShrinks(s[1..], depth);
    }
  }

  function AllLineFeeds(lines: seq<string>): seq<string> {
    if lines == [] then [] else [LineFeeds(lines[0])] + AllLineFeeds(lines[1..])
  }

  /** Text without an opening parenthesis shows nothing. */
  lemma {:induction false} NothingShown(a: string, s: string)
    requires '(' !in a
    ensures Shown(a + s) == Shown(s)
  {
    if a == "" {
      assert a + s == s;
    } else {
      assert (a + s)[1..] == a[1..] + s;
      NothingShown(a[1..], s);
    }
  }

  lemma OneShown(line: string, rest: string)
    ensures Shown("(" + Escaped(line) + ")" + rest)
            == match Shown(rest) case None => None case Some(others) => Some([LineFeeds(line)] + others)
  {
    var s := "(" + Escaped(line) + ")" + rest;
    assert s[1..] == Escaped(line) + ")" + rest;
    ShownLine(line, rest);
  }

  lemma LastShown(line: string, tail: string)
    requires '(' !in tail
    ensures Shown("(" + Escaped(line) + ")" + tail) == Some([LineFeeds(line)])
  {
    NothingShown(tail, "");
    assert tail + "" == tail;
    OneShown(line, tail);
    assert [LineFeeds(line)] + [] == [LineFeeds(line)];
  }

  lemma NextShown(line: string, others: string)
    ensures Shown("(" + Escaped(line) + ")" + " T* " + others)
            == match Shown(others) case None => None case Some(texts) => Some([LineFeeds(line)] + texts)
  {
    NothingShown(" T* ", others);
    OneShown(line, " T* " + others);
    assert "(" + Escaped(line) + ")" + " T* " + others == "(" + Escaped(line) + ")" + (" T* " + others);
  }

  lemma {:induction false} StringsShown(lines: seq<string>, tail: string)
    requires '(' !in tail
    ensures Shown(ShowStrings(lines) + tail) == Some(AllLineFeeds(lines))
  {
    if lines == [] {
      NothingShown(tail, "");
      assert ShowStrings(lines) + tail == tail + "";
    } else if |lines| == 1 {
      LastShown(lines[0], tail);
      assert lines[1..] == [] && AllLineFeeds(lines) == [LineFeeds(lines[0])];
    } else {
      var first, rest := "(" + Escaped(lines[0]) + ")" + " T* ", ShowStrings(lines[1..]);
      StringsShown(lines[1..], tail);
      NextShown(lines[0], rest + tail);
      assert first + rest + tail == first + (rest + tail);
    }
  }

  lemma FrameIsPlain()
    ensures '(' !in BEGIN && '(' !in END
  {
  }

  /** A reader of the content stream finds exactly the lines, their end-of-line markers as line feeds. */
  lemma ContentShowsLines(lines: seq<string>)
    ensures Shown(Content(lines)) == Some(AllLineFeeds(lines))
    ensures (forall i :: 0 <= i < |lines| ==> '\r' !in lines[i]) ==> Shown(Content(lines)) == Some(lines)
  {
    FrameIsPlain();
    FramedShown(BEGIN, lines, END);
    AllSame(lines);
  }

  lemma FramedShown(head: string, lines: seq<string>, tail: string)
    requires '(' !in head && '(' !in tail
    ensures Shown(head + ShowStrings(lines) + tail) == Some(AllLineFeeds(lines))
  {
    StringsShown(lines, tail);
    NothingShown(head, ShowStrings(lines) + tail);
    assert head + ShowStrings(lines) + tail == head + (ShowStrings(lines) + tail);
  }

  lemma {:induction false} AllSame(lines: seq<string>)
    ensures |AllLineFeeds(lines)| == |lines|
    ensures AllLineFeeds(lines) == lines <==> forall i :: 0 <= i < |lines| ==> '\r' !in lines[i]
  {
    if lines != [] {
      LineFeedsSame(lines[0]);
      AllSame(lines[1..]);
      assert lines == [lines[0]] + lines[1..];
    }
  }

  // The whole file.

  /** The lines as strings to show, each after the first on a new line of the page. */
  function Strings(lines: seq<string>): string {
    if lines == [] then ""
    else if |lines| == 1 then "(" + EscapedEach(lines[0]) + ")"
    else Strings(lines[..|lines| - 1]) + (" T* (" + EscapedEach(lines[|lines| - 1]) + ")")
  }

  lemma OneMore(first: string, e: string)
    ensures first + " T* " + ("(" + e + ")") == first + (" T* (" + e + ")")
  {
    assert " T* " + ("(" + e + ")") == " T* (" + e + ")";
  }

  lemma TwoShown(first: string, line: string)
    ensures ShowStrings([first, line]) == ShowStrings([first]) + (" T* (" + EscapedEach(line) + ")")
  {
    PassesAreOne(line);
    assert [first, line][1..] == [line];
    OneMore("(" + Escaped(first) + ")", EscapedEach(line));
  }

  lemma ShiftedPart(first: string, middle: string, last: string)
    ensures first + " T* " + (middle + last) == first + " T* " + middle + last
  {
  }

  lemma {:induction false} StringsNext(lines: seq<string>, line: string)
    requires lines != []
    ensures ShowStrings(lines + [line]) == ShowStrings(lines) + (" T* (" + EscapedEach(line) + ")")
  {
    if |lines| == 1 {
      TwoShown(lines[0], line);
      assert lines == [lines[0]] && lines + [line] == [lines[0], line];
    } else {
      assert (lines + [line])[1..] == lines[1..] + [line];
      StringsNext(lines[1..], line);
      ShiftedPart("(" + Escaped(lines[0]) + ")", ShowStrings(lines[1..]), " T* (" + EscapedEach(line) + ")");
    }
  }

  lemma {:induction false} StringsAreShown(lines: seq<string>)
    ensures Strings(lines) == ShowStrings(lines)
  {
    if |lines| == 1 {
      PassesAreOne(lines[0]);
    } else if |lines| > 1 {
      var n := |lines| - 1;
      StringsAreShown(lines[..n]);
      StringsNext(lines[..n], lines[n]);
      assert lines == lines[..n] + [lines[n]];
    }
  }

  /** The five objects of a file, with the number of bytes in the stream. */
  function FiveObjects(size: nat, content: string): seq<string> {
    ["1 0 obj << /Type /Catalog /Pages 2 0 R >> endobj",
     "2 0 obj << /Type /Pages /Kids [3 0 R] /Count 1 >> endobj",
     "3 0 obj << /Type /Page /Parent 2 0 R /MediaBox [0 0 612 792] "
     + "/Resources << /Font << /F1 4 0 R >> >> /Contents 5 0 R >> endobj",
     "4 0 obj << /Type /Font /Subtype /Type1 /BaseFont /Courier >> endobj",
     "5 0 obj << /Length " + Numeral(size) + " >> stream\n" + content + "\nendstream endobj"]
  }

  function StreamText(lines: seq<string>): string { "BT /F1 10 Tf 40 780 Td 14 TL " + Strings(lines) + " ET" }

  lemma ObjectsSay(enc: Encoder, lines: seq<string>)
    ensures Objects(enc, lines) == FiveObjects(|Encoded(enc, StreamText(lines))|, StreamText(lines))
  {
    StringsAreShown(lines);
  }

  /** The file up to object `n`, which is not part of it. */
  function FileTo(objects: seq<string>, n: nat): string
    requires 0 < n <= |objects| + 1
  {
    if n == 1 then "%PDF-1.4\n" else FileTo(objects, n - 1) + objects[n - 2] + "\n"
  }

  lemma {:induction false} FileToIs(objects: seq<string>, n: nat)
    requires n <= |objects|
    ensures Body(objects, n) == FileTo(objects, n + 1)
  {
    if n == 0 {
      assert HEADER + "" == HEADER;
    } else {
      FileToIs(objects, n - 1);
      var before, last := Cat(Written(objects), n - 1), objects[n - 1];
      assert HEADER + (before + (last + "\n")) == HEADER + before + last + "\n";
    }
  }

  /** The byte at which object `n` stands, in ten digits, or in as many as it takes. */
  function Row(enc: Encoder, objects: seq<string>, n: nat): string
    requires 0 < n <= |objects|
  {
    var at := |Encoded(enc, FileTo(objects, n))|;
    (if at < 10000000000 then Padded(at, 10) else Numeral(at)) + " 00000 n \n"
  }

  lemma TenPlaces()
    ensures Pow10(10) == 10000000000
  {
    assert Pow10(2) == 100;
    assert Pow10(4) == 10000;
    assert Pow10(6) == 1000000;
    assert Pow10(8) == 100000000;
  }

  lemma RowIs(enc: Encoder, objects: seq<string>, n: nat)
    requires 0 < n <= |objects|
    ensures Entries(enc, objects)[n - 1] == Row(enc, objects, n)
  {
    FileToIs(objects, n - 1);
    TenPlaces();
  }

  lemma FiveParts(parts: seq<string>)
    requires |parts| == 5
    ensures Cat(parts, 5) == parts[0] + parts[1] + parts[2] + parts[3] + parts[4]
  {
    assert Cat(parts, 1) == parts[0];
    assert Cat(parts, 2) == parts[0] + parts[1];
    assert Cat(parts, 3) == parts[0] + parts[1] + parts[2];
  }

  lemma RowsSay(enc: Encoder, objects: seq<string>)
    requires |objects| == 5
    ensures Cat(Entries(enc, objects), 5) == Row(enc, objects, 1) + Row(enc, objects, 2) + Row(enc, objects, 3)
                                             + Row(enc, objects, 4) + Row(enc, objects, 5)
  {
    FiveParts(Entries(enc, objects));
    RowIs(enc, objects, 1);
    RowIs(enc, objects, 2);
    RowIs(enc, objects, 3);
    RowIs(enc, objects, 4);
    RowIs(enc, objects, 5);
  }

  lemma SixObjects()
    ensures TableHead(5) == "xref\n0 6\n"
    ensures forall xref :: Trailer(5, xref) == "trailer << /Size " + "6" + " /Root 1 0 R >>\nstartxref\n"
                                               + Numeral(xref) + "\n%%EOF\n"
  {
    assert Numeral(6) == "6";
    assert "xref\n0 " + "6" + "\n" == "xref\n0 6\n";
  }

  /**
   * The whole file: the objects, then the table with the byte at which each of them stands, and the trailer with
   * the byte at which the table stands.
   */
  lemma FileSays(enc: Encoder, lines: seq<string>)
    ensures var objects := FiveObjects(|Encoded(enc, StreamText(lines))|, StreamText(lines));
            Document(enc, Objects(enc, lines))
            == FileTo(objects, 6)
               + ("xref\n0 6\n" + "0000000000 65535 f \n"
                  + (Row(enc, objects, 1) + Row(enc, objects, 2) + Row(enc, objects, 3) + Row(enc, objects, 4)
                     + Row(enc, objects, 5)))
               + ("trailer << /Size " + "6" + " /Root 1 0 R >>\nstartxref\n"
                  + Numeral(|Encoded(enc, FileTo(objects, 6))|) + "\n%%EOF\n")
  {
    ObjectsSay(enc, lines);
    FileToIs(Objects(enc, lines), 5);
    RowsSay(enc, Objects(enc, lines));
    SixObjects();
  }
}
