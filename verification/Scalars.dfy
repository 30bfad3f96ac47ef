/** The values of playbook step fields: how they are read and how they are printed. */
module Scalars {
  import opened Wrappers
  import opened PyText
  import opened Decimal

  /** A number with a fractional part is known by the text Python prints for it. */
  datatype Scalar = Null | Bool(b: bool) | Int(n: int) | Float(repr: string) | Str(s: string)

  /** More digits than this are not converted to an integer. */
  const MAX_INT_DIGITS: nat := 4300

  /**
   * What is left to Python: the other scripts' digits and letters, and the nearest double's text. The
   * word lists of the playbook parser come with them.
   */
  datatype Conventions = Conventions(
    digit: char -> Option<nat>, word: char -> bool, floatRepr: string -> string,
    stepActions: set<string>, metadataKeys: set<string>, forbiddenWords: seq<string>)

  predicate Letter(c: char) { 'a' <= c <= 'z' }

  /** Longer than the words with a meaning of their own, and with a letter at both ends. */
  predicate LongWord(t: string) { |t| > 5 && Letter(t[0]) && Letter(t[|t| - 1]) }

  /** ASCII is as expected, no digit is a space, and a printed double reads back as itself. */
  ghost predicate PythonText(cv: Conventions) {
    (forall c: char :: c as int < 128 ==>
       cv.digit(c) == if '0' <= c <= '9' then Some(c as int - '0' as int) else None)
    && (forall c: char :: cv.digit(c).Some? ==> cv.digit(c).value < 10 && !Space(c))
    && (forall t: string :: cv.floatRepr(cv.floatRepr(t)) == cv.floatRepr(t))
    && (forall t: string :: Trimmed(cv.floatRepr(t), Space) && OneLine(cv.floatRepr(t)))
  }

  /** Moreover the actions are long words. */
  ghost predicate Python(cv: Conventions) {
    PythonText(cv) && forall a :: a in cv.stepActions ==> LongWord(a)
  }

  predicate Quote(c: char) { c == '"' || c == '\'' }

  function Lower(c: char): char { if 'A' <= c <= 'Z' then (c as int + 32) as char else c }

  /** Equal up to case; no character outside ASCII lowers to a letter of the words compared with. */
  predicate Reads(t: string, word: string) { |t| == |word| && forall i :: 0 <= i < |t| ==> Lower(t[i]) == word[i] }

  predicate AllDigits(cv: Conventions, u: string) { u != "" && forall i :: 0 <= i < |u| ==> cv.digit(u[i]).Some? }

  function Unsigned(t: string): string { if t != "" && t[0] == '-' then t[1..] else t }

  predicate IntText(cv: Conventions, t: string) { AllDigits(cv, Unsigned(t)) && |Unsigned(t)| <= MAX_INT_DIGITS }

  predicate FloatText(cv: Conventions, t: string) {
    var u := Unsigned(t);
    exists k :: 0 <= k < |u| && u[k] == '.' && AllDigits(cv, u[..k]) && AllDigits(cv, u[k + 1..])
  }

  function NumberOf(cv: Conventions, u: string): nat
    requires u == "" || AllDigits(cv, u)
  {
    if u == "" then 0
    else
      var front := u[..|u| - 1];
      10 * NumberOf(cv, front) + cv.digit(u[|u| - 1]).value
  }

  function IntValue(cv: Conventions, t: string): int
    requires IntText(cv, t)
  {
    var n: int := NumberOf(cv, Unsigned(t));
    if t[0] == '-' then -n else n
  }

  predicate IsNull(t: string) { Reads(t, "none") || Reads(t, "null") || Reads(t, "~") }

  /** `_parse_scalar`. */
  function ParseScalar(cv: Conventions, value: string): Scalar {
    var t := Trim(value, Space);
    if Reads(t, "true") then Bool(true)
    else if Reads(t, "false") then Bool(false)
    else if IsNull(t) then Null
    else if IntText(cv, t) then Int(IntValue(cv, t))
    else if FloatText(cv, t) then Float(cv.floatRepr(t))
    else Str(Trim(t, Quote))
  }

  /** `_format_scalar`. */
  function FormatScalar(v: Scalar): string {
    match v
    case Null => ""
    case Bool(b) => if b then "true" else "false"
    case Int(n) => if n < 0 then "-" + Numeral(-n) else Numeral(n)
    case Float(repr) => repr
    case Str(s) => s
  }

  /** Text read as a string, not as another kind of value. */
  predicate Plain(cv: Conventions, t: string) {
    !Reads(t, "true") && !Reads(t, "false") && !IsNull(t) && !IntText(cv, t) && !FloatText(cv, t)
  }

  /** A value a program can hold: a float's text is what Python prints for it. */
  predicate Genuine(cv: Conventions, v: Scalar) {
    v.Float? ==> cv.floatRepr(v.repr) == v.repr && Trimmed(v.repr, Space) && OneLine(v.repr)
  }

  /** Which values survive being printed and read again. */
  predicate Stable(cv: Conventions, v: Scalar) {
    match v
    case Null => false
    case Bool(_) => true
    case Int(n) => |Numeral(if n < 0 then -n else n)| <= MAX_INT_DIGITS
    case Float(repr) => FloatText(cv, repr)
    case Str(s) => Trimmed(s, Space) && Trimmed(s, Quote) && Plain(cv, s)
  }

  lemma {:induction false} NumeralRoundTrip(cv: Conventions, n: nat)
    requires Python(cv)
    ensures AllDigits(cv, Numeral(n)) && NumberOf(cv, Numeral(n)) == n
  {
    var s := Numeral(n);
    forall i | 0 <= i < |s| ensures cv.digit(s[i]) == Some(s[i] as int - '0' as int) { AsciiDigit(cv, s[i]); }
    if n < 10 {
      assert s[..0] == "";
    } else {
      NumeralRoundTrip(cv, n / 10);
      assert s[..|s| - 1] == Numeral(n / 10);
    }
  }

  lemma AsciiDigit(cv: Conventions, c: char)
    requires Python(cv) && '0' <= c <= '9'
    ensures cv.digit(c) == Some(c as int - '0' as int)
  {
    assert c as int < 128;
  }

  /** A text that starts with a sign or a digit is none of the words, and keeps its ends. */
  lemma NumericText(cv: Conventions, t: string)
    requires Python(cv) && t != "" && (t[0] == '-' || '0' <= t[0] <= '9') && '0' <= t[|t| - 1] <= '9'
    ensures !Reads(t, "true") && !Reads(t, "false") && !IsNull(t) && Trim(t, Space) == t
  {
    TrimFixed(t, Space);
    assert Lower(t[0]) == t[0];
  }

  lemma IntRoundTrip(cv: Conventions, n: int)
    requires Python(cv)
    ensures ParseScalar(cv, FormatScalar(Int(n))) == Int(n) <==> Stable(cv, Int(n))
  {
    var t := FormatScalar(Int(n));
    var digits := Numeral(if n < 0 then -n else n);
    NumeralRoundTrip(cv, if n < 0 then -n else n);
    NumericText(cv, t);
    if n < 0 { assert t[1..] == digits; }
    assert Unsigned(t) == digits;
    NoPoint(cv, t);
  }

  lemma NoPoint(cv: Conventions, t: string)
    requires Python(cv) && AllDigits(cv, Unsigned(t))
    ensures !FloatText(cv, t)
  {
    var c := '.';
    assert c as int < 128 && cv.digit(c) == None;
  }

  lemma BoolRoundTrip(cv: Conventions, b: bool)
    ensures ParseScalar(cv, FormatScalar(Bool(b))) == Bool(b)
  {
    var t := FormatScalar(Bool(b));
    TrimFixed(t, Space);
    if !b { assert |t| == 5; }
  }

  lemma StrRoundTrip(cv: Conventions, s: string)
    ensures ParseScalar(cv, s) == Str(s) <==> Stable(cv, Str(s))
  {
    var t := Trim(s, Space);
    var i, j := TrimShape(s, Space);
    var k, l := TrimShape(t, Quote);
    TrimFixed(s, Space);
    TrimFixed(t, Quote);
    if |t| == |s| { assert t == s; }
    if |Trim(t, Quote)| == |t| { assert Trim(t, Quote) == t; }
  }

  lemma FloatRoundTrip(cv: Conventions, repr: string)
    requires Python(cv) && Genuine(cv, Float(repr))
    ensures ParseScalar(cv, repr) == Float(repr) <==> Stable(cv, Float(repr))
  {
    TrimFixed(repr, Space);
    if FloatText(cv, repr) {
      FloatIsNoWord(cv, repr);
    }
  }

  lemma FloatIsNoWord(cv: Conventions, t: string)
    requires Python(cv) && FloatText(cv, t)
    ensures !Reads(t, "true") && !Reads(t, "false") && !IsNull(t) && !IntText(cv, t)
  {
    if IntText(cv, t) { NoPoint(cv, t); }
    var u := Unsigned(t);
    var k :| 0 <= k < |u| && u[k] == '.' && AllDigits(cv, u[..k]) && AllDigits(cv, u[k + 1..]);
    PointIsNoWord(t, k + |t| - |u|);
  }

  lemma PointIsNoWord(t: string, at: nat)
    requires at < |t| && t[at] == '.'
    ensures !Reads(t, "true") && !Reads(t, "false") && !IsNull(t)
  {
    WordsHaveNoPoint();
    PointDiffers(t, at, "true");
    PointDiffers(t, at, "false");
    PointDiffers(t, at, "none");
    PointDiffers(t, at, "null");
    PointDiffers(t, at, "~");
  }

  lemma PointDiffers(t: string, at: nat, word: string)
    requires at < |t| && t[at] == '.' && '.' !in word
    ensures !Reads(t, word)
  {
    assert Lower(t[at]) == '.';
  }

  lemma WordsHaveNoPoint()
    ensures '.' !in "true" && '.' !in "none" && '.' !in "null" && '.' !in "false" && '.' !in "~"
  {
  }

  /** A value printed and read again is itself exactly when it is stable. */
  lemma ScalarRoundTrip(cv: Conventions, v: Scalar)
    requires Python(cv) && Genuine(cv, v)
    ensures ParseScalar(cv, FormatScalar(v)) == v <==> Stable(cv, v)
  {
    match v
    case Null =>
      assert Trim("", Space) == "" && Trim("", Quote) == "";
      assert !FloatText(cv, "");
    case Bool(b) => BoolRoundTrip(cv, b);
    case Int(n) => IntRoundTrip(cv, n);
    case Float(repr) => FloatRoundTrip(cv, repr);
    case Str(s) => StrRoundTrip(cv, s);
  }

  lemma TrimOneLine(s: string, p: char -> bool)
    requires OneLine(s)
    ensures OneLine(Trim(s, p))
  {
    var i, j := TrimShape(s, p);
  }

  /** What is read from one line is genuine and, printed, fits on one line. */
  lemma ParsedScalar(cv: Conventions, value: string)
    requires Python(cv) && OneLine(value)
    ensures Genuine(cv, ParseScalar(cv, value)) && OneLine(FormatScalar(ParseScalar(cv, value)))
  {
    TrimOneLine(value, Space);
    TrimOneLine(Trim(value, Space), Quote);
    var v := ParseScalar(cv, value);
    if !v.Float? && !v.Str? { OneLineFormat(v); }
  }

  lemma OneLineFormat(v: Scalar)
    requires v.Null? || v.Bool? || v.Int?
    ensures OneLine(FormatScalar(v))
  {
    if v.Int? {
      var s := FormatScalar(v);
      forall i | 0 <= i < |s| ensures !LineBreak(s[i]) { assert s[i] == '-' || '0' <= s[i] <= '9'; }
    }
  }
}
