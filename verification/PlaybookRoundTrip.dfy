/** Printing playbook steps and reading them back: exactly when nothing is lost. */
module PlaybookRoundTrip {
  import opened Wrappers
  import opened PyText
  import opened Scalars
  import opened PlaybookText

  /** A key as the parser produces keys: cut at the first colon of a line, then stripped. */
  predicate WellFormedKey(k: string) { Trimmed(k, Space) && ':' !in k && OneLine(k) }

  predicate WellFormedField(cv: Conventions, k: string, v: Scalar) {
    WellFormedKey(k) && Genuine(cv, v) && OneLine(FormatScalar(v))
  }

  /** A step as the parser produces steps. */
  predicate WellFormedStep(cv: Conventions, step: Step) {
    AllowedAction(cv, step) && forall k :: k in step ==> WellFormedField(cv, k, step[k])
  }

  predicate WellFormed(cv: Conventions, steps: seq<Step>) {
    forall i :: 0 <= i < |steps| ==> WellFormedStep(cv, steps[i])
  }

  /** What reading back needs: keys and values that stay on their line and can be told apart. */
  predicate PrintedStep(step: Step, keys: seq<string>) {
    HasAction(step) && OneLine(step["action"].s) && FieldsOf(keys, step)
    && forall i :: 0 <= i < |keys| ==> PrintedField(step, keys[i])
  }

  predicate PrintedField(step: Step, k: string) {
    k in step && WellFormedKey(k) && OneLine(FormatScalar(step[k]))
  }

  predicate PrintedSteps(order: KeyOrder, steps: seq<Step>) {
    HaveActions(steps) && Orders(order, steps)
    && forall i :: 0 <= i < |steps| ==> PrintedStep(steps[i], order(steps[i]))
  }

  lemma WellFormedIsPrinted(cv: Conventions, step: Step, keys: seq<string>)
    requires WellFormedStep(cv, step) && FieldsOf(keys, step)
    ensures PrintedStep(step, keys)
  {
    assert WellFormedField(cv, "action", step["action"]);
    forall i | 0 <= i < |keys| ensures PrintedField(step, keys[i]) {
      assert WellFormedField(cv, keys[i], step[keys[i]]);
    }
  }

  /** A key whose printed line would open a step of its own. */
  predicate DashKey(k: string) { "- " <= k }

  /** A printed line that is taken for a field: no comment, and not the heading again. */
  predicate Kept(k: string, text: string) {
    !("#" <= k) && !(k == "steps" && Trim(text, Space) == "")
  }

  predicate PrintableField(cv: Conventions, k: string, v: Scalar) {
    !DashKey(k) && Kept(k, FormatScalar(v)) && Stable(cv, v)
  }

  predicate PrintableStep(cv: Conventions, step: Step)
    requires HasAction(step)
  {
    step["action"].s in cv.stepActions && forall k :: k in step && k != "action" ==> PrintableField(cv, k, step[k])
  }

  /** The step lists that survive printing and reading. */
  predicate Printable(cv: Conventions, steps: seq<Step>)
    requires HaveActions(steps)
  {
    !Forbidden(cv, Trim(Canonical(steps), Space)) && forall i :: 0 <= i < |steps| ==> PrintableStep(cv, steps[i])
  }

  // Printed lines as the parser sees them.

  function CleanedField(k: string, text: string): (r: string)
    ensures r != ""
  {
    k + ":" + TrimRight(" " + text, Space)
  }

  lemma {:induction false} TrimRightConcat(x: string, y: string, p: char -> bool)
    requires x != "" && !p(x[|x| - 1])
    ensures TrimRight(x + y, p) == x + TrimRight(y, p)
  {
    if y != "" && p(y[|y| - 1]) {
      assert (x + y)[..|x + y| - 1] == x + y[..|y| - 1];
      TrimRightConcat(x, y[..|y| - 1], p);
    } else {
      assert y == "" ==> x + y == x;
    }
  }

  lemma CleanedFieldIsTrimmed(k: string, text: string)
    requires WellFormedKey(k)
    ensures Trimmed(CleanedField(k, text), Space) && CleanedField(k, text) != ""
    ensures CleanLine(k + ": " + text) == [CleanedField(k, text)]
  {
    var head, tail := k + ":", " " + text;
    assert k + ": " + text == head + tail;
    TrimRightConcat(head, tail, Space);
    var n := TrimRightShape(tail, Space);
    assert CleanedField(k, text)[0] == head[0];
  }

  lemma CleanIndented(line: string)
    ensures CleanLine("  " + line) == CleanLine(line)
    ensures CleanLine("    " + line) == CleanLine(line)
  {
    TrimCons(' ', line, Space);
    TrimCons(' ', " " + line, Space);
    assert [' '] + (" " + line) == "  " + line;
    TrimCons(' ', "  " + line, Space);
    TrimCons(' ', "   " + line, Space);
    assert [' '] + ("  " + line) == "   " + line && [' '] + ("   " + line) == "    " + line;
  }

  lemma CleanFieldLine(step: Step, k: string)
    requires k in step && WellFormedKey(k)
    ensures CleanLine(FieldLine(step, k)) == [CleanedField(k, FormatScalar(step[k]))]
  {
    var text := FormatScalar(step[k]);
    CleanedFieldIsTrimmed(k, text);
    CleanIndented(k + ": " + text);
    assert FieldLine(step, k) == "    " + (k + ": " + text);
  }

  lemma CleanActionLine(a: string)
    ensures CleanLine("  - action: " + a) == ["- " + CleanedField("action", a)]
  {
    var head, tail := "- action:", " " + a;
    CleanIndented("- action: " + a);
    assert "  " + ("- action: " + a) == "  - action: " + a;
    assert "- action: " + a == head + tail;
    TrimRightConcat(head, tail, Space);
    assert head + TrimRight(tail, Space) == "- " + CleanedField("action", a);
  }

  function CleanedStep(step: Step, keys: seq<string>, n: nat): (r: seq<string>)
    requires HasAction(step) && FieldsOf(keys, step) && n <= |keys|
    ensures NonEmpty(r)
  {
    if n == 0 then ["- " + CleanedField("action", step["action"].s)]
    else CleanedStep(step, keys, n - 1) + [CleanedField(keys[n - 1], FormatScalar(step[keys[n - 1]]))]
  }

  function CleanedSteps(order: KeyOrder, steps: seq<Step>, n: nat): (r: seq<string>)
    requires HaveActions(steps) && Orders(order, steps) && n <= |steps|
    ensures NonEmpty(r)
  {
    if n == 0 then ["steps:"]
    else
      var step := steps[n - 1];
      CleanedSteps(order, steps, n - 1) + CleanedStep(step, order(step), |order(step)|)
  }

  lemma CleanOne(line: string)
    ensures Clean([line]) == CleanLine(line)
  {
    assert [line][1..] == [];
  }

  lemma CleanOfAction(a: string)
    ensures Clean(["  - action: " + a]) == ["- " + CleanedField("action", a)]
  {
    CleanActionLine(a);
    CleanOne("  - action: " + a);
  }

  /** Two parts of the text, cleaned separately. */
  lemma CleanParts(a: seq<string>, b: seq<string>, x: seq<string>, y: seq<string>)
    requires Clean(a) == x && Clean(b) == y
    ensures Clean(a + b) == x + y
  {
    CleanConcat(a, b);
  }

  lemma {:induction false} CleanOfStep(step: Step, keys: seq<string>, n: nat)
    requires PrintedStep(step, keys) && n <= |keys|
    ensures Clean(StepLines(step, keys, n)) == CleanedStep(step, keys, n)
  {
    if n == 0 {
      CleanOfAction(step["action"].s);
    } else {
      var k := keys[n - 1];
      assert PrintedField(step, k);
      CleanOfStep(step, keys, n - 1);
      CleanOne(FieldLine(step, k));
      CleanFieldLine(step, k);
      CleanParts(StepLines(step, keys, n - 1), [FieldLine(step, k)], CleanedStep(step, keys, n - 1),
                 [CleanedField(k, FormatScalar(step[k]))]);
    }
  }

  lemma CleanHeading()
    ensures Clean(["steps:"]) == ["steps:"]
  {
    CleanOne("steps:");
    TrimFixed("steps:", Space);
  }

  lemma {:induction false} CleanOfCanonical(order: KeyOrder, steps: seq<Step>, n: nat)
    requires PrintedSteps(order, steps) && n <= |steps|
    ensures Clean(CanonicalLines(order, steps, n)) == CleanedSteps(order, steps, n)
  {
    if n == 0 {
      CleanHeading();
    } else {
      var step := steps[n - 1];
      var keys := order(step);
      CleanOfCanonical(order, steps, n - 1);
      CleanOfStep(step, keys, |keys|);
      CleanParts(CanonicalLines(order, steps, n - 1), StepLines(step, keys, |keys|),
                 CleanedSteps(order, steps, n - 1), CleanedStep(step, keys, |keys|));
    }
  }

  predicate AllOneLine(ls: seq<string>) { forall i :: 0 <= i < |ls| ==> OneLine(ls[i]) }

  lemma AllOneLineConcat(a: seq<string>, b: seq<string>)
    requires AllOneLine(a) && AllOneLine(b)
    ensures AllOneLine(a + b)
  {
  }

  lemma FieldLineIsOneLine(step: Step, k: string)
    requires PrintedField(step, k)
    ensures OneLine(FieldLine(step, k))
  {
    assert OneLine("    ") && OneLine(": ");
  }

  lemma ActionIsOneLine(a: string)
    requires OneLine(a)
    ensures AllOneLine(["  - action: " + a])
  {
    assert OneLine("  - action: ");
  }

  lemma {:induction false} StepIsOneLine(step: Step, keys: seq<string>, n: nat)
    requires PrintedStep(step, keys) && n <= |keys|
    ensures AllOneLine(StepLines(step, keys, n))
  {
    if n == 0 {
      ActionIsOneLine(step["action"].s);
    } else {
      assert PrintedField(step, keys[n - 1]);
      StepIsOneLine(step, keys, n - 1);
      FieldLineIsOneLine(step, keys[n - 1]);
      AllOneLineConcat(StepLines(step, keys, n - 1), [FieldLine(step, keys[n - 1])]);
    }
  }

  lemma {:induction false} CanonicalIsOneLine(order: KeyOrder, steps: seq<Step>, n: nat)
    requires PrintedSteps(order, steps) && n <= |steps|
    ensures AllOneLine(CanonicalLines(order, steps, n)) && CanonicalLines(order, steps, n)[0] == "steps:"
  {
    if n == 0 {
      assert OneLine("steps:");
    } else {
      var step := steps[n - 1];
      CanonicalIsOneLine(order, steps, n - 1);
      StepIsOneLine(step, order(step), |order(step)|);
      AllOneLineConcat(CanonicalLines(order, steps, n - 1), StepLines(step, order(step), |order(step)|));
    }
  }

  lemma StartsNonEmpty(t: string, c: char)
    requires t != "" && t[0] == c && !Space(c)
    ensures Trim(t, Space) != ""
  {
    var i, j := TrimShape(t, Space);
  }

  /** Lines written out, stripped as one text and split again. */
  lemma TextReads(lines: seq<string>)
    requires AllOneLine(lines) && lines != [] && lines[0] == "steps:"
    ensures Trim(JoinLines(lines), Space) != ""
    ensures Clean(Lines(Trim(JoinLines(lines), Space))) == Clean(lines)
  {
    var text := JoinLines(lines);
    assert text == lines[0] + "\n" + JoinLines(lines[1..]);
    StartsNonEmpty(text, 's');
    CleanOfJoin(lines);
    CleanOfTrim(text);
  }

  /** What the parser reads from the printed text. */
  lemma CanonicalReads(order: KeyOrder, steps: seq<Step>)
    requires PrintedSteps(order, steps)
    ensures var text := JoinLines(CanonicalLines(order, steps, |steps|));
            Trim(text, Space) != "" && Clean(Lines(Trim(text, Space))) == CleanedSteps(order, steps, |steps|)
  {
    CleanOfCanonical(order, steps, |steps|);
    CanonicalIsOneLine(order, steps, |steps|);
    TextReads(CanonicalLines(order, steps, |steps|));
  }

  // Reading the lines back, when no key opens a step.

  lemma BlankValue(text: string)
    ensures TrimRight(" " + text, Space) == "" <==> Trim(text, Space) == ""
    ensures Trim(TrimRight(" " + text, Space), Space) == Trim(text, Space)
  {
    var spaced := " " + text;
    TrimCons(' ', text, Space);
    assert [' '] + text == spaced;
    var n := TrimRightShape(spaced, Space);
    var m := TrimRightShape(TrimRight(spaced, Space), Space);
    assert TrimRight(TrimRight(spaced, Space), Space) == TrimRight(spaced, Space);
    var i, j := TrimShape(spaced, Space);
  }

  lemma CutAtColon(k: string, value: string)
    requires ':' !in k
    ensures var line := k + ":" + value;
            ':' in line && FirstColon(line) == |k| && line[..|k|] == k && line[|k| + 1..] == value
  {
    var line := k + ":" + value;
    assert line[|k|] == ':';
    forall i | 0 <= i < |k| ensures line[i] != ':' { assert line[i] == k[i] && k[i] in k; }
  }

  /** Only the stripped text matters to a value. */
  lemma ParseStripped(cv: Conventions, a: string, b: string)
    requires Trim(a, Space) == Trim(b, Space)
    ensures ParseScalar(cv, a) == ParseScalar(cv, b)
  {
  }

  lemma CleanedFieldParts(cv: Conventions, k: string, text: string)
    requires WellFormedKey(k)
    ensures var line := CleanedField(k, text);
            ':' in line && FirstColon(line) == |k| && KeyOf(line) == k && ValueOf(cv, line) == ParseScalar(cv, text)
  {
    var value := TrimRight(" " + text, Space);
    CutAtColon(k, value);
    TrimFixed(k, Space);
    BlankValue(text);
    ParseStripped(cv, value, text);
  }

  lemma ColonPlace(line: string, k: string)
    requires line == "steps:" && ':' !in k && |k| < |line| && line[|k|] == ':' && line[..|k|] == k
    ensures k == "steps"
  {
    assert FirstColon(line) == 5;
    assert |k| == 5;
  }

  /** What kind of line a printed field is to the parser. */
  lemma CleanedFieldKind(k: string, text: string)
    requires WellFormedKey(k)
    ensures var line := CleanedField(k, text);
            (line[0] == '#' <==> "#" <= k) && ("- " <= line <==> DashKey(k))
            && (line == "steps:" <==> k == "steps" && Trim(text, Space) == "")
  {
    var line, value := CleanedField(k, text), TrimRight(" " + text, Space);
    BlankValue(text);
    assert line[|k|] == ':' && line[..|k|] == k && line[|k| + 1..] == value;
    if line == "steps:" {
      ColonPlace(line, k);
    }
    assert |k| >= 2 ==> line[..2] == k[..2];
  }

  lemma FeedField(cv: Conventions, st: State, k: string, text: string)
    requires WellFormedKey(k) && !DashKey(k) && st.inSteps && st.current.Some?
    ensures Feed(cv, st, CleanedField(k, text))
            == Ok(if Kept(k, text) then st.(current := Some(st.current.value[k := ParseScalar(cv, text)])) else st)
  {
    CleanedFieldKind(k, text);
    CleanedFieldParts(cv, k, text);
  }

  lemma FeedOpening(cv: Conventions, st: State, field: string)
    requires st.inSteps && Trimmed(field, Space) && field != "" && ':' in field
    ensures Feed(cv, st, "- " + field) == Ok(State(true, Some(map[KeyOf(field) := ValueOf(cv, field)]), Close(st)))
  {
    var line := "- " + field;
    assert line[2..] == field && line[0] == '-';
    TrimFixed(field, Space);
  }

  lemma FeedAction(cv: Conventions, st: State, a: string)
    requires st.inSteps
    ensures Feed(cv, st, "- " + CleanedField("action", a))
            == Ok(State(true, Some(map["action" := ParseScalar(cv, a)]), Close(st)))
  {
    ActionKey();
    CleanedFieldIsTrimmed("action", a);
    CleanedFieldParts(cv, "action", a);
    FeedOpening(cv, st, CleanedField("action", a));
  }

  lemma ActionKey()
    ensures WellFormedKey("action")
  {
  }

  /** The step read back from the lines of its action and the first `n` of these keys. */
  function Reread(cv: Conventions, step: Step, keys: seq<string>, n: nat): (m: Step)
    requires HasAction(step) && FieldsOf(keys, step) && n <= |keys|
    ensures "action" in m
  {
    if n == 0 then map["action" := ParseScalar(cv, step["action"].s)]
    else
      var k := keys[n - 1];
      var text, before := FormatScalar(step[k]), Reread(cv, step, keys, n - 1);
      if Kept(k, text) then before[k := ParseScalar(cv, text)] else before
  }

  predicate NoDashKey(keys: seq<string>) { forall k :: k in keys ==> !DashKey(k) }

  lemma FoldOne(cv: Conventions, line: string, st: State)
    requires line != ""
    ensures Fold(cv, [line], st) == Feed(cv, st, line)
  {
    assert [line][1..] == [];
  }

  lemma {:induction false} FoldStep(cv: Conventions, step: Step, keys: seq<string>, n: nat, st: State)
    requires PrintedStep(step, keys) && NoDashKey(keys) && n <= |keys| && st.inSteps
    ensures Fold(cv, CleanedStep(step, keys, n), st) == Ok(State(true, Some(Reread(cv, step, keys, n)), Close(st)))
  {
    if n == 0 {
      FeedAction(cv, st, step["action"].s);
      FoldOne(cv, "- " + CleanedField("action", step["action"].s), st);
    } else {
      var k := keys[n - 1];
      assert PrintedField(step, k) && k in keys;
      var line := CleanedField(k, FormatScalar(step[k]));
      var before := State(true, Some(Reread(cv, step, keys, n - 1)), Close(st));
      FoldStep(cv, step, keys, n - 1, st);
      FeedField(cv, before, k, FormatScalar(step[k]));
      FoldOne(cv, line, before);
      FoldConcat(cv, CleanedStep(step, keys, n - 1), [line], st);
    }
  }

  function RereadSteps(cv: Conventions, order: KeyOrder, steps: seq<Step>, n: nat): (r: seq<Step>)
    requires HaveActions(steps) && Orders(order, steps) && n <= |steps|
    ensures |r| == n
  {
    if n == 0 then []
    else
      var step := steps[n - 1];
      RereadSteps(cv, order, steps, n - 1) + [Reread(cv, step, order(step), |order(step)|)]
  }

  /** The parser's state behind the first `n` steps. */
  function StateAfter(cv: Conventions, order: KeyOrder, steps: seq<Step>, n: nat): State
    requires HaveActions(steps) && Orders(order, steps) && n <= |steps|
  {
    if n == 0 then State(true, None, [])
    else
      var step := steps[n - 1];
      State(true, Some(Reread(cv, step, order(step), |order(step)|)), RereadSteps(cv, order, steps, n - 1))
  }

  lemma StateAfterCloses(cv: Conventions, order: KeyOrder, steps: seq<Step>, n: nat)
    requires HaveActions(steps) && Orders(order, steps) && n <= |steps|
    ensures Close(StateAfter(cv, order, steps, n)) == RereadSteps(cv, order, steps, n)
  {
    if n > 0 {
      var last := Reread(cv, steps[n - 1], order(steps[n - 1]), |order(steps[n - 1])|);
      assert "action" in last;
    }
  }

  predicate NoDashKeys(order: KeyOrder, steps: seq<Step>) {
    forall i :: 0 <= i < |steps| ==> NoDashKey(order(steps[i]))
  }

  lemma FoldHeading(cv: Conventions)
    ensures Fold(cv, ["steps:"], START) == Ok(State(true, None, []))
  {
    FoldOne(cv, "steps:", START);
  }

  lemma FoldNextStep(cv: Conventions, order: KeyOrder, steps: seq<Step>, n: nat)
    requires PrintedSteps(order, steps) && 0 < n <= |steps| && NoDashKeys(order, steps)
    requires Fold(cv, CleanedSteps(order, steps, n - 1), START) == Ok(StateAfter(cv, order, steps, n - 1))
    ensures Fold(cv, CleanedSteps(order, steps, n), START) == Ok(StateAfter(cv, order, steps, n))
  {
    var step, before := steps[n - 1], StateAfter(cv, order, steps, n - 1);
    var lines := CleanedStep(step, order(step), |order(step)|);
    StateAfterCloses(cv, order, steps, n - 1);
    FoldStep(cv, step, order(step), |order(step)|, before);
    FoldConcat(cv, CleanedSteps(order, steps, n - 1), lines, START);
  }

  lemma {:induction false} FoldSteps(cv: Conventions, order: KeyOrder, steps: seq<Step>, n: nat)
    requires PrintedSteps(order, steps) && n <= |steps| && NoDashKeys(order, steps)
    ensures Fold(cv, CleanedSteps(order, steps, n), START) == Ok(StateAfter(cv, order, steps, n))
  {
    if n == 0 {
      FoldHeading(cv);
    } else {
      FoldSteps(cv, order, steps, n - 1);
      FoldNextStep(cv, order, steps, n);
    }
  }
}
