/** Which step lists survive being printed and parsed again, and what the parser produces. */
module PlaybookPrintable {
  import opened Wrappers
  import opened PyText
  import opened Scalars
  import opened PlaybookText
  import opened PlaybookRoundTrip

  // What one step becomes.

  lemma {:induction false} RereadAt(cv: Conventions, step: Step, keys: seq<string>, n: nat, k: string)
    requires HasAction(step) && FieldsOf(keys, step) && n <= |keys|
    ensures var m := Reread(cv, step, keys, n);
            (k in m <==> k == "action" || (k in keys[..n] && Kept(k, FormatScalar(step[k]))))
            && (k in m && k in step ==> m[k] == ParseScalar(cv, FormatScalar(step[k])))
  {
    if n > 0 {
      RereadAt(cv, step, keys, n - 1, k);
      assert keys[..n] == keys[..n - 1] + [keys[n - 1]];
    }
  }

  /** A word is read as the string it is. */
  lemma WordText(cv: Conventions, t: string)
    requires Python(cv) && LongWord(t)
    ensures Plain(cv, t) && Trimmed(t, Space) && Trimmed(t, Quote)
  {
    var c := t[0];
    assert c as int < 128 && cv.digit(c) == None;
  }

  /** An allowed action is read back without outer space. */
  lemma ActionReread(cv: Conventions, a: string)
    requires Python(cv) && Trim(a, Space) in cv.stepActions
    ensures ParseScalar(cv, a) == Str(Trim(a, Space))
  {
    var t := Trim(a, Space);
    WordText(cv, t);
    TrimFixed(t, Quote);
  }

  lemma ActionUnchanged(cv: Conventions, a: string)
    requires Python(cv) && Trim(a, Space) in cv.stepActions
    ensures ParseScalar(cv, a) == Str(a) <==> a in cv.stepActions
  {
    ActionReread(cv, a);
    if a in cv.stepActions {
      WordText(cv, a);
      TrimFixed(a, Space);
    }
  }

  predicate Covers(keys: seq<string>, step: Step) { forall k :: k in step && k != "action" ==> k in keys }

  lemma PrintableRereadAt(cv: Conventions, step: Step, keys: seq<string>, k: string)
    requires Python(cv) && WellFormedStep(cv, step) && FieldsOf(keys, step) && Covers(keys, step)
    requires PrintableStep(cv, step)
    ensures var m := Reread(cv, step, keys, |keys|); (k in m <==> k in step) && (k in step ==> m[k] == step[k])
  {
    assert keys[..|keys|] == keys;
    RereadAt(cv, step, keys, |keys|, k);
    if k == "action" {
      ActionUnchanged(cv, step["action"].s);
    } else if k in step {
      FieldSame(cv, step, k);
    } else if k in keys {
      assert false;
    }
  }

  lemma SameMap(a: Step, b: Step)
    requires forall k :: (k in a <==> k in b) && (k in b ==> a[k] == b[k])
    ensures a == b
  {
  }

  lemma PrintableRereadSame(cv: Conventions, step: Step, keys: seq<string>)
    requires Python(cv) && WellFormedStep(cv, step) && FieldsOf(keys, step) && Covers(keys, step)
    requires PrintableStep(cv, step)
    ensures Reread(cv, step, keys, |keys|) == step
  {
    var n := |keys|;
    var m := Reread(cv, step, keys, n);
    forall k ensures (k in m <==> k in step) && (k in step ==> m[k] == step[k]) {
      PrintableRereadAt(cv, step, keys, k);
    }
    SameMap(m, step);
  }

  /** A step read back is itself exactly when it is printable. */
  lemma RereadSame(cv: Conventions, step: Step, keys: seq<string>)
    requires Python(cv) && WellFormedStep(cv, step) && FieldsOf(keys, step) && Covers(keys, step) && NoDashKey(keys)
    ensures Reread(cv, step, keys, |keys|) == step <==> PrintableStep(cv, step)
  {
    var m := Reread(cv, step, keys, |keys|);
    if PrintableStep(cv, step) {
      PrintableRereadSame(cv, step, keys);
    } else if m == step {
      assert keys[..|keys|] == keys;
      RereadAt(cv, step, keys, |keys|, "action");
      ActionUnchanged(cv, step["action"].s);
      forall k | k in step && k != "action" ensures PrintableField(cv, k, step[k]) {
        RereadAt(cv, step, keys, |keys|, k);
        FieldSame(cv, step, k);
        assert k in keys;
      }
    }
  }

  lemma FieldSame(cv: Conventions, step: Step, k: string)
    requires Python(cv) && WellFormedStep(cv, step) && k in step
    ensures ParseScalar(cv, FormatScalar(step[k])) == step[k] <==> Stable(cv, step[k])
  {
    assert WellFormedField(cv, k, step[k]);
    ScalarRoundTrip(cv, step[k]);
  }

  // Keys that open steps: the parser then finds more steps than were printed.

  function Opens(lines: seq<string>): nat {
    if lines == [] then 0 else (if "- " <= lines[0] then 1 else 0) + Opens(lines[1..])
  }

  lemma {:induction false} OpensConcat(a: seq<string>, b: seq<string>)
    ensures Opens(a + b) == Opens(a) + Opens(b)
  {
    if a == [] {
      assert a + b == b;
    } else {
      assert (a + b)[1..] == a[1..] + b;
      OpensConcat(a[1..], b);
    }
  }

  lemma OpensOne(line: string)
    ensures Opens([line]) == if "- " <= line then 1 else 0
  {
    assert [line][1..] == [];
  }

  lemma OpensAction(field: string)
    ensures Opens(["- " + field]) == 1
  {
    OpensOne("- " + field);
  }

  predicate CurrentNonEmpty(st: State) { st.current.Some? ==> st.current.value != map[] }

  /** Each accepted line that opens a step adds one step, and no other does. */
  lemma FeedCount(cv: Conventions, st: State, line: string, next: State)
    requires line != "" && Trimmed(line, Space) && CurrentNonEmpty(st) && st.inSteps
    requires Feed(cv, st, line) == Ok(next)
    ensures CurrentNonEmpty(next) && next.inSteps
    ensures |Close(next)| == |Close(st)| + if "- " <= line then 1 else 0
  {
    if line[0] == '#' || line == "steps:" {
    } else if "- " <= line {
      assert line[1] == ' ';
      var i, j := TrimShape(line[2..], Space);
      assert Trim(line[2..], Space) != "";
      var m := next.current.value;
      assert KeyOf(Trim(line[2..], Space)) in m;
    } else {
      assert KeyOf(line) in next.current.value && KeyOf(line) in next.current.value;
      assert st.current.value != map[];
    }
  }

  predicate AllTrimmed(lines: seq<string>) {
    forall i :: 0 <= i < |lines| ==> lines[i] != "" && Trimmed(lines[i], Space)
  }

  lemma {:induction false} FoldCount(cv: Conventions, lines: seq<string>, st: State, end: State)
    requires AllTrimmed(lines) && CurrentNonEmpty(st) && st.inSteps
    requires NonEmpty(lines) && Fold(cv, lines, st) == Ok(end)
    ensures |Close(end)| == |Close(st)| + Opens(lines)
  {
    if lines != [] {
      var next := Feed(cv, st, lines[0]).value;
      FeedCount(cv, st, lines[0], next);
      FoldCount(cv, lines[1..], next, end);
    }
  }

  predicate OpensOfStepBound(step: Step, keys: seq<string>, n: nat)
    requires HasAction(step) && FieldsOf(keys, step) && n <= |keys|
  {
    var opens := Opens(CleanedStep(step, keys, n));
    opens >= 1 && (opens == 1 ==> NoDashKey(keys[..n]))
  }

  lemma OpensOfNextField(step: Step, keys: seq<string>, n: nat)
    requires PrintedStep(step, keys) && 0 < n <= |keys| && OpensOfStepBound(step, keys, n - 1)
    ensures OpensOfStepBound(step, keys, n)
  {
    var k := keys[n - 1];
    var line := CleanedField(k, FormatScalar(step[k]));
    assert PrintedField(step, k);
    OpensConcat(CleanedStep(step, keys, n - 1), [line]);
    OpensOne(line);
    CleanedFieldKind(k, FormatScalar(step[k]));
    assert keys[..n] == keys[..n - 1] + [k];
  }

  lemma {:induction false} OpensOfStep(step: Step, keys: seq<string>, n: nat)
    requires PrintedStep(step, keys) && n <= |keys|
    ensures OpensOfStepBound(step, keys, n)
  {
    if n == 0 {
      OpensAction(CleanedField("action", step["action"].s));
    } else {
      OpensOfStep(step, keys, n - 1);
      OpensOfNextField(step, keys, n);
    }
  }

  /** With a key that opens a step of its own, there are more openings than steps. */
  predicate OpensBound(order: KeyOrder, steps: seq<Step>, n: nat)
    requires HaveActions(steps) && Orders(order, steps) && n <= |steps|
  {
    var opens := Opens(CleanedSteps(order, steps, n));
    opens >= n && (opens == n ==> NoDashKeys(order, steps[..n]))
  }

  lemma OpensOfNextStep(order: KeyOrder, steps: seq<Step>, n: nat)
    requires PrintedSteps(order, steps) && 0 < n <= |steps| && OpensBound(order, steps, n - 1)
    ensures OpensBound(order, steps, n)
  {
    var step := steps[n - 1];
    var keys := order(step);
    assert PrintedStep(step, keys);
    OpensOfStep(step, keys, |keys|);
    assert keys[..|keys|] == keys && steps[..n] == steps[..n - 1] + [step];
    OpensConcat(CleanedSteps(order, steps, n - 1), CleanedStep(step, keys, |keys|));
  }

  lemma {:induction false} OpensOfSteps(order: KeyOrder, steps: seq<Step>, n: nat)
    requires PrintedSteps(order, steps) && n <= |steps|
    ensures OpensBound(order, steps, n)
  {
    if n > 0 {
      OpensOfSteps(order, steps, n - 1);
      OpensOfNextStep(order, steps, n);
    }
  }

  lemma {:induction false} CleanedIsTrimmed(order: KeyOrder, steps: seq<Step>)
    requires PrintedSteps(order, steps)
    ensures AllTrimmed(CleanedSteps(order, steps, |steps|))
  {
    var t := Trim(JoinLines(CanonicalLines(order, steps, |steps|)), Space);
    CanonicalReads(order, steps);
    LinesAreLines(t);
    CleanLinesAreLines(Lines(t));
  }

  /** The first line of the printed text, and the rest. */
  lemma {:induction false} CleanedHeading(order: KeyOrder, steps: seq<Step>, n: nat)
    requires HaveActions(steps) && Orders(order, steps) && n <= |steps|
    ensures CleanedSteps(order, steps, n)[..1] == ["steps:"]
  {
    if n > 0 { CleanedHeading(order, steps, n - 1); }
  }

  lemma AfterHeading(cv: Conventions, lines: seq<string>)
    requires NonEmpty(lines) && lines != [] && lines[..1] == ["steps:"]
    ensures Fold(cv, lines, START) == Fold(cv, lines[1..], State(true, None, [])) && Opens(lines) == Opens(lines[1..])
  {
    assert lines[0] == lines[..1][0] == "steps:";
  }

  /** Whatever is accepted of the printed lines has as many steps as lines that open one. */
  lemma AcceptedCount(cv: Conventions, order: KeyOrder, steps: seq<Step>, end: State)
    requires PrintedSteps(order, steps)
    requires Fold(cv, CleanedSteps(order, steps, |steps|), START) == Ok(end)
    ensures |Close(end)| == Opens(CleanedSteps(order, steps, |steps|))
  {
    var lines := CleanedSteps(order, steps, |steps|);
    CleanedIsTrimmed(order, steps);
    CleanedHeading(order, steps, |steps|);
    AfterHeading(cv, lines);
    FoldCount(cv, lines[1..], State(true, None, []), end);
  }

  // The theorem.

  predicate AllCovered(order: KeyOrder, steps: seq<Step>) {
    forall i :: 0 <= i < |steps| ==> Covers(order(steps[i]), steps[i])
  }

  predicate AllPrintable(cv: Conventions, steps: seq<Step>)
    requires HaveActions(steps)
  {
    forall i :: 0 <= i < |steps| ==> PrintableStep(cv, steps[i])
  }

  lemma WellFormedSteps(cv: Conventions, order: KeyOrder, steps: seq<Step>)
    requires WellFormed(cv, steps) && Orders(order, steps)
    ensures PrintedSteps(order, steps)
  {
    forall i | 0 <= i < |steps| ensures PrintedStep(steps[i], order(steps[i])) {
      WellFormedIsPrinted(cv, steps[i], order(steps[i]));
    }
  }

  lemma PrintableHasNoDashKeys(cv: Conventions, order: KeyOrder, steps: seq<Step>)
    requires HaveActions(steps) && Orders(order, steps) && AllPrintable(cv, steps)
    ensures NoDashKeys(order, steps)
  {
    forall i | 0 <= i < |steps| ensures NoDashKey(order(steps[i])) {
      var step := steps[i];
      assert PrintableStep(cv, step);
      forall k | k in order(step) ensures !DashKey(k) {
        var j :| 0 <= j < |order(step)| && order(step)[j] == k;
        assert PrintableField(cv, k, step[k]);
      }
    }
  }

  lemma {:induction false} RereadStepsAt(cv: Conventions, order: KeyOrder, steps: seq<Step>, n: nat, i: nat)
    requires HaveActions(steps) && Orders(order, steps) && i < n <= |steps|
    ensures RereadSteps(cv, order, steps, n)[i] == Reread(cv, steps[i], order(steps[i]), |order(steps[i])|)
  {
    if i < n - 1 { RereadStepsAt(cv, order, steps, n - 1, i); }
  }

  /** The steps read back: allowed again, and the printed ones exactly when all are printable. */
  lemma RereadStepsSame(cv: Conventions, order: KeyOrder, steps: seq<Step>)
    requires Python(cv) && WellFormed(cv, steps) && Orders(order, steps) && AllCovered(order, steps)
    requires NoDashKeys(order, steps) && HaveActions(steps)
    ensures ActionsAllowed(cv, RereadSteps(cv, order, steps, |steps|))
    ensures RereadSteps(cv, order, steps, |steps|) == steps <==> AllPrintable(cv, steps)
  {
    var back := RereadSteps(cv, order, steps, |steps|);
    forall i | 0 <= i < |steps|
      ensures AllowedAction(cv, back[i]) && (back[i] == steps[i] <==> PrintableStep(cv, steps[i]))
    {
      var step := steps[i];
      RereadStepsAt(cv, order, steps, |steps|, i);
      assert WellFormedStep(cv, step) && Covers(order(step), step) && NoDashKey(order(step));
      RereadSame(cv, step, order(step));
      RereadAllowed(cv, step, order(step));
    }
  }

  lemma RereadAllowed(cv: Conventions, step: Step, keys: seq<string>)
    requires Python(cv) && AllowedAction(cv, step) && FieldsOf(keys, step)
    ensures AllowedAction(cv, Reread(cv, step, keys, |keys|))
  {
    RereadAt(cv, step, keys, |keys|, "action");
    ActionReread(cv, step["action"].s);
    TrimIdempotent(step["action"].s, Space);
  }

  lemma DashKeysAddSteps(cv: Conventions, order: KeyOrder, steps: seq<Step>)
    requires PrintedSteps(order, steps) && !NoDashKeys(order, steps)
    ensures ParsedLines(cv, CleanedSteps(order, steps, |steps|)) != Ok(steps)
  {
    OpensOfSteps(order, steps, |steps|);
    assert steps[..|steps|] == steps;
    var folded := Fold(cv, CleanedSteps(order, steps, |steps|), START);
    if folded.Ok? { AcceptedCount(cv, order, steps, folded.value); }
  }

  /** What the parser makes of the printed lines. */
  lemma PrintedLinesParse(cv: Conventions, order: KeyOrder, steps: seq<Step>)
    requires Python(cv) && WellFormed(cv, steps) && steps != [] && Orders(order, steps) && AllCovered(order, steps)
    requires HaveActions(steps)
    ensures ParsedLines(cv, CleanedSteps(order, steps, |steps|)) == Ok(steps) <==> AllPrintable(cv, steps)
  {
    WellFormedSteps(cv, order, steps);
    if NoDashKeys(order, steps) {
      FoldSteps(cv, order, steps, |steps|);
      StateAfterCloses(cv, order, steps, |steps|);
      RereadStepsSame(cv, order, steps);
    } else {
      if AllPrintable(cv, steps) { PrintableHasNoDashKeys(cv, order, steps); }
      DashKeysAddSteps(cv, order, steps);
    }
  }

  /** A text whose lines are the printed ones. */
  lemma TextParses(cv: Conventions, order: KeyOrder, steps: seq<Step>, t: string)
    requires Python(cv) && WellFormed(cv, steps) && steps != [] && Orders(order, steps) && AllCovered(order, steps)
    requires HaveActions(steps)
    requires Trim(t, Space) != "" && Clean(Lines(Trim(t, Space))) == CleanedSteps(order, steps, |steps|)
    ensures ParsedSteps(cv, t) == Ok(steps) <==> !Forbidden(cv, Trim(t, Space)) && AllPrintable(cv, steps)
  {
    PrintedLinesParse(cv, order, steps);
  }

  /**
   * Printing a list of steps and parsing the text gives the list back exactly when it is printable,
   * in whatever order the printer takes the keys.
   */
  lemma RoundTripAnyOrder(cv: Conventions, order: KeyOrder, steps: seq<Step>)
    requires Python(cv) && WellFormed(cv, steps) && steps != [] && Orders(order, steps) && AllCovered(order, steps)
    requires HaveActions(steps)
    ensures var text := JoinLines(CanonicalLines(order, steps, |steps|));
            ParsedSteps(cv, text) == Ok(steps) <==> !Forbidden(cv, Trim(text, Space)) && AllPrintable(cv, steps)
  {
    WellFormedSteps(cv, order, steps);
    CanonicalReads(order, steps);
    TextParses(cv, order, steps, JoinLines(CanonicalLines(order, steps, |steps|)));
  }

  /** The round trip of the canonical text, with sorted keys. */
  lemma RoundTrip(cv: Conventions, steps: seq<Step>)
    requires Python(cv) && WellFormed(cv, steps) && steps != []
    ensures HaveActions(steps)
    ensures ParsedSteps(cv, Canonical(steps)) == Ok(steps) <==> Printable(cv, steps)
  {
    forall i | 0 <= i < |steps| ensures HasAction(steps[i]) { assert WellFormedStep(cv, steps[i]); }
    RoundTripAnyOrder(cv, FieldKeys, steps);
  }

  // What the parser produces.

  predicate WellFormedFields(cv: Conventions, m: Step) { forall k :: k in m ==> WellFormedField(cv, k, m[k]) }

  predicate WellFormedState(cv: Conventions, st: State) {
    (st.current.Some? ==> WellFormedFields(cv, st.current.value))
    && forall i :: 0 <= i < |st.steps| ==> WellFormedFields(cv, st.steps[i])
  }

  lemma OneLinePart(s: string, i: nat, j: nat)
    requires OneLine(s) && i <= j <= |s|
    ensures OneLine(s[i..j])
  {
  }

  lemma CutKeyIsWellFormed(s: string)
    requires OneLine(s)
    ensures WellFormedKey(KeyOf(s))
  {
    var front := s[..FirstColon(s)];
    OneLinePart(s, 0, FirstColon(s));
    TrimOneLine(front, Space);
    var i, j := TrimShape(front, Space);
    assert forall x :: x in front ==> x != ':';
    assert forall x :: x in front[i..j] ==> x in front;
  }

  /** A key and value cut from one line are well formed. */
  lemma CutIsWellFormed(cv: Conventions, s: string)
    requires Python(cv) && OneLine(s) && ':' in s
    ensures WellFormedField(cv, KeyOf(s), ValueOf(cv, s))
  {
    CutKeyIsWellFormed(s);
    OneLinePart(s, FirstColon(s) + 1, |s|);
    ParsedScalar(cv, s[FirstColon(s) + 1..]);
  }

  lemma CloseKeepsFields(cv: Conventions, st: State)
    requires WellFormedState(cv, st)
    ensures forall i :: 0 <= i < |Close(st)| ==> WellFormedFields(cv, Close(st)[i])
  {
  }

  lemma FeedKeepsFields(cv: Conventions, st: State, line: string)
    requires Python(cv) && line != "" && OneLine(line) && WellFormedState(cv, st) && Feed(cv, st, line).Ok?
    ensures WellFormedState(cv, Feed(cv, st, line).value)
  {
    if line[0] == '#' || line == "steps:" || !st.inSteps {
    } else if "- " <= line {
      CloseKeepsFields(cv, st);
      var remainder := Trim(line[2..], Space);
      if remainder != "" {
        OneLinePart(line, 2, |line|);
        TrimOneLine(line[2..], Space);
        CutIsWellFormed(cv, remainder);
      }
    } else {
      CutIsWellFormed(cv, line);
    }
  }

  lemma {:induction false} FoldKeepsFields(cv: Conventions, lines: seq<string>, st: State)
    requires Python(cv) && NonEmpty(lines) && AllOneLine(lines) && WellFormedState(cv, st)
    requires Fold(cv, lines, st).Ok?
    ensures WellFormedState(cv, Fold(cv, lines, st).value)
  {
    if lines != [] {
      FeedKeepsFields(cv, st, lines[0]);
      FoldKeepsFields(cv, lines[1..], Feed(cv, st, lines[0]).value);
    }
  }

  /** Every accepted text yields well-formed steps, at least one, each with exactly an allowed action. */
  lemma ParsedIsWellFormed(cv: Conventions, text: string)
    requires Python(cv) && ParsedSteps(cv, text).Ok?
    ensures ParsedSteps(cv, text).value != [] && WellFormed(cv, ParsedSteps(cv, text).value)
  {
    var lines := Clean(Lines(Trim(text, Space)));
    LinesAreLines(Trim(text, Space));
    CleanLinesAreLines(Lines(Trim(text, Space)));
    assert AllOneLine(lines);
    FoldKeepsFields(cv, lines, START);
    var end := Fold(cv, lines, START).value;
    CloseKeepsFields(cv, end);
    forall i | 0 <= i < |Close(end)| ensures WellFormedStep(cv, Close(end)[i]) {
      assert AllowedAction(cv, Close(end)[i]) && WellFormedFields(cv, Close(end)[i]);
    }
  }

  /**
   * Storing the canonical text of an accepted text and reading it again: the same steps, and then the
   * same canonical text, exactly when they are printable.
   */
  lemma CanonicalFormStable(cv: Conventions, text: string)
    requires Python(cv) && ParsedSteps(cv, text).Ok?
    ensures var steps := ParsedSteps(cv, text).value;
            HaveActions(steps) && (ParsedSteps(cv, Canonical(steps)) == Ok(steps) <==> Printable(cv, steps))
  {
    ParsedIsWellFormed(cv, text);
    RoundTrip(cv, ParsedSteps(cv, text).value);
  }

  // A text that is not stable.

  function FlagStep(action: string, flag: string): Step { map["action" := Str(action), "flag" := Str(flag)] }

  lemma FlagKey()
    ensures WellFormedKey("flag") && "flag" != "action"
  {
    assert |"flag"| != |"action"|;
  }

  lemma FlagStepWellFormed(cv: Conventions, action: string, flag: string)
    requires Python(cv) && action in cv.stepActions && OneLine(action) && OneLine(flag)
    ensures WellFormedStep(cv, FlagStep(action, flag))
  {
    FlagKey();
    ActionKey();
    WordText(cv, action);
    TrimFixed(action, Space);
    assert WellFormedField(cv, "action", Str(action)) && WellFormedField(cv, "flag", Str(flag));
  }

  lemma QuotesStripped()
    ensures Trim("\"true\"", Space) == "\"true\"" && Trim("\"true\"", Quote) == "true"
  {
    var t := "\"true\"";
    TrimFixed(t, Space);
    TrimFixed("true", Quote);
    TrimCons('"', "true", Quote);
    TrimAppend(['"'] + "true", '"', Quote);
    assert t == ['"'] + "true" + ['"'];
  }

  lemma QuotedTrueReads(cv: Conventions)
    requires Python(cv)
    ensures ParseScalar(cv, "\"true\"") == Str("true") && ParseScalar(cv, "true") == Bool(true)
  {
    QuotesStripped();
    var c := '"';
    assert c as int < 128 && cv.digit(c) == None;
    TrimFixed("true", Space);
  }

  /** A flag written as the quoted word true is read as text, printed bare and then read as a boolean. */
  lemma QuotedTrueDrifts(cv: Conventions, action: string)
    requires Python(cv) && action in cv.stepActions && OneLine(action)
    ensures HasAction(FlagStep(action, "true"))
    ensures ParseScalar(cv, "\"true\"") == Str("true")
    ensures WellFormed(cv, [FlagStep(action, "true")])
    ensures ParsedSteps(cv, Canonical([FlagStep(action, "true")])) != Ok([FlagStep(action, "true")])
  {
    var steps := [FlagStep(action, "true")];
    QuotedTrueReads(cv);
    FlagStepWellFormed(cv, action, "true");
    RoundTrip(cv, steps);
    assert !PrintableField(cv, "flag", Str("true"));
    assert "flag" in steps[0] && "flag" != "action";
    assert !PrintableStep(cv, steps[0]);
  }
}
