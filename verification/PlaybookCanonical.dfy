/** When the canonical text of a step list is a fixed point, although the steps themselves may change. */
module PlaybookCanonical {
  import opened Wrappers
  import opened PyText
  import opened Scalars
  import opened PlaybookText
  import opened PlaybookRoundTrip
  import opened PlaybookPrintable

  // Values.

  /** The text of a value that is printed again as it was read. */
  predicate TextKept(cv: Conventions, s: string) {
    Trimmed(s, Space)
    && if Reads(s, "true") then s == "true"
       else if Reads(s, "false") then s == "false"
       else !IsNull(s)
            && if IntText(cv, s) then FormatScalar(Int(IntValue(cv, s))) == s
               else if FloatText(cv, s) then cv.floatRepr(s) == s
               else Trimmed(s, Quote)
  }

  lemma FormatIsTrimmed(v: Scalar)
    requires v.Null? || v.Bool? || v.Int?
    ensures Trimmed(FormatScalar(v), Space)
  {
    if v.Bool? { assert FormatScalar(v) == "true" || FormatScalar(v) == "false"; }
  }

  lemma TextOfTrimmed(cv: Conventions, s: string)
    requires Trimmed(s, Space)
    ensures FormatScalar(ParseScalar(cv, s)) == s <==> TextKept(cv, s)
  {
    TrimFixed(s, Space);
    TrimFixed(s, Quote);
  }

  /** Reading a text as a value and printing it gives the text back exactly when it is kept. */
  lemma TextRoundTrip(cv: Conventions, s: string)
    requires Python(cv)
    ensures FormatScalar(ParseScalar(cv, s)) == s <==> TextKept(cv, s)
  {
    if Trimmed(s, Space) {
      TextOfTrimmed(cv, s);
    } else {
      var v := ParseScalar(cv, s);
      if v.Str? {
        var t := Trim(s, Space);
        var i, j := TrimShape(s, Space);
        var k, l := TrimShape(t, Quote);
        TrimFixed(s, Space);
        assert i > 0 || j < |s|;
      } else if !v.Float? {
        FormatIsTrimmed(v);
      }
    }
  }

  predicate KeptField(cv: Conventions, k: string, v: Scalar) {
    !DashKey(k) && Kept(k, FormatScalar(v)) && TextKept(cv, FormatScalar(v))
  }

  predicate KeptStep(cv: Conventions, step: Step)
    requires HasAction(step)
  {
    step["action"].s in cv.stepActions && forall k :: k in step && k != "action" ==> KeptField(cv, k, step[k])
  }

  predicate AllKept(cv: Conventions, steps: seq<Step>)
    requires HaveActions(steps)
  {
    forall i :: 0 <= i < |steps| ==> KeptStep(cv, steps[i])
  }

  // Texts and their lines.

  lemma {:induction false} LinesOfJoin(ls: seq<string>)
    requires AllOneLine(ls)
    ensures Lines(JoinLines(ls)) == ls + [""]
  {
    if ls != [] {
      LinesOfJoin(ls[1..]);
      LinesConcat(ls[0], JoinLines(ls[1..]));
      assert [ls[0]] + (ls[1..] + [""]) == ls + [""];
    }
  }

  /** Two canonical texts are the same text only if they are the same lines. */
  lemma SameTextSameLines(a: seq<string>, b: seq<string>)
    requires AllOneLine(a) && AllOneLine(b) && JoinLines(a) == JoinLines(b)
    ensures a == b
  {
    LinesOfJoin(a);
    LinesOfJoin(b);
    assert a == (a + [""])[..|a|] && b == (b + [""])[..|b|];
  }

  /** How many printed lines begin a step. */
  function Begins(lines: seq<string>): nat {
    if lines == [] then 0
    else Begins(lines[..|lines| - 1]) + if "  - " <= lines[|lines| - 1] then 1 else 0
  }

  lemma {:induction false} BeginsConcat(a: seq<string>, b: seq<string>)
    ensures Begins(a + b) == Begins(a) + Begins(b)
  {
    if b == [] {
      assert a + b == a;
    } else {
      assert (a + b)[..|a + b| - 1] == a + b[..|b| - 1];
      BeginsConcat(a, b[..|b| - 1]);
    }
  }

  lemma BeginsOne(line: string)
    ensures Begins([line]) == if "  - " <= line then 1 else 0
  {
    assert [line][..0] == [];
  }

  lemma ActionBegins(a: string)
    ensures Begins(["  - action: " + a]) == 1
  {
    var line := "  - action: " + a;
    assert line[..4] == "  - ";
    BeginsOne(line);
  }

  lemma FieldBegins(step: Step, k: string)
    requires k in step
    ensures Begins([FieldLine(step, k)]) == 0
  {
    var line := FieldLine(step, k);
    assert line[2] == ' ';
    BeginsOne(line);
  }

  lemma {:induction false} StepBegins(step: Step, keys: seq<string>, n: nat)
    requires HasAction(step) && FieldsOf(keys, step) && n <= |keys|
    ensures Begins(StepLines(step, keys, n)) == 1 && |StepLines(step, keys, n)| == n + 1
  {
    if n == 0 {
      ActionBegins(step["action"].s);
    } else {
      StepBegins(step, keys, n - 1);
      FieldBegins(step, keys[n - 1]);
      BeginsConcat(StepLines(step, keys, n - 1), [FieldLine(step, keys[n - 1])]);
    }
  }

  lemma HeadingBegins()
    ensures Begins(["steps:"]) == 0
  {
    var line, dash := "steps:", "  - ";
    assert line[0] == 's' && dash[0] == ' ';
    BeginsOne(line);
  }

  lemma NextStepBegins(order: KeyOrder, steps: seq<Step>, n: nat)
    requires HaveActions(steps) && Orders(order, steps) && 0 < n <= |steps|
    ensures var before := CanonicalLines(order, steps, n - 1);
            Begins(CanonicalLines(order, steps, n)) == Begins(before) + 1
            && |CanonicalLines(order, steps, n)| == |before| + |order(steps[n - 1])| + 1
  {
    var step := steps[n - 1];
    StepBegins(step, order(step), |order(step)|);
    BeginsConcat(CanonicalLines(order, steps, n - 1), StepLines(step, order(step), |order(step)|));
  }

  /** The canonical lines show the number of steps. */
  lemma {:induction false} StepsBegin(order: KeyOrder, steps: seq<Step>, n: nat)
    requires HaveActions(steps) && Orders(order, steps) && n <= |steps|
    ensures Begins(CanonicalLines(order, steps, n)) == n
  {
    if n == 0 {
      HeadingBegins();
    } else {
      StepsBegin(order, steps, n - 1);
      NextStepBegins(order, steps, n);
    }
  }

  // Step lists that print alike.

  lemma OneLess<T>(s: set<T>, x: T)
    requires x in s
    ensures |s - {x}| == |s| - 1
  {
  }

  lemma KeysCounted(step: Step)
    requires HasAction(step)
    ensures |FieldKeys(step)| + 1 == |step.Keys|
  {
    var action := "action";
    assert FieldKeys(step) == Sorted(step.Keys - {action});
    SortedElements(step.Keys - {action});
    OneLess(step.Keys, action);
  }

  /** How many lines the first `n` steps take. */
  function LineCount(steps: seq<Step>, n: nat): nat
    requires n <= |steps|
  {
    if n == 0 then 1 else LineCount(steps, n - 1) + |steps[n - 1].Keys|
  }

  predicate Counts(order: KeyOrder, steps: seq<Step>) {
    forall i :: 0 <= i < |steps| ==> |order(steps[i])| + 1 == |steps[i].Keys|
  }

  lemma {:induction false} LinesCountedBy(order: KeyOrder, steps: seq<Step>, n: nat)
    requires HaveActions(steps) && Orders(order, steps) && Counts(order, steps) && n <= |steps|
    ensures |CanonicalLines(order, steps, n)| == LineCount(steps, n)
  {
    if n > 0 {
      LinesCountedBy(order, steps, n - 1);
      NextStepBegins(order, steps, n);
    }
  }

  lemma LinesCounted(steps: seq<Step>)
    requires HaveActions(steps)
    ensures |CanonicalLines(FieldKeys, steps, |steps|)| == LineCount(steps, |steps|)
  {
    forall i | 0 <= i < |steps| ensures |FieldKeys(steps[i])| + 1 == |steps[i].Keys| { KeysCounted(steps[i]); }
    LinesCountedBy(FieldKeys, steps, |steps|);
  }

  /** Every step of `a` has only keys the step of `b` has. */
  predicate FewerKeys(a: seq<Step>, b: seq<Step>) {
    |a| == |b| && forall i :: 0 <= i < |a| ==> a[i].Keys <= b[i].Keys
  }

  predicate SameKeys(a: seq<Step>, b: seq<Step>, n: nat)
    requires n <= |a| && n <= |b|
  {
    forall i :: 0 <= i < n ==> a[i].Keys == b[i].Keys
  }

  lemma SubsetCount<T>(a: set<T>, b: set<T>)
    requires a <= b
    ensures |a| <= |b| && (|a| == |b| ==> a == b)
  {
    assert b == a + (b - a);
    if |a| == |b| { assert |b - a| == 0; }
  }

  /** With fewer keys the text is shorter, unless the keys are the same. */
  lemma {:induction false} FewerLines(a: seq<Step>, b: seq<Step>, n: nat)
    requires FewerKeys(a, b) && n <= |a|
    ensures LineCount(a, n) <= LineCount(b, n)
    ensures LineCount(a, n) == LineCount(b, n) ==> SameKeys(a, b, n)
  {
    if n > 0 {
      FewerLines(a, b, n - 1);
      SubsetCount(a[n - 1].Keys, b[n - 1].Keys);
    }
  }

  /** Two steps with the same keys and the same printed values. */
  predicate PrintAlike(x: Step, y: Step) {
    x.Keys == y.Keys && forall k :: k in x ==> FormatScalar(x[k]) == FormatScalar(y[k])
  }

  predicate AlikeFields(x: Step, y: Step, keys: seq<string>, n: nat)
    requires FieldsOf(keys, x) && FieldsOf(keys, y) && n <= |keys|
  {
    forall i :: 0 <= i < n ==> FieldLine(x, keys[i]) == FieldLine(y, keys[i])
  }

  lemma AlikeStart(x: Step, y: Step, keys: seq<string>)
    requires HasAction(x) && HasAction(y) && FieldsOf(keys, x) && FieldsOf(keys, y)
    ensures StepLines(x, keys, 0) == StepLines(y, keys, 0) <==> x["action"] == y["action"]
  {
    AlikeActions(x["action"].s, y["action"].s);
  }

  lemma LastLine(step: Step, keys: seq<string>, n: nat)
    requires HasAction(step) && FieldsOf(keys, step) && 0 < n <= |keys|
    ensures StepLines(step, keys, n) == StepLines(step, keys, n - 1) + [FieldLine(step, keys[n - 1])]
    ensures |StepLines(step, keys, n - 1)| == n
  {
    StepBegins(step, keys, n - 1);
  }

  lemma AlikeNextField(x: Step, y: Step, keys: seq<string>, n: nat)
    requires HasAction(x) && HasAction(y) && FieldsOf(keys, x) && FieldsOf(keys, y) && 0 < n <= |keys|
    ensures StepLines(x, keys, n) == StepLines(y, keys, n)
            <==> StepLines(x, keys, n - 1) == StepLines(y, keys, n - 1)
                 && FieldLine(x, keys[n - 1]) == FieldLine(y, keys[n - 1])
  {
    LastLine(x, keys, n);
    LastLine(y, keys, n);
    var a, b, s, t := StepLines(x, keys, n - 1), StepLines(y, keys, n - 1),
                      FieldLine(x, keys[n - 1]), FieldLine(y, keys[n - 1]);
    EqualParts(a, s, b, t);
  }

  lemma {:induction false} AlikeStepLines(x: Step, y: Step, keys: seq<string>, n: nat)
    requires HasAction(x) && HasAction(y) && FieldsOf(keys, x) && FieldsOf(keys, y) && n <= |keys|
    ensures StepLines(x, keys, n) == StepLines(y, keys, n) <==> x["action"] == y["action"] && AlikeFields(x, y, keys, n)
  {
    if n == 0 {
      AlikeStart(x, y, keys);
    } else {
      AlikeStepLines(x, y, keys, n - 1);
      AlikeNextField(x, y, keys, n);
    }
  }

  lemma AlikeActions(a: string, b: string)
    ensures ["  - action: " + a] == ["  - action: " + b] <==> a == b
  {
    EqualTails("  - action: ", a, b);
    if ["  - action: " + a] == ["  - action: " + b] {
      assert ["  - action: " + a][0] == ["  - action: " + b][0];
    }
  }

  lemma EqualParts(a: seq<string>, s: string, b: seq<string>, t: string)
    requires |a| == |b|
    ensures a + [s] == b + [t] <==> a == b && s == t
  {
    if a + [s] == b + [t] {
      assert a == (a + [s])[..|a|] && b == (b + [t])[..|b|];
      assert s == (a + [s])[|a|] && t == (b + [t])[|b|];
    }
  }

  lemma EqualTails(head: string, a: string, b: string)
    ensures head + a == head + b <==> a == b
  {
    if head + a == head + b { assert a == (head + a)[|head|..] && b == (head + b)[|head|..]; }
  }

  lemma AlikeFieldLine(x: Step, y: Step, k: string)
    requires k in x && k in y
    ensures FieldLine(x, k) == FieldLine(y, k) <==> FormatScalar(x[k]) == FormatScalar(y[k])
  {
    EqualTails("    " + k + ": ", FormatScalar(x[k]), FormatScalar(y[k]));
  }

  /** Steps with the same keys print the same lines exactly when they print alike. */
  lemma AlikeSteps(x: Step, y: Step, keys: seq<string>)
    requires HasAction(x) && HasAction(y) && x.Keys == y.Keys && FieldsOf(keys, x) && Covers(keys, x)
    ensures FieldsOf(keys, y)
    ensures StepLines(x, keys, |keys|) == StepLines(y, keys, |keys|) <==> PrintAlike(x, y)
  {
    AlikeStepLines(x, y, keys, |keys|);
    forall k | k in x && k in y
      ensures FieldLine(x, k) == FieldLine(y, k) <==> FormatScalar(x[k]) == FormatScalar(y[k])
    {
      AlikeFieldLine(x, y, k);
    }
  }

  /** The two step lists have the same keys throughout, printed in the same order. */
  predicate KeysAgree(order: KeyOrder, a: seq<Step>, b: seq<Step>) {
    |a| == |b| && HaveActions(a) && HaveActions(b) && Orders(order, a) && Orders(order, b)
    && forall i :: 0 <= i < |a| ==> a[i].Keys == b[i].Keys && order(a[i]) == order(b[i]) && Covers(order(a[i]), a[i])
  }

  predicate AllAlike(a: seq<Step>, b: seq<Step>, n: nat)
    requires n <= |a| && n <= |b|
  {
    forall i :: 0 <= i < n ==> PrintAlike(a[i], b[i])
  }

  lemma AlikeNext(order: KeyOrder, a: seq<Step>, b: seq<Step>, n: nat)
    requires KeysAgree(order, a, b) && 0 < n <= |a|
    ensures CanonicalLines(order, a, n) == CanonicalLines(order, b, n)
            <==> CanonicalLines(order, a, n - 1) == CanonicalLines(order, b, n - 1) && PrintAlike(a[n - 1], b[n - 1])
  {
    var x, y := a[n - 1], b[n - 1];
    var keys := order(x);
    AlikeSteps(x, y, keys);
    StepBegins(x, keys, |keys|);
    StepBegins(y, keys, |keys|);
    EqualSuffixes(CanonicalLines(order, a, n - 1), StepLines(x, keys, |keys|),
                  CanonicalLines(order, b, n - 1), StepLines(y, keys, |keys|));
  }

  /** Printed alike line by line, from what one more step does. */
  lemma {:induction false} AlikeUpTo(order: KeyOrder, a: seq<Step>, b: seq<Step>, n: nat)
    requires HaveActions(a) && HaveActions(b) && Orders(order, a) && Orders(order, b) && n <= |a| == |b|
    requires forall k :: 0 < k <= |a| ==>
               (CanonicalLines(order, a, k) == CanonicalLines(order, b, k)
                <==> CanonicalLines(order, a, k - 1) == CanonicalLines(order, b, k - 1)
                     && PrintAlike(a[k - 1], b[k - 1]))
    ensures CanonicalLines(order, a, n) == CanonicalLines(order, b, n) <==> AllAlike(a, b, n)
  {
    if n > 0 { AlikeUpTo(order, a, b, n - 1); }
  }

  lemma AlikeLines(order: KeyOrder, a: seq<Step>, b: seq<Step>)
    requires KeysAgree(order, a, b)
    ensures CanonicalLines(order, a, |a|) == CanonicalLines(order, b, |b|) <==> AllAlike(a, b, |a|)
  {
    forall k | 0 < k <= |a|
      ensures CanonicalLines(order, a, k) == CanonicalLines(order, b, k)
              <==> CanonicalLines(order, a, k - 1) == CanonicalLines(order, b, k - 1)
                   && PrintAlike(a[k - 1], b[k - 1])
    {
      AlikeNext(order, a, b, k);
    }
    AlikeUpTo(order, a, b, |a|);
  }

  lemma EqualSuffixes(a: seq<string>, s: seq<string>, b: seq<string>, t: seq<string>)
    requires |s| == |t|
    ensures a + s == b + t <==> a == b && s == t
  {
    if a + s == b + t {
      assert |a| == |b|;
      assert a == (a + s)[..|a|] && b == (b + t)[..|b|];
      assert s == (a + s)[|a|..] && t == (b + t)[|b|..];
    }
  }

  lemma SameKeysAgree(a: seq<Step>, b: seq<Step>)
    requires HaveActions(a) && HaveActions(b) && |a| == |b| && SameKeys(a, b, |a|)
    ensures KeysAgree(FieldKeys, a, b)
  {
    forall i | 0 <= i < |a| ensures FieldKeys(a[i]) == FieldKeys(b[i]) {
      var action := "action";
      assert a[i].Keys - {action} == b[i].Keys - {action};
    }
  }

  // What the parser makes of the canonical text.

  /** A step read back has the same keys exactly when every printed line is kept. */
  lemma RereadKeys(cv: Conventions, step: Step)
    requires HasAction(step)
    ensures var m := Reread(cv, step, FieldKeys(step), |FieldKeys(step)|);
            m.Keys <= step.Keys
            && (m.Keys == step.Keys <==> forall k :: k in step && k != "action" ==> Kept(k, FormatScalar(step[k])))
            && forall k :: k in m ==> m[k] == ParseScalar(cv, FormatScalar(step[k]))
  {
    var keys := FieldKeys(step);
    assert keys[..|keys|] == keys;
    forall k
      ensures var m := Reread(cv, step, keys, |keys|);
              (k in m <==> k == "action" || (k in keys && Kept(k, FormatScalar(step[k]))))
              && (k in m && k in step ==> m[k] == ParseScalar(cv, FormatScalar(step[k])))
    {
      RereadAt(cv, step, keys, |keys|, k);
    }
  }

  lemma ActionKept(cv: Conventions, a: string)
    requires Python(cv) && Trim(a, Space) in cv.stepActions
    ensures FormatScalar(ParseScalar(cv, a)) == a <==> a in cv.stepActions
  {
    ActionReread(cv, a);
    if a in cv.stepActions {
      WordText(cv, a);
      TrimFixed(a, Space);
    }
  }

  lemma FieldAlike(cv: Conventions, m: Step, step: Step, k: string)
    requires Python(cv) && k in m && k in step && m[k] == ParseScalar(cv, FormatScalar(step[k]))
    ensures FormatScalar(m[k]) == FormatScalar(step[k]) <==> TextKept(cv, FormatScalar(step[k]))
  {
    TextRoundTrip(cv, FormatScalar(step[k]));
  }

  /** A step without dash keys prints as before exactly when it is kept. */
  lemma RereadAlike(cv: Conventions, step: Step)
    requires Python(cv) && AllowedAction(cv, step) && NoDashKey(FieldKeys(step))
    ensures var m := Reread(cv, step, FieldKeys(step), |FieldKeys(step)|);
            PrintAlike(m, step) <==> KeptStep(cv, step)
  {
    RereadKeys(cv, step);
    AlikeIffKept(cv, step, Reread(cv, step, FieldKeys(step), |FieldKeys(step)|));
  }

  /** `m` is `step` read back from its kept lines. */
  predicate ReadBack(cv: Conventions, step: Step, m: Step) {
    "action" in m && m.Keys <= step.Keys
    && (m.Keys == step.Keys <==> forall k :: k in step && k != "action" ==> Kept(k, FormatScalar(step[k])))
    && forall k :: k in m ==> m[k] == ParseScalar(cv, FormatScalar(step[k]))
  }

  lemma AlikeIffKept(cv: Conventions, step: Step, m: Step)
    requires Python(cv) && AllowedAction(cv, step) && NoDashKey(FieldKeys(step)) && ReadBack(cv, step, m)
    ensures PrintAlike(m, step) <==> KeptStep(cv, step)
  {
    if KeptStep(cv, step) { KeptIsAlike(cv, step, m); }
    if PrintAlike(m, step) { AlikeIsKept(cv, step, m); }
  }

  lemma KeptIsAlike(cv: Conventions, step: Step, m: Step)
    requires Python(cv) && AllowedAction(cv, step) && ReadBack(cv, step, m) && KeptStep(cv, step)
    ensures PrintAlike(m, step)
  {
    forall k | k in step && k != "action" ensures Kept(k, FormatScalar(step[k])) {
      assert KeptField(cv, k, step[k]);
    }
    forall k | k in m ensures FormatScalar(m[k]) == FormatScalar(step[k]) {
      if k == "action" {
        ActionKept(cv, step[k].s);
      } else {
        assert KeptField(cv, k, step[k]);
        FieldAlike(cv, m, step, k);
      }
    }
  }

  lemma AlikeIsKept(cv: Conventions, step: Step, m: Step)
    requires Python(cv) && AllowedAction(cv, step) && NoDashKey(FieldKeys(step)) && ReadBack(cv, step, m)
    requires PrintAlike(m, step)
    ensures KeptStep(cv, step)
  {
    ActionKept(cv, step["action"].s);
    assert "action" in m && FormatScalar(m["action"]) == FormatScalar(step["action"]);
    forall k | k in step && k != "action" ensures KeptField(cv, k, step[k]) {
      assert k in m && k in FieldKeys(step);
      FieldAlike(cv, m, step, k);
    }
  }

  /** What a step list becomes when its canonical text is parsed, if no key opens a step. */
  lemma CanonicalParses(cv: Conventions, steps: seq<Step>)
    requires Python(cv) && WellFormed(cv, steps) && steps != [] && HaveActions(steps) && NoDashKeys(FieldKeys, steps)
    ensures ParsedSteps(cv, Canonical(steps))
            == if Forbidden(cv, Trim(Canonical(steps), Space)) then Err(ForbiddenContent)
               else Ok(RereadSteps(cv, FieldKeys, steps, |steps|))
  {
    WellFormedSteps(cv, FieldKeys, steps);
    CanonicalReads(FieldKeys, steps);
    FoldSteps(cv, FieldKeys, steps, |steps|);
    StateAfterCloses(cv, FieldKeys, steps, |steps|);
    RereadStepsSame(cv, FieldKeys, steps);
  }

  lemma CanonicalIsLines(cv: Conventions, steps: seq<Step>)
    requires WellFormed(cv, steps) && HaveActions(steps)
    ensures AllOneLine(CanonicalLines(FieldKeys, steps, |steps|))
  {
    WellFormedSteps(cv, FieldKeys, steps);
    CanonicalIsOneLine(FieldKeys, steps, |steps|);
  }

  /** Both step lists have one canonical text. */
  lemma SameCanonical(cv: Conventions, a: seq<Step>, b: seq<Step>)
    requires WellFormed(cv, a) && WellFormed(cv, b) && HaveActions(a) && HaveActions(b)
    ensures Canonical(a) == Canonical(b)
            <==> CanonicalLines(FieldKeys, a, |a|) == CanonicalLines(FieldKeys, b, |b|)
  {
    CanonicalIsLines(cv, a);
    CanonicalIsLines(cv, b);
    if Canonical(a) == Canonical(b) {
      SameTextSameLines(CanonicalLines(FieldKeys, a, |a|), CanonicalLines(FieldKeys, b, |b|));
    }
  }

  /** A key that opens a step of its own changes the number of steps, hence the text. */
  lemma DashKeyChangesText(cv: Conventions, steps: seq<Step>, back: seq<Step>)
    requires WellFormed(cv, steps) && WellFormed(cv, back) && HaveActions(steps) && HaveActions(back)
    requires ParsedSteps(cv, Canonical(steps)) == Ok(back) && Canonical(back) == Canonical(steps)
    ensures NoDashKeys(FieldKeys, steps)
  {
    WellFormedSteps(cv, FieldKeys, steps);
    CanonicalReads(FieldKeys, steps);
    AcceptedCount(cv, FieldKeys, steps, Fold(cv, CleanedSteps(FieldKeys, steps, |steps|), START).value);
    SameCanonical(cv, back, steps);
    StepsBegin(FieldKeys, steps, |steps|);
    StepsBegin(FieldKeys, back, |back|);
    OpensOfSteps(FieldKeys, steps, |steps|);
    assert steps[..|steps|] == steps;
  }

  lemma {:induction false} RereadHasActions(cv: Conventions, steps: seq<Step>)
    requires Python(cv) && WellFormed(cv, steps) && HaveActions(steps) && NoDashKeys(FieldKeys, steps)
    ensures HaveActions(RereadSteps(cv, FieldKeys, steps, |steps|))
    ensures FewerKeys(RereadSteps(cv, FieldKeys, steps, |steps|), steps)
  {
    var back := RereadSteps(cv, FieldKeys, steps, |steps|);
    RereadStepsSame(cv, FieldKeys, steps);
    forall i | 0 <= i < |steps| ensures HasAction(back[i]) && back[i].Keys <= steps[i].Keys {
      RereadStepsAt(cv, FieldKeys, steps, |steps|, i);
      RereadKeys(cv, steps[i]);
      assert AllowedAction(cv, back[i]);
    }
  }

  /** Read back without dash keys, the lines are as before exactly when every step is kept. */
  lemma RereadLines(cv: Conventions, steps: seq<Step>)
    requires Python(cv) && WellFormed(cv, steps) && HaveActions(steps) && NoDashKeys(FieldKeys, steps)
    requires HaveActions(RereadSteps(cv, FieldKeys, steps, |steps|))
    ensures var back := RereadSteps(cv, FieldKeys, steps, |steps|);
            CanonicalLines(FieldKeys, back, |back|) == CanonicalLines(FieldKeys, steps, |steps|) <==> AllKept(cv, steps)
  {
    var back := RereadSteps(cv, FieldKeys, steps, |steps|);
    RereadHasActions(cv, steps);
    FewerLines(back, steps, |steps|);
    LinesCounted(back);
    LinesCounted(steps);
    forall i | 0 <= i < |steps| ensures PrintAlike(back[i], steps[i]) <==> KeptStep(cv, steps[i]) {
      RereadStepsAt(cv, FieldKeys, steps, |steps|, i);
      assert WellFormedStep(cv, steps[i]);
      RereadAlike(cv, steps[i]);
    }
    if SameKeys(back, steps, |steps|) {
      SameKeysAgree(back, steps);
      AlikeLines(FieldKeys, back, steps);
    }
  }

  lemma KeptHasNoDashKeys(cv: Conventions, steps: seq<Step>)
    requires HaveActions(steps) && AllKept(cv, steps)
    ensures NoDashKeys(FieldKeys, steps)
  {
    forall i | 0 <= i < |steps| ensures NoDashKey(FieldKeys(steps[i])) {
      assert KeptStep(cv, steps[i]);
      forall k | k in FieldKeys(steps[i]) ensures !DashKey(k) { assert KeptField(cv, k, steps[i][k]); }
    }
  }

  /** The canonical text is accepted, and its steps have the same canonical text again. */
  predicate TextFixed(cv: Conventions, steps: seq<Step>)
    requires HaveActions(steps)
  {
    ParsedSteps(cv, Canonical(steps)).Ok?
    && var back := ParsedSteps(cv, Canonical(steps)).value;
       HaveActions(back) && Canonical(back) == Canonical(steps)
  }

  /**
   * The canonical text is a fixed point of parsing and printing exactly when it is not forbidden, no key
   * opens a step or is lost, and every printed value is printed again as it was read. The steps may
   * still change: the text true becomes the boolean.
   */
  lemma CanonicalTextFixed(cv: Conventions, text: string)
    requires Python(cv) && ParsedSteps(cv, text).Ok?
    ensures var steps := ParsedSteps(cv, text).value;
            HaveActions(steps)
            && (TextFixed(cv, steps) <==> !Forbidden(cv, Trim(Canonical(steps), Space)) && AllKept(cv, steps))
  {
    var steps := ParsedSteps(cv, text).value;
    ParsedIsWellFormed(cv, text);
    forall i | 0 <= i < |steps| ensures HasAction(steps[i]) { assert WellFormedStep(cv, steps[i]); }
    StepsTextFixed(cv, steps);
  }

  lemma StepsTextFixed(cv: Conventions, steps: seq<Step>)
    requires Python(cv) && WellFormed(cv, steps) && steps != [] && HaveActions(steps)
    ensures TextFixed(cv, steps) <==> !Forbidden(cv, Trim(Canonical(steps), Space)) && AllKept(cv, steps)
  {
    if AllKept(cv, steps) { KeptHasNoDashKeys(cv, steps); }
    if TextFixed(cv, steps) {
      var back := ParsedSteps(cv, Canonical(steps)).value;
      ParsedIsWellFormed(cv, Canonical(steps));
      DashKeyChangesText(cv, steps, back);
    }
    if NoDashKeys(FieldKeys, steps) {
      CanonicalParses(cv, steps);
      RereadHasActions(cv, steps);
      RereadLines(cv, steps);
      if !Forbidden(cv, Trim(Canonical(steps), Space)) {
        ParsedIsWellFormed(cv, Canonical(steps));
        SameCanonical(cv, RereadSteps(cv, FieldKeys, steps, |steps|), steps);
      }
    }
  }

  // A text whose canonical form is a fixed point although its steps change.

  predicate BadPair(c: char, d: char) {
    (c == 's' && (d == 'h' || d == 'c' || d == 'u')) || (c == 'p' && d == 'y') || (c == 'e' && d == 'x')
    || (c == 'c' && d == 'u') || (c == 'w' && d == 'g') || (c == 'b' && d == 'a')
  }

  lemma ForbiddenWordsBegin(w: string)
    requires w in FORBIDDEN_WORDS
    ensures |w| >= 2 && BadPair(w[0], w[1])
  {
  }

  /** No forbidden character, and no two characters a forbidden word begins with. */
  predicate Harmless(t: string) {
    (forall i :: 0 <= i < |t| ==> t[i] !in FORBIDDEN_CHARS) && forall i :: 0 < i < |t| ==> !BadPair(t[i - 1], t[i])
  }

  lemma HarmlessJoin(a: string, b: string)
    requires Harmless(a) && Harmless(b) && a != "" && b != "" && !BadPair(a[|a| - 1], b[0])
    ensures Harmless(a + b)
  {
    var t := a + b;
    forall i | 0 < i < |t| ensures !BadPair(t[i - 1], t[i]) {
      if i < |a| { assert !BadPair(a[i - 1], a[i]); }
      if i > |a| { assert !BadPair(b[i - |a| - 1], b[i - |a|]); }
    }
  }

  lemma HarmlessParts()
    ensures Harmless("steps:") && Harmless("\n") && Harmless("    flag: ")
  {
    HarmlessWords();
    HarmlessJoin("    ", "flag: ");
    assert "    " + "flag: " == "    flag: ";
  }

  lemma HarmlessAction()
    ensures Harmless("  - action: ") && Harmless("record_note")
  {
    HarmlessWords();
    HarmlessJoin("  - ", "action: ");
    HarmlessJoin("record", "_note");
    assert "  - " + "action: " == "  - action: ";
    assert "record" + "_note" == "record_note";
  }

  lemma HarmlessWords()
    ensures Harmless("    ") && Harmless("flag: ") && Harmless("  - ")
    ensures Harmless("action: ") && Harmless("record") && Harmless("_note")
  {
    HarmlessPieces();
    HarmlessSyllables();
    HarmlessJoin("act", "ion: ");
    HarmlessJoin("rec", "ord");
    HarmlessJoin("fla", "g: ");
    HarmlessJoin("_no", "te");
    assert "act" + "ion: " == "action: " && "rec" + "ord" == "record";
    assert "fla" + "g: " == "flag: " && "_no" + "te" == "_note";
  }

  lemma HarmlessPieces()
    ensures Harmless("    ") && Harmless("  - ") && Harmless("g: ") && Harmless("ion: ")
  {
  }

  lemma HarmlessSyllables()
    ensures Harmless("act") && Harmless("rec") && Harmless("ord")
    ensures Harmless("fla") && Harmless("_no") && Harmless("te")
  {
  }

  lemma HarmlessFlags()
    ensures Harmless("\"true\"") && Harmless("true")
  {
  }

  /** A text as a user may send it: one note, with this text for its flag. */
  function NoteText(flag: string): string {
    "steps:" + "\n" + ("  - action: " + "record_note") + "\n" + ("    flag: " + flag)
  }

  lemma NoteHarmless(flag: string)
    requires Harmless(flag) && flag != "" && flag[0] != 'x'
    ensures Harmless(NoteText(flag))
  {
    HarmlessParts();
    HarmlessAction();
    HarmlessJoin("  - action: ", "record_note");
    HarmlessJoin("    flag: ", flag);
    HarmlessJoin("steps:", "\n");
    HarmlessJoin("steps:" + "\n", "  - action: " + "record_note");
    HarmlessJoin("steps:" + "\n" + ("  - action: " + "record_note"), "\n");
    HarmlessJoin("steps:" + "\n" + ("  - action: " + "record_note") + "\n", "    flag: " + flag);
  }

  lemma HarmlessAllowed(cv: Conventions, t: string)
    requires Shipped(cv) && Harmless(t)
    ensures !Forbidden(cv, t)
  {
    forall i, w | 0 <= i <= |t| && w in cv.forbiddenWords ensures !(w <= t[i..]) {
      ForbiddenWordsBegin(w);
      if |t| - i >= 2 { assert !BadPair(t[i + 1 - 1], t[i + 1]); }
    }
  }

  // Such a text is what the printer writes, whatever the flag.

  function FlagKeys(step: Step): seq<string> { ["flag"] }

  lemma NoteLines(flag: string)
    ensures HaveActions([FlagStep("record_note", flag)]) && Orders(FlagKeys, [FlagStep("record_note", flag)])
    ensures JoinLines(CanonicalLines(FlagKeys, [FlagStep("record_note", flag)], 1)) == NoteText(flag) + "\n"
  {
    FlagKey();
    var step := FlagStep("record_note", flag);
    var keys := FlagKeys(step);
    var lines := ["steps:", "  - action: " + "record_note", "    flag: " + flag];
    assert FieldLine(step, "flag") == "    flag: " + flag;
    assert StepLines(step, keys, 1) == ["  - action: " + "record_note"] + ["    flag: " + flag];
    assert CanonicalLines(FlagKeys, [step], 1) == lines;
    assert lines[1..][1..][1..] == [];
    assert JoinLines(lines[1..][1..]) == lines[2] + "\n";
    assert JoinLines(lines[1..]) == lines[1] + "\n" + (lines[2] + "\n");
  }

  lemma NoteTrimmed(flag: string)
    requires flag != "" && Trimmed(flag, Space)
    ensures Trim(NoteText(flag), Space) == NoteText(flag) && Trim(NoteText(flag) + "\n", Space) == NoteText(flag)
  {
    var t := NoteText(flag);
    assert t[0] == ("steps:")[0] == 's';
    assert t[|t| - 1] == flag[|flag| - 1];
    TrimFixed(t, Space);
    TrimAppend(t, '\n', Space);
    assert t + ['\n'] == t + "\n";
  }

  lemma NotePrinted(flag: string)
    requires OneLine(flag)
    ensures HaveActions([FlagStep("record_note", flag)]) && Orders(FlagKeys, [FlagStep("record_note", flag)])
    ensures PrintedSteps(FlagKeys, [FlagStep("record_note", flag)])
    ensures NoDashKeys(FlagKeys, [FlagStep("record_note", flag)])
  {
    NoteLines(flag);
    FlagKey();
    var step := FlagStep("record_note", flag);
    assert OneLine("record_note");
    assert PrintedField(step, "flag");
    FlagKept(flag);
  }

  /** The note as it is read: its action, and whatever its flag means. */
  function NoteRead(cv: Conventions, flag: string): Step {
    map["action" := Str("record_note"), "flag" := ParseScalar(cv, flag)]
  }

  lemma NoteActionReads(cv: Conventions)
    requires Python(cv) && Shipped(cv)
    ensures ParseScalar(cv, "record_note") == Str("record_note") && Trim("record_note", Space) in cv.stepActions
  {
    var note := "record_note";
    assert note in cv.stepActions;
    ActionUnchanged(cv, note);
    WordText(cv, note);
    TrimFixed(note, Space);
  }

  lemma FlagKept(flag: string)
    ensures Kept("flag", flag) && !DashKey("flag")
  {
    assert ("flag")[0] == 'f' && |"flag"| != |"steps"|;
  }

  lemma NoteReread(cv: Conventions, flag: string)
    requires Python(cv) && Shipped(cv)
    ensures FieldsOf(["flag"], FlagStep("record_note", flag))
    ensures Reread(cv, FlagStep("record_note", flag), ["flag"], 1) == NoteRead(cv, flag)
  {
    FlagKey();
    NoteActionReads(cv);
    FlagKept(flag);
    var step := FlagStep("record_note", flag);
    assert Reread(cv, step, ["flag"], 0) == map["action" := Str("record_note")];
  }

  /** Such a text is accepted, and means one note with this flag. */
  lemma NoteParses(cv: Conventions, flag: string)
    requires PythonText(cv) && Shipped(cv) && OneLine(flag) && flag != "" && Trimmed(flag, Space)
    requires Harmless(flag) && flag[0] != 'x'
    ensures ParsedSteps(cv, NoteText(flag)) == Ok([NoteRead(cv, flag)])
  {
    ShippedIsPython(cv);
    var steps := [FlagStep("record_note", flag)];
    NotePrinted(flag);
    NoteLines(flag);
    NoteTrimmed(flag);
    CanonicalReads(FlagKeys, steps);
    FoldSteps(cv, FlagKeys, steps, 1);
    StateAfterCloses(cv, FlagKeys, steps, 1);
    NoteReread(cv, flag);
    NoteHarmless(flag);
    HarmlessAllowed(cv, NoteText(flag));
    NoteAllowed(cv, flag);
    assert RereadSteps(cv, FlagKeys, steps, 1) == [NoteRead(cv, flag)];
  }

  lemma NoteAllowed(cv: Conventions, flag: string)
    requires Python(cv) && Shipped(cv)
    ensures ActionsAllowed(cv, [NoteRead(cv, flag)])
  {
    FlagKey();
    NoteActionReads(cv);
  }

  lemma OnlyFlag(flag: string)
    ensures FieldKeys(FlagStep("record_note", flag)) == ["flag"]
  {
    FlagKey();
    var action, key := "action", "flag";
    var step := FlagStep("record_note", flag);
    assert step.Keys - {action} == {key};
    SortedElements({key});
    var sorted := Sorted({key});
    assert |sorted| == 1 && sorted[0] in sorted;
  }

  lemma NoteCanonical(flag: string)
    ensures HaveActions([FlagStep("record_note", flag)])
    ensures Canonical([FlagStep("record_note", flag)]) == NoteText(flag) + "\n"
  {
    OnlyFlag(flag);
    NoteLines(flag);
    var step := FlagStep("record_note", flag);
    assert StepLines(step, FieldKeys(step), 1) == StepLines(step, FlagKeys(step), 1);
    assert CanonicalLines(FieldKeys, [step], 0) == CanonicalLines(FlagKeys, [step], 0);
    assert CanonicalLines(FieldKeys, [step], 1) == CanonicalLines(FlagKeys, [step], 1);
  }

  lemma TrueKept(cv: Conventions)
    requires Python(cv) && Shipped(cv)
    ensures HaveActions([FlagStep("record_note", "true")]) && AllKept(cv, [FlagStep("record_note", "true")])
  {
    FlagKey();
    FlagKept("true");
    var step := FlagStep("record_note", "true");
    assert "record_note" in cv.stepActions;
    assert KeptField(cv, "flag", step["flag"]);
    assert KeptStep(cv, step);
  }

  lemma TrueStepWellFormed(cv: Conventions)
    requires Python(cv) && Shipped(cv)
    ensures WellFormed(cv, [FlagStep("record_note", "true")])
  {
    assert "record_note" in cv.stepActions && OneLine("record_note") && OneLine("true");
    FlagStepWellFormed(cv, "record_note", "true");
  }

  /**
   * An accepted text whose flag is the quoted word true means a text, is stored with the bare word, and
   * then means a boolean: the steps change, but the stored text never does.
   */
  lemma QuotedTrueSettles(cv: Conventions)
    requires PythonText(cv) && Shipped(cv)
    ensures ParsedSteps(cv, NoteText("\"true\"")) == Ok([map["action" := Str("record_note"), "flag" := Str("true")]])
    ensures HaveActions([FlagStep("record_note", "true")])
    ensures ParsedSteps(cv, Canonical([FlagStep("record_note", "true")]))
            == Ok([map["action" := Str("record_note"), "flag" := Bool(true)]])
    ensures TextFixed(cv, [FlagStep("record_note", "true")])
  {
    ShippedIsPython(cv);
    HarmlessFlags();
    QuotedTrueReads(cv);
    NoteParses(cv, "\"true\"");
    NoteParses(cv, "true");
    NoteTrimmed("true");
    NoteCanonical("true");
    NoteHarmless("true");
    HarmlessAllowed(cv, NoteText("true"));
    TrueKept(cv);
    TrueStepWellFormed(cv);
    StepsTextFixed(cv, [FlagStep("record_note", "true")]);
  }
}
