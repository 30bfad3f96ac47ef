/** The text form of playbook steps: the line parser and the canonical printer. */
module PlaybookText {
  import opened Wrappers
  import opened PyText
  import opened Scalars

  type Step = map<string, Scalar>

  /** The word lists as shipped. */
  const STEP_ACTIONS := {"review_evidence", "record_note", "request_approval", "create_report", "close_incident"}

  const METADATA_KEYS := {"name", "description", "kind", "category", "approval"}

  const FORBIDDEN_WORDS := ["shell", "script", "python", "exec", "subprocess", "curl", "wget", "bash", "sh"]

  const FORBIDDEN_CHARS := {';', '&', '|', '<', '>', '`', '$'}

  /** The parser with its word lists as shipped. */
  predicate Shipped(cv: Conventions) {
    cv.stepActions == STEP_ACTIONS && cv.metadataKeys == METADATA_KEYS && cv.forbiddenWords == FORBIDDEN_WORDS
  }

  lemma ShippedActionsAreWords(a: string)
    requires a in STEP_ACTIONS
    ensures LongWord(a)
  {
  }

  /** The shipped lists meet what the theorems about the parser ask of them. */
  lemma ShippedIsPython(cv: Conventions)
    requires PythonText(cv) && Shipped(cv)
    ensures Python(cv)
  {
    forall a | a in cv.stepActions ensures LongWord(a) { ShippedActionsAreWords(a); }
  }

  /** A forbidden word begins at `i`, after a space or at the start, and ends there as a word. */
  predicate ForbiddenAt(cv: Conventions, t: string, i: nat)
    requires i <= |t|
  {
    (i == 0 || Space(t[i - 1]))
    && exists w :: w in cv.forbiddenWords && w <= t[i..] && (i + |w| == |t| || !cv.word(t[i + |w|]))
  }

  predicate Forbidden(cv: Conventions, t: string) {
    (exists i :: 0 <= i <= |t| && ForbiddenAt(cv, t, i)) || exists c :: c in t && c in FORBIDDEN_CHARS
  }

  /** Where `split(':', 1)` cuts: at the first colon, or behind the end without one. */
  function FirstColon(s: string): (k: nat)
    ensures k <= |s| && (k < |s| ==> s[k] == ':') && forall i :: 0 <= i < k ==> s[i] != ':'
  {
    if s == "" || s[0] == ':' then 0 else 1 + FirstColon(s[1..])
  }

  function KeyOf(s: string): string { Trim(s[..FirstColon(s)], Space) }

  function ValueOf(cv: Conventions, s: string): Scalar
    requires ':' in s
  {
    ParseScalar(cv, s[FirstColon(s) + 1..])
  }

  datatype Failure =
    | StepsRequired | ForbiddenContent | OnlyDeclarative | KeyValueExpected | FieldOutsideStep | NoSteps
    | UnsupportedAction

  /** The parser's variables. */
  datatype State = State(inSteps: bool, current: Option<Step>, steps: seq<Step>)

  /** `if current: steps.append(current)`. */
  function Close(st: State): seq<Step> {
    if st.current.Some? && st.current.value != map[] then st.steps + [st.current.value] else st.steps
  }

  /** A line that opens a step. */
  function Open(cv: Conventions, st: State, line: string): Result<State, Failure>
    requires "- " <= line
  {
    var remainder := Trim(line[2..], Space);
    if remainder == "" then Ok(State(st.inSteps, Some(map[]), Close(st)))
    else if ':' !in remainder then Err(KeyValueExpected)
    else Ok(State(st.inSteps, Some(map[KeyOf(remainder) := ValueOf(cv, remainder)]), Close(st)))
  }

  /** One stripped line that is not empty. */
  function Feed(cv: Conventions, st: State, line: string): Result<State, Failure>
    requires line != ""
  {
    if line[0] == '#' then Ok(st)
    else if line == "steps:" then Ok(st.(inSteps := true))
    else if !st.inSteps then
      if line[..FirstColon(line)] in cv.metadataKeys then Ok(st) else Err(OnlyDeclarative)
    else if "- " <= line then Open(cv, st, line)
    else if st.current.None? || ':' !in line then Err(FieldOutsideStep)
    else Ok(st.(current := Some(st.current.value[KeyOf(line) := ValueOf(cv, line)])))
  }

  function Fold(cv: Conventions, lines: seq<string>, st: State): Result<State, Failure>
    requires NonEmpty(lines)
  {
    if lines == [] then Ok(st)
    else
      match Feed(cv, st, lines[0])
      case Err(e) => Err(e)
      case Ok(next) => Fold(cv, lines[1..], next)
  }

  /** `str(step.get('action') or '').strip()` is an allowed action; only a string can be one. */
  predicate AllowedAction(cv: Conventions, step: Step) {
    "action" in step && step["action"].Str? && Trim(step["action"].s, Space) in cv.stepActions
  }

  predicate ActionsAllowed(cv: Conventions, steps: seq<Step>) {
    forall i :: 0 <= i < |steps| ==> AllowedAction(cv, steps[i])
  }

  const START := State(false, None, [])

  /** What `_parse_steps_yaml` makes of the stripped lines of a text. */
  function ParsedLines(cv: Conventions, lines: seq<string>): Result<seq<Step>, Failure>
    requires NonEmpty(lines)
  {
    match Fold(cv, lines, START)
    case Err(e) => Err(e)
    case Ok(st) =>
      if Close(st) == [] then Err(NoSteps)
      else if !ActionsAllowed(cv, Close(st)) then Err(UnsupportedAction)
      else Ok(Close(st))
  }

  /** `_parse_steps_yaml`. */
  function ParsedSteps(cv: Conventions, text: string): Result<seq<Step>, Failure> {
    var t := Trim(text, Space);
    if t == "" then Err(StepsRequired)
    else if Forbidden(cv, t) then Err(ForbiddenContent)
    else ParsedLines(cv, Clean(Lines(t)))
  }

  lemma {:induction false} FoldConcat(cv: Conventions, a: seq<string>, b: seq<string>, st: State)
    requires NonEmpty(a) && NonEmpty(b)
    ensures Fold(cv, a + b, st) == match Fold(cv, a, st) case Err(e) => Err(e) case Ok(next) => Fold(cv, b, next)
  {
    if a == [] {
      assert a + b == b;
    } else {
      assert (a + b)[1..] == a[1..] + b;
      match Feed(cv, st, a[0])
      case Err(_) =>
      case Ok(next) => FoldConcat(cv, a[1..], b, next);
    }
  }

  /** How the loop's progress grows by one line. */
  lemma FoldNext(cv: Conventions, ls: seq<string>, k: nat, st: State)
    requires k < |ls| && Fold(cv, Clean(ls[..k]), START) == Ok(st)
    ensures CleanLine(ls[k]) == [] ==> Fold(cv, Clean(ls[..k + 1]), START) == Ok(st)
    ensures CleanLine(ls[k]) != [] ==> Fold(cv, Clean(ls[..k + 1]), START) == Feed(cv, st, CleanLine(ls[k])[0])
    ensures CleanLine(ls[k]) != [] && Feed(cv, st, CleanLine(ls[k])[0]).Err? ==>
              Fold(cv, Clean(ls), START) == Err(Feed(cv, st, CleanLine(ls[k])[0]).error)
  {
    assert ls[..k + 1] == ls[..k] + [ls[k]] && ls == ls[..k + 1] + ls[k + 1..];
    CleanConcat(ls[..k], [ls[k]]);
    CleanConcat(ls[..k + 1], ls[k + 1..]);
    var one := CleanLine(ls[k]);
    assert [ls[k]][1..] == [] && Clean([ls[k]]) == one;
    FoldConcat(cv, Clean(ls[..k]), one, START);
    FoldConcat(cv, Clean(ls[..k + 1]), Clean(ls[k + 1..]), START);
    if one != [] { assert one[1..] == []; }
  }

  /** The parser's loop, with its three variables. */
  method ParseLines(cv: Conventions, lines: seq<string>) returns (r: Result<State, Failure>)
    ensures r == Fold(cv, Clean(lines), START)
  {
    var steps: seq<Step>, inSteps, current := [], false, None;
    assert lines[..0] == [];
    for k := 0 to |lines|
      invariant Fold(cv, Clean(lines[..k]), START) == Ok(State(inSteps, current, steps))
    {
      FoldNext(cv, lines, k, State(inSteps, current, steps));
      var stripped := Trim(lines[k], Space);
      if stripped == "" || stripped[0] == '#' {
        continue;
      }
      if stripped == "steps:" {
        inSteps := true;
        continue;
      }
      if !inSteps {
        if stripped[..FirstColon(stripped)] in cv.metadataKeys { continue; }
        return Err(OnlyDeclarative);
      }
      if "- " <= stripped {
        if current.Some? && current.value != map[] { steps := steps + [current.value]; }
        current := Some(map[]);
        var remainder := Trim(stripped[2..], Space);
        if remainder != "" {
          if ':' !in remainder { return Err(KeyValueExpected); }
          current := Some(map[KeyOf(remainder) := ValueOf(cv, remainder)]);
        }
        continue;
      }
      if current.None? || ':' !in stripped { return Err(FieldOutsideStep); }
      current := Some(current.value[KeyOf(stripped) := ValueOf(cv, stripped)]);
    }
    assert lines[..|lines|] == lines;
    r := Ok(State(inSteps, current, steps));
  }

  method CheckActions(cv: Conventions, steps: seq<Step>) returns (ok: bool)
    ensures ok <==> ActionsAllowed(cv, steps)
  {
    for i := 0 to |steps|
      invariant forall j :: 0 <= j < i ==> AllowedAction(cv, steps[j])
    {
      if !AllowedAction(cv, steps[i]) { return false; }
    }
    ok := true;
  }

  method ParseSteps(cv: Conventions, text: string) returns (r: Result<seq<Step>, Failure>)
    ensures r == ParsedSteps(cv, text)
  {
    var t := Trim(text, Space);
    if t == "" { return Err(StepsRequired); }
    if Forbidden(cv, t) { return Err(ForbiddenContent); }
    var parsed := ParseLines(cv, Lines(t));
    if parsed.Err? { return Err(parsed.error); }
    var steps := Close(parsed.value);
    if steps == [] { return Err(NoSteps); }
    var allowed := CheckActions(cv, steps);
    r := if allowed then Ok(steps) else Err(UnsupportedAction);
  }

  function FieldLine(step: Step, key: string): string
    requires key in step
  {
    "    " + key + ": " + FormatScalar(step[key])
  }

  predicate HasAction(step: Step) { "action" in step && step["action"].Str? }

  predicate HaveActions(steps: seq<Step>) { forall i :: 0 <= i < |steps| ==> HasAction(steps[i]) }

  /** Keys of fields to print after the action. */
  predicate FieldsOf(keys: seq<string>, step: Step) {
    forall i :: 0 <= i < |keys| ==> keys[i] in step && keys[i] != "action"
  }

  /** The keys besides the action, sorted. */
  function FieldKeys(step: Step): (keys: seq<string>)
    ensures FieldsOf(keys, step) && forall k :: k in step && k != "action" ==> k in keys
  {
    SortedElements(step.Keys - {"action"});
    var keys := Sorted(step.Keys - {"action"});
    assert forall i :: 0 <= i < |keys| ==> keys[i] in keys;
    keys
  }

  /** The action line of a step and the lines of the first `n` of these keys. */
  function StepLines(step: Step, keys: seq<string>, n: nat): seq<string>
    requires HasAction(step) && FieldsOf(keys, step) && n <= |keys|
  {
    if n == 0 then ["  - action: " + step["action"].s]
    else StepLines(step, keys, n - 1) + [FieldLine(step, keys[n - 1])]
  }

  /** An order in which the keys of each step are printed. */
  type KeyOrder = Step -> seq<string>

  predicate Orders(order: KeyOrder, steps: seq<Step>) {
    forall i :: 0 <= i < |steps| ==> FieldsOf(order(steps[i]), steps[i])
  }

  /** The heading and the lines of the first `n` steps. */
  function CanonicalLines(order: KeyOrder, steps: seq<Step>, n: nat): seq<string>
    requires HaveActions(steps) && Orders(order, steps) && n <= |steps|
  {
    if n == 0 then ["steps:"]
    else
      var step := steps[n - 1];
      CanonicalLines(order, steps, n - 1) + StepLines(step, order(step), |order(step)|)
  }

  /** `_canonical_steps_yaml`. */
  function Canonical(steps: seq<Step>): string
    requires HaveActions(steps)
  {
    JoinLines(CanonicalLines(FieldKeys, steps, |steps|))
  }

  /** The printer's inner loop. */
  method PrintStep(step: Step, keys: seq<string>) returns (lines: seq<string>)
    requires HasAction(step) && FieldsOf(keys, step)
    ensures lines == StepLines(step, keys, |keys|)
  {
    lines := ["  - action: " + step["action"].s];
    for k := 0 to |keys|
      invariant lines == StepLines(step, keys, k)
    {
      lines := lines + [FieldLine(step, keys[k])];
    }
  }

  /** The printer's outer loop. */
  method PrintLines(steps: seq<Step>) returns (lines: seq<string>)
    requires HaveActions(steps)
    ensures lines == CanonicalLines(FieldKeys, steps, |steps|)
  {
    lines := ["steps:"];
    for n := 0 to |steps|
      invariant lines == CanonicalLines(FieldKeys, steps, n)
    {
      var printed := PrintStep(steps[n], FieldKeys(steps[n]));
      lines := lines + printed;
    }
  }

  method PrintSteps(steps: seq<Step>) returns (text: string)
    requires HaveActions(steps)
    ensures text == Canonical(steps)
  {
    var lines := PrintLines(steps);
    text := JoinLines(lines);
  }
}
