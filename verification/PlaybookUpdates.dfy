/** What an update of a playbook takes from its request, field by field, and when it is refused. */
module PlaybookUpdates {
  import opened Wrappers
  import opened PyText
  import T = PlaybookText
  import opened PlaybookVersions

  /** The given text, stripped, or else the stored one; an empty text counts as not given. */
  function Chosen(given: Option<string>, stored: string): string {
    Trim(match given case Some(text) => (if text == "" then stored else text) case None => stored, Space)
  }

  /** Three to 97 characters, lower-case letters, digits, dots, underscores and hyphens, no mark at the front. */
  predicate PlainKey(k: string) {
    3 <= |k| <= 97
    && (forall c :: c in k ==> 'a' <= c <= 'z' || '0' <= c <= '9' || c == '.' || c == '_' || c == '-')
    && k[0] != '.' && k[0] != '_' && k[0] != '-'
  }

  lemma PlainKeyIsValid(k: string)
    ensures ValidKey(k) <==> PlainKey(k)
  {
    if PlainKey(k) {
      assert k[0] in k;
      forall i | 0 <= i < |k| ensures KeyStart(k[i]) || k[i] == '.' || k[i] == '_' || k[i] == '-' { assert k[i] in k; }
    }
  }

  /** A trigger as it is stored for a given one: metric, operator, threshold and category, or the kind and its event. */
  predicate TriggerFrom(g: Settings, raw: RawTrigger, t: Trigger) {
    var kind := Trim(if raw.kind != "" then raw.kind else if raw.event != "" then raw.event else "anomaly", Space);
    kind in g.triggerKinds
    && if kind == "anomaly" then
         t.Anomaly? && raw.metric != "" && t.metric == Trim(raw.metric, Space) && t.metric != ""
         && (Trim(raw.operator, Space) == "=" ==> t.operator == "==")
         && (Trim(raw.operator, Space) != "=" ==> t.operator == Trim(raw.operator, Space))
         && t.operator in g.operators && raw.threshold == Some(t.threshold) && t.category == Trim(raw.category, Space)
       else t.Event? && t.kind == kind && t.event == Trim(raw.event, Space) && t.event != ""
  }

  lemma TriggerExactly(g: Settings, raw: RawTrigger, t: Trigger)
    ensures ParseTrigger(g, raw) == Ok(t) <==> TriggerFrom(g, raw, t)
    ensures ParseTrigger(g, raw).Err? ==> ParseTrigger(g, raw) == Err(InvalidTrigger)
  {
    assert raw.metric == "" ==> Trim(raw.metric, Space) == "";
  }

  /** The stored trigger, when the request has none. */
  predicate TriggerOfUpdate(g: Settings, row: Row, p: Patch, t: Trigger) {
    match p.trigger
    case Some(raw) => TriggerFrom(g, raw, t)
    case None =>
      match row.trigger
      case Anomaly(metric, operator, threshold, category) =>
        TriggerFrom(g, RawTrigger(kind := "anomaly", event := "", metric := metric, operator := operator,
                                  threshold := Some(threshold), category := category), t)
      case Event(kind, event) =>
        TriggerFrom(g, RawTrigger(kind := kind, event := event, metric := "", operator := "", threshold := None,
                                  category := ""), t)
  }

  function StepsText(row: Row, p: Patch): string { if p.stepsText.Some? then p.stepsText.value else row.stepsText }

  /** The role asked for, or the floor of the action if that is higher. */
  predicate RoleTaken(g: Settings, action: string, asked: string, role: string) {
    match g.floor(action)
    case None => role == asked
    case Some(floor) => role == if g.rank(asked) < g.rank(floor) then floor else asked
  }

  /** Which requests an update takes. */
  ghost predicate Acceptable(g: Settings, row: Row, p: Patch) {
    PlainKey(Chosen(p.stableKey, row.stableKey))
    && Chosen(p.kind, row.kind) in g.kinds && Chosen(p.category, row.category) in g.categories
    && Chosen(p.action, row.action) in g.actions && Chosen(p.role, row.role) in g.roles
    && (exists t :: TriggerOfUpdate(g, row, p, t))
    && T.ParsedSteps(g.conventions, StepsText(row, p)).Ok?
  }

  /** What an accepted update leaves in the row. */
  predicate Updated(g: Settings, row: Row, p: Patch, steps: seq<T.Step>, after: Row)
    requires T.HaveActions(steps)
  {
    var key := Chosen(p.stableKey, row.stableKey);
    after.stableKey == row.stableKey && after.source == row.source
    && after.name == Chosen(p.name, if row.name == "" then key else row.name)
    && after.description == Trim(if p.description.Some? then p.description.value else row.description, Space)
    && after.kind == Chosen(p.kind, row.kind) && after.category == Chosen(p.category, row.category)
    && after.action == Chosen(p.action, row.action) && RoleTaken(g, after.action, Chosen(p.role, row.role), after.role)
    && TriggerOfUpdate(g, row, p, after.trigger)
    && after.stepsText == T.Canonical(steps)
    && after.enabled == (if p.enabled.Some? then p.enabled.value else row.enabled)
    && after.digest == Some(g.digest(Model(
         stableKey := key, name := after.name, description := after.description, kind := after.kind,
         category := after.category, trigger := after.trigger, action := after.action, role := after.role,
         steps := steps, enabled := after.enabled, source := after.source)))
    && (row.digest.Some? ==> after.version == row.version + if row.digest == after.digest then 0 else 1)
    && (row.digest.None? ==> after.version == if row.version == 0 then 1 else row.version)
  }

  lemma ChosenIs(given: Option<string>, stored: string)
    ensures Stripped(Or(given, stored)) == Chosen(given, stored)
  {
  }

  lemma ChosenFields(row: Row, p: Patch)
    ensures Stripped(Or(p.stableKey, row.stableKey)) == Chosen(p.stableKey, row.stableKey)
    ensures WordsOf(row, p) == Words(kind := Chosen(p.kind, row.kind), category := Chosen(p.category, row.category),
                                     action := Chosen(p.action, row.action), role := Chosen(p.role, row.role))
  {
  }

  lemma WordsExactly(g: Settings, w: Words)
    ensures CheckWords(g, w).Ok? <==> w.kind in g.kinds && w.category in g.categories && w.action in g.actions
                                      && w.role in g.roles
    ensures CheckWords(g, w).Ok? ==>
              var v := CheckWords(g, w).value;
              v.kind == w.kind && v.category == w.category && v.action == w.action
              && RoleTaken(g, w.action, w.role, v.role)
    ensures match CheckWords(g, w)
            case Err(UnsupportedKind) => w.kind !in g.kinds
            case Err(UnsupportedCategory) => w.category !in g.categories
            case Err(UnsupportedAction) => w.action !in g.actions
            case Err(UnsupportedRole) => w.role !in g.roles
            case Err(_) => false
            case Ok(_) => true
  {
  }

  /** An update is taken exactly on these terms, and a refusal names one that does not hold. */
  lemma UpdatesExactly(g: Settings, row: Row, p: Patch)
    ensures Update(g, row, p).Ok? <==> Acceptable(g, row, p)
    ensures match Update(g, row, p)
            case Err(InvalidKey) => !PlainKey(Chosen(p.stableKey, row.stableKey))
            case Err(UnsupportedKind) => Chosen(p.kind, row.kind) !in g.kinds
            case Err(UnsupportedCategory) => Chosen(p.category, row.category) !in g.categories
            case Err(UnsupportedAction) => Chosen(p.action, row.action) !in g.actions
            case Err(UnsupportedRole) => Chosen(p.role, row.role) !in g.roles
            case Err(InvalidTrigger) => forall t :: !TriggerOfUpdate(g, row, p, t)
            case Err(InvalidSteps(why)) => T.ParsedSteps(g.conventions, StepsText(row, p)) == Err(why)
            case Ok(_) => true
  {
    PlainKeyIsValid(Chosen(p.stableKey, row.stableKey));
    ChosenFields(row, p);
    WordsExactly(g, WordsOf(row, p));
    var raw := if p.trigger.Some? then p.trigger.value else RawOf(row.trigger);
    forall t ensures ParseTrigger(g, raw) == Ok(t) <==> TriggerOfUpdate(g, row, p, t) { TriggerExactly(g, raw, t); }
    if ParseTrigger(g, raw).Ok? { assert TriggerOfUpdate(g, row, p, ParseTrigger(g, raw).value); }
  }

  /**
   * Every field of an accepted update: what was given is taken, what was not stays, the steps are the canonical
   * text of what the parser makes of the given text, and the digest is that of exactly these fields.
   */
  lemma UpdateSays(g: Settings, row: Row, p: Patch)
    requires Update(g, row, p).Ok?
    ensures T.ParsedSteps(g.conventions, StepsText(row, p)).Ok?
    ensures T.HaveActions(T.ParsedSteps(g.conventions, StepsText(row, p)).value)
    ensures Updated(g, row, p, T.ParsedSteps(g.conventions, StepsText(row, p)).value, Update(g, row, p).value)
  {
    ModelHasActions(g, row, p);
    ChosenFields(row, p);
    ChosenIs(p.name, if row.name != "" then row.name else Chosen(p.stableKey, row.stableKey));
    WordsExactly(g, WordsOf(row, p));
    var raw := if p.trigger.Some? then p.trigger.value else RawOf(row.trigger);
    TriggerExactly(g, raw, Update(g, row, p).value.trigger);
  }

  /** A field that was given is taken, stripped; one that was not stays. */
  predicate Taken(given: Option<string>, before: string, after: string) {
    after == if given.Some? && given.value != "" then Trim(given.value, Space) else before
  }

  /** Given steps are taken from the given text, and show in digest and version exactly when they differ. */
  ghost predicate StepsTaken(g: Settings, row: Row, m: Model, text: string, after: Row) {
    var parsed := T.ParsedSteps(g.conventions, text);
    parsed.Ok? && T.HaveActions(parsed.value) && after.stepsText == T.Canonical(parsed.value)
    && (CollisionFreeDigest(g) && parsed.value != m.steps ==>
          after.digest != row.digest && after.version == row.version + 1)
  }

  /** What a resting playbook looks like to an update. */
  lemma RestingRow(g: Settings, row: Row, m: Model)
    requires Resting(g, row, m) && m.name != ""
    ensures Trim(row.name, Space) == row.name && row.name != "" && Trim(row.kind, Space) == row.kind
    ensures Trim(row.category, Space) == row.category && Trim(row.action, Space) == row.action
    ensures Trim(row.description, Space) == row.description && row.digest == Some(g.digest(m))
    ensures RoleTaken(g, row.action, Trim(row.role, Space), row.role)
    ensures ParseTrigger(g, RawOf(row.trigger)) == Ok(row.trigger)
    ensures T.ParsedSteps(g.conventions, row.stepsText) == Ok(m.steps) && row.stepsText == T.Canonical(m.steps)
  {
    ChosenFields(row, NO_CHANGE);
    WordsExactly(g, WordsOf(row, NO_CHANGE));
  }

  /** Steps other than the digested ones show in the digest, and so in the version. */
  lemma StepsShow(g: Settings, row: Row, m: Model, p: Patch, steps: seq<T.Step>, after: Row)
    requires T.HaveActions(steps) && Updated(g, row, p, steps, after) && row.digest == Some(g.digest(m))
    ensures CollisionFreeDigest(g) && steps != m.steps ==>
              after.digest != row.digest && after.version == row.version + 1
  {
  }

  /** The columns of an updated row against those of the row before. */
  predicate FieldsTaken(g: Settings, row: Row, p: Patch, after: Row) {
    after.stableKey == row.stableKey && after.source == row.source
    && Taken(p.name, row.name, after.name) && Taken(p.kind, row.kind, after.kind)
    && Taken(p.category, row.category, after.category) && Taken(p.action, row.action, after.action)
    && after.description == (if p.description.Some? then Trim(p.description.value, Space) else row.description)
    && after.enabled == (if p.enabled.Some? then p.enabled.value else row.enabled)
    && RoleTaken(g, after.action, Chosen(p.role, row.role), after.role)
    && (p.role.None? && p.action.None? ==> after.role == row.role)
    && (if p.trigger.Some? then TriggerFrom(g, p.trigger.value, after.trigger) else after.trigger == row.trigger)
  }

  lemma FieldsAreTaken(g: Settings, row: Row, m: Model, p: Patch, steps: seq<T.Step>, after: Row)
    requires Resting(g, row, m) && m.name != "" && T.HaveActions(steps) && Updated(g, row, p, steps, after)
    ensures FieldsTaken(g, row, p, after)
  {
    RestingRow(g, row, m);
    if p.trigger.None? { TriggerExactly(g, RawOf(row.trigger), after.trigger); }
  }

  /** An update of a resting playbook takes what it is given and changes nothing else. */
  lemma UpdateTakesWhatIsGiven(g: Settings, row: Row, m: Model, p: Patch)
    requires Resting(g, row, m) && m.name != "" && Update(g, row, p).Ok?
    ensures var after := Update(g, row, p).value;
            FieldsTaken(g, row, p, after)
            && (if p.stepsText.Some? then StepsTaken(g, row, m, p.stepsText.value, after)
                else after.stepsText == row.stepsText)
  {
    UpdateSays(g, row, p);
    var steps, after := T.ParsedSteps(g.conventions, StepsText(row, p)).value, Update(g, row, p).value;
    FieldsAreTaken(g, row, m, p, steps, after);
    RestingRow(g, row, m);
    StepsShow(g, row, m, p, steps, after);
  }

  /**
   * New steps for a resting playbook: refused if the parser refuses them; otherwise stored as their canonical
   * text, with another digest and the next version exactly if the steps differ, and all else as before.
   */
  lemma StepsAreTaken(g: Settings, row: Row, m: Model, text: string)
    requires Resting(g, row, m) && CollisionFreeDigest(g)
    ensures var again := Update(g, row, NO_CHANGE.(stepsText := Some(text)));
            var parsed := T.ParsedSteps(g.conventions, text);
            (again.Ok? <==> parsed.Ok?) && (parsed.Err? ==> again == Err(InvalidSteps(parsed.error)))
            && (parsed.Ok? ==>
                  T.HaveActions(parsed.value)
                  && again.value.stepsText == T.Canonical(parsed.value)
                  && (again.value.digest == row.digest <==> parsed.value == m.steps)
                  && again.value.version == (if parsed.value == m.steps then row.version else row.version + 1)
                  && again.value == row.(stepsText := again.value.stepsText, digest := again.value.digest,
                                         version := again.value.version))
  {
    var p, parsed := NO_CHANGE.(stepsText := Some(text)), T.ParsedSteps(g.conventions, text);
    if parsed.Ok? {
      ParsedHasActions(g.conventions, text);
      assert NewModel(g, row, p) == Ok(m.(steps := parsed.value));
    }
  }
}
