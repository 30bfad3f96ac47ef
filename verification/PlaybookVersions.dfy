/** Updates of a stored playbook: normalisation, digest and version. */
module PlaybookVersions {
  import opened Wrappers
  import opened PyText
  import S = Scalars
  import T = PlaybookText
  import R = PlaybookRoundTrip
  import P = PlaybookPrintable

  /** A trigger, with its threshold as a number or as the text of one. */
  datatype TriggerOf<T> =
    | Anomaly(metric: string, operator: string, threshold: T, category: string)
    | Event(kind: string, event: string)

  /** A stored threshold is a float, known by the text Python prints for it. */
  type Trigger = TriggerOf<string>

  /** A trigger as it comes in: missing fields are empty, a threshold that is no number is None. */
  datatype RawTrigger = RawTrigger(
    kind: string, event: string, metric: string, operator: string, threshold: Option<string>, category: string)

  /** What a digest covers. */
  datatype Model = Model(
    stableKey: string, name: string, description: string, kind: string, category: string, trigger: Trigger,
    action: string, role: string, steps: seq<T.Step>, enabled: bool, source: string)

  /** A stored playbook. The steps are kept as text. */
  datatype Row = Row(
    stableKey: string, name: string, description: string, kind: string, category: string, trigger: Trigger,
    action: string, role: string, stepsText: string, enabled: bool, source: string,
    version: nat, digest: Option<string>)

  /** The fields of an update request; None is a field that is not there. */
  datatype Patch = Patch(
    stableKey: Option<string>, name: Option<string>, description: Option<string>, kind: Option<string>,
    category: Option<string>, trigger: Option<RawTrigger>, action: Option<string>, role: Option<string>,
    stepsText: Option<string>, enabled: Option<bool>)

  const NO_CHANGE := Patch(None, None, None, None, None, None, None, None, None, None)

  function ToggleOf(row: Row): Patch { NO_CHANGE.(enabled := Some(!row.enabled)) }

  /** The fixed vocabularies, the approval floors of actions, and the digest. */
  datatype Settings = Settings(
    kinds: set<string>, categories: set<string>, actions: set<string>, roles: set<string>,
    triggerKinds: set<string>, operators: set<string>,
    floor: string -> Option<string>, rank: string -> int, digest: Model -> string, conventions: S.Conventions)

  predicate StrippedWords(ws: set<string>) { forall w :: w in ws ==> w != "" && Trimmed(w, Space) }

  /** Vocabularies hold stripped words, "==" is an operator, and every floor is a role. */
  ghost predicate SoundSettings(g: Settings) {
    S.Python(g.conventions)
    && StrippedWords(g.kinds) && StrippedWords(g.categories) && StrippedWords(g.actions) && StrippedWords(g.roles)
    && StrippedWords(g.operators) && StrippedWords(g.triggerKinds)
    && "=" !in g.operators && (forall a :: g.floor(a).Some? ==> g.floor(a).value in g.roles)
    && "anomaly" in g.triggerKinds
  }

  ghost predicate CollisionFreeDigest(g: Settings) { forall a, b :: g.digest(a) == g.digest(b) ==> a == b }

  datatype Failure =
    | InvalidKey | UnsupportedKind | UnsupportedCategory | UnsupportedAction | UnsupportedRole | InvalidTrigger
    | InvalidSteps(why: T.Failure)

  predicate KeyStart(c: char) { 'a' <= c <= 'z' || '0' <= c <= '9' }

  predicate ValidKey(k: string) {
    3 <= |k| <= 97 && KeyStart(k[0])
    && forall i :: 0 <= i < |k| ==> KeyStart(k[i]) || k[i] == '.' || k[i] == '_' || k[i] == '-'
  }

  function Stripped(s: string): string { Trim(s, Space) }

  /** `payload.get(field) or existing`. */
  function Or(given: Option<string>, existing: string): string {
    if given.Some? && given.value != "" then given.value else existing
  }

  /** `_parse_trigger`. */
  function ParseTrigger(g: Settings, raw: RawTrigger): Result<Trigger, Failure> {
    var kind := Stripped(if raw.kind != "" then raw.kind else if raw.event != "" then raw.event else "anomaly");
    if kind !in g.triggerKinds then Err(InvalidTrigger)
    else if kind == "anomaly" then
      var metric, operator := Stripped(raw.metric), Stripped(raw.operator);
      var canonical := if operator == "=" then "==" else operator;
      if metric == "" || canonical !in g.operators || raw.threshold.None? then Err(InvalidTrigger)
      else Ok(Anomaly(metric, canonical, raw.threshold.value, Stripped(raw.category)))
    else if Stripped(raw.event) == "" then Err(InvalidTrigger)
    else Ok(Event(kind, Stripped(raw.event)))
  }

  /** A stored trigger as it is read back. */
  function RawOf(t: Trigger): RawTrigger {
    match t
    case Anomaly(m, o, n, c) => RawTrigger("anomaly", "", m, o, Some(n), c)
    case Event(k, e) => RawTrigger(k, e, "", "", None, "")
  }

  /** The registry's floor on the approval role. */
  function Floored(g: Settings, action: string, role: string): string {
    if g.floor(action).Some? && g.rank(role) < g.rank(g.floor(action).value) then g.floor(action).value else role
  }

  /** The fields of `_normalize_playbook_definition` that are checked against a vocabulary. */
  datatype Words = Words(kind: string, category: string, action: string, role: string)

  function WordsOf(row: Row, p: Patch): Words {
    Words(Stripped(Or(p.kind, row.kind)), Stripped(Or(p.category, row.category)), Stripped(Or(p.action, row.action)),
          Stripped(Or(p.role, row.role)))
  }

  function CheckWords(g: Settings, w: Words): Result<Words, Failure> {
    if w.kind !in g.kinds then Err(UnsupportedKind)
    else if w.category !in g.categories then Err(UnsupportedCategory)
    else if w.action !in g.actions then Err(UnsupportedAction)
    else if w.role !in g.roles then Err(UnsupportedRole)
    else Ok(w.(role := Floored(g, w.action, w.role)))
  }

  /** `_normalize_playbook_definition` for an existing row: what the new revision says. */
  function NewModel(g: Settings, row: Row, p: Patch): Result<Model, Failure> {
    var key := Stripped(Or(p.stableKey, row.stableKey));
    if !ValidKey(key) then Err(InvalidKey)
    else
      match CheckWords(g, WordsOf(row, p))
      case Err(e) => Err(e)
      case Ok(w) =>
        match ParseTrigger(g, if p.trigger.Some? then p.trigger.value else RawOf(row.trigger))
        case Err(e) => Err(e)
        case Ok(trigger) =>
          match T.ParsedSteps(g.conventions, if p.stepsText.Some? then p.stepsText.value else row.stepsText)
          case Err(e) => Err(InvalidSteps(e))
          case Ok(steps) =>
            Ok(Model(key, Stripped(Or(p.name, if row.name != "" then row.name else key)),
                     Stripped(if p.description.Some? then p.description.value else row.description),
                     w.kind, w.category, trigger, w.action, w.role, steps,
                     if p.enabled.Some? then p.enabled.value else row.enabled, row.source))
  }

  /** A changed digest moves the version on; a row without a digest keeps its version, or gets its first. */
  function NextVersion(row: Row, digest: string): nat {
    if row.digest.None? then (if row.version == 0 then 1 else row.version)
    else if row.digest.value != digest then row.version + 1
    else row.version
  }

  /** The revision as stored: an update writes every field but the stable key. */
  function Stored(g: Settings, row: Row, m: Model): Row
    requires T.HaveActions(m.steps)
  {
    var digest := g.digest(m);
    Row(row.stableKey, m.name, m.description, m.kind, m.category, m.trigger, m.action, m.role,
        T.Canonical(m.steps), m.enabled, m.source,
        NextVersion(row, digest), Some(digest))
  }

  lemma ParsedHasActions(cv: S.Conventions, text: string)
    requires T.ParsedSteps(cv, text).Ok?
    ensures T.HaveActions(T.ParsedSteps(cv, text).value)
  {
    var steps := T.ParsedSteps(cv, text).value;
    forall i | 0 <= i < |steps| ensures T.HasAction(steps[i]) { assert T.AllowedAction(cv, steps[i]); }
  }

  lemma ModelHasActions(g: Settings, row: Row, p: Patch)
    requires NewModel(g, row, p).Ok?
    ensures T.HaveActions(NewModel(g, row, p).value.steps)
  {
    ParsedHasActions(g.conventions, if p.stepsText.Some? then p.stepsText.value else row.stepsText);
  }

  /** An update request on one row. */
  function Update(g: Settings, row: Row, p: Patch): Result<Row, Failure> {
    match NewModel(g, row, p)
    case Err(e) => Err(e)
    case Ok(m) =>
      ModelHasActions(g, row, p);
      Ok(Stored(g, row, m))
  }

  lemma UpdateStores(g: Settings, row: Row, p: Patch, m: Model)
    requires NewModel(g, row, p) == Ok(m) && T.HaveActions(m.steps)
    ensures Update(g, row, p) == Ok(Stored(g, row, m)) && Stored(g, row, m).version >= row.version
  {
  }

  // Versions along a history of updates.

  ghost predicate Revises(g: Settings, before: Row, after: Row) { exists p :: Update(g, before, p) == Ok(after) }

  ghost predicate History(g: Settings, rows: seq<Row>) {
    forall i :: 0 < i < |rows| ==> Revises(g, rows[i - 1], rows[i])
  }

  lemma StoredMovesVersion(g: Settings, row: Row, m: Model)
    requires T.HaveActions(m.steps) && row.digest.Some?
    ensures var after := Stored(g, row, m);
            after.digest.Some? && after.stableKey == row.stableKey
            && after.version == row.version + if after.digest == row.digest then 0 else 1
  {
  }

  lemma RevisionMovesVersion(g: Settings, before: Row, after: Row)
    requires Revises(g, before, after) && before.digest.Some?
    ensures after.digest.Some? && after.stableKey == before.stableKey
    ensures after.version == before.version + if after.digest == before.digest then 0 else 1
  {
    var p :| Update(g, before, p) == Ok(after);
    ModelHasActions(g, before, p);
    StoredMovesVersion(g, before, NewModel(g, before, p).value);
  }

  /** Versions never fall, and two revisions with one version have one digest. */
  lemma {:induction false} VersionIdentifiesDigest(g: Settings, rows: seq<Row>, i: nat, j: nat)
    requires History(g, rows) && i <= j < |rows| && rows[0].digest.Some?
    ensures rows[i].digest.Some? && rows[j].digest.Some?
    ensures rows[i].version <= rows[j].version
    ensures rows[i].version == rows[j].version ==> rows[i].digest == rows[j].digest
    decreases j
  {
    if i < j {
      VersionIdentifiesDigest(g, rows, i, j - 1);
      RevisionMovesVersion(g, rows[j - 1], rows[j]);
    } else if j > 0 {
      VersionIdentifiesDigest(g, rows, j - 1, j - 1);
      RevisionMovesVersion(g, rows[j - 1], rows[j]);
    }
  }

  /** Under a collision-free digest, updates that arrive at one version said the same. */
  lemma VersionIdentifiesModel(g: Settings, rows: seq<Row>, i: nat, j: nat, p: Patch, q: Patch)
    requires History(g, rows) && 0 < i <= j < |rows| && rows[0].digest.Some? && CollisionFreeDigest(g)
    requires Update(g, rows[i - 1], p) == Ok(rows[i]) && Update(g, rows[j - 1], q) == Ok(rows[j])
    requires rows[i].version == rows[j].version
    ensures NewModel(g, rows[i - 1], p) == NewModel(g, rows[j - 1], q)
  {
    VersionIdentifiesDigest(g, rows, i, j);
    ModelHasActions(g, rows[i - 1], p);
    ModelHasActions(g, rows[j - 1], q);
  }

  // Updates that change nothing.

  lemma StrippedWord(s: string)
    ensures Trimmed(Stripped(s), Space) && Stripped(Stripped(s)) == Stripped(s)
  {
    var i, j := TrimShape(s, Space);
    TrimIdempotent(s, Space);
  }

  /** An accepted trigger reads back as itself. */
  lemma TriggerRoundTrip(g: Settings, raw: RawTrigger)
    requires SoundSettings(g) && ParseTrigger(g, raw).Ok?
    ensures ParseTrigger(g, RawOf(ParseTrigger(g, raw).value)) == ParseTrigger(g, raw)
  {
    StrippedWord(raw.metric);
    StrippedWord(raw.category);
    StrippedWord(raw.event);
    StrippedWord(if raw.kind != "" then raw.kind else if raw.event != "" then raw.event else "anomaly");
    TrimFixed("anomaly", Space);
    var t := ParseTrigger(g, raw).value;
    if t.Anomaly? { TrimFixed(t.operator, Space); }
  }

  /** Accepted words are accepted again, and the approval floor is reached only once. */
  lemma WordsStable(g: Settings, row: Row, p: Patch, after: Row)
    requires SoundSettings(g) && CheckWords(g, WordsOf(row, p)).Ok?
    requires var w := CheckWords(g, WordsOf(row, p)).value;
             after.kind == w.kind && after.category == w.category && after.action == w.action && after.role == w.role
    ensures CheckWords(g, WordsOf(after, NO_CHANGE)) == CheckWords(g, WordsOf(row, p))
  {
    TrimFixed(after.kind, Space);
    TrimFixed(after.category, Space);
    TrimFixed(after.action, Space);
    TrimFixed(after.role, Space);
  }

  lemma ValidKeyIsStripped(k: string)
    requires ValidKey(k)
    ensures Stripped(k) == k
  {
    TrimFixed(k, Space);
  }

  /** The revision says the same when it is stored and read back. */
  predicate Settled(g: Settings, row: Row, m: Model)
    requires T.HaveActions(m.steps)
  {
    m.stableKey == row.stableKey && m.name != "" && R.Printable(g.conventions, m.steps)
  }

  lemma StepsReadBack(g: Settings, row: Row, p: Patch)
    requires SoundSettings(g) && NewModel(g, row, p).Ok?
    ensures T.HaveActions(NewModel(g, row, p).value.steps)
    ensures var steps := NewModel(g, row, p).value.steps;
            T.ParsedSteps(g.conventions, T.Canonical(steps)) == Ok(steps) <==> R.Printable(g.conventions, steps)
  {
    ModelHasActions(g, row, p);
    P.CanonicalFormStable(g.conventions, if p.stepsText.Some? then p.stepsText.value else row.stepsText);
  }

  /** The parts of a revision other than its steps read back unchanged, name and key aside. */
  predicate PartsReadBack(g: Settings, m: Model) {
    ValidKey(m.stableKey) && Stripped(m.name) == m.name && Stripped(m.description) == m.description
    && ParseTrigger(g, RawOf(m.trigger)) == Ok(m.trigger)
    && CheckWords(g, Words(Stripped(m.kind), Stripped(m.category), Stripped(m.action), Stripped(m.role)))
       == Ok(Words(m.kind, m.category, m.action, m.role))
  }

  lemma NewPartsReadBack(g: Settings, row: Row, p: Patch)
    requires SoundSettings(g) && NewModel(g, row, p).Ok?
    ensures PartsReadBack(g, NewModel(g, row, p).value)
  {
    var m := NewModel(g, row, p).value;
    TriggerRoundTrip(g, if p.trigger.Some? then p.trigger.value else RawOf(row.trigger));
    var after := row.(kind := m.kind, category := m.category, action := m.action, role := m.role);
    WordsStable(g, row, p, after);
    StrippedWord(Or(p.name, if row.name != "" then row.name else m.stableKey));
    StrippedWord(if p.description.Some? then p.description.value else row.description);
  }

  lemma ReadBackModel(g: Settings, row: Row, m: Model)
    requires PartsReadBack(g, m) && T.HaveActions(m.steps) && ValidKey(row.stableKey) && m.source == row.source
    ensures NewModel(g, Stored(g, row, m), NO_CHANGE) == Ok(m)
            <==> m.stableKey == row.stableKey && m.name != ""
                 && T.ParsedSteps(g.conventions, T.Canonical(m.steps)) == Ok(m.steps)
  {
    ValidKeyIsStripped(row.stableKey);
  }

  /** What an update that changes nothing makes of a revision. */
  lemma NoChangeModel(g: Settings, row: Row, p: Patch)
    requires SoundSettings(g) && ValidKey(row.stableKey) && Update(g, row, p).Ok?
    ensures T.HaveActions(NewModel(g, row, p).value.steps)
    ensures var m, after := NewModel(g, row, p).value, Update(g, row, p).value;
            NewModel(g, after, NO_CHANGE) == Ok(m) <==> Settled(g, row, m)
  {
    StepsReadBack(g, row, p);
    NewPartsReadBack(g, row, p);
    ReadBackModel(g, row, NewModel(g, row, p).value);
  }

  /** A stored revision keeps digest and version exactly when it is read back as the same model. */
  lemma SameDigestSameModel(g: Settings, row: Row, m: Model)
    requires T.HaveActions(m.steps) && CollisionFreeDigest(g)
    ensures var after := Stored(g, row, m);
            var again := Update(g, after, NO_CHANGE);
            (again.Ok? && again.value.digest == after.digest && again.value.version == after.version)
            <==> NewModel(g, after, NO_CHANGE) == Ok(m)
  {
    var after := Stored(g, row, m);
    if NewModel(g, after, NO_CHANGE).Ok? {
      ModelHasActions(g, after, NO_CHANGE);
      UpdateStores(g, after, NO_CHANGE, NewModel(g, after, NO_CHANGE).value);
    }
  }

  lemma StoredTwice(g: Settings, row: Row, m: Model)
    requires T.HaveActions(m.steps) && m.source == row.source
    ensures Stored(g, Stored(g, row, m), m) == Stored(g, row, m)
  {
  }

  /**
   * An update that changes nothing leaves digest and version as they are exactly when the revision
   * was digested under its stored key, has a name, and has printable steps.
   */
  lemma NoChangeKeepsVersion(g: Settings, row: Row, p: Patch)
    requires SoundSettings(g) && CollisionFreeDigest(g) && ValidKey(row.stableKey) && Update(g, row, p).Ok?
    ensures T.HaveActions(NewModel(g, row, p).value.steps)
    ensures var m, after := NewModel(g, row, p).value, Update(g, row, p).value;
            var again := Update(g, after, NO_CHANGE);
            (again.Ok? && again.value.digest == after.digest && again.value.version == after.version)
            <==> Settled(g, row, m)
    ensures Settled(g, row, NewModel(g, row, p).value) ==>
              Update(g, Update(g, row, p).value, NO_CHANGE) == Update(g, row, p)
  {
    NoChangeModel(g, row, p);
    SameDigestSameModel(g, row, NewModel(g, row, p).value);
    if Settled(g, row, NewModel(g, row, p).value) { StoredTwice(g, row, NewModel(g, row, p).value); }
  }

  /** Enabling and disabling only moves the flag. */
  lemma ToggleModel(g: Settings, row: Row, b: bool)
    requires NewModel(g, row, NO_CHANGE).Ok?
    ensures NewModel(g, row, NO_CHANGE.(enabled := Some(b))) == Ok(NewModel(g, row, NO_CHANGE).value.(enabled := b))
  {
  }

  /** A revision that an update without changes leaves alone. */
  predicate Resting(g: Settings, row: Row, m: Model) {
    NewModel(g, row, NO_CHANGE) == Ok(m) && T.HaveActions(m.steps) && Stored(g, row, m) == row
  }

  lemma ToggleOnce(g: Settings, row: Row, m: Model) returns (after: Row)
    requires Resting(g, row, m) && CollisionFreeDigest(g)
    ensures Update(g, row, ToggleOf(row)) == Ok(after) && Resting(g, after, m.(enabled := !m.enabled))
    ensures after == row.(enabled := !row.enabled, version := row.version + 1,
                          digest := Some(g.digest(m.(enabled := !m.enabled))))
  {
    var other := m.(enabled := !m.enabled);
    ToggleModel(g, row, !row.enabled);
    after := Stored(g, row, other);
    assert NewModel(g, after, NO_CHANGE) == NewModel(g, row, ToggleOf(row));
  }

  /** A settled revision rests. */
  lemma SettledRests(g: Settings, row: Row, p: Patch)
    requires SoundSettings(g) && ValidKey(row.stableKey) && Update(g, row, p).Ok?
    requires T.HaveActions(NewModel(g, row, p).value.steps) && Settled(g, row, NewModel(g, row, p).value)
    ensures Resting(g, Update(g, row, p).value, NewModel(g, row, p).value)
  {
    NoChangeModel(g, row, p);
    StoredTwice(g, row, NewModel(g, row, p).value);
  }

  /** Toggling a resting revision twice restores it, two versions on. */
  lemma ToggleRestingTwice(g: Settings, row: Row, m: Model)
    requires Resting(g, row, m) && CollisionFreeDigest(g)
    ensures var off := Update(g, row, ToggleOf(row));
            off.Ok? && off.value.digest != row.digest
            && Update(g, off.value, ToggleOf(off.value)) == Ok(row.(version := row.version + 2))
  {
    var off := ToggleOnce(g, row, m);
    var on := ToggleOnce(g, off, m.(enabled := !m.enabled));
    assert m.(enabled := !m.enabled).(enabled := m.enabled) == m;
  }

  /**
   * After any update that settles, toggling moves the version on with another digest, and toggling
   * again restores everything that was stored, two versions on.
   */
  lemma ToggleTwice(g: Settings, row: Row, p: Patch)
    requires SoundSettings(g) && CollisionFreeDigest(g) && ValidKey(row.stableKey) && Update(g, row, p).Ok?
    requires T.HaveActions(NewModel(g, row, p).value.steps) && Settled(g, row, NewModel(g, row, p).value)
    ensures var after := Update(g, row, p).value;
            var off := Update(g, after, ToggleOf(after));
            off.Ok? && off.value.digest != after.digest && off.value.version == after.version + 1
            && Update(g, off.value, ToggleOf(off.value)) == Ok(after.(version := after.version + 2))
  {
    SettledRests(g, row, p);
    var after, m := Update(g, row, p).value, NewModel(g, row, p).value;
    var off := ToggleOnce(g, after, m);
    ToggleRestingTwice(g, after, m);
  }

  /** No stored revision asks for less approval than its action requires. */
  lemma ApprovalFloorHolds(g: Settings, row: Row, p: Patch)
    requires Update(g, row, p).Ok?
    ensures var after := Update(g, row, p).value;
            g.floor(after.action).Some? ==> g.rank(after.role) >= g.rank(g.floor(after.action).value)
  {
    ModelHasActions(g, row, p);
  }

  /** A stored playbook, changed in place by each request. */
  class Playbook {
    const settings: Settings
    var row: Row

    constructor (g: Settings, first: Row)
      ensures settings == g && row == first
    {
      settings, row := g, first;
    }

    /** `_parse_trigger`. */
    method NormalizeTrigger(raw: RawTrigger) returns (r: Result<Trigger, Failure>)
      ensures r == ParseTrigger(settings, raw)
    {
      var kind := raw.kind;
      if kind == "" { kind := raw.event; }
      if kind == "" { kind := "anomaly"; }
      kind := Stripped(kind);
      if kind !in settings.triggerKinds { return Err(InvalidTrigger); }
      if kind != "anomaly" {
        var event := Stripped(raw.event);
        if event == "" { return Err(InvalidTrigger); }
        return Ok(Event(kind, event));
      }
      var metric, operator := Stripped(raw.metric), Stripped(raw.operator);
      if operator == "=" { operator := "=="; }
      if metric == "" || operator !in settings.operators || raw.threshold.None? { return Err(InvalidTrigger); }
      r := Ok(Anomaly(metric, operator, raw.threshold.value, Stripped(raw.category)));
    }

    /** The vocabulary checks, and the approval role raised to the registry's floor. */
    method NormalizeWords(kind: string, category: string, action: string, role: string)
      returns (r: Result<string, Failure>)
      ensures CheckWords(settings, Words(kind, category, action, role))
              == match r
                 case Err(e) => Err(e)
                 case Ok(approved) => Ok(Words(kind, category, action, approved))
    {
      if kind !in settings.kinds { return Err(UnsupportedKind); }
      if category !in settings.categories { return Err(UnsupportedCategory); }
      if action !in settings.actions { return Err(UnsupportedAction); }
      if role !in settings.roles { return Err(UnsupportedRole); }
      var approved := role;
      var floor := settings.floor(action);
      if floor.Some? && settings.rank(role) < settings.rank(floor.value) { approved := floor.value; }
      r := Ok(approved);
    }

    /** The steps as parsed, and the canonical text they are stored as. */
    method NormalizeSteps(text: string) returns (r: Result<(seq<T.Step>, string), Failure>)
      ensures r.Err? <==> T.ParsedSteps(settings.conventions, text).Err?
      ensures r.Err? ==> r.error == InvalidSteps(T.ParsedSteps(settings.conventions, text).error)
      ensures r.Ok? ==> T.ParsedSteps(settings.conventions, text) == Ok(r.value.0) && T.HaveActions(r.value.0)
                        && r.value.1 == T.Canonical(r.value.0)
    {
      var parsed := T.ParseSteps(settings.conventions, text);
      if parsed.Err? { return Err(InvalidSteps(parsed.error)); }
      ParsedHasActions(settings.conventions, text);
      var canonical := T.PrintSteps(parsed.value);
      r := Ok((parsed.value, canonical));
    }

    /** `_normalize_playbook_definition` up to the digest: every field in turn, the first failure reported. */
    method Normalize(p: Patch) returns (r: Result<(Model, string), Failure>)
      ensures r.Err? ==> NewModel(settings, row, p) == Err(r.error)
      ensures r.Ok? ==> NewModel(settings, row, p) == Ok(r.value.0) && T.HaveActions(r.value.0.steps)
                        && r.value.1 == T.Canonical(r.value.0.steps)
    {
      var stableKey := Stripped(Or(p.stableKey, row.stableKey));
      if !ValidKey(stableKey) { return Err(InvalidKey); }
      var name := Stripped(Or(p.name, if row.name != "" then row.name else stableKey));
      var description := Stripped(if p.description.Some? then p.description.value else row.description);
      var kind, category := Stripped(Or(p.kind, row.kind)), Stripped(Or(p.category, row.category));
      var action := Stripped(Or(p.action, row.action));
      var role := NormalizeWords(kind, category, action, Stripped(Or(p.role, row.role)));
      if role.Err? { return Err(role.error); }
      var trigger := NormalizeTrigger(if p.trigger.Some? then p.trigger.value else RawOf(row.trigger));
      if trigger.Err? { return Err(trigger.error); }
      var steps := NormalizeSteps(if p.stepsText.Some? then p.stepsText.value else row.stepsText);
      if steps.Err? { return Err(steps.error); }
      var enabled := if p.enabled.Some? then p.enabled.value else row.enabled;
      r := Ok((Model(stableKey, name, description, kind, category, trigger.value, action, role.value,
                     steps.value.0, enabled, row.source), steps.value.1));
    }

    /** The digest decides the version, and every column but the stable key is written. */
    method Persist(m: Model, stepsText: string)
      requires T.HaveActions(m.steps) && stepsText == T.Canonical(m.steps)
      modifies this
      ensures row == Stored(settings, old(row), m)
    {
      var digest := settings.digest(m);
      var version := row.version;
      if row.digest.None? {
        if version == 0 { version := 1; }
      } else if row.digest.value != digest {
        version := version + 1;
      }
      row := row.(name := m.name, description := m.description, kind := m.kind, category := m.category,
                  trigger := m.trigger, action := m.action, role := m.role, stepsText := stepsText,
                  enabled := m.enabled, source := m.source, version := version, digest := Some(digest));
    }

    /** One request: the row becomes the specified revision, or the request is refused and changes nothing. */
    method Apply(p: Patch) returns (r: Result<Row, Failure>)
      modifies this
      ensures r == Update(settings, old(row), p)
      ensures row == if r.Ok? then r.value else old(row)
      ensures old(row).digest.Some? && r.Ok? ==> row.version >= old(row).version
    {
      var normalized := Normalize(p);
      if normalized.Err? { return Err(normalized.error); }
      Persist(normalized.value.0, normalized.value.1);
      UpdateStores(settings, old(row), p, normalized.value.0);
      r := Ok(row);
    }
  }
}
