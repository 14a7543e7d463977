// app/conversation_protocol.py: what a model may answer in one step of a turn, and the
// schema that tells it so. Wire values are parsed JSON, with the field names as keys.
module TurnProtocol {
  import opened Prelude
  import opened Text

  datatype Key =
    | Reply | Action | Reads | References | Effect
    | Name | Path | Query | StartLine | ReferenceId | Offset | SourceId | SourceHash
    | Unknown(key: string)

  datatype Wire = Null | Text(s: string) | Number(n: int) | List(items: seq<Wire>) | Object(fields: map<Key, Wire>) | OtherWire

  datatype Version = V2 | V3 | V4
  datatype Purpose = Observe | Command

  // The evidence names and the actions that exist; the rules below hold for any.
  datatype Vocabulary = Vocabulary(names: seq<string>, actions: seq<string>)

  datatype Read = Read(
    name: string, path: Option<string>, query: Option<string>, startLine: int, referenceId: Option<string>,
    offset: int, sourceId: Option<string>, sourceHash: Option<string>)

  datatype Decision = Decision(
    reply: string, action: string, requests: seq<Read>, references: seq<string>, effect: Option<Purpose>)

  datatype StepError = Invalid | ReadWorkflowConflict | ReadsAfterBudget | ReferenceNotRead | ActionUnavailable

  // ---------- Field by field ----------

  predicate IsHash(s: string) {
    |s| == 64 && forall i | 0 <= i < |s| :: '0' <= s[i] <= '9' || 'a' <= s[i] <= 'f'
  }

  // min, max and form of an optional text.
  datatype TextRule = TextRule(least: nat, most: nat, hash: bool)

  const PATH_RULE := TextRule(0, 300, false)
  const QUERY_RULE := TextRule(0, 200, false)
  const HASH_RULE := TextRule(64, 64, true)
  const SOURCE_RULE := TextRule(1, 128, false)

  predicate TextOk(s: string, rule: TextRule) {
    rule.least <= |s| <= rule.most && (rule.hash ==> IsHash(s))
  }

  // Absent and null are the same; a text must keep its rule; anything else is refused.
  function OptionalText(fields: map<Key, Wire>, key: Key, rule: TextRule): Option<Option<string>> {
    if key !in fields || fields[key] == Null then Some(None)
    else if fields[key].Text? && TextOk(fields[key].s, rule) then Some(Some(fields[key].s))
    else None
  }

  // A JSON integer within its bounds. Texts and booleans that the validator would also
  // read as integers are refused here.
  function Integer(fields: map<Key, Wire>, key: Key, default: int, least: int, most: int): Option<int> {
    if key !in fields then Some(default)
    else if fields[key].Number? && least <= fields[key].n <= most then Some(fields[key].n)
    else None
  }

  const READ_KEYS := {Name, Path, Query, StartLine, ReferenceId, Offset, SourceId, SourceHash}

  const MAX_LINE := 1000000
  const MAX_OFFSET := 2000000

  predicate NameFits(f: map<Key, Wire>, names: seq<string>) {
    Name in f && f[Name].Text? && f[Name].s in names
  }

  predicate TextFits(f: map<Key, Wire>, key: Key, rule: TextRule) {
    OptionalText(f, key, rule).Some?
  }

  predicate NumberFits(f: map<Key, Wire>, key: Key, default: int, least: int, most: int) {
    Integer(f, key, default, least, most).Some?
  }

  // Field k of an EvidenceRead.
  predicate FieldOk(f: map<Key, Wire>, names: seq<string>, k: Key) {
    match k
    case Name => NameFits(f, names)
    case Path => TextFits(f, Path, PATH_RULE)
    case Query => TextFits(f, Query, QUERY_RULE)
    case StartLine => NumberFits(f, StartLine, 1, 1, MAX_LINE)
    case Offset => NumberFits(f, Offset, 0, 0, MAX_OFFSET)
    case SourceId => TextFits(f, SourceId, SOURCE_RULE)
    case _ => TextFits(f, k, HASH_RULE)
  }

  predicate ReadFits(f: map<Key, Wire>, names: seq<string>) {
    f.Keys <= READ_KEYS && Name in f && forall k | k in READ_KEYS :: FieldOk(f, names, k)
  }

  // EvidenceRead as its fields alone have it.
  function ReadFields(v: Wire, names: seq<string>): Option<Read> {
    if !v.Object? || !ReadFits(v.fields, names) then None
    else
      var f := v.fields;
      assert FieldOk(f, names, Name) && FieldOk(f, names, Path) && FieldOk(f, names, Query) && FieldOk(f, names, StartLine);
      assert FieldOk(f, names, ReferenceId) && FieldOk(f, names, Offset) && FieldOk(f, names, SourceId) && FieldOk(f, names, SourceHash);
      Some(Read(f[Name].s, OptionalText(f, Path, PATH_RULE).value, OptionalText(f, Query, QUERY_RULE).value,
                Integer(f, StartLine, 1, 1, MAX_LINE).value, OptionalText(f, ReferenceId, HASH_RULE).value,
                Integer(f, Offset, 0, 0, MAX_OFFSET).value, OptionalText(f, SourceId, SOURCE_RULE).value,
                OptionalText(f, SourceHash, HASH_RULE).value))
  }

  // context_reference_required
  predicate ReadBound(r: Read) {
    (r.name == "context_reference" ==> r.referenceId.Some?) && (r.sourceId.Some? <==> r.sourceHash.Some?)
  }

  function ReadOf(v: Wire, names: seq<string>): Option<Read> {
    var r := ReadFields(v, names);
    if r.Some? && ReadBound(r.value) then r else None
  }

  function ReadsOf(items: seq<Wire>, names: seq<string>): (r: Option<seq<Read>>)
    ensures r.Some? ==> |r.value| == |items| && forall i | 0 <= i < |items| :: ReadOf(items[i], names) == Some(r.value[i])
    ensures r.None? ==> exists i | 0 <= i < |items| :: ReadOf(items[i], names).None?
  {
    if items == [] then Some([])
    else
      match (ReadOf(items[0], names), ReadsOf(items[1..], names))
      case (Some(first), Some(rest)) => Some([first] + rest)
      case _ => None
  }

  function NamesOf(items: seq<Wire>, names: seq<string>): (r: Option<seq<string>>)
    ensures r.Some? ==> |r.value| == |items| && forall i | 0 <= i < |items| :: items[i] == Text(r.value[i]) && r.value[i] in names
    ensures r.None? ==> exists i | 0 <= i < |items| :: !(items[i].Text? && items[i].s in names)
  {
    if items == [] then Some([])
    else if !items[0].Text? || items[0].s !in names then None
    else
      match NamesOf(items[1..], names)
      case Some(rest) => Some([items[0].s] + rest)
      case None => None
  }

  function EffectOf(fields: map<Key, Wire>): Option<Option<Purpose>> {
    if Effect !in fields || fields[Effect] == Null then Some(None)
    else if fields[Effect] == Text("observe") then Some(Some(Observe))
    else if fields[Effect] == Text("command") then Some(Some(Command))
    else None
  }

  function TurnKeys(version: Version): set<Key> {
    if version == V4 then {Reply, Action, Reads, References, Effect} else {Reply, Action, Reads, References}
  }

  // TurnEnvelope, or RuntimeEnvelope for v4.
  function EnvelopeOf(v: Wire, version: Version, vocabulary: Vocabulary): Option<Decision> {
    if !v.Object? || !(v.fields.Keys <= TurnKeys(version)) || !({Reply, Action, Reads, References} <= v.fields.Keys) then None
    else
      var f := v.fields;
      if !f[Reply].Text? || |f[Reply].s| > 6000 || !f[Action].Text? || f[Action].s !in vocabulary.actions
         || !f[Reads].List? || |f[Reads].items| > 3 || !f[References].List? || |f[References].items| > 3 then None
      else
        var requests := ReadsOf(f[Reads].items, vocabulary.names);
        var references := NamesOf(f[References].items, vocabulary.names);
        var effect := EffectOf(f);
        if requests.None? || references.None? || effect.None? then None
        else Some(Decision(f[Reply].s, f[Action].s, requests.value, references.value, effect.value))
  }

  // ---------- parse_step ----------

  // An empty presentation list that came as "" on a read-only v4 step.
  predicate EmptyTextList(v: Wire, version: Version) {
    version == V4 && v.Object? && {Action, Reads, References} <= v.fields.Keys && v.fields[Action] == Text("respond")
    && v.fields[Reads].List? && v.fields[Reads].items != [] && v.fields[References] == Text("")
  }

  function Repaired(v: Wire, version: Version): Wire {
    if EmptyTextList(v, version) then Object(v.fields[References := List([])]) else v
  }

  predicate KnownOnly(references: seq<string>, known: set<string>) {
    forall i | 0 <= i < |references| :: references[i] in known
  }

  function Requested(requests: seq<Read>): set<string> {
    set i | 0 <= i < |requests| :: requests[i].name
  }

  predicate Blank(s: string) {
    Strip(s) == []
  }

  // The validators of ConversationDecision, and of RuntimeDecision for v4.
  predicate Consistent(d: Decision, version: Version) {
    && (d.requests != [] ==> d.action == "respond" && d.references == [])
    && (d.requests == [] ==> !Blank(d.reply))
    && (version == V4 && d.effect == Some(Observe) ==> d.action == "respond")
  }

  function ParseStep(v: Wire, version: Version, vocabulary: Vocabulary, actions: seq<string>, known: set<string>, allowReads: bool)
    : Result<(Decision, bool), StepError>
  {
    match EnvelopeOf(Repaired(v, version), version, vocabulary)
    case None => Err(Invalid)
    case Some(e) =>
      if version != V2 && e.requests != [] && e.action != "respond" then Err(ReadWorkflowConflict)
      else if version != V2 && e.requests != [] && !allowReads then Err(ReadsAfterBudget)
      else if version != V2 && e.requests != [] && !KnownOnly(e.references, known + Requested(e.requests)) then Err(ReferenceNotRead)
      else
        var reading := version != V2 && e.requests != [];
        var d := if reading then e.(reply := "", references := []) else e;
        var normalized := EmptyTextList(v, version) || (reading && (e.reply != "" || e.references != []));
        if !Consistent(d, version) then Err(Invalid)
        else if d.action !in actions then Err(ActionUnavailable)
        else if !KnownOnly(d.references, known) then Err(ReferenceNotRead)
        else Ok((d, normalized))
  }

  method ParseTurn(v: Wire, version: Version, vocabulary: Vocabulary, actions: seq<string>, known: set<string>, allowReads: bool)
    returns (r: Result<(Decision, bool), StepError>)
    ensures r == ParseStep(v, version, vocabulary, actions, known, allowReads)
  {
    var normalized := false;
    var value := v;
    if EmptyTextList(v, version) {
      value := Object(v.fields[References := List([])]);
      normalized := true;
    }
    var parsed := EnvelopeOf(value, version, vocabulary);
    if parsed.None? {
      return Err(Invalid);
    }
    var envelope := parsed.value;
    if version != V2 && envelope.requests != [] {
      if envelope.action != "respond" {
        return Err(ReadWorkflowConflict);
      }
      if !allowReads {
        return Err(ReadsAfterBudget);
      }
      if !KnownOnly(envelope.references, known + Requested(envelope.requests)) {
        return Err(ReferenceNotRead);
      }
      normalized := normalized || envelope.reply != "" || envelope.references != [];
      envelope := envelope.(reply := "", references := []);
    }
    if !Consistent(envelope, version) {
      return Err(Invalid);
    }
    if envelope.action !in actions {
      return Err(ActionUnavailable);
    }
    if !KnownOnly(envelope.references, known) {
      return Err(ReferenceNotRead);
    }
    return Ok((envelope, normalized));
  }

  // ---------- step_schema ----------

  // The part of JSON Schema that step_schema uses. Ends of ranges that it leaves open
  // are None.
  datatype Schema =
    | NullSchema
    | TextSchema(least: nat, most: Option<nat>, hash: bool)
    | OneOf(texts: set<string>)
    | IntegerSchema(low: int, high: int)
    | ListSchema(item: Schema, few: nat, many: Option<nat>)
    | ObjectSchema(properties: map<Key, Schema>, required: set<Key>, closed: bool)
    | AnyOf(left: Schema, right: Schema)
    | AllOf(one: Schema, other: Schema)
    | Anything

  predicate Satisfies(schema: Schema, v: Wire)
    decreases schema
  {
    match schema
    case Anything => true
    case NullSchema => v == Null
    case TextSchema(least, most, hash) => v.Text? && least <= |v.s| && (most.Some? ==> |v.s| <= most.value) && (hash ==> IsHash(v.s))
    case OneOf(texts) => v.Text? && v.s in texts
    case IntegerSchema(low, high) => v.Number? && low <= v.n <= high
    case ListSchema(item, few, many) =>
      v.List? && few <= |v.items| && (many.Some? ==> |v.items| <= many.value)
      && forall i | 0 <= i < |v.items| :: Satisfies(item, v.items[i])
    case ObjectSchema(properties, required, closed) =>
      v.Object? && required <= v.fields.Keys && (closed ==> v.fields.Keys <= properties.Keys)
      && forall k | k in properties && k in v.fields :: Satisfies(properties[k], v.fields[k])
    case AnyOf(left, right) => Satisfies(left, v) || Satisfies(right, v)
    case AllOf(one, other) => Satisfies(one, v) && Satisfies(other, v)
  }

  function Nullable(rule: TextRule): Schema {
    AnyOf(TextSchema(rule.least, Some(rule.most), rule.hash), NullSchema)
  }

  function Members(texts: seq<string>): set<string> {
    set i | 0 <= i < |texts| :: texts[i]
  }

  function ReadProperty(key: Key, names: seq<string>): Schema {
    match key
    case Name => OneOf(Members(names))
    case Path => Nullable(PATH_RULE)
    case Query => Nullable(QUERY_RULE)
    case StartLine => IntegerSchema(1, MAX_LINE)
    case Offset => IntegerSchema(0, MAX_OFFSET)
    case SourceId => Nullable(SOURCE_RULE)
    case _ => Nullable(HASH_RULE)
  }

  function ReadSchema(names: seq<string>): Schema {
    ObjectSchema(map k | k in READ_KEYS :: ReadProperty(k, names), {Name}, true)
  }

  // The reading step allowed or not, and the texts to choose from.
  datatype Phase = Phase(actions: seq<string>, known: set<string>, allowReads: bool)

  function TurnProperty(key: Key, vocabulary: Vocabulary, phase: Phase): Schema {
    match key
    case Reply => TextSchema(if phase.allowReads then 0 else 1, Some(6000), false)
    case Action => OneOf(Members(phase.actions))
    case Reads => ListSchema(ReadSchema(vocabulary.names), 0, Some(if phase.allowReads then 3 else 0))
    case References => if phase.known != {} then ListSchema(OneOf(phase.known), 0, Some(3)) else ListSchema(OneOf(Members(vocabulary.names)), 0, Some(0))
    case _ => AnyOf(OneOf({"observe", "command"}), NullSchema)
  }

  // The envelope's own schema, with the actions, references and limits of the moment.
  function BaseSchema(vocabulary: Vocabulary, phase: Phase, version: Version): Schema {
    ObjectSchema(map k | k in TurnKeys(version) :: TurnProperty(k, vocabulary, phase), TurnKeys(version), true)
  }

  const FINAL_SCHEMA := ObjectSchema(map[Reads := ListSchema(Anything, 0, Some(0)), Reply := TextSchema(1, None, false)], {}, false)
  const READING_SCHEMA := ObjectSchema(
    map[Action := OneOf({"respond"}), Reads := ListSchema(Anything, 1, None), Reply := TextSchema(0, Some(0), false),
        References := ListSchema(Anything, 0, Some(0))], {}, false)

  function StepSchema(vocabulary: Vocabulary, phase: Phase, version: Version): Schema {
    if phase.allowReads then AllOf(BaseSchema(vocabulary, phase, version), AnyOf(FINAL_SCHEMA, READING_SCHEMA))
    else BaseSchema(vocabulary, phase, version)
  }

  // ---------- One read ----------

  predicate PropertyFits(f: map<Key, Wire>, key: Key, schema: Schema) {
    key in f ==> Satisfies(schema, f[key])
  }

  lemma TextFitsIff(f: map<Key, Wire>, key: Key, rule: TextRule)
    ensures TextFits(f, key, rule) <==> PropertyFits(f, key, Nullable(rule))
  {
    if key in f {
      var texts := TextSchema(rule.least, Some(rule.most), rule.hash);
      assert Satisfies(Nullable(rule), f[key]) <==> Satisfies(texts, f[key]) || Satisfies(NullSchema, f[key]);
      assert Satisfies(texts, f[key]) <==> f[key].Text? && TextOk(f[key].s, rule);
    }
  }

  lemma NumberFitsIff(f: map<Key, Wire>, key: Key, default: int, least: int, most: int)
    ensures NumberFits(f, key, default, least, most) <==> PropertyFits(f, key, IntegerSchema(least, most))
  {
  }

  // Field k of a read fits what the schema says of it.
  predicate FieldFits(f: map<Key, Wire>, names: seq<string>, k: Key) {
    PropertyFits(f, k, ReadProperty(k, names))
  }

  lemma FieldOkIff(f: map<Key, Wire>, names: seq<string>, k: Key)
    requires k in READ_KEYS && Name in f
    ensures FieldOk(f, names, k) <==> FieldFits(f, names, k)
  {
    match k
    case Name =>
      if f[Name].Text? {
        MembersIff(names, f[Name].s);
      }
    case Path => TextFitsIff(f, Path, PATH_RULE);
    case Query => TextFitsIff(f, Query, QUERY_RULE);
    case StartLine => NumberFitsIff(f, StartLine, 1, 1, MAX_LINE);
    case Offset => NumberFitsIff(f, Offset, 0, 0, MAX_OFFSET);
    case SourceId => TextFitsIff(f, SourceId, SOURCE_RULE);
    case _ => TextFitsIff(f, k, HASH_RULE);
  }

  lemma ReadFitsIff(f: map<Key, Wire>, names: seq<string>)
    ensures ReadFits(f, names) <==> Name in f && f.Keys <= READ_KEYS && forall k | k in READ_KEYS :: FieldFits(f, names, k)
  {
    if Name in f {
      forall k | k in READ_KEYS ensures FieldOk(f, names, k) <==> FieldFits(f, names, k) {
        FieldOkIff(f, names, k);
      }
    }
  }

  lemma MembersIff(texts: seq<string>, s: string)
    ensures s in Members(texts) <==> s in texts
  {
    if s in texts {
      var i :| 0 <= i < |texts| && texts[i] == s;
    }
  }

  lemma ReadSchemaIs(f: map<Key, Wire>, names: seq<string>)
    ensures Satisfies(ReadSchema(names), Object(f)) <==> Name in f && f.Keys <= READ_KEYS && forall k | k in READ_KEYS :: FieldFits(f, names, k)
  {
    var schema := ReadSchema(names);
    assert schema.properties.Keys == READ_KEYS;
    assert forall k | k in READ_KEYS :: schema.properties[k] == ReadProperty(k, names);
  }

  // A read has the fields of EvidenceRead, without coercion, exactly when it satisfies the
  // advertised schema.
  lemma ReadFieldsIffSchema(v: Wire, names: seq<string>)
    ensures ReadFields(v, names).Some? <==> Satisfies(ReadSchema(names), v)
  {
    if v.Object? {
      ReadFitsIff(v.fields, names);
      ReadSchemaIs(v.fields, names);
    }
  }

  function Optional(t: Option<string>): Wire {
    if t.Some? then Text(t.value) else Null
  }

  function ReadField(key: Key, r: Read): Wire {
    match key
    case Name => Text(r.name)
    case Path => Optional(r.path)
    case Query => Optional(r.query)
    case StartLine => Number(r.startLine)
    case Offset => Number(r.offset)
    case ReferenceId => Optional(r.referenceId)
    case SourceId => Optional(r.sourceId)
    case _ => Optional(r.sourceHash)
  }

  // model_dump
  function DumpRead(r: Read): Wire {
    Object(map k | k in READ_KEYS :: ReadField(k, r))
  }

  predicate OptionOk(t: Option<string>, rule: TextRule) {
    t.Some? ==> TextOk(t.value, rule)
  }

  predicate ReadValid(r: Read, names: seq<string>) {
    r.name in names && OptionOk(r.path, PATH_RULE) && OptionOk(r.query, QUERY_RULE) && 1 <= r.startLine <= MAX_LINE
    && OptionOk(r.referenceId, HASH_RULE) && 0 <= r.offset <= MAX_OFFSET && OptionOk(r.sourceId, SOURCE_RULE) && OptionOk(r.sourceHash, HASH_RULE)
  }

  lemma FieldsValid(v: Wire, names: seq<string>)
    requires ReadFields(v, names).Some?
    ensures ReadValid(ReadFields(v, names).value, names)
  {
  }

  lemma OptionalInverts(f: map<Key, Wire>, k: Key, t: Option<string>, rule: TextRule)
    requires k in f && f[k] == Optional(t) && OptionOk(t, rule)
    ensures OptionalText(f, k, rule) == Some(t)
  {
  }

  lemma DumpFieldOk(r: Read, names: seq<string>, k: Key)
    requires ReadValid(r, names) && k in READ_KEYS
    ensures FieldOk(DumpRead(r).fields, names, k)
  {
    var f := DumpRead(r).fields;
    assert f[k] == ReadField(k, r);
    match k
    case Path => OptionalInverts(f, Path, r.path, PATH_RULE);
    case Query => OptionalInverts(f, Query, r.query, QUERY_RULE);
    case SourceId => OptionalInverts(f, SourceId, r.sourceId, SOURCE_RULE);
    case ReferenceId => OptionalInverts(f, ReferenceId, r.referenceId, HASH_RULE);
    case SourceHash => OptionalInverts(f, SourceHash, r.sourceHash, HASH_RULE);
    case _ =>
  }

  lemma Assembled(f: map<Key, Wire>, r: Read, names: seq<string>)
    requires ReadFits(f, names) && f[Name] == Text(r.name)
    requires OptionalText(f, Path, PATH_RULE) == Some(r.path) && OptionalText(f, Query, QUERY_RULE) == Some(r.query)
    requires OptionalText(f, SourceId, SOURCE_RULE) == Some(r.sourceId) && OptionalText(f, ReferenceId, HASH_RULE) == Some(r.referenceId)
    requires OptionalText(f, SourceHash, HASH_RULE) == Some(r.sourceHash)
    requires Integer(f, StartLine, 1, 1, MAX_LINE) == Some(r.startLine) && Integer(f, Offset, 0, 0, MAX_OFFSET) == Some(r.offset)
    ensures ReadFields(Object(f), names) == Some(r)
  {
  }

  lemma DumpFits(r: Read, names: seq<string>)
    requires ReadValid(r, names)
    ensures ReadFits(DumpRead(r).fields, names)
  {
    assert DumpRead(r).fields.Keys == READ_KEYS;
    forall k | k in READ_KEYS ensures FieldOk(DumpRead(r).fields, names, k) {
      DumpFieldOk(r, names, k);
    }
  }

  // A read comes back from its dump.
  lemma DumpReadInverts(r: Read, names: seq<string>)
    requires ReadValid(r, names)
    ensures ReadFields(DumpRead(r), names) == Some(r)
  {
    DumpFits(r, names);
    var f := DumpRead(r).fields;
    assert f[Path] == ReadField(Path, r) && f[Query] == ReadField(Query, r) && f[SourceId] == ReadField(SourceId, r);
    OptionalInverts(f, Path, r.path, PATH_RULE);
    OptionalInverts(f, Query, r.query, QUERY_RULE);
    OptionalInverts(f, SourceId, r.sourceId, SOURCE_RULE);
    OptionalInverts(f, ReferenceId, r.referenceId, HASH_RULE);
    OptionalInverts(f, SourceHash, r.sourceHash, HASH_RULE);
    Assembled(f, r, names);
  }

  predicate Given(v: Wire, key: Key)
    requires v.Object?
  {
    key in v.fields && v.fields[key] != Null
  }

  // What the schema of a read leaves out.
  predicate WireBound(v: Wire) {
    v.Object? && Name in v.fields && (v.fields[Name] == Text("context_reference") ==> Given(v, ReferenceId))
    && (Given(v, SourceId) <==> Given(v, SourceHash))
  }

  lemma BoundIffWireBound(v: Wire, names: seq<string>)
    requires ReadFields(v, names).Some?
    ensures ReadBound(ReadFields(v, names).value) <==> WireBound(v)
  {
  }

  // ---------- One step ----------

  function DumpReads(rs: seq<Read>): seq<Wire> {
    seq(|rs|, i requires 0 <= i < |rs| => DumpRead(rs[i]))
  }

  function DumpTexts(ts: seq<string>): seq<Wire> {
    seq(|ts|, i requires 0 <= i < |ts| => Text(ts[i]))
  }

  function DumpEffect(e: Option<Purpose>): Wire {
    match e case None => Null case Some(Observe) => Text("observe") case Some(Command) => Text("command")
  }

  function TurnField(key: Key, d: Decision): Wire {
    match key
    case Reply => Text(d.reply)
    case Action => Text(d.action)
    case Reads => List(DumpReads(d.requests))
    case References => List(DumpTexts(d.references))
    case _ => DumpEffect(d.effect)
  }

  function Dump(d: Decision, version: Version): Wire {
    Object(map k | k in TurnKeys(version) :: TurnField(k, d))
  }

  // What validation leaves of a decision.
  predicate WellFormed(d: Decision, version: Version, vocabulary: Vocabulary) {
    |d.reply| <= 6000 && d.action in vocabulary.actions && |d.requests| <= 3 && |d.references| <= 3
    && (forall i | 0 <= i < |d.requests| :: ReadValid(d.requests[i], vocabulary.names) && ReadBound(d.requests[i]))
    && (forall i | 0 <= i < |d.references| :: d.references[i] in vocabulary.names)
    && (version != V4 ==> d.effect.None?)
  }

  lemma EnvelopeWellFormed(v: Wire, version: Version, vocabulary: Vocabulary)
    requires EnvelopeOf(v, version, vocabulary).Some?
    ensures WellFormed(EnvelopeOf(v, version, vocabulary).value, version, vocabulary)
  {
    var items := v.fields[Reads].items;
    var d := EnvelopeOf(v, version, vocabulary).value;
    forall i | 0 <= i < |d.requests| ensures ReadValid(d.requests[i], vocabulary.names) && ReadBound(d.requests[i]) {
      assert ReadOf(items[i], vocabulary.names) == Some(d.requests[i]);
      FieldsValid(items[i], vocabulary.names);
    }
  }

  lemma ReadsInvert(rs: seq<Read>, names: seq<string>)
    requires forall i | 0 <= i < |rs| :: ReadValid(rs[i], names) && ReadBound(rs[i])
    ensures ReadsOf(DumpReads(rs), names) == Some(rs)
  {
    forall i | 0 <= i < |rs| ensures ReadOf(DumpReads(rs)[i], names) == Some(rs[i]) {
      DumpReadInverts(rs[i], names);
    }
    var got := ReadsOf(DumpReads(rs), names);
    assert got.Some?;
    assert got.value == rs;
  }

  lemma NamesInvert(ts: seq<string>, names: seq<string>)
    requires forall i | 0 <= i < |ts| :: ts[i] in names
    ensures NamesOf(DumpTexts(ts), names) == Some(ts)
  {
    var got := NamesOf(DumpTexts(ts), names);
    assert got.Some?;
    assert got.value == ts;
  }

  lemma EnvelopeAssembled(f: map<Key, Wire>, d: Decision, version: Version, vocabulary: Vocabulary)
    requires f.Keys == TurnKeys(version) && f[Reply] == Text(d.reply) && f[Action] == Text(d.action)
    requires f[Reads].List? && ReadsOf(f[Reads].items, vocabulary.names) == Some(d.requests) && |d.requests| <= 3
    requires f[References].List? && NamesOf(f[References].items, vocabulary.names) == Some(d.references) && |d.references| <= 3
    requires EffectOf(f) == Some(d.effect) && |d.reply| <= 6000 && d.action in vocabulary.actions
    ensures EnvelopeOf(Object(f), version, vocabulary) == Some(d)
  {
  }

  lemma EffectInverts(d: Decision, version: Version)
    requires version != V4 ==> d.effect.None?
    ensures EffectOf(Dump(d, version).fields) == Some(d.effect)
  {
    var f := Dump(d, version).fields;
    if version == V4 {
      assert f[Effect] == TurnField(Effect, d);
    }
  }

  lemma DumpInverts(d: Decision, version: Version, vocabulary: Vocabulary)
    requires WellFormed(d, version, vocabulary)
    ensures EnvelopeOf(Dump(d, version), version, vocabulary) == Some(d)
  {
    var f := Dump(d, version).fields;
    assert f.Keys == TurnKeys(version);
    assert f[Reply] == TurnField(Reply, d) && f[Action] == TurnField(Action, d);
    assert f[Reads] == TurnField(Reads, d) && f[References] == TurnField(References, d);
    ReadsInvert(d.requests, vocabulary.names);
    NamesInvert(d.references, vocabulary.names);
    EffectInverts(d, version);
    EnvelopeAssembled(f, d, version, vocabulary);
  }

  lemma AcceptedWellFormed(v: Wire, version: Version, vocabulary: Vocabulary, phase: Phase)
    requires ParseStep(v, version, vocabulary, phase.actions, phase.known, phase.allowReads).Ok?
    ensures var d := ParseStep(v, version, vocabulary, phase.actions, phase.known, phase.allowReads).value.0;
      WellFormed(d, version, vocabulary) && Consistent(d, version) && d.action in phase.actions && KnownOnly(d.references, phase.known)
      && (version != V2 && d.requests != [] ==> phase.allowReads && d.reply == "" && d.references == [])
  {
    EnvelopeWellFormed(Repaired(v, version), version, vocabulary);
  }

  // An accepted decision, sent again, is accepted as it is: nothing more is normalized.
  lemma AcceptedAgain(v: Wire, version: Version, vocabulary: Vocabulary, phase: Phase)
    requires version != V2 && ParseStep(v, version, vocabulary, phase.actions, phase.known, phase.allowReads).Ok?
    ensures var d := ParseStep(v, version, vocabulary, phase.actions, phase.known, phase.allowReads).value.0;
      ParseStep(Dump(d, version), version, vocabulary, phase.actions, phase.known, phase.allowReads) == Ok((d, false))
  {
    AcceptedWellFormed(v, version, vocabulary, phase);
    var d := ParseStep(v, version, vocabulary, phase.actions, phase.known, phase.allowReads).value.0;
    DumpInverts(d, version, vocabulary);
    assert !EmptyTextList(Dump(d, version), version);
  }

  // ---------- A step and its schema ----------

  lemma BaseSchemaIs(f: map<Key, Wire>, vocabulary: Vocabulary, phase: Phase, version: Version)
    ensures Satisfies(BaseSchema(vocabulary, phase, version), Object(f)) <==>
      f.Keys == TurnKeys(version) && forall k | k in TurnKeys(version) :: PropertyFits(f, k, TurnProperty(k, vocabulary, phase))
  {
    var schema := BaseSchema(vocabulary, phase, version);
    assert schema.properties.Keys == TurnKeys(version);
    assert forall k | k in TurnKeys(version) :: schema.properties[k] == TurnProperty(k, vocabulary, phase);
  }

  lemma DumpedReads(rs: seq<Read>, names: seq<string>)
    requires forall i | 0 <= i < |rs| :: ReadValid(rs[i], names)
    ensures forall i | 0 <= i < |rs| :: Satisfies(ReadSchema(names), DumpReads(rs)[i])
  {
    forall i | 0 <= i < |rs| ensures Satisfies(ReadSchema(names), DumpReads(rs)[i]) {
      DumpReadInverts(rs[i], names);
      ReadFieldsIffSchema(DumpRead(rs[i]), names);
    }
  }

  lemma DumpedEffect(e: Option<Purpose>)
    ensures Satisfies(AnyOf(OneOf({"observe", "command"}), NullSchema), DumpEffect(e))
  {
    assert e.Some? ==> Satisfies(OneOf({"observe", "command"}), DumpEffect(e));
    assert e.None? ==> Satisfies(NullSchema, DumpEffect(e));
  }

  lemma DumpedTurnField(d: Decision, version: Version, vocabulary: Vocabulary, phase: Phase, k: Key)
    requires WellFormed(d, version, vocabulary) && d.action in phase.actions && KnownOnly(d.references, phase.known)
    requires k in TurnKeys(version) && (phase.allowReads || d.requests == []) && (phase.allowReads || d.reply != [])
    ensures Satisfies(TurnProperty(k, vocabulary, phase), TurnField(k, d))
  {
    match k
    case Reads => DumpedReads(d.requests, vocabulary.names);
    case References =>
      assert d.references == [] || d.references[0] in phase.known;
    case Action => MembersIff(phase.actions, d.action);
    case Reply =>
    case _ => DumpedEffect(d.effect);
  }

  lemma DumpHasBase(d: Decision, version: Version, vocabulary: Vocabulary, phase: Phase)
    requires WellFormed(d, version, vocabulary) && d.action in phase.actions && KnownOnly(d.references, phase.known)
    requires phase.allowReads || (d.requests == [] && d.reply != [])
    ensures Satisfies(BaseSchema(vocabulary, phase, version), Dump(d, version))
  {
    var f := Dump(d, version).fields;
    assert f.Keys == TurnKeys(version);
    forall k | k in TurnKeys(version) ensures PropertyFits(f, k, TurnProperty(k, vocabulary, phase)) {
      assert f[k] == TurnField(k, d);
      DumpedTurnField(d, version, vocabulary, phase, k);
    }
    BaseSchemaIs(f, vocabulary, phase, version);
  }

  lemma FinalSchemaIs(f: map<Key, Wire>)
    requires Reads in f && Reply in f
    ensures Satisfies(FINAL_SCHEMA, Object(f)) <==> f[Reads] == List([]) && f[Reply].Text? && f[Reply].s != []
  {
    var ps := FINAL_SCHEMA.properties;
    assert ps.Keys == {Reads, Reply};
    assert Satisfies(ps[Reads], f[Reads]) <==> f[Reads] == List([]);
    assert Satisfies(ps[Reply], f[Reply]) <==> f[Reply].Text? && f[Reply].s != [];
  }

  lemma ReadingSchemaIs(f: map<Key, Wire>)
    requires Reads in f && Reply in f && Action in f && References in f
    ensures Satisfies(READING_SCHEMA, Object(f)) <==>
      f[Action] == Text("respond") && f[Reads].List? && f[Reads].items != [] && f[Reply] == Text("") && f[References] == List([])
  {
    var ps := READING_SCHEMA.properties;
    assert ps.Keys == {Action, Reads, Reply, References};
    assert Satisfies(ps[Action], f[Action]) <==> f[Action] == Text("respond");
    assert Satisfies(ps[Reads], f[Reads]) <==> f[Reads].List? && f[Reads].items != [];
    assert Satisfies(ps[Reply], f[Reply]) <==> f[Reply] == Text("");
    assert Satisfies(ps[References], f[References]) <==> f[References] == List([]);
  }

  // What acceptance leaves of a decision, in v3 and v4.
  predicate AcceptedAs(d: Decision, version: Version, vocabulary: Vocabulary, phase: Phase) {
    WellFormed(d, version, vocabulary) && Consistent(d, version) && d.action in phase.actions && KnownOnly(d.references, phase.known)
    && (d.requests != [] ==> phase.allowReads && d.reply == "" && d.references == [])
  }

  lemma FinalShape(d: Decision, version: Version)
    requires d.requests == [] && d.reply != []
    ensures Satisfies(FINAL_SCHEMA, Dump(d, version))
  {
    var f := Dump(d, version).fields;
    assert f[Reads] == TurnField(Reads, d) && f[Reply] == TurnField(Reply, d);
    assert DumpReads(d.requests) == [];
    FinalSchemaIs(f);
  }

  lemma ReadingShape(d: Decision, version: Version)
    requires d.requests != [] && d.reply == "" && d.references == [] && d.action == "respond"
    ensures Satisfies(READING_SCHEMA, Dump(d, version))
  {
    var f := Dump(d, version).fields;
    assert f[Reads] == TurnField(Reads, d) && f[Reply] == TurnField(Reply, d);
    assert f[Action] == TurnField(Action, d) && f[References] == TurnField(References, d);
    ReadingSchemaIs(f);
  }

  lemma StepSchemaIs(v: Wire, vocabulary: Vocabulary, phase: Phase, version: Version)
    requires Satisfies(BaseSchema(vocabulary, phase, version), v)
    requires phase.allowReads ==> Satisfies(FINAL_SCHEMA, v) || Satisfies(READING_SCHEMA, v)
    ensures Satisfies(StepSchema(vocabulary, phase, version), v)
  {
    assert phase.allowReads ==> Satisfies(AnyOf(FINAL_SCHEMA, READING_SCHEMA), v);
  }

  lemma AcceptedShape(d: Decision, version: Version, vocabulary: Vocabulary, phase: Phase)
    requires AcceptedAs(d, version, vocabulary, phase)
    ensures Satisfies(StepSchema(vocabulary, phase, version), Dump(d, version))
  {
    if d.requests == [] {
      assert d.reply != [];
      FinalShape(d, version);
    } else {
      ReadingShape(d, version);
    }
    DumpHasBase(d, version, vocabulary, phase);
    StepSchemaIs(Dump(d, version), vocabulary, phase, version);
  }

  // Every decision that parse_step returns for v3 and v4 has the shape that step_schema
  // advertised for the same actions, known names and read allowance.
  lemma AcceptedHasTheAdvertisedShape(v: Wire, version: Version, vocabulary: Vocabulary, phase: Phase)
    requires version != V2 && ParseStep(v, version, vocabulary, phase.actions, phase.known, phase.allowReads).Ok?
    ensures var d := ParseStep(v, version, vocabulary, phase.actions, phase.known, phase.allowReads).value.0;
      Satisfies(StepSchema(vocabulary, phase, version), Dump(d, version))
  {
    AcceptedWellFormed(v, version, vocabulary, phase);
    AcceptedShape(ParseStep(v, version, vocabulary, phase.actions, phase.known, phase.allowReads).value.0, version, vocabulary, phase);
  }

  // ---------- What the schema cannot say ----------

  // The reply must not be blank, a read must be bound, an observation must respond.
  predicate Sayable(f: map<Key, Wire>, version: Version)
    requires Reply in f && Action in f && Reads in f && f[Reply].Text? && f[Reads].List?
  {
    && (f[Reads].items == [] ==> !Blank(f[Reply].s))
    && (forall i | 0 <= i < |f[Reads].items| :: WireBound(f[Reads].items[i]))
    && (version == V4 && Effect in f && f[Effect] == Text("observe") ==> f[Action] == Text("respond"))
  }

  // What the advertised schema says of the fields of a step.
  predicate Shaped(f: map<Key, Wire>, vocabulary: Vocabulary, phase: Phase, version: Version) {
    && f.Keys == TurnKeys(version) && f[Reply].Text? && |f[Reply].s| <= 6000 && f[Action].Text? && f[Action].s in phase.actions
    && f[Reads].List? && |f[Reads].items| <= 3 && f[References].List? && |f[References].items| <= 3
    && (forall i | 0 <= i < |f[Reads].items| :: ReadFields(f[Reads].items[i], vocabulary.names).Some?)
    && (forall i | 0 <= i < |f[References].items| :: f[References].items[i].Text? && f[References].items[i].s in phase.known)
    && EffectOf(f).Some?
    && (f[Reads].items != [] ==> phase.allowReads && f[Action] == Text("respond") && f[Reply] == Text("") && f[References] == List([]))
  }

  lemma ShapedTexts(f: map<Key, Wire>, vocabulary: Vocabulary, phase: Phase, version: Version)
    requires Satisfies(BaseSchema(vocabulary, phase, version), Object(f))
    ensures f.Keys == TurnKeys(version) && f[Reply].Text? && |f[Reply].s| <= 6000 && f[Action].Text? && f[Action].s in phase.actions
    ensures !phase.allowReads ==> f[Reply].s != []
  {
    BaseSchemaIs(f, vocabulary, phase, version);
    assert PropertyFits(f, Reply, TurnProperty(Reply, vocabulary, phase)) && PropertyFits(f, Action, TurnProperty(Action, vocabulary, phase));
    MembersIff(phase.actions, f[Action].s);
  }

  lemma ShapedRequests(f: map<Key, Wire>, vocabulary: Vocabulary, phase: Phase, version: Version)
    requires Satisfies(BaseSchema(vocabulary, phase, version), Object(f))
    ensures Reads in f && f[Reads].List? && |f[Reads].items| <= (if phase.allowReads then 3 else 0)
    ensures forall i | 0 <= i < |f[Reads].items| :: Satisfies(ReadSchema(vocabulary.names), f[Reads].items[i])
  {
    BaseSchemaIs(f, vocabulary, phase, version);
    assert PropertyFits(f, Reads, TurnProperty(Reads, vocabulary, phase));
  }

  lemma ShapedReferences(f: map<Key, Wire>, vocabulary: Vocabulary, phase: Phase, version: Version)
    requires Satisfies(BaseSchema(vocabulary, phase, version), Object(f))
    ensures References in f && f[References].List? && |f[References].items| <= 3
    ensures forall i | 0 <= i < |f[References].items| :: f[References].items[i].Text? && f[References].items[i].s in phase.known
  {
    BaseSchemaIs(f, vocabulary, phase, version);
    var schema := TurnProperty(References, vocabulary, phase);
    assert PropertyFits(f, References, schema);
    forall i | 0 <= i < |f[References].items| ensures f[References].items[i].Text? && f[References].items[i].s in phase.known {
      assert Satisfies(schema.item, f[References].items[i]);
    }
  }

  lemma EffectSchemaIs(v: Wire)
    requires Satisfies(AnyOf(OneOf({"observe", "command"}), NullSchema), v)
    ensures v == Text("observe") || v == Text("command") || v == Null
  {
    assert Satisfies(OneOf({"observe", "command"}), v) || Satisfies(NullSchema, v);
  }

  lemma ShapedEffect(f: map<Key, Wire>, vocabulary: Vocabulary, phase: Phase, version: Version)
    requires Satisfies(BaseSchema(vocabulary, phase, version), Object(f))
    ensures EffectOf(f).Some?
  {
    BaseSchemaIs(f, vocabulary, phase, version);
    if version == V4 {
      assert Effect in TurnKeys(V4);
      assert PropertyFits(f, Effect, TurnProperty(Effect, vocabulary, phase));
      EffectSchemaIs(f[Effect]);
    }
  }

  lemma SchemaShapes(f: map<Key, Wire>, vocabulary: Vocabulary, phase: Phase, version: Version)
    requires Satisfies(StepSchema(vocabulary, phase, version), Object(f))
    ensures Shaped(f, vocabulary, phase, version)
  {
    ShapedTexts(f, vocabulary, phase, version);
    ShapedRequests(f, vocabulary, phase, version);
    ShapedReferences(f, vocabulary, phase, version);
    ShapedEffect(f, vocabulary, phase, version);
    forall i | 0 <= i < |f[Reads].items| ensures ReadFields(f[Reads].items[i], vocabulary.names).Some? {
      ReadFieldsIffSchema(f[Reads].items[i], vocabulary.names);
    }
    if phase.allowReads {
      FinalSchemaIs(f);
      ReadingSchemaIs(f);
    }
  }

  lemma ShapedReads(items: seq<Wire>, names: seq<string>)
    requires forall i | 0 <= i < |items| :: ReadFields(items[i], names).Some?
    ensures ReadsOf(items, names).Some? <==> forall i | 0 <= i < |items| :: WireBound(items[i])
  {
    forall i | 0 <= i < |items| ensures ReadOf(items[i], names).Some? <==> WireBound(items[i]) {
      BoundIffWireBound(items[i], names);
    }
  }

  // The actions and known names of a step come from the vocabulary.
  predicate Known(vocabulary: Vocabulary, phase: Phase) {
    (forall i | 0 <= i < |phase.actions| :: phase.actions[i] in vocabulary.actions) && forall s | s in phase.known :: s in vocabulary.names
  }

  lemma ShapedEnvelope(f: map<Key, Wire>, vocabulary: Vocabulary, phase: Phase, version: Version)
    requires Shaped(f, vocabulary, phase, version) && Known(vocabulary, phase)
    ensures EnvelopeOf(Object(f), version, vocabulary).Some? <==> forall i | 0 <= i < |f[Reads].items| :: WireBound(f[Reads].items[i])
    ensures EnvelopeOf(Object(f), version, vocabulary).Some? ==> Reflects(EnvelopeOf(Object(f), version, vocabulary).value, f, phase)
  {
    ShapedReads(f[Reads].items, vocabulary.names);
    var references := NamesOf(f[References].items, vocabulary.names);
    assert references.Some?;
    forall i | 0 <= i < |references.value| ensures references.value[i] in phase.known {
      assert f[References].items[i] == Text(references.value[i]);
    }
  }

  // A decision that says what the fields say.
  predicate Reflects(d: Decision, f: map<Key, Wire>, phase: Phase)
    requires {Reply, Action, Reads, References} <= f.Keys && f[Reads].List? && f[References].List? && EffectOf(f).Some?
  {
    f[Reply] == Text(d.reply) && f[Action] == Text(d.action) && |d.requests| == |f[Reads].items|
    && |d.references| == |f[References].items| && KnownOnly(d.references, phase.known) && EffectOf(f) == Some(d.effect)
  }

  lemma ReflectedIsConsistentIff(d: Decision, f: map<Key, Wire>, vocabulary: Vocabulary, phase: Phase, version: Version)
    requires Shaped(f, vocabulary, phase, version) && Reflects(d, f, phase)
    requires forall i | 0 <= i < |f[Reads].items| :: WireBound(f[Reads].items[i])
    ensures Consistent(d, version) <==> Sayable(f, version)
  {
    assert d.requests == [] <==> f[Reads].items == [];
    assert d.references == [] <==> f[References].items == [];
  }

  // An answer of the advertised shape is accepted, as it stands, exactly when it is also
  // sayable: its reply is not blank, its reads are bound, and an observation responds.
  lemma ShapedIsAcceptedIff(f: map<Key, Wire>, version: Version, vocabulary: Vocabulary, phase: Phase)
    requires version != V2 && Known(vocabulary, phase) && Satisfies(StepSchema(vocabulary, phase, version), Object(f))
    ensures Shaped(f, vocabulary, phase, version)
    ensures var r := ParseStep(Object(f), version, vocabulary, phase.actions, phase.known, phase.allowReads);
      (r.Ok? <==> Sayable(f, version)) && (r.Ok? ==> !r.value.1 && EnvelopeOf(Object(f), version, vocabulary) == Some(r.value.0))
  {
    SchemaShapes(f, vocabulary, phase, version);
    ShapedEnvelope(f, vocabulary, phase, version);
    assert !EmptyTextList(Object(f), version);
    var e := EnvelopeOf(Object(f), version, vocabulary);
    if e.Some? {
      ReflectedIsConsistentIff(e.value, f, vocabulary, phase, version);
      StepOfShaped(e.value, f, vocabulary, phase, version);
    }
  }

  lemma StepOfShaped(d: Decision, f: map<Key, Wire>, vocabulary: Vocabulary, phase: Phase, version: Version)
    requires version != V2 && Shaped(f, vocabulary, phase, version) && Reflects(d, f, phase)
    requires EnvelopeOf(Object(f), version, vocabulary) == Some(d) && !EmptyTextList(Object(f), version)
    ensures ParseStep(Object(f), version, vocabulary, phase.actions, phase.known, phase.allowReads)
         == if Consistent(d, version) then Ok((d, false)) else Err(Invalid)
  {
    assert d.requests == [] <==> f[Reads].items == [];
    assert d.references == [] <==> f[References].items == [];
    if d.requests != [] {
      assert d.(reply := "", references := []) == d;
    }
  }
}
