// app/coding.py and app/proposal_validation.py: one proposal round from the model's raw
// operations to the validated change set, and any number of rounds in a row.
module RepairRounds {
  import opened Prelude
  import opened Ordering
  import opened Dict
  import opened ChangeSets
  import Text
  import TextEdits
  import Utf8

  const MAX_RAW_OPERATIONS := 64

  datatype Kind = EditKind | WriteKind | AppendKind | DeleteKind

  // A raw operation. None is an absent or null field; `badField` is an unknown field
  // or a known one of the wrong type.
  datatype RawOp = RawOp(
    path: string, kind: Kind, prior: Option<string>, content: Option<string>,
    executable: Option<bool>, edits: Option<seq<TextEdits.Edit>>, badField: bool)

  datatype ProposalError =
    | StructureInvalid | ScopeInvalid | HashMismatch
    | EditRefused(edit: TextEdits.EditError)
    | RepairRefused(repair: RepairError)
    | ChangeSetRefused

  // ---------- Path normalisation ----------

  // path.strip().lstrip("./").lstrip("/"): lstrip removes any leading run of the
  // given characters, so a leading dot goes as well.
  function Norm(p: string): string {
    Text.StripLeft(Text.StripLeft(Text.Strip(p), IsDotOrSlash), IsSlash)
  }

  predicate IsDotOrSlash(c: char) { c == '.' || c == '/' }
  predicate IsSlash(c: char) { c == '/' }

  predicate Stable(p: string) {
    p == [] || (!Text.IsSpace(p[0]) && !IsDotOrSlash(p[0]) && !Text.IsSpace(p[|p| - 1]))
  }

  lemma NormFixes(p: string)
    ensures Norm(p) == p <==> Stable(p)
    ensures |Norm(p)| <= |p| && (|Norm(p)| == |p| ==> Norm(p) == p)
  {
    var a := Text.Strip(p);
    var b := Text.StripLeft(a, IsDotOrSlash);
    Text.StripFixes(p);
    Text.StripLeftShorter(p, Text.IsSpace);
    Text.StripRightShorter(Text.StripLeft(p, Text.IsSpace), Text.IsSpace);
    Text.StripLeftShorter(a, IsDotOrSlash);
    Text.StripLeftShorter(b, IsSlash);
  }

  // {norm(entry.path): entry}: on a collision the later entry wins.
  function ByNorm(entries: seq<Entry>): Dict<Entry> {
    if entries == [] then []
    else Put(ByNorm(entries[..|entries| - 1]), Norm(entries[|entries| - 1].path), entries[|entries| - 1])
  }

  // ---------- check_proposal_structure ----------

  function CheckOne(entries: Dict<Entry>, seen: set<string>, raw: RawOp, allowed: set<string>): Option<ProposalError> {
    var entry := Get(entries, raw.path);
    if raw.path !in allowed || entry.None? then Some(ScopeInvalid)
    else if raw.path in seen then Some(StructureInvalid)
    else if raw.badField then Some(StructureInvalid)
    else if raw.prior != entry.value.Prior() then Some(HashMismatch)
    else if raw.kind == WriteKind && (raw.content.None? || raw.edits.Some?) then Some(StructureInvalid)
    else if raw.kind == DeleteKind && (raw.content.Some? || raw.edits.Some? || raw.executable.Some?) then Some(StructureInvalid)
    else if raw.kind == AppendKind
         && (entry.value.Missing? || raw.content.None? || raw.content.value == [] || raw.executable.Some?) then Some(StructureInvalid)
    else None
  }

  function CheckFrom(entries: Dict<Entry>, seen: set<string>, raws: seq<RawOp>, allowed: set<string>): Option<ProposalError>
    decreases |raws|
  {
    if raws == [] then None
    else
      var fault := CheckOne(entries, seen, raws[0], allowed);
      if fault.Some? then fault else CheckFrom(entries, seen + {raws[0].path}, raws[1..], allowed)
  }

  function Checked(view: Context, raws: seq<RawOp>, allowed: set<string>): Option<ProposalError> {
    if !(1 <= |raws| <= MAX_RAW_OPERATIONS) then Some(StructureInvalid)
    else CheckFrom(EntriesDict(view.entries), {}, raws, allowed)
  }

  // ---------- _parse_change_set_proposal ----------

  // The text an append or edit operation starts from, or ends with.
  function Edited(content: string, edits: Option<seq<TextEdits.Edit>>): Result<string, ProposalError> {
    match TextEdits.Applied(content, edits)
    case Ok(t) => Ok(t)
    case Err(e) => Err(EditRefused(e))
  }

  function ParseOne(entries: Dict<Entry>, raw: RawOp, strict: bool): Result<Op, ProposalError> {
    var path := Norm(raw.path);
    var entry: Option<Entry> := Get(entries, path);
    if path == [] then Err(StructureInvalid)
    else if strict && (path != raw.path || entry.None? || raw.prior != entry.value.Prior()) then Err(StructureInvalid)
    else match raw.kind
      case AppendKind =>
        if path != raw.path || entry.None? || entry.value.Missing? || raw.prior != entry.value.Prior()
           || raw.content.None? || raw.content.value == [] || raw.executable.Some? then Err(StructureInvalid)
        else
          var start :- if raw.edits.None? then Ok(entry.value.content) else Edited(entry.value.content, raw.edits);
          var content := start + raw.content.value;
          if Utf8.ByteLen(content) > MAX_CHANGE_FILE_BYTES then Err(StructureInvalid)
          else Ok(Write(path, entry.value.Prior(), content, entry.value.executable))
      case EditKind =>
        if path != raw.path || entry.None? || entry.value.Missing? || raw.prior != entry.value.Prior()
           || raw.content.Some? then Err(StructureInvalid)
        else
          var content :- Edited(entry.value.content, raw.edits);
          Ok(Write(path, entry.value.Prior(), content, entry.value.executable))
      case DeleteKind =>
        var prior := if entry.Some? then entry.value.Prior() else raw.prior;
        if prior.None? then Err(StructureInvalid) else Ok(Delete(path, prior.value))
      case WriteKind =>
        var content := if raw.content.Some? then raw.content.value else [];
        if Utf8.ByteLen(content) > MAX_CHANGE_FILE_BYTES then Err(StructureInvalid)
        else Ok(Write(path, if entry.Some? then entry.value.Prior() else raw.prior,
                      content, raw.executable == Some(true)))
  }

  function ParseFrom(entries: Dict<Entry>, seen: set<string>, raws: seq<RawOp>, strict: bool): Result<seq<Op>, ProposalError>
    decreases |raws|
  {
    if raws == [] then Ok([])
    else if Norm(raws[0].path) in seen then Err(StructureInvalid)
    else
      var op :- ParseOne(entries, raws[0], strict);
      var rest :- ParseFrom(entries, seen + {Norm(raws[0].path)}, raws[1..], strict);
      Ok([op] + rest)
  }

  function Parsed(view: Context, raws: seq<RawOp>, strict: bool): Result<seq<Op>, ProposalError> {
    ParseFrom(ByNorm(view.entries), {}, raws, strict)
  }

  function Prefixed(ops: seq<Op>, r: Result<seq<Op>, ProposalError>): Result<seq<Op>, ProposalError> {
    match r case Ok(rest) => Ok(ops + rest) case Err(e) => Err(e)
  }

  lemma PrefixedSteps(ops: seq<Op>, op: Op, r: Result<seq<Op>, ProposalError>)
    ensures Prefixed([], r) == r
    ensures Prefixed(ops, Prefixed([op], r)) == Prefixed(ops + [op], r)
  {
    if r.Ok? {
      assert [] + r.value == r.value;
      assert ops + ([op] + r.value) == ops + [op] + r.value;
    }
  }

  method ParseChangeSetProposal(view: Context, raws: seq<RawOp>, strict: bool) returns (r: Result<seq<Op>, ProposalError>)
    ensures r == Parsed(view, raws, strict)
  {
    var entries := ByNorm(view.entries);
    var ops: seq<Op>, seen: set<string> := [], {};
    ghost var whole := ParseFrom(entries, {}, raws, strict);
    assert raws[0..] == raws;
    PrefixedSteps([], Delete([], []), whole);
    for k := 0 to |raws|
      invariant whole == Prefixed(ops, ParseFrom(entries, seen, raws[k..], strict))
    {
      var raw := raws[k];
      assert raws[k..][0] == raw && raws[k..][1..] == raws[k + 1..];
      var path := Norm(raw.path);
      if path in seen {
        return Err(StructureInvalid);
      }
      var op := ParseOne(entries, raw, strict);
      if op.Err? {
        return Err(op.error);
      }
      PrefixedSteps(ops, op.value, ParseFrom(entries, seen + {path}, raws[k + 1..], strict));
      ops, seen := ops + [op.value], seen + {path};
    }
    PrefixedSteps(ops, Delete([], []), whole);
    assert ops + [] == ops;
    return Ok(ops);
  }

  // An append keeps the file's text, edited or not, as a prefix, and its mode.
  lemma AppendKeepsPrefix(entries: Dict<Entry>, raw: RawOp, strict: bool)
    requires raw.kind == AppendKind && ParseOne(entries, raw, strict).Ok?
    ensures var op := ParseOne(entries, raw, strict).value;
      && op.Write? && Get(entries, raw.path).Some? && Get(entries, raw.path).value.Present?
      && var old_ := Get(entries, raw.path).value;
      && op.executable == old_.executable
      && (raw.edits.None? ==> old_.content < op.content)
      && (raw.edits.Some? ==> TextEdits.Applied(old_.content, raw.edits).Ok?
                              && TextEdits.Applied(old_.content, raw.edits).value < op.content)
      && Utf8.ByteLen(op.content) <= MAX_CHANGE_FILE_BYTES
  {
  }

  // ---------- _validate_proposed_operations ----------

  function ValidateOne(entries: Dict<Entry>, op: Op, allowed: set<string>): Result<Op, ProposalError> {
    var path := Norm(op.path);
    var entry: Option<Entry> := Get(entries, path);
    if !(exists p | p in allowed :: Norm(p) == path) || entry.None? then Err(ScopeInvalid)
    else match op
      case Write(_, _, content, executable) => Ok(Write(path, entry.value.Prior(), content, executable))
      case Delete(_, _) =>
        if entry.value.Missing? then Err(StructureInvalid) else Ok(Delete(path, entry.value.hash))
  }

  function ValidateAll(entries: Dict<Entry>, ops: seq<Op>, allowed: set<string>): Result<seq<Op>, ProposalError>
    decreases |ops|
  {
    if ops == [] then Ok([])
    else
      var op :- ValidateOne(entries, ops[0], allowed);
      var rest :- ValidateAll(entries, ops[1..], allowed);
      Ok([op] + rest)
  }

  // ---------- One round ----------

  function ViewOf(env: Env, base: Context, previous: Option<ChangeSet>, allowed: set<string>): Result<Context, ProposalError> {
    match Repaired(env, base, previous, allowed)
    case Ok(view) => Ok(view)
    case Err(e) => Err(RepairRefused(e))
  }

  // The round's edits against its view.
  function RoundEdits(env: Env, base: Context, previous: Option<ChangeSet>, raws: seq<RawOp>, allowed: set<string>): Result<seq<Op>, ProposalError> {
    var view :- ViewOf(env, base, previous, allowed);
    var fault := Checked(view, raws, allowed);
    if fault.Some? then Err(fault.value) else Parsed(view, raws, previous.Some?)
  }

  function Round(env: Env, base: Context, previous: Option<ChangeSet>, raws: seq<RawOp>, allowed: set<string>): Result<ChangeSet, ProposalError> {
    var view :- ViewOf(env, base, previous, allowed);
    var edits :- RoundEdits(env, base, previous, raws, allowed);
    match Cumulative(base, view, previous, edits, allowed)
    case Err(e) => Err(RepairRefused(e))
    case Ok(ops) =>
      if !ChangeSetOk(env, ops) then Err(ChangeSetRefused)
      else
        var valid :- ValidateAll(ByNorm(base.entries), ops, allowed);
        if !ChangeSetOk(env, valid) then Err(ChangeSetRefused) else Ok(ChangeSet(base.plan, valid))
  }

  // ---------- Closure: the result of a round is an input of the next ----------

  // A change set that repair_context matches against the base.
  ghost predicate OpsFit(base: Dict<Entry>, ops: seq<Op>, allowed: set<string>) {
    DistinctPaths(ops) && forall op | op in ops :: OpFits(base, op, allowed)
  }

  // On an allowed path, expecting what the base has there; so a delete hits a base file.
  predicate OpFits(base: Dict<Entry>, op: Op, allowed: set<string>) {
    op.path in allowed && Get(base, op.path).Some? && op.Expected() == Get(base, op.path).value.Prior()
  }

  predicate SortedOps(ops: seq<Op>) {
    forall i, j :: 0 <= i < j < |ops| ==> Less(ops[i].path, ops[j].path)
  }

  // A path on which validation and the next view agree: it is allowed and listed, and no
  // entry of other contents comes under it when paths are normalised.
  predicate Lands(entries: seq<Entry>, allowed: set<string>, p: string) {
    p in allowed && PriorIn(EntriesDict(entries), p).Some? && PriorIn(ByNorm(entries), p) == PriorIn(EntriesDict(entries), p)
  }

  function PriorIn(d: Dict<Entry>, p: string): Option<Option<string>> {
    var entry: Option<Entry> := Get(d, p);
    match entry case Some(e) => Some(e.Prior()) case None => None
  }

  // It also comes out of normalisation as it is.
  predicate Steady(entries: seq<Entry>, allowed: set<string>, p: string) {
    Stable(p) && Lands(entries, allowed, p)
  }

  // Every path that a round asks for is steady once it is normalised.
  predicate SteadyRound(entries: seq<Entry>, allowed: set<string>, raws: seq<RawOp>) {
    forall i | 0 <= i < |raws| :: Steady(entries, allowed, Norm(raws[i].path))
  }

  predicate SteadyOps(entries: seq<Entry>, allowed: set<string>, ops: seq<Op>) {
    forall i | 0 <= i < |ops| :: Steady(entries, allowed, ops[i].path)
  }

  // The base with the operations' files in place: what the next view must hold.
  function After(env: Env, entries: seq<Entry>, ops: seq<Op>): (r: seq<Entry>)
    ensures |r| == |entries|
  {
    seq(|entries|, i requires 0 <= i < |entries| => AfterEntry(env, entries[i], ops))
  }

  function AfterEntry(env: Env, e: Entry, ops: seq<Op>): Entry {
    match OpOn(ops, e.path) case None => e case Some(op) => EntryAfter(env, op)
  }

  function OpOn(ops: seq<Op>, p: string): (r: Option<Op>)
    ensures r.Some? ==> r.value in ops && r.value.path == p
  {
    if ops == [] then None else if ops[0].path == p then Some(ops[0]) else OpOn(ops[1..], p)
  }

  // The limits a context imposes that a change set does not: files of at most 700 kB
  // (change sets allow 1 MB), and the context's own size and scan.
  predicate FitsContextLimits(env: Env, entries: seq<Entry>, ops: seq<Op>) {
    && FilesFit(ops)
    && env.contextBytes(After(env, entries, ops)) <= MAX_CODING_CONTEXT_BYTES
    && !env.sensitiveContext(After(env, entries, ops))
  }

  lemma EntriesDistinct(entries: seq<Entry>)
    requires SortedPaths(entries)
    ensures DistinctKeys(EntriesDict(entries))
  {
    assert SortedKeys(EntriesDict(entries));
    SortedDistinct(EntriesDict(entries));
  }

  lemma FittingAfterOne(env: Env, d: Dict<Entry>, ops: seq<Op>, allowed: set<string>)
    requires ops != [] && OpsFit(d, ops, allowed)
    ensures OpsFit(Put(d, ops[0].path, EntryAfter(env, ops[0])), ops[1..], allowed)
  {
    var op := ops[0];
    forall o | o in ops[1..] ensures OpFits(Put(d, op.path, EntryAfter(env, op)), o, allowed) {
      assert o in ops;
      PutGet(d, op.path, EntryAfter(env, op), o.path);
    }
  }

  predicate FilesFit(ops: seq<Op>) {
    forall op | op in ops && op.Write? :: Utf8.ByteLen(op.content) <= MAX_CODING_FILE_BYTES
  }

  // Overlaying fitting operations fails on an oversized file only.
  lemma {:induction false} OverlayFailsOnSize(env: Env, d: Dict<Entry>, ops: seq<Op>, allowed: set<string>)
    requires OpsFit(d, ops, allowed)
    ensures Overlaid(env, d, ops, allowed).Ok? <==> FilesFit(ops)
    ensures Overlaid(env, d, ops, allowed).Err? ==> Overlaid(env, d, ops, allowed).error == FileTooLarge
    decreases |ops|
  {
    if ops != [] {
      var op := ops[0];
      assert op in ops && ops == [op] + ops[1..];
      assert OpFits(d, op, allowed);
      if OverlayOp(env, d, op, allowed).Ok? {
        FittingAfterOne(env, d, ops, allowed);
        OverlayFailsOnSize(env, Put(d, op.path, EntryAfter(env, op)), ops[1..], allowed);
      }
    }
  }

  // It leaves, under every key, the entry of the operation on it.
  lemma {:induction false} OverlayLeaves(env: Env, d: Dict<Entry>, ops: seq<Op>, allowed: set<string>, p: string)
    requires OpsFit(d, ops, allowed) && Overlaid(env, d, ops, allowed).Ok?
    ensures Get(Overlaid(env, d, ops, allowed).value, p) == match OpOn(ops, p)
      case Some(op) => Some(EntryAfter(env, op))
      case None => Get(d, p)
    decreases |ops|
  {
    if ops != [] {
      var op := ops[0];
      FittingAfterOne(env, d, ops, allowed);
      OverlayLeaves(env, Put(d, op.path, EntryAfter(env, op)), ops[1..], allowed, p);
      PutGet(d, op.path, EntryAfter(env, op), p);
      assert OpOn(ops[1..], op.path) == None;
    }
  }

  // The overlaid dict lists exactly the base entries with the operations' files in place.
  lemma OverlayIsAfter(env: Env, entries: seq<Entry>, ops: seq<Op>, allowed: set<string>)
    requires SortedPaths(entries) && OpsFit(EntriesDict(entries), ops, allowed)
    requires Overlaid(env, EntriesDict(entries), ops, allowed).Ok?
    ensures Values(Overlaid(env, EntriesDict(entries), ops, allowed).value) == After(env, entries, ops)
  {
    var d := EntriesDict(entries);
    var d' := Overlaid(env, d, ops, allowed).value;
    OverlayKeyed(env, d, ops, allowed);
    EntriesDistinct(entries);
    forall i | 0 <= i < |entries| ensures d'[i].1 == AfterEntry(env, entries[i], ops) {
      OverlayLeaves(env, d, ops, allowed, entries[i].path);
      GetAt(d, i);
      GetAt(d', i);
    }
  }

  lemma AfterIsContext(env: Env, entries: seq<Entry>, ops: seq<Op>)
    requires ContextOk(env, entries) && DistinctPaths(ops) && FitsContextLimits(env, entries, ops)
    ensures ContextOk(env, After(env, entries, ops))
  {
    var after := After(env, entries, ops);
    forall i | 0 <= i < |after| ensures after[i].path == entries[i].path && EntryOk(env, after[i]) {
      assert entries[i] in entries;
    }
  }

  // An overlay that succeeds matched every operation against the base.
  lemma {:induction false} OverlayMatched(env: Env, d: Dict<Entry>, ops: seq<Op>, allowed: set<string>)
    requires DistinctPaths(ops) && Overlaid(env, d, ops, allowed).Ok?
    ensures OpsFit(d, ops, allowed)
    decreases |ops|
  {
    if ops != [] {
      var next := Put(d, ops[0].path, EntryAfter(env, ops[0]));
      OverlayMatched(env, next, ops[1..], allowed);
      assert ops == [ops[0]] + ops[1..];
      forall op | op in ops ensures OpFits(d, op, allowed) {
        if op in ops[1..] {
          var i :| 0 <= i < |ops[1..]| && ops[1..][i] == op;
          assert ops[i + 1] == op && ops[0].path != op.path;
          PutGet(d, ops[0].path, EntryAfter(env, ops[0]), op.path);
          assert OpFits(next, op, allowed);
        }
      }
    }
  }

  // Exactly when repair_context accepts a change set: when it fits the base, and its
  // files and the resulting view are within the limits of a context.
  lemma RepairAcceptsExactly(env: Env, base: Context, ops: seq<Op>, allowed: set<string>)
    requires ContextOk(env, base.entries) && DistinctPaths(ops)
    ensures Repaired(env, base, Some(ChangeSet(base.plan, ops)), allowed).Ok? <==>
      OpsFit(EntriesDict(base.entries), ops, allowed) && FitsContextLimits(env, base.entries, ops)
    ensures Repaired(env, base, Some(ChangeSet(base.plan, ops)), allowed).Ok? ==>
      Repaired(env, base, Some(ChangeSet(base.plan, ops)), allowed).value.entries == After(env, base.entries, ops)
  {
    var d := EntriesDict(base.entries);
    if Overlaid(env, d, ops, allowed).Ok? {
      OverlayMatched(env, d, ops, allowed);
    }
    if OpsFit(d, ops, allowed) {
      OverlayFailsOnSize(env, d, ops, allowed);
      if Overlaid(env, d, ops, allowed).Ok? {
        OverlayIsAfter(env, base.entries, ops, allowed);
        if FitsContextLimits(env, base.entries, ops) {
          AfterIsContext(env, base.entries, ops);
        }
      }
    }
  }

  // ---------- Rounds produce fitting change sets ----------

  // The checks' record of one operation.
  lemma {:induction false} CheckedOps(entries: Dict<Entry>, seen: set<string>, raws: seq<RawOp>, allowed: set<string>)
    requires CheckFrom(entries, seen, raws, allowed) == None
    ensures forall r | r in raws :: r.path in allowed && Get(entries, r.path).Some? && r.prior == Get(entries, r.path).value.Prior()
    ensures forall r | r in raws :: r.path !in seen
    ensures forall i, j | 0 <= i < j < |raws| :: raws[i].path != raws[j].path
    decreases |raws|
  {
    if raws != [] {
      CheckedOps(entries, seen + {raws[0].path}, raws[1..], allowed);
      assert raws == [raws[0]] + raws[1..];
      forall j | 0 < j < |raws| ensures raws[0].path != raws[j].path {
        assert raws[j] in raws[1..];
      }
    }
  }

  lemma ParseOnePath(entries: Dict<Entry>, raw: RawOp, strict: bool)
    requires ParseOne(entries, raw, strict).Ok?
    ensures var op := ParseOne(entries, raw, strict).value;
      op.path == Norm(raw.path)
      && (Get(entries, op.path).Some? ==> op.Expected() == Get(entries, op.path).value.Prior())
  {
  }

  lemma {:induction false} ParsedEach(entries: Dict<Entry>, seen: set<string>, raws: seq<RawOp>, strict: bool)
    requires ParseFrom(entries, seen, raws, strict).Ok?
    ensures var ops := ParseFrom(entries, seen, raws, strict).value;
      |ops| == |raws| && forall i | 0 <= i < |ops| :: ParseOne(entries, raws[i], strict) == Ok(ops[i])
    decreases |raws|
  {
    if raws != [] {
      ParsedEach(entries, seen + {Norm(raws[0].path)}, raws[1..], strict);
    }
  }

  // The first round's edits: the requested paths, normalised, with the hashes that the
  // base has under them.
  lemma FirstEdits(env: Env, base: Context, raws: seq<RawOp>, allowed: set<string>)
    requires RoundEdits(env, base, None, raws, allowed).Ok?
    ensures var edits := RoundEdits(env, base, None, raws, allowed).value;
      |edits| == |raws| && forall i | 0 <= i < |raws| ::
        edits[i].path == Norm(raws[i].path)
        && (PriorIn(ByNorm(base.entries), edits[i].path).Some? ==> PriorIn(ByNorm(base.entries), edits[i].path) == Some(edits[i].Expected()))
  {
    var entries := ByNorm(base.entries);
    var edits := RoundEdits(env, base, None, raws, allowed).value;
    ParsedEach(entries, {}, raws, false);
    forall i | 0 <= i < |raws|
      ensures edits[i].path == Norm(raws[i].path) && (PriorIn(entries, edits[i].path).Some? ==> PriorIn(entries, edits[i].path) == Some(edits[i].Expected()))
    {
      assert ParseOne(entries, raws[i], false) == Ok(edits[i]);
      ParseOnePath(entries, raws[i], false);
    }
  }

  ghost predicate DictFits(base: Dict<Entry>, d: Dict<Op>, allowed: set<string>) {
    Keyed(d) && forall m | m in d :: OpFits(base, m.1, allowed)
  }

  lemma PutFits(base: Dict<Entry>, d: Dict<Op>, op: Op, allowed: set<string>)
    requires DictFits(base, d, allowed) && OpFits(base, op, allowed)
    ensures DictFits(base, Put(d, op.path, op), allowed)
  {
    PutKeyed(d, op);
    var e := Put(d, op.path, op);
    forall m | m in e ensures OpFits(base, m.1, allowed) {
      var i :| 0 <= i < |e| && e[i] == m;
      GetAt(e, i);
      PutGet(d, op.path, op, m.0);
    }
  }

  lemma PopFits(base: Dict<Entry>, d: Dict<Op>, k: string, allowed: set<string>)
    requires DictFits(base, d, allowed)
    ensures DictFits(base, Pop(d, k), allowed)
  {
    PopKeyed(d, k);
    var e := Pop(d, k);
    forall m | m in e ensures OpFits(base, m.1, allowed) {
      var i :| 0 <= i < |e| && e[i] == m;
      GetAt(e, i);
      PopGet(d, k, m.0);
    }
  }

  lemma {:induction false} RebaseFits(base: Dict<Entry>, view: Dict<Entry>, d: Dict<Op>, ops: seq<Op>, allowed: set<string>)
    requires DictFits(base, d, allowed) && RebaseAll(base, view, d, ops, allowed).Ok?
    ensures DictFits(base, RebaseAll(base, view, d, ops, allowed).value, allowed)
    decreases |ops|
  {
    if ops != [] {
      var op := ops[0];
      var original := Get(base, op.path).value;
      if op.Delete? && original.Missing? {
        PopFits(base, d, op.path, allowed);
      } else {
        PutFits(base, d, Rehashed(op, original.Prior()), allowed);
      }
      RebaseFits(base, view, RebaseOp(base, view, d, op, allowed).value, ops[1..], allowed);
    }
  }

  lemma {:induction false} OpsDictFits(base: Dict<Entry>, ops: seq<Op>, allowed: set<string>)
    requires forall op | op in ops :: OpFits(base, op, allowed)
    ensures DictFits(base, OpsDict(ops), allowed)
  {
    if ops != [] {
      var init, last := ops[..|ops| - 1], ops[|ops| - 1];
      assert last in ops && forall op | op in init :: op in ops;
      OpsDictFits(base, init, allowed);
      PutFits(base, OpsDict(init), last, allowed);
    }
  }

  // A cumulative set fits the base, sorted by path.
  lemma CumulativeFits(base: Context, view: Context, previous: ChangeSet, ops: seq<Op>, allowed: set<string>)
    requires OpsFit(EntriesDict(base.entries), previous.ops, allowed)
    requires Cumulative(base, view, Some(previous), ops, allowed).Ok?
    ensures var cumulative := Cumulative(base, view, Some(previous), ops, allowed).value;
      OpsFit(EntriesDict(base.entries), cumulative, allowed) && SortedOps(cumulative)
  {
    var b := EntriesDict(base.entries);
    OpsDictFits(b, previous.ops, allowed);
    RebaseFits(b, EntriesDict(view.entries), OpsDict(previous.ops), ops, allowed);
    var d := RebaseAll(b, EntriesDict(view.entries), OpsDict(previous.ops), ops, allowed).value;
    SortSorts(d);
    var s := Sort(d);
    forall i | 0 <= i < |s| ensures s[i].0 == s[i].1.path && OpFits(b, s[i].1, allowed) {
      assert s[i] in s;
      SortMember(d, s[i]);
    }
    SortedDistinct(s);
  }

  // What validation makes of an operation: its normalised path, with the hash that the
  // base has under it.
  lemma {:induction false} Validated(entries: Dict<Entry>, ops: seq<Op>, allowed: set<string>)
    requires ValidateAll(entries, ops, allowed).Ok?
    ensures var r := ValidateAll(entries, ops, allowed).value;
      |r| == |ops| && forall i | 0 <= i < |r| :: r[i].path == Norm(ops[i].path) && PriorIn(entries, r[i].path) == Some(r[i].Expected())
    decreases |ops|
  {
    if ops != [] {
      Validated(entries, ops[1..], allowed);
    }
  }

  // It leaves alone what is on steady paths and expects what the base has.
  lemma {:induction false} SteadyOpsValid(base: seq<Entry>, ops: seq<Op>, allowed: set<string>)
    requires SteadyOps(base, allowed, ops) && ValidateAll(ByNorm(base), ops, allowed).Ok?
    requires forall i | 0 <= i < |ops| :: PriorIn(EntriesDict(base), ops[i].path) == Some(ops[i].Expected())
    ensures ValidateAll(ByNorm(base), ops, allowed) == Ok(ops)
    decreases |ops|
  {
    if ops != [] {
      NormFixes(ops[0].path);
      assert Steady(base, allowed, ops[0].path);
      SteadyOpsValid(base, ops[1..], allowed);
      assert ops == [ops[0]] + ops[1..];
    }
  }

  lemma FitsIsPrior(base: seq<Entry>, op: Op, allowed: set<string>)
    ensures OpFits(EntriesDict(base), op, allowed) <==> op.path in allowed && PriorIn(EntriesDict(base), op.path) == Some(op.Expected())
  {
  }

  // An accepted round's set is made of normalised paths and the base's hashes under them.
  lemma RoundIsValidated(env: Env, base: Context, previous: Option<ChangeSet>, raws: seq<RawOp>, allowed: set<string>)
    requires Round(env, base, previous, raws, allowed).Ok?
    ensures var cs := Round(env, base, previous, raws, allowed).value;
      var edits := RoundEdits(env, base, previous, raws, allowed).value;
      var ops := Cumulative(base, ViewOf(env, base, previous, allowed).value, previous, edits, allowed).value;
      && ViewOf(env, base, previous, allowed).Ok? && RoundEdits(env, base, previous, raws, allowed).Ok?
      && Cumulative(base, ViewOf(env, base, previous, allowed).value, previous, edits, allowed).Ok?
      && ValidateAll(ByNorm(base.entries), ops, allowed) == Ok(cs.ops) && ChangeSetOk(env, cs.ops) && cs.plan == base.plan
      && |cs.ops| == |ops| && forall i | 0 <= i < |ops| ::
        cs.ops[i].path == Norm(ops[i].path)
        && PriorIn(ByNorm(base.entries), cs.ops[i].path) == Some(cs.ops[i].Expected())
  {
    var edits := RoundEdits(env, base, previous, raws, allowed).value;
    var ops := Cumulative(base, ViewOf(env, base, previous, allowed).value, previous, edits, allowed).value;
    Validated(ByNorm(base.entries), ops, allowed);
  }

  // ---------- When the next view opens ----------

  // After any accepted round, the next repair_context accepts its set exactly when every
  // path of the set is one on which validation and the view agree, and the files and the
  // view are within the limits of a context.
  lemma NextViewOpens(env: Env, base: Context, previous: Option<ChangeSet>, raws: seq<RawOp>, allowed: set<string>)
    requires ContextOk(env, base.entries) && Round(env, base, previous, raws, allowed).Ok?
    ensures var cs := Round(env, base, previous, raws, allowed).value;
      ViewOf(env, base, Some(cs), allowed).Ok? <==>
        (forall i | 0 <= i < |cs.ops| :: Lands(base.entries, allowed, cs.ops[i].path)) && FitsContextLimits(env, base.entries, cs.ops)
  {
    RoundIsValidated(env, base, previous, raws, allowed);
    var cs := Round(env, base, previous, raws, allowed).value;
    RepairAcceptsExactly(env, base, cs.ops, allowed);
    var d := EntriesDict(base.entries);
    forall i | 0 <= i < |cs.ops| ensures OpFits(d, cs.ops[i], allowed) <==> Lands(base.entries, allowed, cs.ops[i].path) {
      FitsIsPrior(base.entries, cs.ops[i], allowed);
    }
    if forall i | 0 <= i < |cs.ops| :: Lands(base.entries, allowed, cs.ops[i].path) {
      assert forall op | op in cs.ops :: OpFits(d, op, allowed);
    }
    if OpsFit(d, cs.ops, allowed) {
      assert forall i | 0 <= i < |cs.ops| :: cs.ops[i] in cs.ops;
    }
  }

  // The same of a first round, in the paths that it was asked for.
  lemma FirstRoundClosesIff(env: Env, base: Context, raws: seq<RawOp>, allowed: set<string>)
    requires ContextOk(env, base.entries) && Round(env, base, None, raws, allowed).Ok?
    ensures var cs := Round(env, base, None, raws, allowed).value;
      ViewOf(env, base, Some(cs), allowed).Ok? <==>
        (forall i | 0 <= i < |raws| :: Lands(base.entries, allowed, Norm(Norm(raws[i].path)))) && FitsContextLimits(env, base.entries, cs.ops)
  {
    NextViewOpens(env, base, None, raws, allowed);
    RoundIsValidated(env, base, None, raws, allowed);
    FirstEdits(env, base, raws, allowed);
  }

  // What every accepted round on steady paths hands on, whatever else the base lists.
  lemma RoundFits(env: Env, base: Context, previous: Option<ChangeSet>, raws: seq<RawOp>, allowed: set<string>)
    requires SteadyRound(base.entries, allowed, raws)
    requires previous.Some? ==> OpsFit(EntriesDict(base.entries), previous.value.ops, allowed) && SteadyOps(base.entries, allowed, previous.value.ops)
    requires Round(env, base, previous, raws, allowed).Ok?
    ensures var cs := Round(env, base, previous, raws, allowed).value;
      && cs.plan == base.plan && ChangeSetOk(env, cs.ops)
      && OpsFit(EntriesDict(base.entries), cs.ops, allowed) && SteadyOps(base.entries, allowed, cs.ops)
      && (previous.Some? ==> SortedOps(cs.ops))
      && Cumulative(base, ViewOf(env, base, previous, allowed).value, previous,
                    RoundEdits(env, base, previous, raws, allowed).value, allowed) == Ok(cs.ops)
  {
    RoundIsValidated(env, base, previous, raws, allowed);
    var edits := RoundEdits(env, base, previous, raws, allowed).value;
    if previous.None? {
      FirstFits(env, base, raws, allowed);
    } else {
      var view := ViewOf(env, base, previous, allowed).value;
      CumulativeFits(base, view, previous.value, edits, allowed);
      CumulativeSteady(env, base, previous.value, raws, allowed);
      LaterFits(base, Cumulative(base, view, previous, edits, allowed).value, allowed);
    }
  }

  lemma FirstFits(env: Env, base: Context, raws: seq<RawOp>, allowed: set<string>)
    requires SteadyRound(base.entries, allowed, raws) && Round(env, base, None, raws, allowed).Ok?
    ensures var cs := Round(env, base, None, raws, allowed).value;
      OpsFit(EntriesDict(base.entries), cs.ops, allowed) && SteadyOps(base.entries, allowed, cs.ops)
      && RoundEdits(env, base, None, raws, allowed) == Ok(cs.ops)
  {
    RoundIsValidated(env, base, None, raws, allowed);
    FirstEdits(env, base, raws, allowed);
    var edits := RoundEdits(env, base, None, raws, allowed).value;
    forall i | 0 <= i < |edits|
      ensures Steady(base.entries, allowed, edits[i].path) && PriorIn(EntriesDict(base.entries), edits[i].path) == Some(edits[i].Expected())
    {
      assert Steady(base.entries, allowed, Norm(raws[i].path));
    }
    SteadyOpsValid(base.entries, edits, allowed);
    forall op | op in edits ensures OpFits(EntriesDict(base.entries), op, allowed) {
      var i :| 0 <= i < |edits| && edits[i] == op;
      assert Steady(base.entries, allowed, edits[i].path);
      FitsIsPrior(base.entries, op, allowed);
    }
  }

  lemma LaterFits(base: Context, ops: seq<Op>, allowed: set<string>)
    requires OpsFit(EntriesDict(base.entries), ops, allowed) && SteadyOps(base.entries, allowed, ops)
    requires ValidateAll(ByNorm(base.entries), ops, allowed).Ok?
    ensures ValidateAll(ByNorm(base.entries), ops, allowed) == Ok(ops)
  {
    forall i | 0 <= i < |ops| ensures PriorIn(EntriesDict(base.entries), ops[i].path) == Some(ops[i].Expected()) {
      assert ops[i] in ops;
      FitsIsPrior(base.entries, ops[i], allowed);
    }
    SteadyOpsValid(base.entries, ops, allowed);
  }

  // The paths of a cumulative set are those of the previous set and of the edits.
  ghost predicate DictSteady(base: seq<Entry>, allowed: set<string>, d: Dict<Op>) {
    forall k | Get(d, k).Some? :: Steady(base, allowed, k)
  }

  lemma {:induction false} RebaseSteady(base: seq<Entry>, view: Dict<Entry>, d: Dict<Op>, ops: seq<Op>, allowed: set<string>)
    requires DictSteady(base, allowed, d) && SteadyOps(base, allowed, ops) && RebaseAll(EntriesDict(base), view, d, ops, allowed).Ok?
    ensures DictSteady(base, allowed, RebaseAll(EntriesDict(base), view, d, ops, allowed).value)
    decreases |ops|
  {
    if ops != [] {
      var op := ops[0];
      var next := RebaseOp(EntriesDict(base), view, d, op, allowed).value;
      assert Steady(base, allowed, op.path);
      forall k | Get(next, k).Some? ensures Steady(base, allowed, k) {
        PopGet(d, op.path, k);
        PutGet(d, op.path, Rehashed(op, Get(EntriesDict(base), op.path).value.Prior()), k);
      }
      RebaseSteady(base, view, next, ops[1..], allowed);
    }
  }

  lemma {:induction false} OpsDictSteady(base: seq<Entry>, ops: seq<Op>, allowed: set<string>)
    requires SteadyOps(base, allowed, ops)
    ensures DictSteady(base, allowed, OpsDict(ops))
  {
    if ops != [] {
      var init, last := ops[..|ops| - 1], ops[|ops| - 1];
      OpsDictSteady(base, init, allowed);
      assert Steady(base, allowed, last.path);
      forall k | Get(OpsDict(ops), k).Some? ensures Steady(base, allowed, k) {
        PutGet(OpsDict(init), last.path, last, k);
      }
    }
  }

  lemma LaterEdits(env: Env, base: Context, previous: ChangeSet, raws: seq<RawOp>, allowed: set<string>)
    requires SteadyRound(base.entries, allowed, raws) && RoundEdits(env, base, Some(previous), raws, allowed).Ok?
    ensures SteadyOps(base.entries, allowed, RoundEdits(env, base, Some(previous), raws, allowed).value)
  {
    var entries := ByNorm(ViewOf(env, base, Some(previous), allowed).value.entries);
    var edits := RoundEdits(env, base, Some(previous), raws, allowed).value;
    ParsedEach(entries, {}, raws, true);
    forall i | 0 <= i < |edits| ensures Steady(base.entries, allowed, edits[i].path) {
      assert ParseOne(entries, raws[i], true) == Ok(edits[i]);
      ParseOnePath(entries, raws[i], true);
      assert Steady(base.entries, allowed, Norm(raws[i].path));
    }
  }

  lemma CumulativeSteady(env: Env, base: Context, previous: ChangeSet, raws: seq<RawOp>, allowed: set<string>)
    requires SteadyRound(base.entries, allowed, raws) && SteadyOps(base.entries, allowed, previous.ops)
    requires OpsFit(EntriesDict(base.entries), previous.ops, allowed)
    requires RoundEdits(env, base, Some(previous), raws, allowed).Ok?
    requires Cumulative(base, ViewOf(env, base, Some(previous), allowed).value, Some(previous),
                        RoundEdits(env, base, Some(previous), raws, allowed).value, allowed).Ok?
    ensures SteadyOps(base.entries, allowed, Cumulative(base, ViewOf(env, base, Some(previous), allowed).value, Some(previous),
                        RoundEdits(env, base, Some(previous), raws, allowed).value, allowed).value)
  {
    var view := ViewOf(env, base, Some(previous), allowed).value;
    var edits := RoundEdits(env, base, Some(previous), raws, allowed).value;
    LaterEdits(env, base, previous, raws, allowed);
    OpsDictSteady(base.entries, previous.ops, allowed);
    RebaseSteady(base.entries, EntriesDict(view.entries), OpsDict(previous.ops), edits, allowed);
    var d := RebaseAll(EntriesDict(base.entries), EntriesDict(view.entries), OpsDict(previous.ops), edits, allowed).value;
    var b := EntriesDict(base.entries);
    OpsDictFits(b, previous.ops, allowed);
    RebaseFits(b, EntriesDict(view.entries), OpsDict(previous.ops), edits, allowed);
    SteadyValues(base.entries, d, allowed);
  }

  lemma SteadyValues(base: seq<Entry>, d: Dict<Op>, allowed: set<string>)
    requires Keyed(d) && DictSteady(base, allowed, d)
    ensures SteadyOps(base, allowed, Values(Sort(d)))
  {
    var s := Sort(d);
    SortSorts(d);
    forall i | 0 <= i < |s| ensures Steady(base, allowed, s[i].1.path) {
      assert s[i] in s;
      SortMember(d, s[i]);
      var k :| 0 <= k < |d| && d[k] == s[i];
      GetAt(d, k);
    }
  }

  // ---------- Any number of rounds ----------

  function Rounds(env: Env, base: Context, previous: Option<ChangeSet>, rounds: seq<seq<RawOp>>, allowed: set<string>): Result<Option<ChangeSet>, ProposalError>
    decreases |rounds|
  {
    if rounds == [] then Ok(previous)
    else
      var cs :- Round(env, base, previous, rounds[0], allowed);
      Rounds(env, base, Some(cs), rounds[1..], allowed)
  }

  // The same rounds run one after another on the files themselves.
  ghost function FilesAfter(env: Env, base: Context, previous: Option<ChangeSet>, t: Tree, rounds: seq<seq<RawOp>>, allowed: set<string>): Tree
    requires Rounds(env, base, previous, rounds, allowed).Ok?
    decreases |rounds|
  {
    if rounds == [] then t
    else
      var cs := Round(env, base, previous, rounds[0], allowed).value;
      FilesAfter(env, base, Some(cs), ApplyAll(RoundEdits(env, base, previous, rounds[0], allowed).value, t), rounds[1..], allowed)
  }

  function Changes(previous: Option<ChangeSet>): seq<Op> {
    if previous.Some? then previous.value.ops else []
  }

  // Main result: over any number of rounds that ask for steady paths, whatever else the
  // base lists, the last cumulative set still fits the base, and applied to it gives the
  // files that the rounds produce one after another.
  lemma {:induction false} RoundsCompose(env: Env, base: Context, previous: Option<ChangeSet>, rounds: seq<seq<RawOp>>, allowed: set<string>)
    requires forall k | 0 <= k < |rounds| :: SteadyRound(base.entries, allowed, rounds[k])
    requires previous.Some? ==> OpsFit(EntriesDict(base.entries), previous.value.ops, allowed) && SteadyOps(base.entries, allowed, previous.value.ops)
    requires Rounds(env, base, previous, rounds, allowed).Ok?
    ensures var last := Rounds(env, base, previous, rounds, allowed).value;
      && OpsFit(EntriesDict(base.entries), Changes(last), allowed) && SteadyOps(base.entries, allowed, Changes(last))
      && ApplyAll(Changes(last), ContextTree(base))
         == FilesAfter(env, base, previous, ApplyAll(Changes(previous), ContextTree(base)), rounds, allowed)
    decreases |rounds|
  {
    if rounds != [] {
      var cs := Round(env, base, previous, rounds[0], allowed).value;
      var edits := RoundEdits(env, base, previous, rounds[0], allowed).value;
      RoundFits(env, base, previous, rounds[0], allowed);
      ViewTree(env, base, previous, allowed);
      RebasePreservesMeaning(env, base, previous, edits, allowed);
      RoundsCompose(env, base, Some(cs), rounds[1..], allowed);
    }
  }

  // ---------- Where closure stops ----------

  // The first round changes exactly the requested paths only if no requested path
  // begins with '.', '/' or white space, or ends with white space.
  lemma RequestedPathsKept(env: Env, base: Context, raws: seq<RawOp>, allowed: set<string>)
    requires Round(env, base, None, raws, allowed).Ok?
    ensures var cs := Round(env, base, None, raws, allowed).value;
      |cs.ops| == |raws| &&
      ((forall i | 0 <= i < |raws| :: cs.ops[i].path == raws[i].path) <==> forall i | 0 <= i < |raws| :: Stable(raws[i].path))
  {
    var edits := RoundEdits(env, base, None, raws, allowed).value;
    var cs := Round(env, base, None, raws, allowed).value;
    ParsedEach(ByNorm(base.entries), {}, raws, false);
    ValidatedPaths(ByNorm(base.entries), edits, allowed);
    forall i | 0 <= i < |raws| ensures cs.ops[i].path == raws[i].path <==> Stable(raws[i].path) {
      assert ParseOne(ByNorm(base.entries), raws[i], false) == Ok(edits[i]);
      ParseOnePath(ByNorm(base.entries), raws[i], false);
      NormFixes(raws[i].path);
      NormFixes(Norm(raws[i].path));
    }
  }

  lemma {:induction false} ValidatedPaths(entries: Dict<Entry>, ops: seq<Op>, allowed: set<string>)
    requires ValidateAll(entries, ops, allowed).Ok?
    ensures var r := ValidateAll(entries, ops, allowed).value;
      |r| == |ops| && forall i | 0 <= i < |r| :: r[i].path == Norm(ops[i].path)
    decreases |ops|
  {
    if ops != [] {
      ValidatedPaths(entries, ops[1..], allowed);
    }
  }

  lemma SingleRaw(entries: Dict<Entry>, raw: RawOp, op: Op, allowed: set<string>)
    ensures CheckFrom(entries, {}, [raw], allowed) == CheckOne(entries, {}, raw, allowed)
    ensures ParseOne(entries, raw, false) == Ok(op) ==> ParseFrom(entries, {}, [raw], false) == Ok([op])
    ensures ValidateOne(entries, op, allowed) == Ok(op) ==> ValidateAll(entries, [op], allowed) == Ok([op])
  {
    assert [raw][1..] == [] && [op][1..] == [];
    assert ParseFrom(entries, {} + {Norm(raw.path)}, [], false) == Ok([]);
    assert [op] + [] == [op];
  }

  lemma DotRaw()
    ensures var raw := RawOp(".a", WriteKind, None, Some("x"), None, None, false);
      var op := Write("a", None, "x", false);
      && CheckFrom([(".a", Missing(".a"))], {}, [raw], {".a"}) == None
      && ParseFrom([("a", Missing(".a"))], {}, [raw], false) == Ok([op])
      && ValidateAll([("a", Missing(".a"))], [op], {".a"}) == Ok([op])
  {
    var raw := RawOp(".a", WriteKind, None, Some("x"), None, None, false);
    var op := Write("a", None, "x", false);
    NormOfDotA();
    assert Utf8.ByteLen("x") == 1 by { assert "x"[1..] == []; }
    SingleRaw([(".a", Missing(".a"))], raw, op, {".a"});
    SingleRaw([("a", Missing(".a"))], raw, op, {".a"});
    assert ParseOne([("a", Missing(".a"))], raw, false) == Ok(op);
    assert ValidateOne([("a", Missing(".a"))], op, {".a"}) == Ok(op);
  }

  // A concrete instance: writing ".a" yields a change set for "a", which the next
  // round's repair_context refuses.
  lemma DotfileMisdirected(plan: Plan, env: Env)
    requires ContextOk(env, [Missing(".a")]) && ChangeSetOk(env, [Write("a", None, "x", false)])
    ensures var base := Context(plan, [Missing(".a")]);
      var raw := RawOp(".a", WriteKind, None, Some("x"), None, None, false);
      var cs := ChangeSet(plan, [Write("a", None, "x", false)]);
      && Round(env, base, None, [raw], {".a"}) == Ok(cs)
      && Repaired(env, base, Some(cs), {".a"}) == Err(BaseMismatch)
  {
    var base := Context(plan, [Missing(".a")]);
    DotRaw();
    NormOfDotA();
    assert EntriesDict(base.entries) == [(".a", Missing(".a"))];
    assert ByNorm(base.entries) == [("a", Missing(".a"))] by { assert base.entries[..0] == []; }
    assert Utf8.ByteLen("x") == 1 by { assert "x"[1..] == []; }
    assert OverlayOp(env, [(".a", Missing(".a"))], Write("a", None, "x", false), {".a"}) == Err(BaseMismatch) by {
      assert |"a"| != |".a"|;
    }
  }

  lemma NormOfDotA()
    ensures Norm(".a") == "a" && Norm("a") == "a"
  {
    Text.StripFixes(".a");
    NormFixes("a");
    assert ".a"[1..] == "a";
    assert Text.StripLeft(".a", IsDotOrSlash) == Text.StripLeft("a", IsDotOrSlash) == "a";
  }

  // ---------- When a round leaves nothing ----------

  // A round takes back every earlier operation, and does nothing else: each of them, and
  // each edit, is on a path that the base does not have, and the edits delete them.
  predicate TakesBack(base: Dict<Entry>, previous: seq<Op>, edits: seq<Op>) {
    (forall op | op in previous :: OpOn(edits, op.path).Some?) && forall edit | edit in edits :: Undoes(base, edit)
  }

  predicate Undoes(base: Dict<Entry>, edit: Op) {
    var original: Option<Entry> := Get(base, edit.path);
    edit.Delete? && original.Some? && original.value.Missing?
  }

  // What is left under a path after the rebase of edits on distinct paths.
  lemma {:induction false} RebaseLeaves(base: Dict<Entry>, view: Dict<Entry>, d: Dict<Op>, ops: seq<Op>, allowed: set<string>, k: string)
    requires DistinctPaths(ops) && RebaseAll(base, view, d, ops, allowed).Ok?
    ensures Get(RebaseAll(base, view, d, ops, allowed).value, k).Some? <==>
      if OpOn(ops, k).Some? then !Undoes(base, OpOn(ops, k).value) else Get(d, k).Some?
    decreases |ops|
  {
    if ops != [] {
      var op := ops[0];
      var next := RebaseOp(base, view, d, op, allowed).value;
      RebaseLeaves(base, view, next, ops[1..], allowed, k);
      PopGet(d, op.path, k);
      PutGet(d, op.path, Rehashed(op, Get(base, op.path).value.Prior()), k);
    }
  }

  lemma {:induction false} OpsDictHolds(ops: seq<Op>, k: string)
    ensures Get(OpsDict(ops), k).Some? <==> exists op | op in ops :: op.path == k
  {
    if ops != [] {
      var init, last := ops[..|ops| - 1], ops[|ops| - 1];
      OpsDictHolds(init, k);
      PutGet(OpsDict(init), last.path, last, k);
      assert ops == init + [last];
    }
  }

  lemma {:induction false} OpOnAny(ops: seq<Op>, op: Op)
    requires op in ops
    ensures OpOn(ops, op.path).Some?
  {
    if ops[0] != op {
      assert ops == [ops[0]] + ops[1..];
      OpOnAny(ops[1..], op);
    }
  }

  lemma OpOnItself(ops: seq<Op>, op: Op)
    requires DistinctPaths(ops) && op in ops
    ensures OpOn(ops, op.path) == Some(op)
  {
    OpOnAny(ops, op);
    var found := OpOn(ops, op.path).value;
    var i :| 0 <= i < |ops| && ops[i] == op;
    var k :| 0 <= k < |ops| && ops[k] == found;
  }

  lemma {:induction false} SortedIsEmpty(d: Dict<Op>)
    ensures Values(Sort(d)) == [] <==> d == []
  {
    if d != [] {
      InsertMember(d[0], Sort(d[1..]), d[0]);
    }
  }

  lemma EmptyDict(d: Dict<Op>)
    ensures d == [] <==> forall k :: Get(d, k).None?
  {
    if d != [] {
      assert Get(d, d[0].0).Some?;
    }
  }

  lemma RebasedIsEmptyIff(base: Context, view: Context, previous: ChangeSet, edits: seq<Op>, allowed: set<string>)
    requires DistinctPaths(edits) && Cumulative(base, view, Some(previous), edits, allowed).Ok?
    ensures Cumulative(base, view, Some(previous), edits, allowed).value == [] <==> TakesBack(EntriesDict(base.entries), previous.ops, edits)
  {
    var b, v, d := EntriesDict(base.entries), EntriesDict(view.entries), OpsDict(previous.ops);
    var left := RebaseAll(b, v, d, edits, allowed).value;
    SortedIsEmpty(left);
    EmptyDict(left);
    forall k ensures Get(left, k).Some? <==> if OpOn(edits, k).Some? then !Undoes(b, OpOn(edits, k).value) else exists op | op in previous.ops :: op.path == k {
      RebaseLeaves(b, v, d, edits, allowed, k);
      OpsDictHolds(previous.ops, k);
    }
    if forall k :: Get(left, k).None? {
      forall op | op in previous.ops ensures OpOn(edits, op.path).Some? {
        assert Get(left, op.path).None?;
      }
      forall edit | edit in edits ensures Undoes(b, edit) {
        OpOnItself(edits, edit);
        assert Get(left, edit.path).None?;
      }
    }
    if TakesBack(b, previous.ops, edits) {
      forall k ensures Get(left, k).None? {
        if OpOn(edits, k).Some? {
          assert Undoes(b, OpOn(edits, k).value);
        }
      }
    }
  }

  lemma {:induction false} ParsedDistinct(entries: Dict<Entry>, seen: set<string>, raws: seq<RawOp>, strict: bool)
    requires ParseFrom(entries, seen, raws, strict).Ok?
    ensures var ops := ParseFrom(entries, seen, raws, strict).value;
      DistinctPaths(ops) && forall op | op in ops :: op.path !in seen
    decreases |raws|
  {
    if raws != [] {
      ParseOnePath(entries, raws[0], strict);
      ParsedDistinct(entries, seen + {Norm(raws[0].path)}, raws[1..], strict);
      var ops := ParseFrom(entries, seen, raws, strict).value;
      var rest := ParseFrom(entries, seen + {Norm(raws[0].path)}, raws[1..], strict).value;
      assert ops == [ops[0]] + rest && ops[0].path == Norm(raws[0].path);
      forall i, j | 0 <= i < j < |ops| ensures ops[i].path != ops[j].path {
        assert ops[j] == rest[j - 1] && rest[j - 1] in rest;
        if i > 0 {
          assert ops[i] == rest[i - 1];
        }
      }
    }
  }

  // A round whose edits pass comes to nothing exactly when every earlier operation is on
  // a path that the base does not have and the round deletes all of them and nothing
  // else; and then it is refused, since a change set may not be empty.
  lemma RoundIsEmptyIff(env: Env, base: Context, previous: ChangeSet, raws: seq<RawOp>, allowed: set<string>)
    requires RoundEdits(env, base, Some(previous), raws, allowed).Ok?
    requires Cumulative(base, ViewOf(env, base, Some(previous), allowed).value, Some(previous),
                        RoundEdits(env, base, Some(previous), raws, allowed).value, allowed).Ok?
    ensures var edits := RoundEdits(env, base, Some(previous), raws, allowed).value;
      var ops := Cumulative(base, ViewOf(env, base, Some(previous), allowed).value, Some(previous), edits, allowed).value;
      (ops == [] <==> TakesBack(EntriesDict(base.entries), previous.ops, edits))
      && (ops == [] ==> Round(env, base, Some(previous), raws, allowed) == Err(ChangeSetRefused))
  {
    var view := ViewOf(env, base, Some(previous), allowed).value;
    ParsedDistinct(ByNorm(view.entries), {}, raws, true);
    RebasedIsEmptyIff(base, view, previous, RoundEdits(env, base, Some(previous), raws, allowed).value, allowed);
  }
}
