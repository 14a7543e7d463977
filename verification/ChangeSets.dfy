// app/coding_repair.py: the editing view of a repair round, and the rebase of the
// round's edits into one cumulative change set against the original base.
module ChangeSets {
  import opened Prelude
  import opened Ordering
  import opened Dict
  import Utf8

  const MAX_CONTEXT_PATHS := 64
  const MAX_CODING_FILE_BYTES := 700_000
  const MAX_CODING_CONTEXT_BYTES := 1_500_000
  const MAX_CHANGE_FILE_BYTES := 1_000_000
  const MAX_CHANGE_OPERATIONS := 500
  const MAX_CHANGE_SET_BYTES := 4_000_000

  // What the code asks of the rest of the system: the SHA-256 of a text, the bytes of
  // a context's and of a change set's canonical wire form, and the secret scanner.
  datatype Env = Env(
    sha: string -> string,
    contextBytes: seq<Entry> -> nat,
    changeSetBytes: seq<Op> -> nat,
    sensitiveContext: seq<Entry> -> bool,
    sensitiveOps: seq<Op> -> bool)

  // One path of an editing context: no file there, or a file with its hash.
  datatype Entry =
    | Missing(path: string)
    | Present(path: string, hash: string, content: string, executable: bool)
  {
    function Prior(): Option<string> {
      if Present? then Some(hash) else None
    }
  }

  datatype Op =
    | Write(path: string, prior: Option<string>, content: string, executable: bool)
    | Delete(path: string, hash: string)
  {
    function Expected(): Option<string> {
      if Write? then prior else Some(hash)
    }
  }

  // The plan fields a context and a change set are both bound to.
  datatype Plan = Plan(versionId: string, contentHash: string, recordHash: string)
  datatype Context = Context(plan: Plan, entries: seq<Entry>)
  datatype ChangeSet = ChangeSet(plan: Plan, ops: seq<Op>)

  predicate EntryOk(env: Env, e: Entry) {
    e.Present? ==> e.hash == env.sha(e.content) && Utf8.ByteLen(e.content) <= MAX_CODING_FILE_BYTES
  }

  predicate SortedPaths(entries: seq<Entry>) {
    forall i, j :: 0 <= i < j < |entries| ==> Less(entries[i].path, entries[j].path)
  }

  // What CodingContext accepts.
  predicate ContextOk(env: Env, entries: seq<Entry>) {
    && 1 <= |entries| <= MAX_CONTEXT_PATHS
    && SortedPaths(entries)
    && (forall e | e in entries :: EntryOk(env, e))
    && env.contextBytes(entries) <= MAX_CODING_CONTEXT_BYTES
    && !env.sensitiveContext(entries)
  }

  predicate DistinctPaths(ops: seq<Op>) {
    forall i, j :: 0 <= i < j < |ops| ==> ops[i].path != ops[j].path
  }

  // What ImplementationChangeSet accepts.
  predicate ChangeSetOk(env: Env, ops: seq<Op>) {
    && 1 <= |ops| <= MAX_CHANGE_OPERATIONS
    && DistinctPaths(ops)
    && (forall op | op in ops && op.Write? :: Utf8.ByteLen(op.content) <= MAX_CHANGE_FILE_BYTES)
    && env.changeSetBytes(ops) <= MAX_CHANGE_SET_BYTES
    && !env.sensitiveOps(ops)
  }

  // ---------- File trees: what contexts and operations mean ----------

  datatype File = File(content: string, executable: bool)
  type Tree = map<string, File>

  function ApplyOp(op: Op, t: Tree): Tree {
    match op
    case Write(path, _, content, executable) => t[path := File(content, executable)]
    case Delete(path, _) => t - {path}
  }

  function ApplyAll(ops: seq<Op>, t: Tree): Tree {
    if ops == [] then t else ApplyAll(ops[1..], ApplyOp(ops[0], t))
  }

  function At(t: Tree, p: string): Option<File> {
    if p in t then Some(t[p]) else None
  }

  function EntriesDict(entries: seq<Entry>): (d: Dict<Entry>)
    ensures |d| == |entries| && forall i :: 0 <= i < |d| ==> d[i] == (entries[i].path, entries[i])
  {
    seq(|entries|, i requires 0 <= i < |entries| => (entries[i].path, entries[i]))
  }

  function FileAt(d: Dict<Entry>, p: string): Option<File> {
    var entry: Option<Entry> := Get(d, p);
    match entry
    case Some(Present(_, _, content, executable)) => Some(File(content, executable))
    case _ => None
  }

  ghost function TreeOf(d: Dict<Entry>): Tree {
    map p | p in Keys(d) && FileAt(d, p).Some? :: FileAt(d, p).value
  }

  lemma TreeOfAt(d: Dict<Entry>, p: string)
    ensures At(TreeOf(d), p) == FileAt(d, p)
  {
    if Get(d, p).Some? {
      var i :| 0 <= i < |d| && d[i] == (p, Get(d, p).value);
      assert p in Keys(d);
    }
  }

  lemma SameTree(s: Tree, t: Tree)
    requires forall p :: At(s, p) == At(t, p)
    ensures s == t
  {
    assert forall p :: p in s <==> At(s, p).Some?;
    assert forall p :: p in t <==> At(t, p).Some?;
    forall p | p in s ensures s[p] == t[p] {
      assert At(s, p) == At(t, p);
    }
  }

  // ---------- repair_context ----------

  datatype RepairError =
    | PlanChanged | BaseMismatch | DeletesMissingBase | FileTooLarge | InvalidContext
    | EditMismatch | DeletesMissing | UnknownPath

  function EntryAfter(env: Env, op: Op): Entry {
    match op
    case Write(path, _, content, executable) => Present(path, env.sha(content), content, executable)
    case Delete(path, _) => Missing(path)
  }

  function OverlayOp(env: Env, d: Dict<Entry>, op: Op, allowed: set<string>): Result<Dict<Entry>, RepairError> {
    var entry := Get(d, op.path);
    if op.path !in allowed || entry.None? || op.Expected() != entry.value.Prior() then Err(BaseMismatch)
    else if op.Delete? && entry.value.Missing? then Err(DeletesMissingBase)
    else if op.Write? && Utf8.ByteLen(op.content) > MAX_CODING_FILE_BYTES then Err(FileTooLarge)
    else Ok(Put(d, op.path, EntryAfter(env, op)))
  }

  function Overlaid(env: Env, d: Dict<Entry>, ops: seq<Op>, allowed: set<string>): Result<Dict<Entry>, RepairError>
    decreases |ops|
  {
    if ops == [] then Ok(d)
    else
      var d' :- OverlayOp(env, d, ops[0], allowed);
      Overlaid(env, d', ops[1..], allowed)
  }

  function Values<V>(d: Dict<V>): (r: seq<V>)
    ensures |r| == |d| && forall i :: 0 <= i < |r| ==> r[i] == d[i].1
  {
    seq(|d|, i requires 0 <= i < |d| => d[i].1)
  }

  function Repaired(env: Env, base: Context, previous: Option<ChangeSet>, allowed: set<string>): Result<Context, RepairError> {
    if previous.None? then Ok(base)
    else if previous.value.plan != base.plan then Err(PlanChanged)
    else
      var d :- Overlaid(env, EntriesDict(base.entries), previous.value.ops, allowed);
      if ContextOk(env, Values(d)) then Ok(Context(base.plan, Values(d))) else Err(InvalidContext)
  }

  method RepairContext(env: Env, base: Context, previous: Option<ChangeSet>, allowed: set<string>)
    returns (r: Result<Context, RepairError>)
    ensures r == Repaired(env, base, previous, allowed)
  {
    if previous.None? {
      return Ok(base);
    }
    if previous.value.plan != base.plan {
      return Err(PlanChanged);
    }
    var ops := previous.value.ops;
    var entries := EntriesDict(base.entries);
    for k := 0 to |ops|
      invariant Overlaid(env, EntriesDict(base.entries), ops, allowed) == Overlaid(env, entries, ops[k..], allowed)
    {
      var op := ops[k];
      var entry := Get(entries, op.path);
      assert ops[k..][1..] == ops[k + 1..];
      if op.path !in allowed || entry.None? || op.Expected() != entry.value.Prior() {
        return Err(BaseMismatch);
      }
      if op.Delete? {
        if entry.value.Missing? {
          return Err(DeletesMissingBase);
        }
        entries := Put(entries, op.path, Missing(op.path));
      } else {
        if Utf8.ByteLen(op.content) > MAX_CODING_FILE_BYTES {
          return Err(FileTooLarge);
        }
        entries := Put(entries, op.path, Present(op.path, env.sha(op.content), op.content, op.executable));
      }
    }
    if !ContextOk(env, Values(entries)) {
      return Err(InvalidContext);
    }
    return Ok(Context(base.plan, Values(entries)));
  }

  // ---------- cumulative_operations ----------

  function OpsDict(ops: seq<Op>): Dict<Op> {
    if ops == [] then [] else Put(OpsDict(ops[..|ops| - 1]), ops[|ops| - 1].path, ops[|ops| - 1])
  }

  function Rehashed(op: Op, prior: Option<string>): Op {
    match op
    case Write(path, _, content, executable) => Write(path, prior, content, executable)
    case Delete(path, hash) => if prior.Some? then Delete(path, prior.value) else op
  }

  function RebaseOp(base: Dict<Entry>, view: Dict<Entry>, cumulative: Dict<Op>, op: Op, allowed: set<string>): Result<Dict<Op>, RepairError> {
    var entry := Get(view, op.path);
    if op.path !in allowed || entry.None? || op.Expected() != entry.value.Prior() then Err(EditMismatch)
    else if Get(base, op.path).None? then Err(UnknownPath)
    else
      var original := Get(base, op.path).value;
      if op.Delete? && entry.value.Missing? then Err(DeletesMissing)
      else if op.Delete? && original.Missing? then Ok(Pop(cumulative, op.path))
      else Ok(Put(cumulative, op.path, Rehashed(op, original.Prior())))
  }

  function RebaseAll(base: Dict<Entry>, view: Dict<Entry>, cumulative: Dict<Op>, ops: seq<Op>, allowed: set<string>): Result<Dict<Op>, RepairError>
    decreases |ops|
  {
    if ops == [] then Ok(cumulative)
    else
      var next :- RebaseOp(base, view, cumulative, ops[0], allowed);
      RebaseAll(base, view, next, ops[1..], allowed)
  }

  function Cumulative(base: Context, view: Context, previous: Option<ChangeSet>, ops: seq<Op>, allowed: set<string>): Result<seq<Op>, RepairError> {
    if previous.None? then Ok(ops)
    else
      var d :- RebaseAll(EntriesDict(base.entries), EntriesDict(view.entries), OpsDict(previous.value.ops), ops, allowed);
      Ok(Values(Sort(d)))
  }

  method CumulativeOperations(base: Context, view: Context, previous: Option<ChangeSet>, ops: seq<Op>, allowed: set<string>)
    returns (r: Result<seq<Op>, RepairError>)
    ensures r == Cumulative(base, view, previous, ops, allowed)
  {
    if previous.None? {
      return Ok(ops);
    }
    var baseEntries, viewEntries := EntriesDict(base.entries), EntriesDict(view.entries);
    var cumulative := OpsDict(previous.value.ops);
    for k := 0 to |ops|
      invariant RebaseAll(baseEntries, viewEntries, OpsDict(previous.value.ops), ops, allowed)
             == RebaseAll(baseEntries, viewEntries, cumulative, ops[k..], allowed)
    {
      var op := ops[k];
      var entry := Get(viewEntries, op.path);
      assert ops[k..][1..] == ops[k + 1..];
      if op.path !in allowed || entry.None? || op.Expected() != entry.value.Prior() {
        return Err(EditMismatch);
      }
      var original := Get(baseEntries, op.path);
      if original.None? {
        return Err(UnknownPath);
      }
      if op.Delete? && entry.value.Missing? {
        return Err(DeletesMissing);
      }
      if op.Delete? && original.value.Missing? {
        cumulative := Pop(cumulative, op.path);
        continue;
      }
      cumulative := Put(cumulative, op.path, Rehashed(op, original.value.Prior()));
    }
    return Ok(Values(Sort(cumulative)));
  }

  // ---------- The view means what the previous change set means ----------

  lemma {:induction false} OverlayMeaning(env: Env, d: Dict<Entry>, ops: seq<Op>, allowed: set<string>)
    requires Overlaid(env, d, ops, allowed).Ok?
    ensures TreeOf(Overlaid(env, d, ops, allowed).value) == ApplyAll(ops, TreeOf(d))
    decreases |ops|
  {
    if ops != [] {
      var op := ops[0];
      var d' := OverlayOp(env, d, op, allowed).value;
      OverlayMeaning(env, d', ops[1..], allowed);
      forall p ensures At(TreeOf(d'), p) == At(ApplyOp(op, TreeOf(d)), p) {
        TreeOfAt(d', p);
        TreeOfAt(d, p);
        PutGet(d, op.path, EntryAfter(env, op), p);
      }
      SameTree(TreeOf(d'), ApplyOp(op, TreeOf(d)));
    }
  }

  // ---------- A dict of operations, as one simultaneous change ----------

  ghost predicate Keyed(d: Dict<Op>) {
    DistinctKeys(d) && forall m | m in d :: m.0 == m.1.path
  }

  function Effect(d: Dict<Op>, t: Tree, p: string): Option<File> {
    var op: Option<Op> := Get(d, p);
    match op
    case None => At(t, p)
    case Some(Write(_, _, content, executable)) => Some(File(content, executable))
    case Some(Delete(_, _)) => None
  }

  // Applying distinct-path operations in any listed order is the simultaneous change.
  lemma {:induction false} ApplyIsEffect(d: Dict<Op>, t: Tree, p: string)
    requires Keyed(d)
    ensures At(ApplyAll(Values(d), t), p) == Effect(d, t, p)
  {
    if d != [] {
      assert d[0] in d && forall m | m in d[1..] :: m in d;
      assert Values(d)[1..] == Values(d[1..]);
      var t' := ApplyOp(d[0].1, t);
      ApplyIsEffect(d[1..], t', p);
    }
  }

  lemma {:induction false} OpsDictKeyed(ops: seq<Op>)
    ensures Keyed(OpsDict(ops))
  {
    if ops != [] {
      var init, last := ops[..|ops| - 1], ops[|ops| - 1];
      OpsDictKeyed(init);
      PutKeyed(OpsDict(init), last);
    }
  }

  lemma PutKeyed(d: Dict<Op>, op: Op)
    requires Keyed(d)
    ensures Keyed(Put(d, op.path, op))
  {
    PutDistinct(d, op.path, op);
    var e := Put(d, op.path, op);
    forall m | m in e ensures m.0 == m.1.path {
      var i :| 0 <= i < |e| && e[i] == m;
      GetAt(e, i);
      PutGet(d, op.path, op, m.0);
    }
  }

  lemma PopKeyed(d: Dict<Op>, k: string)
    requires Keyed(d)
    ensures Keyed(Pop(d, k))
  {
    PopDistinct(d, k);
    var e := Pop(d, k);
    forall m | m in e ensures m.0 == m.1.path {
      var i :| 0 <= i < |e| && e[i] == m;
      GetAt(e, i);
      PopGet(d, k, m.0);
    }
  }

  // The dict of a change set's operations has their joint effect, in whatever order.
  lemma {:induction false} OpsDictEffect(ops: seq<Op>, t: Tree, p: string)
    ensures Effect(OpsDict(ops), t, p) == At(ApplyAll(ops, t), p)
  {
    if ops != [] {
      var init, last := ops[..|ops| - 1], ops[|ops| - 1];
      OpsDictEffect(init, t, p);
      PutGet(OpsDict(init), last.path, last, p);
      ApplyLast(init, last, t);
      assert init + [last] == ops;
    }
  }

  lemma {:induction false} ApplyAppend(a: seq<Op>, b: seq<Op>, t: Tree)
    ensures ApplyAll(a + b, t) == ApplyAll(b, ApplyAll(a, t))
  {
    if a == [] {
      assert a + b == b;
    } else {
      assert (a + b)[1..] == a[1..] + b;
      ApplyAppend(a[1..], b, ApplyOp(a[0], t));
    }
  }

  lemma ApplyLast(ops: seq<Op>, op: Op, t: Tree)
    ensures ApplyAll(ops + [op], t) == ApplyOp(op, ApplyAll(ops, t))
  {
    ApplyAppend(ops, [op], t);
    assert ApplyAll([op], ApplyAll(ops, t)) == ApplyAll([op][1..], ApplyOp(op, ApplyAll(ops, t)));
  }

  // ---------- The rebase preserves meaning ----------

  // One step: whatever tree the cumulative dict stood for, it now stands for that tree
  // with the edit applied. Deleting a file the base does not have cancels its creation.
  lemma RebaseOpMeaning(base: Dict<Entry>, view: Dict<Entry>, d: Dict<Op>, op: Op, allowed: set<string>, t: Tree)
    requires Keyed(d) && RebaseOp(base, view, d, op, allowed).Ok?
    requires forall p :: Effect(d, TreeOf(base), p) == At(t, p)
    ensures var d' := RebaseOp(base, view, d, op, allowed).value;
      Keyed(d') && forall p :: Effect(d', TreeOf(base), p) == At(ApplyOp(op, t), p)
  {
    var d' := RebaseOp(base, view, d, op, allowed).value;
    var original := Get(base, op.path).value;
    if op.Delete? && original.Missing? {
      PopKeyed(d, op.path);
    } else {
      PutKeyed(d, Rehashed(op, original.Prior()));
    }
    forall p ensures Effect(d', TreeOf(base), p) == At(ApplyOp(op, t), p) {
      TreeOfAt(base, p);
      assert Effect(d, TreeOf(base), p) == At(t, p);
      PopGet(d, op.path, p);
      PutGet(d, op.path, Rehashed(op, original.Prior()), p);
    }
  }

  lemma {:induction false} RebaseAllMeaning(base: Dict<Entry>, view: Dict<Entry>, d: Dict<Op>, ops: seq<Op>, allowed: set<string>, t: Tree)
    requires Keyed(d) && RebaseAll(base, view, d, ops, allowed).Ok?
    requires forall p :: Effect(d, TreeOf(base), p) == At(t, p)
    ensures var d' := RebaseAll(base, view, d, ops, allowed).value;
      Keyed(d') && forall p :: Effect(d', TreeOf(base), p) == At(ApplyAll(ops, t), p)
    decreases |ops|
  {
    if ops != [] {
      RebaseOpMeaning(base, view, d, ops[0], allowed, t);
      RebaseAllMeaning(base, view, RebaseOp(base, view, d, ops[0], allowed).value, ops[1..], allowed, ApplyOp(ops[0], t));
    }
  }

  lemma SortedEffect(d: Dict<Op>, t: Tree, p: string)
    requires Keyed(d)
    ensures Keyed(Sort(d)) && Effect(Sort(d), t, p) == Effect(d, t, p)
  {
    SortGet(d, p);
    forall m | m in Sort(d) ensures m.0 == m.1.path {
      SortMember(d, m);
    }
  }

  ghost function ContextTree(c: Context): Tree {
    TreeOf(EntriesDict(c.entries))
  }

  // The entries of a view, listed again as a dict, are the overlaid dict.
  lemma {:induction false} OverlayKeyed(env: Env, d: Dict<Entry>, ops: seq<Op>, allowed: set<string>)
    requires Overlaid(env, d, ops, allowed).Ok?
    requires forall i | 0 <= i < |d| :: d[i].0 == d[i].1.path
    ensures var d' := Overlaid(env, d, ops, allowed).value;
      |d'| == |d| && forall i | 0 <= i < |d| :: d'[i].0 == d'[i].1.path == d[i].0
    decreases |ops|
  {
    if ops != [] {
      PutInPlace(d, ops[0].path, EntryAfter(env, ops[0]));
      OverlayKeyed(env, Put(d, ops[0].path, EntryAfter(env, ops[0])), ops[1..], allowed);
    }
  }

  lemma {:induction false} PutInPlace(d: Dict<Entry>, k: string, e: Entry)
    requires Get(d, k).Some? && e.path == k
    requires forall i | 0 <= i < |d| :: d[i].0 == d[i].1.path
    ensures var d' := Put(d, k, e);
      |d'| == |d| && forall i | 0 <= i < |d| :: d'[i].0 == d'[i].1.path == d[i].0
  {
    if d[0].0 != k {
      PutInPlace(d[1..], k, e);
    }
  }

  lemma ViewTree(env: Env, base: Context, previous: Option<ChangeSet>, allowed: set<string>)
    requires Repaired(env, base, previous, allowed).Ok?
    ensures ContextTree(Repaired(env, base, previous, allowed).value)
         == if previous.None? then ContextTree(base) else ApplyAll(previous.value.ops, ContextTree(base))
  {
    if previous.Some? {
      var d := Overlaid(env, EntriesDict(base.entries), previous.value.ops, allowed).value;
      OverlayKeyed(env, EntriesDict(base.entries), previous.value.ops, allowed);
      assert EntriesDict(Values(d)) == d;
      OverlayMeaning(env, EntriesDict(base.entries), previous.value.ops, allowed);
    }
  }

  // Main result: applying the cumulative change set to the base gives exactly the files,
  // contents and executable bits, of applying the round's edits to the view.
  lemma RebasePreservesMeaning(env: Env, base: Context, previous: Option<ChangeSet>, ops: seq<Op>, allowed: set<string>)
    requires Repaired(env, base, previous, allowed).Ok?
    requires Cumulative(base, Repaired(env, base, previous, allowed).value, previous, ops, allowed).Ok?
    ensures var view := Repaired(env, base, previous, allowed).value;
      ApplyAll(Cumulative(base, view, previous, ops, allowed).value, ContextTree(base)) == ApplyAll(ops, ContextTree(view))
  {
    var view := Repaired(env, base, previous, allowed).value;
    ViewTree(env, base, previous, allowed);
    if previous.Some? {
      var start := OpsDict(previous.value.ops);
      var b, v := EntriesDict(base.entries), EntriesDict(view.entries);
      OpsDictKeyed(previous.value.ops);
      forall p ensures Effect(start, TreeOf(b), p) == At(ContextTree(view), p) {
        OpsDictEffect(previous.value.ops, TreeOf(b), p);
      }
      RebaseAllMeaning(b, v, start, ops, allowed, ContextTree(view));
      var d := RebaseAll(b, v, start, ops, allowed).value;
      var left, right := ApplyAll(Values(Sort(d)), TreeOf(b)), ApplyAll(ops, ContextTree(view));
      forall p ensures At(left, p) == At(right, p) {
        SortedEffect(d, TreeOf(b), p);
        ApplyIsEffect(Sort(d), TreeOf(b), p);
      }
      SameTree(left, right);
    }
  }
}
