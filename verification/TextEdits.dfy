// app/coding.py, _apply_text_edits: bounded exact replacements. An edit is taken only
// when its anchor occurs exactly once, counted without overlaps, and then replaces
// the leftmost occurrence.
module TextEdits {
  import opened Prelude
  import Utf8

  const MAX_CHANGE_FILE_BYTES := 1_000_000
  const MAX_EDITS := 64

  // ---------- str.find, str.count and str.replace(..., 1) ----------

  predicate MatchesAt(s: string, t: string, p: nat) {
    p + |t| <= |s| && s[p..p + |t|] == t
  }

  // The leftmost match at or after `from`; None when there is none.
  function Find(s: string, t: string, from: nat): (r: Option<nat>)
    ensures r.Some? ==> from <= r.value && MatchesAt(s, t, r.value)
    ensures r.Some? ==> forall q :: from <= q < r.value ==> !MatchesAt(s, t, q)
    ensures r.None? ==> forall q :: from <= q ==> !MatchesAt(s, t, q)
    decreases |s| - from
  {
    if MatchesAt(s, t, from) then Some(from)
    else if from >= |s| then None
    else Find(s, t, from + 1)
  }

  function Count(s: string, t: string, from: nat): nat
    requires t != []
    decreases |s| - from
  {
    match Find(s, t, from)
    case None => 0
    case Some(p) => 1 + Count(s, t, p + |t|)
  }

  function Spliced(s: string, p: nat, length: nat, t: string): string
    requires p + length <= |s|
  {
    s[..p] + t + s[p + length..]
  }

  // A leftmost match with no match from its end on.
  ghost predicate OnlyMatch(s: string, t: string, p: nat) {
    && MatchesAt(s, t, p)
    && (forall q: nat | q < p :: !MatchesAt(s, t, q))
    && (forall q: nat | p + |t| <= q :: !MatchesAt(s, t, q))
  }

  // The count is one exactly when such a match exists. Overlapping matches are not
  // counted: "aa" occurs once in "aaa".
  lemma CountIsOne(s: string, t: string)
    requires t != []
    ensures Count(s, t, 0) == 1 <==> exists p: nat :: OnlyMatch(s, t, p)
  {
    match Find(s, t, 0)
    case None =>
      assert forall p: nat :: !MatchesAt(s, t, p);
    case Some(p) =>
      if Count(s, t, 0) == 1 {
        assert Count(s, t, p + |t|) == 0;
        assert Find(s, t, p + |t|).None?;
        assert OnlyMatch(s, t, p);
      }
      forall x: nat | OnlyMatch(s, t, x) ensures Count(s, t, 0) == 1 {
        assert x == p;
        assert Find(s, t, p + |t|) == None;
      }
  }

  // ---------- Edits ----------

  // One entry of the edit list: not an object with exactly the two fields, fields
  // that are not strings, or a proper edit.
  datatype Edit = WrongFields | WrongValues | Edit(oldText: string, newText: string)

  datatype EditError =
    | InvalidList
    | InvalidFields
    | InvalidValues
    | AnchorMissing(index: nat)
    | AnchorAmbiguous(index: nat, count: nat)
    | OverBudget

  // One step of the loop.
  function ApplyOne(s: string, e: Edit, index: nat): Result<string, EditError> {
    match e
    case WrongFields => Err(InvalidFields)
    case WrongValues => Err(InvalidValues)
    case Edit(old_, new_) =>
      if old_ == [] then Err(InvalidValues)
      else if Count(s, old_, 0) == 0 then Err(AnchorMissing(index))
      else if Count(s, old_, 0) != 1 then Err(AnchorAmbiguous(index, Count(s, old_, 0)))
      else
        var t := Spliced(s, Find(s, old_, 0).value, |old_|, new_);
        if Utf8.ByteLen(t) > MAX_CHANGE_FILE_BYTES then Err(OverBudget) else Ok(t)
  }

  function ApplyFrom(s: string, edits: seq<Edit>, k: nat): Result<string, EditError>
    requires k <= |edits|
    decreases |edits| - k
  {
    if k == |edits| then Ok(s)
    else
      var t :- ApplyOne(s, edits[k], k);
      ApplyFrom(t, edits, k + 1)
  }

  // None: the edits are not a list.
  function Applied(content: string, edits: Option<seq<Edit>>): Result<string, EditError> {
    if edits.None? || !(1 <= |edits.value| <= MAX_EDITS) then Err(InvalidList)
    else ApplyFrom(content, edits.value, 0)
  }

  method ApplyTextEdits(content: string, edits: Option<seq<Edit>>) returns (r: Result<string, EditError>)
    ensures r == Applied(content, edits)
  {
    if edits.None? || !(1 <= |edits.value| <= MAX_EDITS) {
      return Err(InvalidList);
    }
    var text := content;
    for k := 0 to |edits.value|
      invariant ApplyFrom(content, edits.value, 0) == ApplyFrom(text, edits.value, k)
    {
      var edit := edits.value[k];
      if edit.WrongFields? {
        return Err(InvalidFields);
      }
      if edit.WrongValues? || edit.oldText == [] {
        return Err(InvalidValues);
      }
      var count := Count(text, edit.oldText, 0);
      if count != 1 {
        return Err(if count == 0 then AnchorMissing(k) else AnchorAmbiguous(k, count));
      }
      text := Spliced(text, Find(text, edit.oldText, 0).value, |edit.oldText|, edit.newText);
      if Utf8.ByteLen(text) > MAX_CHANGE_FILE_BYTES {
        return Err(OverBudget);
      }
    }
    return Ok(text);
  }

  // ---------- What a successful run did ----------

  // The texts the run went through, the first and the last included.
  function Texts(s: string, edits: seq<Edit>, k: nat): (r: seq<string>)
    requires k <= |edits| && ApplyFrom(s, edits, k).Ok?
    ensures |r| == |edits| - k + 1 && r[0] == s
    decreases |edits| - k
  {
    if k == |edits| then [s] else [s] + Texts(ApplyOne(s, edits[k], k).value, edits, k + 1)
  }

  // A replacement of `old` by `new` at p, where `old` matches leftmost and only once.
  predicate IsStep(s: string, t: string, e: Edit, p: nat) {
    && e.Edit? && e.oldText != []
    && MatchesAt(s, e.oldText, p)
    && Find(s, e.oldText, 0) == Some(p)
    && Find(s, e.oldText, p + |e.oldText|) == None
    && t == Spliced(s, p, |e.oldText|, e.newText)
  }

  function Position(s: string, e: Edit): nat {
    if e.Edit? && Find(s, e.oldText, 0).Some? then Find(s, e.oldText, 0).value else 0
  }

  lemma ApplyOneIsStep(s: string, e: Edit, index: nat)
    requires ApplyOne(s, e, index).Ok?
    ensures IsStep(s, ApplyOne(s, e, index).value, e, Position(s, e))
    ensures Utf8.ByteLen(ApplyOne(s, e, index).value) <= MAX_CHANGE_FILE_BYTES
  {
    var p := Find(s, e.oldText, 0).value;
    assert Count(s, e.oldText, 0) == 1 + Count(s, e.oldText, p + |e.oldText|);
  }

  // Step i of the run that starts with edit k.
  predicate StepAt(ts: seq<string>, ps: seq<nat>, edits: seq<Edit>, k: nat, i: nat)
    requires k <= i < |edits| && |ps| == |edits| - k && |ts| == |ps| + 1
  {
    && IsStep(ts[i - k], ts[i - k + 1], edits[i], ps[i - k])
    && Utf8.ByteLen(ts[i - k + 1]) <= MAX_CHANGE_FILE_BYTES
  }

  lemma StepShifts(ts: seq<string>, ps: seq<nat>, edits: seq<Edit>, k: nat, i: nat)
    requires k < i < |edits| && |ps| == |edits| - k && |ts| == |ps| + 1
    requires StepAt(ts[1..], ps[1..], edits, k + 1, i)
    ensures StepAt(ts, ps, edits, k, i)
  {
  }

  // A successful run is a chain of such steps, within the size cap after each one.
  lemma {:induction false} RunIsChain(s: string, edits: seq<Edit>, k: nat)
    requires k <= |edits| && ApplyFrom(s, edits, k).Ok?
    ensures Texts(s, edits, k)[|edits| - k] == ApplyFrom(s, edits, k).value
    ensures forall i: nat | k <= i < |edits| :: StepAt(Texts(s, edits, k), Positions(s, edits, k), edits, k, i)
    decreases |edits| - k
  {
    if k < |edits| {
      ApplyOneIsStep(s, edits[k], k);
      var t := ApplyOne(s, edits[k], k).value;
      RunIsChain(t, edits, k + 1);
      var ts, ps := Texts(s, edits, k), Positions(s, edits, k);
      assert ts[1..] == Texts(t, edits, k + 1) && ps[1..] == Positions(t, edits, k + 1);
      assert StepAt(ts, ps, edits, k, k);
      forall i: nat | k < i < |edits| ensures StepAt(ts, ps, edits, k, i) {
        StepShifts(ts, ps, edits, k, i);
      }
    }
  }

  // Undoing one replacement at its recorded position.
  function UndoOne(t: string, e: Edit, p: nat): string {
    if e.Edit? && p + |e.newText| <= |t| then Spliced(t, p, |e.newText|, e.oldText) else t
  }

  // Undoing a run, last step first, given the recorded positions.
  function Undo(t: string, edits: seq<Edit>, positions: seq<nat>): string
    requires |edits| == |positions|
  {
    if edits == [] then t
    else UndoOne(Undo(t, edits[1..], positions[1..]), edits[0], positions[0])
  }

  function Positions(s: string, edits: seq<Edit>, k: nat): (r: seq<nat>)
    requires k <= |edits| && ApplyFrom(s, edits, k).Ok?
    ensures |r| == |edits| - k
    decreases |edits| - k
  {
    if k == |edits| then []
    else [Position(s, edits[k])] + Positions(ApplyOne(s, edits[k], k).value, edits, k + 1)
  }

  lemma UndoOneInverts(s: string, t: string, e: Edit, p: nat)
    requires IsStep(s, t, e, p)
    ensures UndoOne(t, e, p) == s
  {
    assert t[..p] == s[..p];
    assert t[p + |e.newText|..] == s[p + |e.oldText|..];
    assert s == s[..p] + s[p..p + |e.oldText|] + s[p + |e.oldText|..];
  }

  // Main result: from the edited text, the edits and the recorded positions alone, the
  // original comes back character by character.
  lemma {:induction false} UndoRestores(s: string, edits: seq<Edit>, k: nat)
    requires k <= |edits| && ApplyFrom(s, edits, k).Ok?
    ensures Undo(ApplyFrom(s, edits, k).value, edits[k..], Positions(s, edits, k)) == s
    decreases |edits| - k
  {
    if k < |edits| {
      var e := edits[k];
      ApplyOneIsStep(s, e, k);
      var t := ApplyOne(s, e, k).value;
      UndoRestores(t, edits, k + 1);
      UndoOneInverts(s, t, e, Position(s, e));
      assert edits[k..][1..] == edits[k + 1..];
      assert Positions(s, edits, k)[1..] == Positions(t, edits, k + 1);
    }
  }
}
