// app/code_compressor.py: folding TypeScript and JavaScript bodies away, and the fold of
// long texts. A text is its lines; candidate is the test for a function's first line.
module Folding {
  import opened Prelude
  import opened Text

  const SIGNATURE_LINES := 15

  // ---------- Braces ----------

  function Count(s: string, c: char): nat {
    if s == [] then 0 else Count(s[1..], c) + if s[0] == c then 1 else 0
  }

  function Net(line: string): int {
    Count(line, '{') - Count(line, '}')
  }

  // The brace balance over lines[lo..hi].
  function Balance(lines: seq<string>, lo: nat, hi: nat): int
    requires lo <= hi <= |lines|
    decreases hi
  {
    if lo == hi then 0 else Balance(lines, lo, hi - 1) + Net(lines[hi - 1])
  }

  function BeforeBrace(s: string): string {
    if s == [] || s[0] == '{' then [] else [s[0]] + BeforeBrace(s[1..])
  }

  function RightStripped(s: string): string {
    StripRight(s, IsSpace)
  }

  function Collapsed(line: string): string {
    RightStripped(BeforeBrace(line)) + " { /* ... */ }"
  }

  // ---------- What becomes of the lines ----------

  // A run of lines: kept as it is, or a signature that ends at line brace and whose body
  // is left out up to line end.
  datatype Piece = Kept(line: nat) | Folded(first: nat, brace: nat, end: nat)

  function Start(p: Piece): nat {
    match p case Kept(line) => line case Folded(first, _, _) => first
  }

  function End(p: Piece): nat {
    match p case Kept(line) => line + 1 case Folded(_, _, end) => end
  }

  // The first line with an opening brace, among the first few of a signature.
  function FindBrace(lines: seq<string>, start: nat, i: nat): (r: Option<nat>)
    requires start <= i <= |lines|
    ensures r.Some? ==> i <= r.value < |lines| && r.value < start + SIGNATURE_LINES && '{' in lines[r.value]
    ensures forall k | i <= k < (if r.Some? then r.value else if |lines| <= start + SIGNATURE_LINES then |lines| else start + SIGNATURE_LINES) :: '{' !in lines[k]
    decreases |lines| - i
  {
    if i == |lines| || i - start >= SIGNATURE_LINES then None
    else if '{' in lines[i] then Some(i)
    else FindBrace(lines, start, i + 1)
  }

  // Where a body ends that stands open by count at line i.
  function BodyEnd(lines: seq<string>, i: nat, count: int): (e: nat)
    requires i <= |lines|
    ensures i <= e <= |lines|
    decreases |lines| - i
  {
    if i < |lines| && count > 0 then BodyEnd(lines, i + 1, count + Net(lines[i])) else i
  }

  function PieceAt(lines: seq<string>, candidate: string -> bool, i: nat): (p: Piece)
    requires i < |lines|
    ensures Start(p) == i && i < End(p) <= |lines|
    ensures p.Folded? ==> p.first <= p.brace < p.end && p.brace < p.first + SIGNATURE_LINES
  {
    if !candidate(lines[i]) then Kept(i)
    else
      match FindBrace(lines, i, i)
      case Some(b) => Folded(i, b, BodyEnd(lines, b + 1, Net(lines[b])))
      case None => Kept(i)
  }

  function Pieces(lines: seq<string>, candidate: string -> bool, i: nat): seq<Piece>
    requires i <= |lines|
    decreases |lines| - i
  {
    if i == |lines| then [] else [PieceAt(lines, candidate, i)] + Pieces(lines, candidate, End(PieceAt(lines, candidate, i)))
  }

  predicate PieceOk(lines: seq<string>, p: Piece) {
    Start(p) < End(p) <= |lines| && (p.Folded? ==> p.first <= p.brace < p.end)
  }

  function Shown(lines: seq<string>, p: Piece): seq<string>
    requires PieceOk(lines, p)
  {
    match p
    case Kept(line) => [lines[line]]
    case Folded(first, brace, _) => lines[first..brace] + [Collapsed(lines[brace])]
  }

  // The output from line i on.
  function Fold(lines: seq<string>, candidate: string -> bool, i: nat): seq<string>
    requires i <= |lines|
    decreases |lines| - i
  {
    if i == |lines| then []
    else
      var p := PieceAt(lines, candidate, i);
      Shown(lines, p) + Fold(lines, candidate, End(p))
  }

  // The lines of a signature from start: up to the first with an opening brace, or as
  // many as a signature may have.
  method TakeSignature(lines: seq<string>, start: nat) returns (signature: seq<string>, found: bool, i: nat)
    requires start < |lines|
    ensures start < i <= |lines| && signature == lines[start..i]
    ensures if found then FindBrace(lines, start, start) == Some(i - 1) else FindBrace(lines, start, start).None?
  {
    signature, found, i := [], false, start;
    while i < |lines| && !found && i - start < SIGNATURE_LINES
      invariant start <= i <= |lines| && signature == lines[start..i]
      invariant found ==> start < i && FindBrace(lines, start, start) == Some(i - 1)
      invariant !found ==> FindBrace(lines, start, start) == FindBrace(lines, start, i)
      decreases |lines| - i
    {
      signature := signature + [lines[i]];
      if '{' in lines[i] {
        found := true;
      }
      i := i + 1;
    }
  }

  // Past the body that stands open by count.
  method SkipBody(lines: seq<string>, start: nat, open: int) returns (i: nat)
    requires start <= |lines|
    ensures i == BodyEnd(lines, start, open)
  {
    i := start;
    var count := open;
    while i < |lines| && count > 0
      invariant i <= |lines| && BodyEnd(lines, start, open) == BodyEnd(lines, i, count)
      decreases |lines| - i
    {
      count := count + (Count(lines[i], '{') - Count(lines[i], '}'));
      i := i + 1;
    }
  }

  lemma LastReplaced(lines: seq<string>, start: nat, last: nat, line: string)
    requires start <= last < |lines|
    ensures lines[start..last + 1][last - start] == lines[last]
    ensures lines[start..last + 1][last - start := line] == lines[start..last] + [line]
  {
  }

  // One round of the folder: a folded function, or one line that is kept. The index goes
  // back to the line when no brace is found.
  method FoldOne(lines: seq<string>, candidate: string -> bool, start: nat) returns (shown: seq<string>, i: nat)
    requires start < |lines|
    ensures shown == Shown(lines, PieceAt(lines, candidate, start)) && i == End(PieceAt(lines, candidate, start))
  {
    i := start;
    if candidate(lines[i]) {
      var signature, found;
      signature, found, i := TakeSignature(lines, start);
      if found {
        var last := signature[|signature| - 1];
        shown := signature[|signature| - 1 := Collapsed(last)];
        LastReplaced(lines, start, i - 1, Collapsed(last));
        i := SkipBody(lines, i, 1 + Count(last, '{') - 1 - Count(last, '}'));
        return;
      }
      i := start;
    }
    shown := [lines[i]];
    i := i + 1;
  }

  // compress_typescript_or_javascript, up to the joining of the lines.
  method FoldBodies(lines: seq<string>, candidate: string -> bool) returns (output: seq<string>)
    ensures output == Fold(lines, candidate, 0)
  {
    output := [];
    var i := 0;
    ghost var whole := Fold(lines, candidate, 0);
    while i < |lines|
      invariant i <= |lines| && whole == output + Fold(lines, candidate, i)
      decreases |lines| - i
    {
      ghost var piece := PieceAt(lines, candidate, i);
      FoldNext(lines, candidate, piece);
      Regroup(output, Shown(lines, piece), Fold(lines, candidate, End(piece)));
      var shown;
      shown, i := FoldOne(lines, candidate, i);
      output := output + shown;
    }
  }

  lemma FoldNext(lines: seq<string>, candidate: string -> bool, p: Piece)
    requires Start(p) < |lines| && PieceAt(lines, candidate, Start(p)) == p
    ensures Fold(lines, candidate, Start(p)) == Shown(lines, p) + Fold(lines, candidate, End(p))
  {
  }

  lemma Regroup(output: seq<string>, shown: seq<string>, rest: seq<string>)
    ensures output + (shown + rest) == output + shown + rest
  {
  }

  // ---------- Every line once, in order ----------

  // The pieces follow one another from the first line to the last: no line is lost, none
  // is taken twice.
  predicate Follows(pieces: seq<Piece>, lo: nat, hi: nat) {
    if pieces == [] then lo == hi else Start(pieces[0]) == lo && Follows(pieces[1..], End(pieces[0]), hi)
  }

  // What a folded piece says of its lines: the brace line is the first with an opening
  // brace, within the first fifteen; and the body ends at the first line where its braces
  // balance, or at the end of the file.
  predicate FoldsExactly(lines: seq<string>, p: Piece)
    requires PieceOk(lines, p) && p.Folded?
  {
    && p.brace < p.first + SIGNATURE_LINES && '{' in lines[p.brace]
    && (forall k | p.first <= k < p.brace :: '{' !in lines[k])
    && (p.end == |lines| || Balance(lines, p.brace, p.end) <= 0)
    && forall m | p.brace < m < p.end :: Balance(lines, p.brace, m) > 0
  }

  // A line that is kept though it might begin a function: no brace follows in time.
  predicate KeepsExactly(lines: seq<string>, candidate: string -> bool, p: Piece)
    requires PieceOk(lines, p) && p.Kept?
  {
    candidate(lines[p.line]) ==> forall k | p.line <= k < |lines| && k < p.line + SIGNATURE_LINES :: '{' !in lines[k]
  }

  lemma {:induction false} BodyIsShortest(lines: seq<string>, brace: nat, i: nat)
    requires brace < i <= |lines| && forall m | brace < m < i :: Balance(lines, brace, m) > 0
    ensures var e := BodyEnd(lines, i, Balance(lines, brace, i));
      (e == |lines| || Balance(lines, brace, e) <= 0) && forall m | brace < m < e :: Balance(lines, brace, m) > 0
    decreases |lines| - i
  {
    if i < |lines| && Balance(lines, brace, i) > 0 {
      assert Balance(lines, brace, i + 1) == Balance(lines, brace, i) + Net(lines[i]);
      BodyIsShortest(lines, brace, i + 1);
    }
  }

  lemma PieceIsExact(lines: seq<string>, candidate: string -> bool, i: nat)
    requires i < |lines|
    ensures var p := PieceAt(lines, candidate, i);
      PieceOk(lines, p) && (if p.Folded? then candidate(lines[i]) && FoldsExactly(lines, p) else KeepsExactly(lines, candidate, p))
  {
    var b := FindBrace(lines, i, i);
    if candidate(lines[i]) && b.Some? {
      assert Balance(lines, b.value, b.value + 1) == Net(lines[b.value]);
      BodyIsShortest(lines, b.value, b.value + 1);
    }
  }

  // What a piece becomes: a kept line itself; of a folded function the lines of its
  // signature, the last cut at its opening brace; never more lines than it takes.
  lemma ShownIs(lines: seq<string>, p: Piece)
    requires PieceOk(lines, p)
    ensures |Shown(lines, p)| <= End(p) - Start(p)
    ensures p.Kept? ==> Shown(lines, p) == lines[Start(p)..End(p)]
    ensures p.Folded? ==> |Shown(lines, p)| == p.brace + 1 - p.first && Shown(lines, p)[..p.brace - p.first] == lines[p.first..p.brace]
  {
  }

  function Output(lines: seq<string>, pieces: seq<Piece>): seq<string>
    requires forall i | 0 <= i < |pieces| :: PieceOk(lines, pieces[i])
  {
    if pieces == [] then [] else Shown(lines, pieces[0]) + Output(lines, pieces[1..])
  }

  lemma {:induction false} PiecesFrom(lines: seq<string>, candidate: string -> bool, i: nat)
    requires i <= |lines|
    ensures var pieces := Pieces(lines, candidate, i);
      Follows(pieces, i, |lines|) && (forall k | 0 <= k < |pieces| :: PieceOk(lines, pieces[k]) && Exact(lines, candidate, pieces[k]))
      && Fold(lines, candidate, i) == Output(lines, pieces) && |Fold(lines, candidate, i)| <= |lines| - i
    decreases |lines| - i
  {
    if i < |lines| {
      var p := PieceAt(lines, candidate, i);
      PieceIsExact(lines, candidate, i);
      ShownIs(lines, p);
      PiecesFrom(lines, candidate, End(p));
      assert Pieces(lines, candidate, i)[1..] == Pieces(lines, candidate, End(p));
    }
  }

  predicate Exact(lines: seq<string>, candidate: string -> bool, p: Piece)
    requires PieceOk(lines, p)
  {
    if p.Folded? then candidate(lines[p.first]) && FoldsExactly(lines, p) else KeepsExactly(lines, candidate, p)
  }

  // The folder takes every line exactly once and in order, as a kept line, part of a
  // signature or part of a body; skips exactly the shortest body that balances its
  // braces; and shows no more lines than it reads.
  lemma EveryLineOnce(lines: seq<string>, candidate: string -> bool)
    ensures var pieces := Pieces(lines, candidate, 0);
      Follows(pieces, 0, |lines|) && (forall k | 0 <= k < |pieces| :: PieceOk(lines, pieces[k]) && Exact(lines, candidate, pieces[k]))
      && Fold(lines, candidate, 0) == Output(lines, pieces) && |Fold(lines, candidate, 0)| <= |lines|
  {
    PiecesFrom(lines, candidate, 0);
  }

  // ---------- The fold of long texts ----------

  datatype Long = Whole | Cut(head: seq<string>, omitted: int, tail: seq<string>)

  function Max(a: int, b: int): int {
    if a >= b then a else b
  }

  // lines[:n] and lines[-n:]
  function Head(lines: seq<string>, n: nat): seq<string> {
    lines[..if n <= |lines| then n else |lines|]
  }

  function Tail(lines: seq<string>, n: nat): seq<string> {
    lines[if n <= |lines| then |lines| - n else 0..]
  }

  function HeadCount(most: nat): nat {
    Max(20, most / 2)
  }

  function TailCount(most: nat): nat {
    Max(15, most / 4)
  }

  // compress_generic_text
  function FoldLong(lines: seq<string>, most: nat): Long {
    if |lines| <= most then Whole
    else Cut(Head(lines, HeadCount(most)), |lines| - HeadCount(most) - TailCount(most), Tail(lines, TailCount(most)))
  }

  // Head, omitted and tail are the text: what is reported as omitted is what is missing.
  predicate Conserves(lines: seq<string>, f: Long) {
    match f
    case Whole => true
    case Cut(head, omitted, tail) =>
      0 <= omitted && |head| + omitted + |tail| == |lines| && head == lines[..|head|] && tail == lines[|lines| - |tail|..]
  }

  function Numbered(n: nat): seq<string> {
    seq(n, i => "")
  }

  // The fold accounts for every line of every text exactly when its limit is at least 34;
  // the limits in use are 150 and 300. Below that, the shortest texts it folds have lines
  // in both head and tail.
  lemma FoldConservesIff(most: nat)
    ensures (forall lines: seq<string> :: Conserves(lines, FoldLong(lines, most))) <==> most >= 34
  {
    if most >= 34 {
      forall lines: seq<string> ensures Conserves(lines, FoldLong(lines, most)) {
        assert |lines| > most ==> HeadCount(most) + TailCount(most) <= |lines|;
      }
    } else {
      var lines := Numbered(most + 1);
      assert FoldLong(lines, most).Cut? && FoldLong(lines, most).omitted < 0;
      assert !Conserves(lines, FoldLong(lines, most));
    }
  }
}
