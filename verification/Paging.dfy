// app/context_compaction.py: read_context, the byte-exact paging of indexed evidence.
// The text is the canonical JSON of the selected data.
module Paging {
  import opened Prelude
  import opened Utf8

  const MAX_OFFSET := 2000000
  const MIN_PAGE := 256
  const MAX_PAGE := 16000

  datatype ReadError = BadRequest | BadOffset | Undecodable

  datatype Page = Page(offset: nat, next: Option<nat>, total: nat, partial: bool, text: string)

  // ContextRead: the limits every request is validated against.
  predicate ValidRequest(offset: int, max: int) {
    0 <= offset <= MAX_OFFSET && MIN_PAGE <= max <= MAX_PAGE
  }

  predicate AtBoundary(raw: Bytes, o: nat) {
    o == |raw| || (o < |raw| && !IsContinuation(raw[o]))
  }

  // Backing off to the start of the character that would be cut.
  function CutEnd(raw: Bytes, lo: nat, end: nat): (r: nat)
    requires AtBoundary(raw, lo) && lo <= end <= |raw|
    ensures lo <= r <= end && AtBoundary(raw, r)
    ensures forall i | r < i <= end :: !AtBoundary(raw, i)
    decreases end
  {
    if end < |raw| && IsContinuation(raw[end]) then CutEnd(raw, lo, end - 1) else end
  }

  function PageOf(text: string, offset: int, max: int, queried: bool): (r: Result<Page, ReadError>)
    ensures r.Ok? && r.value.next.Some? ==> offset + max - 3 <= r.value.next.value < |Encode(text)|
  {
    var raw := Encode(text);
    if !ValidRequest(offset, max) then Err(BadRequest)
    else if offset > |raw| || (offset < |raw| && IsContinuation(raw[offset])) then Err(BadOffset)
    else
      var wanted := if |raw| <= offset + max then |raw| else offset + max;
      NearEnd(text, offset, wanted);
      var end := CutEnd(raw, offset, wanted);
      match Decode(raw[offset..end])
      case None => Err(Undecodable)
      case Some(part) => Ok(Page(offset, if end < |raw| then Some(end) else None, |raw|, queried || offset != 0 || end < |raw|, part))
  }

  method ReadPage(text: string, offset: int, max: int, queried: bool) returns (r: Result<Page, ReadError>)
    ensures r == PageOf(text, offset, max, queried)
  {
    if !ValidRequest(offset, max) {
      return Err(BadRequest);
    }
    var raw := Encode(text);
    if offset > |raw| || (offset < |raw| && IsContinuation(raw[offset])) {
      return Err(BadOffset);
    }
    var end := if |raw| <= offset + max then |raw| else offset + max;
    ghost var cut := CutEnd(raw, offset, end);
    while end < |raw| && IsContinuation(raw[end])
      invariant offset <= end <= |raw| && CutEnd(raw, offset, end) == cut
      decreases end
    {
      end := end - 1;
    }
    var part := Decode(raw[offset..end]);
    if part.None? {
      return Err(Undecodable);
    }
    var next := None;
    if end < |raw| {
      next := Some(end);
    }
    return Ok(Page(offset, next, |raw|, queried || offset != 0 || end < |raw|, part.value));
  }

  // ---------- One page ----------

  // A character is at most four bytes: some start lies within three bytes back.
  lemma {:induction false} StartIsNear(s: string, e: nat) returns (d: nat)
    requires e < |Encode(s)|
    ensures d <= 3 && d <= e && !IsContinuation(Encode(s)[e - d])
  {
    EncodeCharShape(s[0]);
    if e < |EncodeChar(s[0])| {
      d := e;
    } else {
      d := StartIsNear(s[1..], e - |EncodeChar(s[0])|);
    }
  }

  // The bytes between two character starts are the encoding of the characters between.
  lemma Between(s: string, o: nat, e: nat) returns (i: nat, k: nat)
    requires o <= e <= |Encode(s)| && AtBoundary(Encode(s), o) && AtBoundary(Encode(s), e)
    ensures i <= k <= |s| && ByteLen(s[..i]) == o && ByteLen(s[..k]) == e
    ensures Encode(s)[o..e] == Encode(s[i..k])
  {
    i := Boundary(s, o);
    k := Boundary(s, e);
    PrefixIsBoundary(s, i);
    PrefixIsBoundary(s, k);
    if k < i {
      assert s[..i] == s[..k] + s[k..i];
      EncodeAppend(s[..k], s[k..i]);
      AtLeastOne(s[k..i]);
    } else {
      assert s[..k] == s[..i] + s[i..k];
      EncodeAppend(s[..i], s[i..k]);
    }
  }

  lemma {:induction false} AtLeastOne(s: string)
    ensures |Encode(s)| >= |s|
  {
    if s != [] {
      AtLeastOne(s[1..]);
    }
  }

  // Only the whole text has all its bytes, and only the empty prefix has none.
  lemma PrefixBytes(s: string, k: nat)
    requires k <= |s|
    ensures ByteLen(s[..k]) == |Encode(s)| <==> k == |s|
    ensures ByteLen(s[..k]) == 0 <==> k == 0
  {
    assert s == s[..k] + s[k..];
    EncodeAppend(s[..k], s[k..]);
    AtLeastOne(s[k..]);
    AtLeastOne(s[..k]);
  }

  // A page asked for at a character start is never refused. It is the text from that
  // start to the next one named, and nearly as long as was asked.
  lemma PageIsExact(text: string, offset: nat, max: int, queried: bool) returns (i: nat, k: nat)
    requires ValidRequest(offset, max) && offset <= |Encode(text)| && AtBoundary(Encode(text), offset)
    ensures i <= k <= |text| && ByteLen(text[..i]) == offset && PageOf(text, offset, max, queried).Ok?
    ensures var page := PageOf(text, offset, max, queried).value;
      page.text == text[i..k] && (page.partial <==> queried || page.text != text)
    ensures var page := PageOf(text, offset, max, queried).value;
      match page.next
      case None => k == |text|
      case Some(next) =>
        next == ByteLen(text[..k]) && AtBoundary(Encode(text), next)
        && offset + max - 3 <= next <= offset + max && next < |Encode(text)|
  {
    var raw := Encode(text);
    var wanted := if |raw| <= offset + max then |raw| else offset + max;
    var end := CutEnd(raw, offset, wanted);
    i, k := Between(text, offset, end);
    DecodeInverts(text[i..k]);
    if end < |raw| {
      NearEnd(text, offset, wanted);
    }
    PrefixBytes(text, k);
    PrefixBytes(text, i);
    if text[i..k] == text {
      assert |text[i..k]| == |text|;
    }
  }

  lemma NearEnd(text: string, lo: nat, wanted: nat)
    requires AtBoundary(Encode(text), lo) && lo <= wanted <= |Encode(text)|
    ensures CutEnd(Encode(text), lo, wanted) >= wanted - 3
  {
    if wanted < |Encode(text)| {
      var d := StartIsNear(text, wanted);
      assert AtBoundary(Encode(text), wanted - d);
    }
  }

  // ---------- Following next_offset ----------

  // A reader takes pages of whatever sizes it likes until next_offset is null.
  function Follow(text: string, offset: int, sizes: nat -> int, n: nat): Result<seq<Page>, ReadError>
    decreases |Encode(text)| - offset
  {
    match PageOf(text, offset, sizes(n), false)
    case Err(e) => Err(e)
    case Ok(page) =>
      if page.next.None? then Ok([page])
      else
        match Follow(text, page.next.value, sizes, n + 1)
        case Err(e) => Err(e)
        case Ok(rest) => Ok([page] + rest)
  }

  function Joined(pages: seq<Page>): string {
    if pages == [] then [] else pages[0].text + Joined(pages[1..])
  }

  ghost predicate FairSizes(sizes: nat -> int) {
    forall n: nat :: MIN_PAGE <= sizes(n) <= MAX_PAGE
  }

  // A page that starts at character i, and the character where the next one starts.
  lemma PageFrom(text: string, i: nat, max: int) returns (k: nat)
    requires i <= |text| && ValidRequest(ByteLen(text[..i]), max)
    ensures i <= k <= |text| && PageOf(text, ByteLen(text[..i]), max, false).Ok?
    ensures var page := PageOf(text, ByteLen(text[..i]), max, false).value;
      page.text + text[k..] == text[i..] && page.next == if k == |text| then None else Some(ByteLen(text[..k]))
  {
    PrefixIsBoundary(text, i);
    var first;
    first, k := PageIsExact(text, ByteLen(text[..i]), max, false);
    SamePrefix(text, i, first);
    PrefixBytes(text, k);
    assert text[i..k] + text[k..] == text[i..];
  }

  lemma {:induction false} FollowFrom(text: string, i: nat, sizes: nat -> int, n: nat)
    requires FairSizes(sizes) && |Encode(text)| <= MAX_OFFSET && i <= |text|
    ensures Follow(text, ByteLen(text[..i]), sizes, n).Ok?
    ensures Joined(Follow(text, ByteLen(text[..i]), sizes, n).value) == text[i..]
    decreases |Encode(text)| - ByteLen(text[..i])
  {
    PrefixIsBoundary(text, i);
    var offset := ByteLen(text[..i]);
    var k := PageFrom(text, i, sizes(n));
    var page := PageOf(text, offset, sizes(n), false).value;
    if page.next.Some? {
      FollowFrom(text, k, sizes, n + 1);
      var rest := FollowOn(text, offset, sizes, n);
      JoinedCons(page, rest);
    } else {
      JoinedCons(page, []);
      assert [page] + [] == [page];
    }
  }

  lemma FollowOn(text: string, offset: nat, sizes: nat -> int, n: nat) returns (rest: seq<Page>)
    requires var r := PageOf(text, offset, sizes(n), false);
      r.Ok? && r.value.next.Some? && Follow(text, r.value.next.value, sizes, n + 1).Ok?
    ensures var page := PageOf(text, offset, sizes(n), false).value;
      Follow(text, page.next.value, sizes, n + 1) == Ok(rest) && Follow(text, offset, sizes, n) == Ok([page] + rest)
  {
    rest := Follow(text, PageOf(text, offset, sizes(n), false).value.next.value, sizes, n + 1).value;
  }

  lemma {:induction false} FewPages(text: string, offset: nat, sizes: nat -> int, n: nat)
    requires FairSizes(sizes) && Follow(text, offset, sizes, n).Ok?
    ensures (|Follow(text, offset, sizes, n).value| - 1) * (MIN_PAGE - 3) <= |Encode(text)| - offset
    decreases |Encode(text)| - offset
  {
    var page := PageOf(text, offset, sizes(n), false).value;
    if page.next.Some? {
      FewPages(text, page.next.value, sizes, n + 1);
    }
  }

  lemma JoinedCons(page: Page, rest: seq<Page>)
    ensures Joined([page] + rest) == page.text + Joined(rest)
  {
    assert ([page] + rest)[1..] == rest;
  }

  lemma SamePrefix(s: string, j: nat, k: nat)
    requires j <= |s| && k <= |s| && ByteLen(s[..j]) == ByteLen(s[..k])
    ensures j == k
  {
    var lo, hi := if j < k then j else k, if j < k then k else j;
    assert s[..hi] == s[..lo] + s[lo..hi];
    EncodeAppend(s[..lo], s[lo..hi]);
    AtLeastOne(s[lo..hi]);
  }

  // From offset 0, with any page sizes the requests allow, over data within the offset
  // limit: no page is refused, each is whole characters, at least 253 bytes further, and
  // together they are exactly the text.
  lemma FollowingReadsEverything(text: string, sizes: nat -> int)
    requires FairSizes(sizes) && |Encode(text)| <= MAX_OFFSET
    ensures var r := Follow(text, 0, sizes, 0);
      r.Ok? && Joined(r.value) == text && (|r.value| - 1) * (MIN_PAGE - 3) <= |Encode(text)|
  {
    assert text[..0] == [] && text[0..] == text;
    FollowFrom(text, 0, sizes, 0);
    FewPages(text, 0, sizes, 0);
  }

  // Past the limit by more than a page, no reader gets to the end: the last bytes cannot
  // be asked for.
  lemma {:induction false} BeyondTheLimit(text: string, offset: nat, sizes: nat -> int, n: nat)
    requires |Encode(text)| > MAX_OFFSET + MAX_PAGE && FairSizes(sizes)
    ensures Follow(text, offset, sizes, n).Err?
    decreases |Encode(text)| - offset
  {
    var r := PageOf(text, offset, sizes(n), false);
    if r.Ok? && r.value.next.Some? {
      BeyondTheLimit(text, r.value.next.value, sizes, n + 1);
    }
  }
}
