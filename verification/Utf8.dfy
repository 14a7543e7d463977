// The UTF-8 transformation of section 3 of RFC 3629, as Python's str.encode(),
// bytes.decode() and bytes.decode(errors="ignore") perform it.
module Utf8 {
  import opened Prelude

  type byte = x: int | 0 <= x < 256
  type Bytes = seq<byte>

  // ---------- Encoding ----------

  function EncodeChar(c: char): (b: Bytes)
    ensures 1 <= |b| <= 4
  {
    var n := c as int;
    if n < 0x80 then [n]
    else if n < 0x800 then [0xC0 + n / 64, 0x80 + n % 64]
    else if n < 0x1_0000 then [0xE0 + n / 4096, 0x80 + n / 64 % 64, 0x80 + n % 64]
    else [0xF0 + n / 262144, 0x80 + n / 4096 % 64, 0x80 + n / 64 % 64, 0x80 + n % 64]
  }

  function Encode(s: string): Bytes {
    if s == [] then [] else EncodeChar(s[0]) + Encode(s[1..])
  }

  function ByteLen(s: string): nat {
    |Encode(s)|
  }

  // ---------- Decoding ----------

  // `raw[i] & 0xC0 == 0x80`
  predicate IsContinuation(b: byte) {
    0x80 <= b < 0xC0
  }

  predicate IsScalar(n: int) {
    0 <= n < 0xD800 || 0xE000 <= n < 0x11_0000
  }

  // The value bits of a byte under its marker bits.
  function Payload(b: byte, marker: int): int {
    b - marker
  }

  // The first character of b and the bytes it takes; None when b does not start
  // with a well-formed sequence (short, overlong, surrogate or out of range).
  function DecodeChar(b: Bytes): (r: Option<(char, nat)>)
    ensures r.Some? ==> 1 <= r.value.1 <= |b| && r.value.1 <= 4
  {
    if |b| == 0 then None
    else if b[0] < 0x80 then Some((b[0] as char, 1))
    else if b[0] < 0xC0 then None
    else if b[0] < 0xE0 then
      if |b| < 2 || !IsContinuation(b[1]) then None
      else
        var n: int := Payload(b[0], 0xC0) * 64 + Payload(b[1], 0x80);
        if 0x80 <= n then Some((n as char, 2)) else None
    else if b[0] < 0xF0 then
      if |b| < 3 || !IsContinuation(b[1]) || !IsContinuation(b[2]) then None
      else
        var n: int := Payload(b[0], 0xE0) * 4096 + Payload(b[1], 0x80) * 64 + Payload(b[2], 0x80);
        if 0x800 <= n && IsScalar(n) then Some((n as char, 3)) else None
    else if b[0] < 0xF8 then
      if |b| < 4 || !IsContinuation(b[1]) || !IsContinuation(b[2]) || !IsContinuation(b[3]) then None
      else
        var n: int := Payload(b[0], 0xF0) * 262144 + Payload(b[1], 0x80) * 4096 + Payload(b[2], 0x80) * 64 + Payload(b[3], 0x80);
        if 0x1_0000 <= n && IsScalar(n) then Some((n as char, 4)) else None
    else None
  }

  // bytes.decode("utf-8"): all of b or nothing.
  function Decode(b: Bytes): Option<string> {
    if b == [] then Some([])
    else match DecodeChar(b)
      case None => None
      case Some(head) =>
        match Decode(b[head.1..])
        case None => None
        case Some(tail) => Some([head.0] + tail)
  }

  // bytes.decode("utf-8", errors="ignore"): bytes that start no character are dropped.
  function DecodeIgnore(b: Bytes): string {
    if b == [] then []
    else match DecodeChar(b)
      case None => DecodeIgnore(b[1..])
      case Some(head) => [head.0] + DecodeIgnore(b[head.1..])
  }

  // ---------- Round trip ----------

  // The digits in base 64 (and 4096, 262144) put back together.
  lemma Base64Digits(n: nat)
    ensures n == n / 64 * 64 + n % 64
    ensures n == n / 4096 * 4096 + n / 64 % 64 * 64 + n % 64
    ensures n == n / 262144 * 262144 + n / 4096 % 64 * 4096 + n / 64 % 64 * 64 + n % 64
  {
    assert n / 64 / 64 == n / 4096;
    assert n / 4096 / 64 == n / 262144;
  }

  lemma DecodeCharInverts(c: char, rest: Bytes)
    ensures DecodeChar(EncodeChar(c) + rest) == Some((c, |EncodeChar(c)|))
  {
    var n := c as int;
    var head := EncodeChar(c);
    var b := head + rest;
    assert forall i :: 0 <= i < |head| ==> b[i] == head[i];
    Base64Digits(n);
    assert (n as char) == c;
  }

  lemma {:induction false} DecodeInverts(s: string)
    ensures Decode(Encode(s)) == Some(s)
  {
    if s != [] {
      DecodeCharInverts(s[0], Encode(s[1..]));
      assert Encode(s)[|EncodeChar(s[0])|..] == Encode(s[1..]);
      DecodeInverts(s[1..]);
      assert [s[0]] + s[1..] == s;
    }
  }

  lemma {:induction false} EncodeAppend(a: string, b: string)
    ensures Encode(a + b) == Encode(a) + Encode(b)
  {
    if a == [] {
      assert a + b == b;
    } else {
      assert (a + b)[1..] == a[1..] + b;
      EncodeAppend(a[1..], b);
    }
  }

  // ---------- Character boundaries ----------

  lemma EncodeCharShape(c: char)
    ensures !IsContinuation(EncodeChar(c)[0])
    ensures forall i :: 1 <= i < |EncodeChar(c)| ==> IsContinuation(EncodeChar(c)[i])
  {
  }

  lemma EncodeOne(s: string, k: nat)
    requires 1 <= k <= |s|
    ensures Encode(s[..k]) == EncodeChar(s[0]) + Encode(s[1..][..k - 1])
  {
    assert s[..k][1..] == s[1..][..k - 1];
  }

  // An offset that the paging code accepts (the end, or a byte that is no
  // continuation byte) is exactly the encoded length of a prefix of the text.
  lemma {:induction false} Boundary(s: string, o: nat) returns (k: nat)
    requires o <= ByteLen(s)
    requires o == ByteLen(s) || !IsContinuation(Encode(s)[o])
    ensures k <= |s| && ByteLen(s[..k]) == o
  {
    if o == 0 {
      k := 0;
    } else {
      var head := EncodeChar(s[0]);
      EncodeCharShape(s[0]);
      assert forall i :: 0 <= i < |head| ==> Encode(s)[i] == head[i];
      assert o >= |head|;
      var j := Boundary(s[1..], o - |head|);
      k := j + 1;
      EncodeOne(s, k);
    }
  }

  lemma PrefixIsBoundary(s: string, k: nat)
    requires k <= |s|
    ensures ByteLen(s[..k]) <= ByteLen(s)
    ensures Encode(s)[..ByteLen(s[..k])] == Encode(s[..k])
    ensures ByteLen(s[..k]) == ByteLen(s) || !IsContinuation(Encode(s)[ByteLen(s[..k])])
  {
    assert s == s[..k] + s[k..];
    EncodeAppend(s[..k], s[k..]);
    if k < |s| {
      EncodeCharShape(s[k]);
      assert Encode(s[k..])[0] == EncodeChar(s[k])[0];
    }
  }

  // ---------- Excerpts: value.encode()[:size].decode(errors="ignore") ----------

  function Excerpt(s: string, size: nat): string {
    DecodeIgnore(Encode(s)[..if size <= ByteLen(s) then size else ByteLen(s)])
  }

  // A cut sequence starts no character, so it disappears byte by byte.
  lemma {:induction false} CutCharDisappears(c: char, n: nat)
    requires n < |EncodeChar(c)|
    ensures DecodeIgnore(EncodeChar(c)[..n]) == []
  {
    EncodeCharShape(c);
    var b := EncodeChar(c)[..n];
    if n > 0 {
      assert DecodeChar(b) == None;
      ContinuationsDisappear(b[1..]);
    }
  }

  lemma {:induction false} ContinuationsDisappear(b: Bytes)
    requires forall i :: 0 <= i < |b| ==> IsContinuation(b[i])
    ensures DecodeIgnore(b) == []
  {
    if b != [] {
      assert DecodeChar(b) == None;
      ContinuationsDisappear(b[1..]);
    }
  }

  lemma DecodeIgnoreStep(c: char, rest: Bytes)
    ensures DecodeIgnore(EncodeChar(c) + rest) == [c] + DecodeIgnore(rest)
  {
    DecodeCharInverts(c, rest);
    assert (EncodeChar(c) + rest)[|EncodeChar(c)|..] == rest;
  }

  lemma ExcerptStep(s: string, size: nat)
    requires s != []
    ensures size < |EncodeChar(s[0])| ==> Excerpt(s, size) == []
    ensures |EncodeChar(s[0])| <= size ==> Excerpt(s, size) == [s[0]] + Excerpt(s[1..], size - |EncodeChar(s[0])|)
  {
    var head := EncodeChar(s[0]);
    var cut := if size <= ByteLen(s) then size else ByteLen(s);
    if size < |head| {
      assert Encode(s)[..cut] == head[..cut];
      CutCharDisappears(s[0], cut);
    } else {
      assert Encode(s)[..cut] == head + Encode(s[1..])[..cut - |head|];
      DecodeIgnoreStep(s[0], Encode(s[1..])[..cut - |head|]);
    }
  }

  // How many characters of the text fit in `size` bytes.
  function Fitting(s: string, size: nat): (k: nat)
    ensures k <= |s|
  {
    if s == [] || size < |EncodeChar(s[0])| then 0
    else 1 + Fitting(s[1..], size - |EncodeChar(s[0])|)
  }

  lemma {:induction false} FittingFits(s: string, size: nat)
    ensures ByteLen(s[..Fitting(s, size)]) <= size
  {
    var k := Fitting(s, size);
    if k > 0 {
      FittingFits(s[1..], size - |EncodeChar(s[0])|);
      EncodeOne(s, k);
    }
  }

  lemma {:induction false} FittingIsMost(s: string, size: nat)
    ensures forall j :: Fitting(s, size) < j <= |s| ==> ByteLen(s[..j]) > size
  {
    forall j | Fitting(s, size) < j <= |s| ensures ByteLen(s[..j]) > size {
      EncodeOne(s, j);
      if |EncodeChar(s[0])| <= size {
        FittingIsMost(s[1..], size - |EncodeChar(s[0])|);
      }
    }
  }

  lemma {:induction false} ExcerptIsFitting(s: string, size: nat)
    ensures Excerpt(s, size) == s[..Fitting(s, size)]
  {
    if s != [] {
      ExcerptStep(s, size);
      if |EncodeChar(s[0])| <= size {
        ExcerptIsFitting(s[1..], size - |EncodeChar(s[0])|);
        assert s[..Fitting(s, size)] == [s[0]] + s[1..][..Fitting(s, size) - 1];
      }
    }
  }

  // The excerpt is the longest prefix of the text that fits in `size` bytes.
  lemma ExcerptIsLongestFittingPrefix(s: string, size: nat)
    ensures Excerpt(s, size) == s[..Fitting(s, size)]
    ensures ByteLen(Excerpt(s, size)) <= size
    ensures forall j :: Fitting(s, size) < j <= |s| ==> ByteLen(s[..j]) > size
  {
    ExcerptIsFitting(s, size);
    FittingFits(s, size);
    FittingIsMost(s, size);
  }
}
