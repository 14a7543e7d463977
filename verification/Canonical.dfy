// app/provenance.py: the canonical JSON text that every hash in the system is
// taken over, and the parser (sections 4 to 7 of RFC 8259, no white space) that
// shows it loses nothing but the insertion order of object members.
module Canonical {
  import opened Prelude
  import opened Ordering

  // String-keyed JSON values. An object is a Python dict: distinct keys, in
  // insertion order.
  datatype Json =
    | Null
    | Bool(b: bool)
    | Num(n: int)
    | Str(s: string)
    | Arr(items: seq<Json>)
    | Obj(members: Members)

  type Members = seq<(string, Json)>

  // Every object in the value has distinct keys, as a dict has.
  predicate Unique(v: Json) {
    match v
    case Arr(items) => forall x | x in items :: Unique(x)
    case Obj(ms) => DistinctKeys(ms) && forall m | m in ms :: Unique(m.1)
    case _ => true
  }

  // Equality of Python values: dicts compare without regard to insertion order.
  predicate Same(v: Json, w: Json)
    decreases v
  {
    match (v, w)
    case (Arr(a), Arr(b)) => |a| == |b| && forall i | 0 <= i < |a| :: Same(a[i], b[i])
    case (Obj(a), Obj(b)) =>
      |a| == |b| && forall i | 0 <= i < |a| ::
        var j := KeyIndex(b, a[i].0); j < |b| && Same(a[i].1, b[j].1)
    case _ => v == w && !v.Arr? && !v.Obj?
  }

  // Where a dict holds a key; its size when it does not.
  function KeyIndex(ms: Members, key: string): (j: nat)
    ensures j <= |ms| && (j < |ms| ==> ms[j].0 == key)
    ensures forall k :: 0 <= k < j ==> ms[k].0 != key
  {
    if ms == [] || ms[0].0 == key then 0 else 1 + KeyIndex(ms[1..], key)
  }

  // ---------- _json_value ----------

  function JsonValue(v: Json): Json {
    match v
    case Arr(items) => Arr(ItemValues(items))
    case Obj(ms) => Obj(Sort(MemberValues(ms)))
    case _ => v
  }

  function ItemValues(items: seq<Json>): (r: seq<Json>)
    ensures |r| == |items|
    ensures forall i :: 0 <= i < |r| ==> r[i] == JsonValue(items[i])
  {
    if items == [] then [] else [JsonValue(items[0])] + ItemValues(items[1..])
  }

  function MemberValues(ms: Members): (r: Members)
    ensures |r| == |ms|
    ensures forall i :: 0 <= i < |r| ==> r[i] == MemberValue(ms[i])
  {
    if ms == [] then [] else [MemberValue(ms[0])] + MemberValues(ms[1..])
  }

  function MemberValue(m: (string, Json)): (string, Json) {
    (m.0, JsonValue(m.1))
  }

  // ---------- json.dumps ----------

  function Digit(n: nat): char
    requires n < 10
  {
    '0' + n as char
  }

  function PrintNat(n: nat): string {
    if n < 10 then [Digit(n)] else PrintNat(n / 10) + [Digit(n % 10)]
  }

  function PrintInt(n: int): string {
    if n < 0 then "-" + PrintNat(-n) else PrintNat(n)
  }

  function HexDigit(n: nat): char
    requires n < 16
  {
    "0123456789abcdef"[n]
  }

  // ensure_ascii=False escapes the quote, the backslash and the controls only.
  function EscapeChar(c: char): string {
    if c == '\"' then "\\\""
    else if c == '\\' then "\\\\"
    else if c == '\n' then "\\n"
    else if c == '\r' then "\\r"
    else if c == '\t' then "\\t"
    else if c as int == 8 then "\\b"
    else if c as int == 12 then "\\f"
    else if c as int < 32 then "\\u00" + [HexDigit(c as int / 16), HexDigit(c as int % 16)]
    else [c]
  }

  function Escape(s: string): string {
    if s == [] then [] else EscapeChar(s[0]) + Escape(s[1..])
  }

  function PrintString(s: string): string {
    "\"" + Escape(s) + "\""
  }

  function Print(v: Json): string
    decreases v, 1
  {
    match v
    case Null => "null"
    case Bool(b) => if b then "true" else "false"
    case Num(n) => PrintInt(n)
    case Str(s) => PrintString(s)
    case Arr(items) => "[" + PrintItems(items)
    case Obj(ms) => "{" + PrintMembers(ms)
  }

  // The items and the closing bracket.
  function PrintItems(items: seq<Json>): string
    decreases items, 0
  {
    if items == [] then "]"
    else Print(items[0]) + if |items| == 1 then "]" else "," + PrintItems(items[1..])
  }

  function PrintMembers(ms: Members): string
    decreases ms, 0
  {
    if ms == [] then "}"
    else PrintMember(ms[0]) + if |ms| == 1 then "}" else "," + PrintMembers(ms[1..])
  }

  function PrintMember(m: (string, Json)): string
    decreases m, 0
  {
    PrintString(m.0) + ":" + Print(m.1)
  }

  // canonical_json: _json_value orders the keys of every object, and dumps with
  // sort_keys=True orders them once more.
  function CanonicalJson(v: Json): string {
    Print(JsonValue(JsonValue(v)))
  }

  // content_hash, over the digest function the deployment uses.
  function ContentHash(sha: string -> string, v: Json): string {
    sha(CanonicalJson(v))
  }

  // ---------- The parser ----------

  predicate IsDigit(c: char) { '0' <= c <= '9' }

  function DigitCount(s: string): (k: nat)
    ensures k <= |s|
  {
    if s == [] || !IsDigit(s[0]) then 0 else 1 + DigitCount(s[1..])
  }

  function ValueOf(ds: string): int {
    if ds == [] then 0 else 10 * ValueOf(ds[..|ds| - 1]) + (ds[|ds| - 1] as int - '0' as int)
  }

  // Digits without a superfluous leading zero.
  function ReadNat(s: string): (r: Option<(int, string)>)
    ensures r.Some? ==> |r.value.1| < |s|
  {
    var k := DigitCount(s);
    if k == 0 || (k > 1 && s[0] == '0') then None else Some((ValueOf(s[..k]), s[k..]))
  }

  function HexValue(c: char): Option<int> {
    if IsDigit(c) then Some(c as int - '0' as int)
    else if 'a' <= c <= 'f' then Some(c as int - 'a' as int + 10)
    else if 'A' <= c <= 'F' then Some(c as int - 'A' as int + 10)
    else None
  }

  function ReadHex4(s: string): Option<char>
    requires |s| == 4
  {
    match (HexValue(s[0]), HexValue(s[1]), HexValue(s[2]), HexValue(s[3]))
    case (Some(a), Some(b), Some(c), Some(d)) =>
      var n := a * 4096 + b * 256 + c * 16 + d;
      if 0 <= n < 0xD800 || 0xE000 <= n < 0x1_0000 then Some(n as char) else None
    case _ => None
  }

  function Unescape(c: char): Option<char> {
    if c == '\"' || c == '\\' || c == '/' then Some(c)
    else if c == 'n' then Some('\n')
    else if c == 'r' then Some('\r')
    else if c == 't' then Some('\t')
    else if c == 'b' then Some(8 as char)
    else if c == 'f' then Some(12 as char)
    else None
  }

  // One character of a string body: the character and what it took.
  function ReadChar(s: string): (r: Option<(char, nat)>)
    ensures r.Some? ==> 1 <= r.value.1 <= |s|
  {
    if s == [] || s[0] == '\"' || s[0] as int < 32 then None
    else if s[0] != '\\' then Some((s[0], 1))
    else if |s| < 2 then None
    else if s[1] == 'u' then
      if |s| < 6 then None
      else match ReadHex4(s[2..6]) case Some(c) => Some((c, 6)) case None => None
    else match Unescape(s[1]) case Some(c) => Some((c, 2)) case None => None
  }

  // A string body up to and including its closing quote.
  function ReadBody(s: string): (r: Option<(string, string)>)
    ensures r.Some? ==> |r.value.1| < |s|
  {
    if s != [] && s[0] == '\"' then Some(([], s[1..]))
    else match ReadChar(s)
      case None => None
      case Some(head) =>
        match ReadBody(s[head.1..])
        case None => None
        case Some(tail) => Some(([head.0] + tail.0, tail.1))
  }

  function ReadString(s: string): (r: Option<(string, string)>)
    ensures r.Some? ==> |r.value.1| < |s|
  {
    if s != [] && s[0] == '\"' then ReadBody(s[1..]) else None
  }

  predicate StartsWith(s: string, literal: string) {
    |literal| <= |s| && s[..|literal|] == literal
  }

  function ReadValue(s: string): (r: Option<(Json, string)>)
    ensures r.Some? ==> |r.value.1| < |s|
    decreases |s|, 1
  {
    if StartsWith(s, "null") then Some((Null, s[4..]))
    else if StartsWith(s, "true") then Some((Bool(true), s[4..]))
    else if StartsWith(s, "false") then Some((Bool(false), s[5..]))
    else if s == [] then None
    else if s[0] == '-' then
      match ReadNat(s[1..]) case Some(r) => Some((Num(-r.0), r.1)) case None => None
    else if IsDigit(s[0]) then
      match ReadNat(s) case Some(r) => Some((Num(r.0), r.1)) case None => None
    else if s[0] == '\"' then
      match ReadString(s) case Some(r) => Some((Str(r.0), r.1)) case None => None
    else if s[0] == '[' then
      match ReadItems(s[1..], true) case Some(r) => Some((Arr(r.0), r.1)) case None => None
    else if s[0] == '{' then
      match ReadMembers(s[1..], true) case Some(r) => Some((Obj(r.0), r.1)) case None => None
    else None
  }

  // Items up to the closing bracket; only right after "[" may there be none.
  function ReadItems(s: string, first: bool): (r: Option<(seq<Json>, string)>)
    ensures r.Some? ==> |r.value.1| < |s|
    decreases |s|, 2
  {
    if first && s != [] && s[0] == ']' then Some(([], s[1..]))
    else match ReadValue(s)
      case None => None
      case Some(head) =>
        var rest := head.1;
        if rest == [] then None
        else if rest[0] == ']' then Some(([head.0], rest[1..]))
        else if rest[0] != ',' then None
        else match ReadItems(rest[1..], false)
          case None => None
          case Some(tail) => Some(([head.0] + tail.0, tail.1))
  }

  function ReadMembers(s: string, first: bool): (r: Option<(Members, string)>)
    ensures r.Some? ==> |r.value.1| < |s|
    decreases |s|, 2
  {
    if first && s != [] && s[0] == '}' then Some(([], s[1..]))
    else match ReadString(s)
      case None => None
      case Some(key) =>
        if key.1 == [] || key.1[0] != ':' then None
        else match ReadValue(key.1[1..])
          case None => None
          case Some(head) =>
            var rest := head.1;
            if rest == [] then None
            else if rest[0] == '}' then Some(([(key.0, head.0)], rest[1..]))
            else if rest[0] != ',' then None
            else match ReadMembers(rest[1..], false)
              case None => None
              case Some(tail) => Some(([(key.0, head.0)] + tail.0, tail.1))
  }

  // A whole text is one value and nothing after it.
  function Parse(s: string): Option<Json> {
    match ReadValue(s)
    case Some(r) => if r.1 == [] then Some(r.0) else None
    case None => None
  }

  // ---------- Reading back what was printed ----------

  // What may follow a number without being read as part of it.
  predicate Stops(rest: string) {
    rest == [] || !IsDigit(rest[0])
  }

  lemma {:induction false} PrintNatShape(n: nat)
    ensures PrintNat(n) != [] && forall c | c in PrintNat(n) :: IsDigit(c)
    ensures |PrintNat(n)| > 1 ==> PrintNat(n)[0] != '0'
    ensures n > 0 ==> PrintNat(n)[0] != '0'
    ensures ValueOf(PrintNat(n)) == n
  {
    if n >= 10 {
      PrintNatShape(n / 10);
      assert PrintNat(n)[..|PrintNat(n)| - 1] == PrintNat(n / 10);
    } else {
      assert ValueOf([Digit(n)]) == 10 * ValueOf([]) + n by { assert [Digit(n)][..0] == []; }
    }
  }

  lemma {:induction false} DigitCountOf(ds: string, rest: string)
    requires (forall c | c in ds :: IsDigit(c)) && Stops(rest)
    ensures DigitCount(ds + rest) == |ds|
  {
    if ds == [] {
      assert ds + rest == rest;
    } else {
      assert (ds + rest)[1..] == ds[1..] + rest;
      DigitCountOf(ds[1..], rest);
    }
  }

  lemma ReadNatInverts(n: nat, rest: string)
    requires Stops(rest)
    ensures ReadNat(PrintNat(n) + rest) == Some((n, rest))
  {
    PrintNatShape(n);
    DigitCountOf(PrintNat(n), rest);
    assert (PrintNat(n) + rest)[..|PrintNat(n)|] == PrintNat(n);
    assert (PrintNat(n) + rest)[|PrintNat(n)|..] == rest;
  }

  lemma ReadCharInverts(c: char, rest: string)
    ensures ReadChar(EscapeChar(c) + rest) == Some((c, |EscapeChar(c)|))
  {
    var s := EscapeChar(c) + rest;
    var n := c as int;
    assert forall i :: 0 <= i < |EscapeChar(c)| ==> s[i] == EscapeChar(c)[i];
    if |EscapeChar(c)| == 6 {
      var h := s[2..6];
      assert h[0] == '0' && h[1] == '0' && h[2] == HexDigit(n / 16) && h[3] == HexDigit(n % 16);
      HexInverts(n / 16);
      HexInverts(n % 16);
      assert n / 16 * 16 + n % 16 == n;
    }
  }

  lemma HexInverts(n: nat)
    requires n < 16
    ensures HexValue(HexDigit(n)) == Some(n)
  {
    assert HexDigit(n) == if n < 10 then ('0' as int + n) as char else ('a' as int + n - 10) as char;
  }

  lemma ReadBodyStep(c: char, tail: string)
    ensures ReadBody(EscapeChar(c) + tail) == match ReadBody(tail)
      case None => None
      case Some(r) => Some(([c] + r.0, r.1))
  {
    ReadCharInverts(c, tail);
    assert (EscapeChar(c) + tail)[|EscapeChar(c)|..] == tail;
    assert (EscapeChar(c) + tail)[0] == EscapeChar(c)[0];
  }

  lemma {:induction false} ReadBodyInverts(t: string, rest: string)
    ensures ReadBody(Escape(t) + "\"" + rest) == Some((t, rest))
  {
    if t == [] {
      assert Escape(t) + "\"" + rest == "\"" + rest;
      assert ("\"" + rest)[1..] == rest;
    } else {
      var tail := Escape(t[1..]) + "\"" + rest;
      assert Escape(t) + "\"" + rest == EscapeChar(t[0]) + tail;
      ReadBodyStep(t[0], tail);
      ReadBodyInverts(t[1..], rest);
      assert [t[0]] + t[1..] == t;
    }
  }

  lemma ReadStringInverts(t: string, rest: string)
    ensures ReadString(PrintString(t) + rest) == Some((t, rest))
  {
    var s := PrintString(t) + rest;
    assert s[1..] == Escape(t) + "\"" + rest;
    ReadBodyInverts(t, rest);
  }

  lemma LiteralsDiffer(s: string, literal: string)
    requires s != [] && literal != [] && s[0] != literal[0]
    ensures !StartsWith(s, literal)
  {
    if |literal| <= |s| {
      assert s[..|literal|][0] == s[0];
    }
  }

  lemma LiteralStarts(literal: string, rest: string)
    ensures StartsWith(literal + rest, literal) && (literal + rest)[|literal|..] == rest
  {
  }

  // The first character of a text decides which rule reads it.
  lemma ReadByFirst(c: char, t: string)
    requires c == '[' || c == '{' || c == '\"' || c == '-' || IsDigit(c)
    ensures ReadValue([c] + t) ==
      if c == '[' then (match ReadItems(t, true) case Some(r) => Some((Arr(r.0), r.1)) case None => None)
      else if c == '{' then (match ReadMembers(t, true) case Some(r) => Some((Obj(r.0), r.1)) case None => None)
      else if c == '\"' then (match ReadBody(t) case Some(r) => Some((Str(r.0), r.1)) case None => None)
      else if c == '-' then (match ReadNat(t) case Some(r) => Some((Num(-r.0), r.1)) case None => None)
      else (match ReadNat([c] + t) case Some(r) => Some((Num(r.0), r.1)) case None => None)
  {
    var s := [c] + t;
    assert s[1..] == t;
    LiteralsDiffer(s, "null");
    LiteralsDiffer(s, "true");
    LiteralsDiffer(s, "false");
  }

  lemma ReadIntInverts(n: int, rest: string)
    requires Stops(rest)
    ensures ReadValue(PrintInt(n) + rest) == Some((Num(n), rest))
  {
    var m: nat := if n < 0 then -n else n;
    var digits := PrintNat(m) + rest;
    PrintNatShape(m);
    assert digits[0] in PrintNat(m);
    ReadNatInverts(m, rest);
    if n < 0 {
      assert PrintInt(n) + rest == ['-'] + digits;
      ReadByFirst('-', digits);
    } else {
      assert digits == [digits[0]] + digits[1..];
      ReadByFirst(digits[0], digits[1..]);
    }
  }

  lemma ReadLeafInverts(v: Json, rest: string)
    requires Stops(rest) && !v.Arr? && !v.Obj?
    ensures ReadValue(Print(v) + rest) == Some((v, rest))
  {
    var s := Print(v) + rest;
    match v
    case Null => LiteralStarts("null", rest);
    case Bool(b) =>
      LiteralStarts(Print(v), rest);
      LiteralsDiffer(s, "null");
      if !b {
        LiteralsDiffer(s, "true");
      }
    case Num(n) => ReadIntInverts(n, rest);
    case Str(t) =>
      assert s == ['\"'] + (Escape(t) + "\"" + rest);
      ReadByFirst('\"', Escape(t) + "\"" + rest);
      ReadBodyInverts(t, rest);
  }

  lemma ReadArray(t: string, items: seq<Json>, rest: string)
    requires ReadItems(t, true) == Some((items, rest))
    ensures ReadValue(['['] + t) == Some((Arr(items), rest))
  {
    ReadByFirst('[', t);
  }

  lemma ReadObject(t: string, ms: Members, rest: string)
    requires ReadMembers(t, true) == Some((ms, rest))
    ensures ReadValue(['{'] + t) == Some((Obj(ms), rest))
  {
    ReadByFirst('{', t);
  }

  lemma PrintNested(v: Json, rest: string)
    ensures v.Arr? ==> Print(v) + rest == ['['] + (PrintItems(v.items) + rest)
    ensures v.Obj? ==> Print(v) + rest == ['{'] + (PrintMembers(v.members) + rest)
  {
  }

  lemma {:induction false} ReadValueInverts(v: Json, rest: string)
    requires Stops(rest)
    ensures ReadValue(Print(v) + rest) == Some((v, rest))
    decreases v, 2
  {
    PrintNested(v, rest);
    if v.Arr? {
      ReadItemsInverts(v.items, rest, true);
      ReadArray(PrintItems(v.items) + rest, v.items, rest);
    } else if v.Obj? {
      ReadMembersInverts(v.members, rest, true);
      ReadObject(PrintMembers(v.members) + rest, v.members, rest);
    } else {
      ReadLeafInverts(v, rest);
    }
  }

  lemma PrintStartsValue(v: Json)
    ensures Print(v) != [] && Print(v)[0] != ']' && Print(v)[0] != '}'
  {
    if v.Num? {
      var m := if v.n < 0 then -v.n else v.n;
      PrintNatShape(m);
      assert PrintNat(m)[0] in PrintNat(m);
    }
  }

  lemma {:induction false} ReadItemsInverts(items: seq<Json>, rest: string, first: bool)
    requires first || items != []
    ensures ReadItems(PrintItems(items) + rest, first) == Some((items, rest))
    decreases items, 1
  {
    var s := PrintItems(items) + rest;
    if items == [] {
      assert s[0] == ']' && s[1..] == rest;
    } else {
      var item := items[0];
      PrintStartsValue(item);
      var after := if |items| == 1 then "]" + rest else "," + (PrintItems(items[1..]) + rest);
      assert s == Print(item) + after;
      ReadValueInverts(item, after);
      assert s[0] == Print(item)[0];
      if |items| == 1 {
        assert after[1..] == rest && [item] == items;
      } else {
        assert after[1..] == PrintItems(items[1..]) + rest;
        ReadItemsInverts(items[1..], rest, false);
        assert [item] + items[1..] == items;
      }
    }
  }

  // A member is read as its key, the colon and its value.
  lemma {:induction false} ReadMemberInverts(m: (string, Json), after: string)
    requires Stops(after)
    ensures ReadString(PrintMember(m) + after) == Some((m.0, ":" + (Print(m.1) + after)))
    ensures ReadValue(Print(m.1) + after) == Some((m.1, after))
    ensures PrintMember(m)[0] == '\"'
    decreases m, 1
  {
    assert PrintMember(m) + after == PrintString(m.0) + (":" + (Print(m.1) + after));
    ReadStringInverts(m.0, ":" + (Print(m.1) + after));
    ReadValueInverts(m.1, after);
  }

  lemma ReadMembersStep(s: string, first: bool, key: string, v: Json, value: string, after: string)
    requires s != [] && s[0] == '\"' && ReadString(s) == Some((key, ":" + value))
    requires ReadValue(value) == Some((v, after)) && after != []
    ensures after[0] == '}' ==> ReadMembers(s, first) == Some(([(key, v)], after[1..]))
    ensures after[0] == ',' ==>
      ReadMembers(s, first) == match ReadMembers(after[1..], false)
        case None => None
        case Some(tail) => Some(([(key, v)] + tail.0, tail.1))
  {
    assert (":" + value)[1..] == value;
  }

  // What follows the first member of a printed object.
  function AfterMember(ms: Members, rest: string): string
    requires ms != []
  {
    if |ms| == 1 then "}" + rest else "," + (PrintMembers(ms[1..]) + rest)
  }

  lemma PrintMembersStep(ms: Members, rest: string)
    requires ms != []
    ensures PrintMembers(ms) + rest == PrintMember(ms[0]) + AfterMember(ms, rest)
  {
  }

  lemma {:induction false} ReadMembersInverts(ms: Members, rest: string, first: bool)
    requires first || ms != []
    ensures ReadMembers(PrintMembers(ms) + rest, first) == Some((ms, rest))
    decreases ms, 1
  {
    if ms == [] {
      assert ("}" + rest)[1..] == rest;
    } else {
      var m, after := ms[0], AfterMember(ms, rest);
      PrintMembersStep(ms, rest);
      ReadMemberInverts(m, after);
      ReadMembersStep(PrintMember(m) + after, first, m.0, m.1, Print(m.1) + after, after);
      if |ms| == 1 {
        assert after[1..] == rest && [(m.0, m.1)] == ms;
      } else {
        assert after[1..] == PrintMembers(ms[1..]) + rest;
        ReadMembersInverts(ms[1..], rest, false);
        assert [(m.0, m.1)] + ms[1..] == ms;
      }
    }
  }

  // ---------- Normal form ----------

  lemma {:induction false} JsonValueIdempotent(v: Json)
    requires Unique(v)
    ensures JsonValue(JsonValue(v)) == JsonValue(v)
  {
    match v
    case Arr(items) =>
      forall i | 0 <= i < |items| ensures JsonValue(JsonValue(items[i])) == JsonValue(items[i]) {
        assert items[i] in items;
        JsonValueIdempotent(items[i]);
      }
      assert ItemValues(ItemValues(items)) == ItemValues(items);
    case Obj(ms) =>
      var sorted := Sort(MemberValues(ms));
      SortSorts(MemberValues(ms));
      forall i | 0 <= i < |sorted| ensures MemberValues(sorted)[i] == sorted[i] {
        assert sorted[i] in sorted;
        SortMember(MemberValues(ms), sorted[i]);
        var j :| 0 <= j < |ms| && MemberValues(ms)[j] == sorted[i];
        assert ms[j] in ms;
        JsonValueIdempotent(ms[j].1);
      }
      assert MemberValues(sorted) == sorted;
      SortOfSorted(sorted);
    case _ =>
  }

  // The text of a value is one JSON text, and it parses to the value in normal form.
  lemma CanonicalParses(v: Json)
    requires Unique(v)
    ensures Parse(CanonicalJson(v)) == Some(JsonValue(v))
  {
    JsonValueIdempotent(v);
    ReadValueInverts(JsonValue(v), []);
    assert Print(JsonValue(v)) + [] == Print(JsonValue(v));
  }

  lemma {:induction false} NormalFormSame(v: Json, w: Json)
    requires Unique(w) && JsonValue(v) == JsonValue(w)
    ensures Same(v, w)
  {
    match (v, w)
    case (Arr(a), Arr(b)) =>
      assert ItemValues(a) == ItemValues(b);
      forall i | 0 <= i < |a| ensures Same(a[i], b[i]) {
        assert ItemValues(a)[i] == ItemValues(b)[i];
        assert b[i] in b;
        NormalFormSame(a[i], b[i]);
      }
    case (Obj(a), Obj(b)) =>
      SortLength(MemberValues(a));
      SortLength(MemberValues(b));
      forall i | 0 <= i < |a|
        ensures var j := KeyIndex(b, a[i].0); j < |b| && Same(a[i].1, b[j].1)
      {
        var j := MemberMoves(a, b, i);
        assert b[j] in b;
        NormalFormSame(a[i].1, b[j].1);
      }
    case _ =>
  }

  // Members that sort to the same list are found under their key in either dict.
  lemma MemberMoves(a: Members, b: Members, i: nat) returns (j: nat)
    requires DistinctKeys(b) && i < |a| && Sort(MemberValues(a)) == Sort(MemberValues(b))
    ensures j < |b| && KeyIndex(b, a[i].0) == j && MemberValue(a[i]) == MemberValue(b[j])
  {
    var na, nb := MemberValues(a), MemberValues(b);
    assert na[i] in na;
    SortMember(na, na[i]);
    SortMember(nb, na[i]);
    j :| 0 <= j < |nb| && nb[j] == na[i];
  }

  lemma {:induction false} SortLength<V>(s: seq<(string, V)>)
    ensures |Sort(s)| == |s|
  {
    if s != [] {
      SortMember(s, s[0]);
    }
  }

  lemma {:induction false} SameNormalForm(v: Json, w: Json)
    requires Unique(v) && Unique(w) && Same(v, w)
    ensures JsonValue(v) == JsonValue(w)
  {
    match (v, w)
    case (Arr(a), Arr(b)) =>
      forall i | 0 <= i < |a| ensures JsonValue(a[i]) == JsonValue(b[i]) {
        assert a[i] in a && b[i] in b;
        SameNormalForm(a[i], b[i]);
      }
      assert ItemValues(a) == ItemValues(b);
    case (Obj(a), Obj(b)) =>
      forall i | 0 <= i < |a|
        ensures var j := KeyIndex(b, a[i].0); j < |b| && MemberValue(a[i]) == MemberValue(b[j])
      {
        var j := KeyIndex(b, a[i].0);
        assert a[i] in a && b[j] in b;
        SameNormalForm(a[i].1, b[j].1);
      }
      SortsAgree(a, b);
    case _ =>
  }

  lemma SortsAgree(a: Members, b: Members)
    requires DistinctKeys(a) && DistinctKeys(b) && |a| == |b|
    requires forall i | 0 <= i < |a| ::
      var j := KeyIndex(b, a[i].0); j < |b| && MemberValue(a[i]) == MemberValue(b[j])
    ensures Sort(MemberValues(a)) == Sort(MemberValues(b))
  {
    var na, nb := MemberValues(a), MemberValues(b);
    forall x | x in na ensures x in nb {
      var i :| 0 <= i < |na| && na[i] == x;
      assert nb[KeyIndex(b, a[i].0)] == x;
    }
    SameElements(na, nb);
    SortSorts(na);
    SortSorts(nb);
    forall x ensures x in Sort(na) <==> x in Sort(nb) {
      SortMember(na, x);
      SortMember(nb, x);
    }
    SortedUnique(Sort(na), Sort(nb));
  }

  // Main result: two values have one canonical text exactly when they are equal as
  // Python values, that is, up to the insertion order of their dicts at every depth.
  lemma CanonicalInjective(v: Json, w: Json)
    requires Unique(v) && Unique(w)
    ensures CanonicalJson(v) == CanonicalJson(w) <==> Same(v, w)
  {
    CanonicalParses(v);
    CanonicalParses(w);
    JsonValueIdempotent(v);
    JsonValueIdempotent(w);
    if CanonicalJson(v) == CanonicalJson(w) {
      NormalFormSame(v, w);
    }
    if Same(v, w) {
      SameNormalForm(v, w);
    }
  }

  // Two records of the same fields are Same only when every field is.
  lemma RecordsAgree(a: Members, b: Members)
    requires |a| == |b| && DistinctKeys(a)
    requires forall i | 0 <= i < |a| :: a[i].0 == b[i].0
    requires Same(Obj(a), Obj(b))
    ensures forall i | 0 <= i < |a| :: Same(a[i].1, b[i].1)
  {
    forall i | 0 <= i < |a| ensures Same(a[i].1, b[i].1) {
      var j := KeyIndex(b, a[i].0);
      assert a[j].0 == b[j].0;
    }
  }

  // Two records of the same fields with one canonical text have the same field values.
  lemma RecordTextsAgree(a: Members, b: Members)
    requires |a| == |b| && Unique(Obj(a)) && Unique(Obj(b))
    requires forall i | 0 <= i < |a| :: a[i].0 == b[i].0
    requires CanonicalJson(Obj(a)) == CanonicalJson(Obj(b))
    ensures forall i | 0 <= i < |a| :: Same(a[i].1, b[i].1)
  {
    CanonicalInjective(Obj(a), Obj(b));
    RecordsAgree(a, b);
  }
}
