// The UTF-8 size of canonical JSON, part by part: what app/context_compaction.py calls
// _bytes. It does not depend on the order of object members, and a member or an item
// that is replaced changes it by the difference of the two.
module CanonicalSize {
  import opened Prelude
  import opened Utf8
  import opened Ordering
  import opened Dict
  import opened Canonical

  function Size(v: Json): nat
    decreases v, 1
  {
    match v
    case Null => 4
    case Bool(b) => if b then 4 else 5
    case Num(n) => ByteLen(PrintInt(n))
    case Str(s) => ByteLen(PrintString(s))
    case Arr(items) => if items == [] then 2 else 1 + ItemsSum(items)
    case Obj(ms) => if ms == [] then 2 else 1 + MembersSum(ms)
  }

  // Each item with the comma or bracket after it.
  function ItemsSum(items: seq<Json>): nat
    decreases items, 0
  {
    if items == [] then 0 else Size(items[0]) + 1 + ItemsSum(items[1..])
  }

  function MembersSum(ms: Members): nat
    decreases ms, 0
  {
    if ms == [] then 0 else MemberSize(ms[0]) + 1 + MembersSum(ms[1..])
  }

  function MemberSize(m: (string, Json)): nat
    decreases m, 0
  {
    ByteLen(PrintString(m.0)) + 1 + Size(m.1)
  }

  // ---------- Size is the size of the text ----------

  lemma ByteLenAppend(a: string, b: string)
    ensures ByteLen(a + b) == ByteLen(a) + ByteLen(b)
  {
    EncodeAppend(a, b);
  }

  lemma OneByte(c: char)
    requires c as int < 128
    ensures ByteLen([c]) == 1
  {
    assert [c][1..] == [];
    assert Encode([c]) == EncodeChar(c) + [];
  }

  lemma Literals()
    ensures ByteLen("null") == 4 && ByteLen("true") == 4 && ByteLen("false") == 5
  {
    Word("null", 'n', "ull"); Word("ull", 'u', "ll"); Word("ll", 'l', "l"); OneByte('l');
    Word("true", 't', "rue"); Word("rue", 'r', "ue"); Word("ue", 'u', "e"); OneByte('e');
    Word("false", 'f', "alse"); Word("alse", 'a', "lse"); Word("lse", 'l', "se"); Word("se", 's', "e");
  }

  lemma Word(s: string, c: char, rest: string)
    requires s == [c] + rest && c as int < 128
    ensures ByteLen(s) == 1 + ByteLen(rest)
  {
    ByteLenAppend([c], rest);
    OneByte(c);
  }

  lemma {:induction false} PrintedSize(v: Json)
    ensures ByteLen(Print(v)) == Size(v)
    decreases v, 1
  {
    Literals();
    match v
    case Arr(items) =>
      Word(Print(v), '[', PrintItems(items));
      PrintedItems(items);
    case Obj(ms) =>
      Word(Print(v), '{', PrintMembers(ms));
      PrintedMembers(ms);
    case _ =>
  }

  lemma {:induction false} PrintedItems(items: seq<Json>)
    ensures ByteLen(PrintItems(items)) == if items == [] then 1 else ItemsSum(items)
    decreases items, 0
  {
    OneByte(']');
    if items != [] {
      PrintedSize(items[0]);
      var tail := if |items| == 1 then "]" else "," + PrintItems(items[1..]);
      ByteLenAppend(Print(items[0]), tail);
      if |items| > 1 {
        PrintedItems(items[1..]);
        Word(tail, ',', PrintItems(items[1..]));
      }
    }
  }

  lemma {:induction false} PrintedMembers(ms: Members)
    ensures ByteLen(PrintMembers(ms)) == if ms == [] then 1 else MembersSum(ms)
    decreases ms, 0
  {
    OneByte('}');
    if ms != [] {
      PrintedMember(ms[0]);
      var tail := if |ms| == 1 then "}" else "," + PrintMembers(ms[1..]);
      ByteLenAppend(PrintMember(ms[0]), tail);
      if |ms| > 1 {
        PrintedMembers(ms[1..]);
        Word(tail, ',', PrintMembers(ms[1..]));
      }
    }
  }

  lemma {:induction false} PrintedMember(m: (string, Json))
    ensures ByteLen(PrintMember(m)) == MemberSize(m)
    decreases m, 0
  {
    PrintedSize(m.1);
    ByteLenAppend(PrintString(m.0) + ":", Print(m.1));
    ByteLenAppend(PrintString(m.0), ":");
    OneByte(':');
  }

  // ---------- Ordering the members leaves it ----------

  lemma {:induction false} InsertSum(m: (string, Json), ms: Members)
    ensures MembersSum(Insert(m, ms)) == MembersSum([m] + ms)
  {
    assert ([m] + ms)[1..] == ms;
    if ms != [] && !Less(m.0, ms[0].0) {
      InsertSum(m, ms[1..]);
      assert ([m] + ms[1..])[1..] == ms[1..];
    }
  }

  lemma {:induction false} SortSum(ms: Members)
    ensures MembersSum(Sort(ms)) == MembersSum(ms) && |Sort(ms)| == |ms|
  {
    SortLength(ms);
    if ms != [] {
      SortSum(ms[1..]);
      InsertSum(ms[0], Sort(ms[1..]));
      assert ([ms[0]] + Sort(ms[1..]))[1..] == Sort(ms[1..]);
    }
  }

  lemma {:induction false} NormalSize(v: Json)
    ensures Size(JsonValue(v)) == Size(v)
    decreases v, 1
  {
    match v
    case Arr(items) => NormalItems(items);
    case Obj(ms) =>
      NormalMembers(ms);
      SortSum(MemberValues(ms));
    case _ =>
  }

  lemma {:induction false} NormalItems(items: seq<Json>)
    ensures ItemsSum(ItemValues(items)) == ItemsSum(items)
    decreases items, 0
  {
    if items != [] {
      NormalSize(items[0]);
      NormalItems(items[1..]);
      assert ItemValues(items)[1..] == ItemValues(items[1..]);
    }
  }

  lemma {:induction false} NormalMembers(ms: Members)
    ensures MembersSum(MemberValues(ms)) == MembersSum(ms)
    decreases ms, 0
  {
    if ms != [] {
      NormalMember(ms[0]);
      NormalMembers(ms[1..]);
      assert MemberValues(ms)[1..] == MemberValues(ms[1..]);
    }
  }

  lemma {:induction false} NormalMember(m: (string, Json))
    ensures MemberSize(MemberValue(m)) == MemberSize(m)
    decreases m, 0
  {
    NormalSize(m.1);
  }

  lemma SizeIsCanonical(v: Json)
    ensures ByteLen(CanonicalJson(v)) == Size(v)
  {
    PrintedSize(JsonValue(JsonValue(v)));
    NormalSize(JsonValue(v));
    NormalSize(v);
  }

  // ---------- Replacing a part ----------

  lemma {:induction false} PutSum(d: Members, k: string, v: Json)
    ensures match Get(d, k)
      case Some(w) => MembersSum(Put(d, k, v)) + Size(w) == MembersSum(d) + Size(v) && Put(d, k, v) != []
      case None => MembersSum(Put(d, k, v)) == MembersSum(d) + ByteLen(PrintString(k)) + 2 + Size(v)
  {
    if d != [] && d[0].0 != k {
      PutSum(d[1..], k, v);
      assert Put(d, k, v)[1..] == Put(d[1..], k, v);
    } else if d != [] {
      assert Put(d, k, v)[1..] == d[1..];
    } else {
      assert Put(d, k, v)[1..] == [];
    }
  }

  // A value that a key holds is replaced: the object grows by the difference.
  lemma PutSize(d: Members, k: string, v: Json)
    requires Get(d, k).Some?
    ensures Size(Obj(Put(d, k, v))) + Size(Get(d, k).value) == Size(Obj(d)) + Size(v)
  {
    PutSum(d, k, v);
    assert d != [];
  }
}
