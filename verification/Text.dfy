// The str methods the services lean on: strip(), lstrip(), count() and find().
module Text {

  // str.isspace(), the characters strip() removes.
  predicate IsSpace(c: char) {
    var n := c as int;
    || 9 <= n <= 13 || 28 <= n <= 32 || n == 0x85 || n == 0xA0 || n == 0x1680
    || 0x2000 <= n <= 0x200A || n == 0x2028 || n == 0x2029 || n == 0x202F || n == 0x205F || n == 0x3000
  }

  function StripLeft(s: string, drop: char -> bool): string {
    if s != [] && drop(s[0]) then StripLeft(s[1..], drop) else s
  }

  function StripRight(s: string, drop: char -> bool): string {
    if s != [] && drop(s[|s| - 1]) then StripRight(s[..|s| - 1], drop) else s
  }

  function Strip(s: string): string {
    StripRight(StripLeft(s, IsSpace), IsSpace)
  }

  // A text is left alone exactly when it does not begin or end with white space.
  lemma StripFixes(s: string)
    ensures Strip(s) == s <==> s == [] || (!IsSpace(s[0]) && !IsSpace(s[|s| - 1]))
  {
    StripLeftShorter(s, IsSpace);
    StripRightShorter(StripLeft(s, IsSpace), IsSpace);
    if Strip(s) == s {
      assert StripLeft(s, IsSpace) == s;
    }
  }

  lemma {:induction false} StripLeftShorter(s: string, drop: char -> bool)
    ensures |StripLeft(s, drop)| <= |s|
    ensures StripLeft(s, drop) == s <==> |StripLeft(s, drop)| == |s|
    ensures |StripLeft(s, drop)| == |s| <==> s == [] || !drop(s[0])
  {
    if s != [] && drop(s[0]) {
      StripLeftShorter(s[1..], drop);
    }
  }

  lemma {:induction false} StripRightShorter(s: string, drop: char -> bool)
    ensures |StripRight(s, drop)| <= |s|
    ensures StripRight(s, drop) == s <==> |StripRight(s, drop)| == |s|
    ensures |StripRight(s, drop)| == |s| <==> s == [] || !drop(s[|s| - 1])
  {
    if s != [] && drop(s[|s| - 1]) {
      StripRightShorter(s[..|s| - 1], drop);
    }
  }

  lemma {:induction false} StripLeftHead(s: string, drop: char -> bool)
    ensures StripLeft(s, drop) == [] || !drop(StripLeft(s, drop)[0])
  {
    if s != [] && drop(s[0]) {
      StripLeftHead(s[1..], drop);
    }
  }
}
