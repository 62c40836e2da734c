/** Searching and cutting text. */
module Text {

  import opened Wrappers

  /** The position of the first c in s, or |s|. */
  function Find(s: string, c: char): (n: nat)
    ensures n <= |s| && c !in s[..n] && (n < |s| ==> s[n] == c)
  {
    if s == "" || s[0] == c then 0
    else
      var n := Find(s[1..], c);
      assert s[..n + 1] == [s[0]] + s[1..][..n];
      n + 1
  }

  lemma {:induction false} FindIn(p: string, c: char, rest: string)
    requires c !in p && (rest == "" || rest[0] == c)
    ensures Find(p + rest, c) == |p|
  {
    if p != "" {
      assert (p + rest)[1..] == p[1..] + rest;
      FindIn(p[1..], c, rest);
    } else {
      assert p + rest == rest;
    }
  }

  /** The text after the given prefix. */
  function After(prefix: string, s: string): Option<string> {
    if prefix <= s then Some(s[|prefix|..]) else None
  }

  lemma SplitAt(a: string, c: char, b: string)
    requires c !in a
    ensures var text := a + [c] + b;
      Find(text, c) == |a| < |text| && text[..|a|] == a && text[|a| + 1..] == b
  {
    assert a + [c] + b == a + ([c] + b);
    FindIn(a, c, [c] + b);
  }

  lemma Associative(a: string, b: string, c: string)
    ensures (a + b) + c == a + (b + c)
  {
  }
}
