/** The unique key of a DIRECT conversation: the two ids in order, joined by ":". */
module DirectKeys {
  import opened Strings

  function DirectKey(a: string, b: string): string {
    if Less(a, b) then a + ":" + b else b + ":" + a
  }

  predicate Plain(id: string) { ':' !in id }

  /** Either of the two may start the conversation. */
  lemma KeyIsSymmetric(a: string, b: string)
    ensures DirectKey(a, b) == DirectKey(b, a)
  {
    LessIsTotal(a, b);
    if Less(a, b) && Less(b, a) {
      LessIsTransitive(a, b, a);
      LessIsStrict(a);
    }
  }

  /** A joined string of ids without ":" splits one way only. */
  lemma JoinSplitsOnce(a: string, b: string, c: string, d: string)
    requires Plain(a) && Plain(c) && a + ":" + b == c + ":" + d
    ensures a == c && b == d
  {
    var (s, t) := (a + ":" + b, c + ":" + d);
    assert forall i | 0 <= i < |a| :: s[i] == a[i] && s[i] != ':';
    assert forall i | 0 <= i < |c| :: t[i] == c[i] && t[i] != ':';
    assert s[|a|] == ':' && t[|c|] == ':';
    assert |a| == |c|;
    assert a == s[..|a|] && c == t[..|c|] && b == s[|a|+1..] && d == t[|c|+1..];
  }

  /** No other pair of ids without ":" has the same key. */
  lemma KeyNamesOnePair(a: string, b: string, c: string, d: string)
    requires Plain(a) && Plain(b) && Plain(c) && Plain(d)
    ensures DirectKey(a, b) == DirectKey(c, d) <==> {a, b} == {c, d}
  {
    if DirectKey(a, b) == DirectKey(c, d) {
      JoinSplitsOnce(
        if Less(a, b) then a else b, if Less(a, b) then b else a,
        if Less(c, d) then c else d, if Less(c, d) then d else c);
    } else {
      KeyIsSymmetric(a, b);
      assert a in {a, b} && b in {a, b} && c in {c, d} && d in {c, d};
    }
  }

  /** With a ":" in an id, two pairs with no id in common can share a key. */
  lemma ColonsCollide()
    ensures DirectKey("a", "b:c") == DirectKey("a:b", "c")
    ensures {"a", "b:c"} !! {"a:b", "c"}
  {
    assert DirectKey("a", "b:c") == "a:b:c";
    assert DirectKey("a:b", "c") == "a:b:c";
    assert |"a"| != |"a:b"| && |"b:c"| != |"c"| && "a"[0] != "c"[0] && "a:b"[0] != "b:c"[0];
  }
}
