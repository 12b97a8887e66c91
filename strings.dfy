/** strings.Replace(s, old, "", 1) for a one-character old: drop the first occurrence only. */
module Strings {

  /** The position of the first c in s, or |s| when s has none. */
  function IndexOf(s: string, c: char): (i: nat)
    ensures i <= |s|
    ensures c !in s[..i]
    ensures i < |s| ==> s[i] == c
  {
    if s == [] then 0
    else if s[0] == c then 0
    else
      var j := IndexOf(s[1..], c);
      assert s[..1 + j] == [s[0]] + s[1..][..j];
      1 + j
  }

  /** s with its first c removed; s itself when it holds no c. */
  function RemoveFirst(s: string, c: char): (r: string)
    ensures IndexOf(s, c) == |s| ==> r == s
    ensures IndexOf(s, c) < |s| ==> r == s[..IndexOf(s, c)] + s[IndexOf(s, c) + 1..]
  {
    if s == [] then []
    else if s[0] == c then s[1..]
    else
      var t := s[1..];
      var j := IndexOf(t, c);
      assert j < |t| ==> [s[0]] + (t[..j] + t[j + 1..]) == s[..1 + j] + s[2 + j..] by {
        if j < |t| {
          assert s[..1 + j] == [s[0]] + t[..j];
          assert t[j + 1..] == s[2 + j..];
        }
      }
      [s[0]] + RemoveFirst(t, c)
  }

  /** A first character other than c stays in front. */
  lemma RemoveFirstCons(s: string, c: char)
    requires |s| > 0 && s[0] != c
    ensures RemoveFirst(s, c) == [s[0]] + RemoveFirst(s[1..], c)
  {
  }

  /** A character other than c in front of a text stays in front when the first c is removed. */
  lemma RemoveFirstPastOther(d: char, t: string, r: string, c: char)
    requires d != c && RemoveFirst(t, c) == r
    ensures RemoveFirst([d] + t, c) == [d] + r
  {
    var s := [d] + t;
    assert s[0] == d && s[1..] == t;
    RemoveFirstCons(s, c);
  }

  lemma ConsSplit(p: string, x: string)
    requires |p| > 0
    ensures p + x == [p[0]] + (p[1..] + x)
  {
  }

  /** A prefix without c is kept whole, and the first c is the first one after it. */
  lemma {:induction false} RemoveFirstAfterPrefix(p: string, rest: string, c: char)
    requires c !in p
    ensures RemoveFirst(p + rest, c) == p + RemoveFirst(rest, c)
  {
    if p == [] {
      assert p + rest == rest && p + RemoveFirst(rest, c) == RemoveFirst(rest, c);
    } else {
      var tail, r := p[1..], RemoveFirst(rest, c);
      assert p[0] in p && c !in tail;
      RemoveFirstAfterPrefix(tail, rest, c);
      RemoveFirstPastOther(p[0], tail + rest, tail + r, c);
      ConsSplit(p, rest);
      ConsSplit(p, r);
    }
  }

  /** Removing one c leaves every other c in place. */
  lemma RemoveFirstKeepsLater(s: string, c: char, j: int)
    requires 0 <= IndexOf(s, c) < j < |s| && s[j] == c
    ensures c in RemoveFirst(s, c)
  {
    var i := IndexOf(s, c);
    var r := RemoveFirst(s, c);
    assert r[j - 1] == s[j];
  }
}
