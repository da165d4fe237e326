/** Composite string keys of the form left + separator + right. */
module Keys {

  /** Two such keys with the same text have the same parts if neither left part contains the separator. */
  lemma {:induction false} Split(sep: char, a: string, b: string, c: string, d: string)
    requires sep !in a && sep !in c && a + [sep] + b == c + [sep] + d
    ensures a == c && b == d
  {
    var s, t := a + [sep] + b, c + [sep] + d;
    assert s[|a|] == sep && t[|c|] == sep;
    assert forall i :: 0 <= i < |a| ==> s[i] == a[i];
    assert forall i :: 0 <= i < |c| ==> t[i] == c[i];
    assert |a| == |c|;
    assert a == s[..|a|] && c == t[..|c|];
    assert b == s[|a| + 1..] && d == t[|c| + 1..];
  }

  /** A left part that contains the separator collides with a different split of the same text. */
  lemma Collides(sep: char, a: string, b: string) returns (c: string, d: string)
    requires sep in a
    ensures (c, d) != (a, b) && |c| < |a| && c + [sep] + d == a + [sep] + b
  {
    var i :| 0 <= i < |a| && a[i] == sep;
    c, d := a[..i], a[i + 1..] + [sep] + b;
    assert a == a[..i] + [sep] + a[i + 1..];
  }
}
