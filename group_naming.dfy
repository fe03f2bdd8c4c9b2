/**
 * Canonical conversation-group naming (`MessageHub.GetGroupName`): the two
 * usernames in ordinal order, joined by a dash.
 */
module GroupNaming {
  import opened Strings

  const Separator: char := '-'

  /** The group name of the conversation between `caller` and `other`. */
  function GetGroupName(caller: string, other: string): string
  {
    if OrdinalLess(caller, other) then caller + [Separator] + other
    else other + [Separator] + caller
  }

  /** Both participants compute the same name, whoever calls first (also when a == b). */
  lemma GroupNameSymmetric(a: string, b: string)
    ensures GetGroupName(a, b) == GetGroupName(b, a)
  {
    OrdinalAsymmetric(a, b);
    OrdinalTrichotomy(a, b);
  }

  /** The name is always "smaller-larger" under the ordinal order. */
  lemma GroupNameSmallerFirst(a: string, b: string)
    ensures OrdinalLessEq(a, b) ==> GetGroupName(a, b) == a + [Separator] + b
    ensures OrdinalLessEq(b, a) ==> GetGroupName(a, b) == b + [Separator] + a
  {
    OrdinalAsymmetric(b, a);
  }

  /** In "x-y" with no dash in x, the first dash is the one just after x. */
  lemma FirstSeparator(x: string, y: string)
    requires Separator !in x
    ensures (x + [Separator] + y)[|x|] == Separator
    ensures forall i :: 0 <= i < |x| ==> (x + [Separator] + y)[i] != Separator
  {
  }

  /** Splitting "x-y" at its first dash recovers x and y when x holds no dash. */
  lemma JoinCancel(x: string, y: string, u: string, v: string)
    requires Separator !in x && Separator !in u
    requires x + [Separator] + y == u + [Separator] + v
    ensures x == u && y == v
  {
    var w := x + [Separator] + y;
    FirstSeparator(x, y);
    FirstSeparator(u, v);
    assert |x| == |u|;
    assert x == w[..|x|] == u;
    assert y == w[|x| + 1..] == v;
  }

  /**
   * On usernames without a dash the name determines the unordered pair:
   * two conversations share a group only if they have the same two participants.
   */
  lemma GroupNameInjective(a: string, b: string, c: string, d: string)
    requires Separator !in a && Separator !in b && Separator !in c && Separator !in d
    requires GetGroupName(a, b) == GetGroupName(c, d)
    ensures (a == c && b == d) || (a == d && b == c)
  {
    var p1 := if OrdinalLess(a, b) then (a, b) else (b, a);
    var p2 := if OrdinalLess(c, d) then (c, d) else (d, c);
    JoinCancel(p1.0, p1.1, p2.0, p2.1);
  }

  /**
   * With dashes allowed the name does not determine the pair: "a-b" talking to "c"
   * and "a" talking to "b-c" are put in the same group "a-b-c".
   */
  lemma GroupNameCollision()
    ensures GetGroupName("a-b", "c") == GetGroupName("a", "b-c") == "a-b-c"
  {
  }
}
