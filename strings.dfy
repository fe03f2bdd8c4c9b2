/**
 * The two string operations the hub relies on: .NET's ordinal comparison
 * (`string.CompareOrdinal(a, b) < 0`) and `string.ToLower()` restricted to ASCII.
 */
module Strings {

  /** `string.CompareOrdinal(a, b) < 0`: lexicographic order on character codes, a proper prefix sorting first. */
  predicate OrdinalLess(a: string, b: string)
    decreases |a|
  {
    if |a| == 0 then |b| > 0
    else if |b| == 0 then false
    else if a[0] != b[0] then a[0] < b[0]
    else OrdinalLess(a[1..], b[1..])
  }

  /** `string.CompareOrdinal(a, b) <= 0`. */
  predicate OrdinalLessEq(a: string, b: string)
  {
    OrdinalLess(a, b) || a == b
  }

  lemma {:induction false} OrdinalIrreflexive(a: string)
    ensures !OrdinalLess(a, a)
    decreases |a|
  {
    if |a| > 0 {
      OrdinalIrreflexive(a[1..]);
    }
  }

  lemma {:induction false} OrdinalAsymmetric(a: string, b: string)
    ensures OrdinalLess(a, b) ==> !OrdinalLess(b, a)
    decreases |a|
  {
    if |a| > 0 && |b| > 0 && a[0] == b[0] {
      OrdinalAsymmetric(a[1..], b[1..]);
    }
  }

  lemma {:induction false} OrdinalTransitive(a: string, b: string, c: string)
    requires OrdinalLess(a, b) && OrdinalLess(b, c)
    ensures OrdinalLess(a, c)
    decreases |a|
  {
    if |a| > 0 && a[0] == b[0] && b[0] == c[0] {
      OrdinalTransitive(a[1..], b[1..], c[1..]);
    }
  }

  /** Any two strings are ordinally comparable: the order is total. */
  lemma {:induction false} OrdinalTrichotomy(a: string, b: string)
    ensures OrdinalLess(a, b) || a == b || OrdinalLess(b, a)
    decreases |a|
  {
    if |a| > 0 && |b| > 0 && a[0] == b[0] {
      OrdinalTrichotomy(a[1..], b[1..]);
      if a[1..] == b[1..] {
        assert a == [a[0]] + a[1..] && b == [b[0]] + b[1..];
      }
    }
  }

  /** `char.ToLower` on the ASCII range; every other character is left as it is. */
  function LowerChar(c: char): char
  {
    if 'A' <= c <= 'Z' then (c as int + 32) as char else c
  }

  /** `string.ToLower()`: maps every character through LowerChar. */
  function ToLower(s: string): string
  {
    seq(|s|, i requires 0 <= i < |s| => LowerChar(s[i]))
  }

  /** No ASCII upper-case letter occurs in `s`. */
  predicate IsLowerCase(s: string)
  {
    forall i :: 0 <= i < |s| ==> !('A' <= s[i] <= 'Z')
  }

  lemma ToLowerIsLowerCase(s: string)
    ensures IsLowerCase(ToLower(s))
  {
  }

  /** Lower-casing leaves an already lower-case string unchanged, so it is idempotent. */
  lemma ToLowerFixesLowerCase(s: string)
    ensures IsLowerCase(s) <==> ToLower(s) == s
  {
  }

  lemma ToLowerIdempotent(s: string)
    ensures ToLower(ToLower(s)) == ToLower(s)
  {
  }
}
