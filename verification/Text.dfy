/** Host-name text: the rewriting that turns a host into an object name, and the
    byte order in which Go sorts strings. */
module Text {

  /** `strings.ReplaceAll(s, ".", "-")`. */
  function Dashed(s: string): string {
    seq(|s|, i requires 0 <= i < |s| => if s[i] == '.' then '-' else s[i])
  }

  /** The other direction, for text that held no dash to begin with. */
  function Dotted(s: string): string {
    seq(|s|, i requires 0 <= i < |s| => if s[i] == '-' then '.' else s[i])
  }

  /** Distinct hosts without a dash get distinct names. A dotted IP address has none,
      so its name can even be turned back. */
  lemma DashedInvertible(s: string)
    requires '-' !in s
    ensures |Dashed(s)| == |s| && Dotted(Dashed(s)) == s
  {
    assert forall i | 0 <= i < |s| :: s[i] in s;
  }

  lemma DashedInjective(a: string, b: string)
    requires '-' !in a && '-' !in b && Dashed(a) == Dashed(b)
    ensures a == b
  {
    DashedInvertible(a);
    DashedInvertible(b);
  }

  /** The dash-free side condition is needed: these two hosts share one name. */
  lemma DashedCollides()
    ensures "a.b" != "a-b" && Dashed("a.b") == Dashed("a-b")
  {
    assert "a.b"[1] != "a-b"[1];
    assert Dashed("a.b") == "a-b" == Dashed("a-b");
  }

  /** `strings.ToUpper` as far as a comparison with "HTTPS" or "TCP" can tell: besides
      a-z only the long s (U+017F) has its upper case among those letters. */
  function Upper(s: string): string {
    seq(|s|, i requires 0 <= i < |s| =>
      if 'a' <= s[i] <= 'z' then ((s[i] as int) - 32) as char
      else if s[i] == '\U{17F}' then 'S' else s[i])
  }

  /** Strict lexicographic order; on UTF-8 it is the order of the encoded bytes. */
  predicate Below(a: string, b: string) {
    b != [] && (a == [] || a[0] < b[0] || (a[0] == b[0] && Below(a[1..], b[1..])))
  }

  /** The order is that of the first character in which two strings differ, and a string comes
      after its beginnings. */
  lemma {:induction false} BelowExact(a: string, b: string)
    ensures Below(a, b) <==> a < b || exists i: nat :: FirstDiffer(a, b, i) && a[i] < b[i]
    decreases |a|
  {
    if a == [] || b == [] || a[0] != b[0] {
      if a != [] && b != [] { assert FirstDiffer(a, b, 0); }
      forall i: nat | 0 < i < |a| && i < |b| ensures !FirstDiffer(a, b, i) {
        assert a[..i][0] == a[0] && b[..i][0] == b[0];
      }
    } else {
      BelowExact(a[1..], b[1..]);
      assert a == [a[0]] + a[1..] && b == [b[0]] + b[1..];
      assert a < b <==> a[1..] < b[1..];
      forall i: nat ensures FirstDiffer(a[1..], b[1..], i) <==> FirstDiffer(a, b, i + 1) {
        if i < |a| - 1 && i < |b| - 1 {
          assert a[..i + 1] == [a[0]] + a[1..][..i] && b[..i + 1] == [b[0]] + b[1..][..i];
        }
      }
      assert !FirstDiffer(a, b, 0);
      if i: nat :| FirstDiffer(a, b, i) && a[i] < b[i] { assert FirstDiffer(a[1..], b[1..], i - 1); }
      if i: nat :| FirstDiffer(a[1..], b[1..], i) && a[1..][i] < b[1..][i] { assert FirstDiffer(a, b, i + 1); }
    }
  }

  ghost predicate FirstDiffer(a: string, b: string, i: nat) {
    i < |a| && i < |b| && a[..i] == b[..i] && a[i] != b[i]
  }

  lemma {:induction false} BelowIrreflexive(a: string)
    ensures !Below(a, a)
  {
    if a != [] { BelowIrreflexive(a[1..]); }
  }

  lemma {:induction false} BelowTransitive(a: string, b: string, c: string)
    requires Below(a, b) && Below(b, c)
    ensures Below(a, c)
  {
    if a != [] && a[0] == b[0] == c[0] { BelowTransitive(a[1..], b[1..], c[1..]); }
  }

  lemma {:induction false} BelowTotal(a: string, b: string)
    ensures a == b || Below(a, b) || Below(b, a)
  {
    if a != [] && b != [] && a[0] == b[0] {
      BelowTotal(a[1..], b[1..]);
      assert a == [a[0]] + a[1..] && b == [b[0]] + b[1..];
    }
  }

  lemma BelowAsymmetric(a: string, b: string)
    requires Below(a, b)
    ensures !Below(b, a) && a != b
  {
    BelowIrreflexive(a);
    if Below(b, a) { BelowTransitive(a, b, a); }
  }
}
