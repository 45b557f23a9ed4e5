/** The host list of a gateway server. Every list the operator writes is the unique
    strictly ascending listing of a set of hosts, whichever way it was produced. */
module HostList {
  import opened Text

  function Elems(q: seq<string>): set<string> {
    set x | x in q
  }

  lemma ElemsAppend(a: seq<string>, b: seq<string>)
    ensures Elems(a + b) == Elems(a) + Elems(b)
  {
    forall x ensures x in Elems(a + b) <==> x in Elems(a) + Elems(b) {}
  }

  lemma EmptyElems(q: seq<string>)
    ensures Elems(q) == {} ==> q == []
  {
    if q != [] { assert q[0] in Elems(q); }
  }

  lemma SameElems(a: seq<string>, b: seq<string>)
    requires multiset(a) == multiset(b)
    ensures Elems(a) == Elems(b)
  {
    forall x ensures x in a <==> x in b {
      assert x in a <==> x in multiset(a);
      assert x in b <==> x in multiset(b);
    }
  }

  ghost predicate Ascending(q: seq<string>) {
    forall i, j :: 0 <= i < j < |q| ==> Below(q[i], q[j])
  }

  /** What `slices.Sort` leaves behind: ascending, repeats allowed. */
  ghost predicate Sorted(q: seq<string>) {
    forall i, j :: 0 <= i < j < |q| ==> q[i] == q[j] || Below(q[i], q[j])
  }

  ghost predicate Least(m: string, s: set<string>) {
    m in s && forall x :: x in s ==> x == m || Below(m, x)
  }

  lemma {:induction false} LeastExists(s: set<string>)
    requires s != {}
    ensures exists m :: Least(m, s)
  {
    var x :| x in s;
    if s == {x} {
      assert Least(x, s);
    } else {
      LeastExists(s - {x});
      var n :| Least(n, s - {x});
      BelowTotal(x, n);
      var m := if Below(x, n) then x else n;
      forall y | y in s ensures y == m || Below(m, y) {
        if y != x && m == x && y != n { BelowTransitive(x, n, y); }
      }
      assert Least(m, s);
    }
  }

  /** The canonical listing of a set of hosts. */
  ghost function Canon(s: set<string>): (q: seq<string>)
    ensures Ascending(q) && Elems(q) == s
  {
    if s == {} then []
    else
      LeastExists(s);
      var m :| Least(m, s);
      var rest := Canon(s - {m});
      assert forall x :: x in rest ==> x in Elems(rest);
      assert Elems([m] + rest) == {m} + Elems(rest);
      [m] + rest
  }

  /** Two ascending lists of the same hosts are the same list. */
  lemma {:induction false} AscendingUnique(a: seq<string>, b: seq<string>)
    requires Ascending(a) && Ascending(b) && Elems(a) == Elems(b)
    ensures a == b
  {
    if a == [] {
      EmptyElems(b);
    } else {
      assert a[0] in Elems(b);
      assert b != [];
      assert b[0] in Elems(a);
      if a[0] != b[0] {
        assert Below(b[0], a[0]);
        assert Below(a[0], b[0]);
        BelowAsymmetric(a[0], b[0]);
      }
      TailElems(a);
      TailElems(b);
      AscendingUnique(a[1..], b[1..]);
      assert a == [a[0]] + a[1..] && b == [b[0]] + b[1..];
    }
  }

  lemma TailElems(a: seq<string>)
    requires a != [] && Ascending(a)
    ensures Elems(a[1..]) == Elems(a) - {a[0]} && Ascending(a[1..])
  {
    if a[0] in a[1..] {
      var i :| 0 <= i < |a[1..]| && a[1..][i] == a[0];
      assert Below(a[0], a[i + 1]);
      BelowIrreflexive(a[0]);
    }
    assert a == [a[0]] + a[1..];
  }

  lemma AscendingIsCanon(q: seq<string>)
    requires Ascending(q)
    ensures q == Canon(Elems(q))
  {
    AscendingUnique(q, Canon(Elems(q)));
  }

  lemma HeadElems(q: seq<string>)
    requires q != []
    ensures Elems(q) == {q[0]} + Elems(q[1..])
  {
    assert q == [q[0]] + q[1..];
    ElemsAppend([q[0]], q[1..]);
    assert Elems([q[0]]) == {q[0]};
  }

  /** The value that folding hosts one by one into a list produces. */
  ghost function Folded(q: seq<string>, hosts: seq<string>): seq<string>
    decreases |hosts|
  {
    if hosts == [] then q else Folded(Canon(Elems(q) + {hosts[0]}), hosts[1..])
  }

  /** Adding hosts one at a time, in any order and with any repeats, ends with the list
      the cleanup obtains by sorting the keys of its map; re-adding changes nothing. */
  lemma {:induction false} FoldedCanonical(q: seq<string>, hosts: seq<string>)
    requires Ascending(q)
    ensures Folded(q, hosts) == Canon(Elems(q) + Elems(hosts))
    ensures Elems(hosts) <= Elems(q) ==> Folded(q, hosts) == q
    decreases |hosts|
  {
    AscendingIsCanon(q);
    if hosts == [] {
      assert Elems(q) + Elems(hosts) == Elems(q);
    } else {
      var q' := Canon(Elems(q) + {hosts[0]});
      FoldedCanonical(q', hosts[1..]);
      HeadElems(hosts);
      assert Elems(q') + Elems(hosts[1..]) == Elems(q) + Elems(hosts);
    }
    if Elems(hosts) <= Elems(q) { assert Elems(q) + Elems(hosts) == Elems(q); }
  }

  /** `slices.Sort`; the library's own algorithm is not modelled, an insertion sort is. */
  method Sort(q: seq<string>) returns (r: seq<string>)
    ensures Sorted(r) && multiset(r) == multiset(q)
  {
    r := [];
    for i := 0 to |q|
      invariant Sorted(r) && multiset(r) == multiset(q[..i])
    {
      var j := |r|;
      while j > 0 && Below(q[i], r[j - 1])
        invariant 0 <= j <= |r|
        invariant forall k :: j <= k < |r| ==> Below(q[i], r[k])
      {
        j := j - 1;
      }
      InsertSorted(r, j, q[i]);
      assert r == r[..j] + r[j..];
      assert q[..i + 1] == q[..i] + [q[i]];
      r := r[..j] + [q[i]] + r[j..];
    }
    assert q[..|q|] == q;
  }

  lemma InsertSorted(r: seq<string>, j: nat, x: string)
    requires Sorted(r) && j <= |r|
    requires j == 0 || !Below(x, r[j - 1])
    requires forall k :: j <= k < |r| ==> Below(x, r[k])
    ensures Sorted(r[..j] + [x] + r[j..])
  {
    forall k | 0 <= k < j ensures r[k] == x || Below(r[k], x) {
      BelowTotal(x, r[j - 1]);
      if r[k] != r[j - 1] && r[j - 1] != x { BelowTransitive(r[k], r[j - 1], x); }
    }
  }

  /** `slices.Compact`: drops an element equal to the one kept before it. */
  method Compact(q: seq<string>) returns (r: seq<string>)
    requires Sorted(q)
    ensures Ascending(r) && Elems(r) == Elems(q)
  {
    r := [];
    for i := 0 to |q|
      invariant Ascending(r) && Elems(r) == Elems(q[..i])
      invariant r == [] <==> i == 0
      invariant i > 0 ==> r[|r| - 1] == q[i - 1]
    {
      assert q[..i + 1] == q[..i] + [q[i]];
      if i == 0 || q[i] != q[i - 1] {
        forall k | 0 <= k < |r| ensures Below(r[k], q[i]) {
          if k < |r| - 1 { BelowTransitive(r[k], q[i - 1], q[i]); }
        }
        ElemsAppend(r, [q[i]]);
        r := r + [q[i]];
      } else {
        assert q[i - 1] in q[..i];
      }
      ElemsAppend(q[..i], [q[i]]);
    }
    assert q[..|q|] == q;
  }

  /** Adds a host to a gateway's list. */
  method AppendSortedCompact(slice: seq<string>, val: string) returns (r: seq<string>)
    ensures r == Canon(Elems(slice) + {val})
  {
    var appended := slice + [val];
    var sorted := Sort(appended);
    r := Compact(sorted);
    SameElems(sorted, appended);
    ElemsAppend(slice, [val]);
    assert Elems([val]) == {val};
    assert Elems(r) == Elems(slice) + {val};
    AscendingIsCanon(r);
  }

  /** The cleanup's way of listing hosts: the keys of a map, in the arbitrary order Go
      iterates it, then sorted. */
  method SortedKeys(keys: set<string>) returns (r: seq<string>)
    ensures r == Canon(keys)
  {
    var collected: seq<string>, rest := [], keys;
    while rest != {}
      invariant rest <= keys && Elems(collected) == keys - rest
      invariant forall i, j :: 0 <= i < j < |collected| ==> collected[i] != collected[j]
      decreases |rest|
    {
      var k :| k in rest;
      assert k !in Elems(collected);
      ElemsAppend(collected, [k]);
      collected, rest := collected + [k], rest - {k};
    }
    var sorted := Sort(collected);
    SameElems(sorted, collected);
    DistinctSorted(collected, sorted);
    r := sorted;
    assert Elems(r) == keys;
    AscendingIsCanon(r);
  }

  lemma DistinctSorted(q: seq<string>, r: seq<string>)
    requires forall i, j :: 0 <= i < j < |q| ==> q[i] != q[j]
    requires multiset(q) == multiset(r) && Sorted(r)
    ensures Ascending(r)
  {
    forall i, j | 0 <= i < j < |r| ensures r[i] != r[j] {
      if r[i] == r[j] {
        assert r == r[..i] + [r[i]] + r[i + 1..j] + [r[j]] + r[j + 1..];
        assert multiset(r)[r[i]] >= 2;
        DistinctOnce(q, r[i]);
      }
    }
  }

  lemma {:induction false} DistinctOnce(q: seq<string>, x: string)
    requires forall i, j :: 0 <= i < j < |q| ==> q[i] != q[j]
    ensures multiset(q)[x] <= 1
  {
    if q != [] {
      DistinctOnce(q[1..], x);
      assert q == [q[0]] + q[1..];
      assert forall i | 0 <= i < |q[1..]| :: q[1..][i] == q[i + 1] != q[0];
    }
  }
}
