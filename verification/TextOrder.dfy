/** Code-point order on texts: the order of Python string comparison, of JSON key
    sorting, and of SQLite's ORDER BY on text columns. */
module TextOrder {
  predicate Leq(a: string, b: string) {
    a == [] || (b != [] && (a[0] < b[0] || (a[0] == b[0] && Leq(a[1..], b[1..]))))
  }

  predicate Less(a: string, b: string) { Leq(a, b) && a != b }

  lemma LeqTotal(a: string, b: string)
    ensures Leq(a, b) || Leq(b, a)
  {
  }

  lemma LeqAntisymmetric(a: string, b: string)
    requires Leq(a, b) && Leq(b, a)
    ensures a == b
  {
    if a != [] {
      LeqAntisymmetric(a[1..], b[1..]);
      assert a == [a[0]] + a[1..] && b == [b[0]] + b[1..];
    }
  }

  lemma LeqTransitive(a: string, b: string, c: string)
    requires Leq(a, b) && Leq(b, c)
    ensures Leq(a, c)
  {
    if a != [] && b != [] && c != [] && a[0] == b[0] && b[0] == c[0] {
      LeqTransitive(a[1..], b[1..], c[1..]);
    }
  }

  // A common prefix never decides a comparison.
  lemma LeqPrefix(p: string, a: string, b: string)
    ensures Leq(p + a, p + b) <==> Leq(a, b)
  {
    if p == [] {
      assert p + a == a && p + b == b;
    } else {
      assert (p + a)[1..] == p[1..] + a && (p + b)[1..] == p[1..] + b;
      LeqPrefix(p[1..], a, b);
    }
  }

  predicate IsLeast(m: string, s: set<string>) { m in s && forall x :: x in s ==> Leq(m, x) }

  lemma LeastExists(s: set<string>) returns (m: string)
    requires s != {}
    ensures IsLeast(m, s)
  {
    var x :| x in s;
    if s == {x} {
      m := x;
      LeqTotal(x, x);
    } else {
      assert s == {x} + (s - {x});
      var n := LeastExists(s - {x});
      LeqTotal(x, n);
      LeqTotal(x, x);
      if Leq(x, n) {
        m := x;
        forall y | y in s ensures Leq(m, y) {
          if y != x { LeqTransitive(x, n, y); }
        }
      } else {
        m := n;
      }
    }
  }

  lemma LeastIsUnique(s: set<string>)
    requires s != {}
    ensures exists m :: IsLeast(m, s)
    ensures forall a, b :: IsLeast(a, s) && IsLeast(b, s) ==> a == b
  {
    var _ := LeastExists(s);
    forall a, b | IsLeast(a, s) && IsLeast(b, s) ensures a == b { LeqAntisymmetric(a, b); }
  }

  function Least(s: set<string>): (m: string)
    requires s != {}
    ensures IsLeast(m, s)
  {
    LeastIsUnique(s);
    var m :| IsLeast(m, s);
    m
  }

  predicate Ascending(q: seq<string>) {
    forall i, j :: 0 <= i < j < |q| ==> Less(q[i], q[j])
  }

  /** The members of s in ascending order, each exactly once. */
  function Sorted(s: set<string>): (q: seq<string>)
    ensures forall x :: x in s <==> x in q
    ensures Ascending(q) && |q| == |s|
  {
    if s == {} then [] else
    var m := Least(s);
    var rest := Sorted(s - {m});
    PrependLeast(m, rest, s);
    [m] + rest
  }

  lemma PrependLeast(m: string, rest: seq<string>, s: set<string>)
    requires IsLeast(m, s) && Ascending(rest)
    requires forall x :: x in s - {m} <==> x in rest
    ensures Ascending([m] + rest)
    ensures forall x :: x in s <==> x in [m] + rest
  {
    forall j | 0 <= j < |rest| ensures Less(m, rest[j]) {
      assert rest[j] in rest;
    }
  }

  lemma HasMember(q: seq<string>)
    requires q != []
    ensures exists x :: x in q
  {
    assert q[0] in q;
  }

  lemma SortedUnique(p: seq<string>, q: seq<string>)
    requires Ascending(p) && Ascending(q)
    requires forall x :: x in p <==> x in q
    ensures p == q
  {
    if p == [] {
      if q != [] { HasMember(q); }
    } else {
      assert p[0] in q;
      assert q != [] && q[0] in p;
      var i :| 0 <= i < |q| && q[i] == p[0];
      var j :| 0 <= j < |p| && p[j] == q[0];
      if i != 0 {
        assert Less(q[0], q[i]);
        if j != 0 {
          assert Less(p[0], p[j]);
          LeqAntisymmetric(p[0], q[0]);
        }
      }
      assert p[0] == q[0];
      forall x ensures x in p[1..] <==> x in q[1..] {
        if x in p[1..] {
          var k :| 1 <= k < |p| && p[k] == x;
          assert Less(p[0], p[k]);
          assert x in q;
          var l :| 0 <= l < |q| && q[l] == x;
          assert l != 0;
          assert q[1..][l - 1] == x;
        }
        if x in q[1..] {
          var k :| 1 <= k < |q| && q[k] == x;
          assert Less(q[0], q[k]);
          assert x in p;
          var l :| 0 <= l < |p| && p[l] == x;
          assert l != 0;
          assert p[1..][l - 1] == x;
        }
      }
      SortedUnique(p[1..], q[1..]);
      assert p == [p[0]] + p[1..] && q == [q[0]] + q[1..];
    }
  }
}
