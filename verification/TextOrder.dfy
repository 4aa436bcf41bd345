/** The order in which SQLite compares TEXT values (BINARY collation): code
    point by code point, a proper prefix being smaller.  Identifiers and
    persisted timestamps are compared with it. */
module TextOrder {

  predicate Less(a: string, b: string) {
    b != "" && (a == "" || a[0] < b[0] || (a[0] == b[0] && Less(a[1..], b[1..])))
  }

  predicate LessEq(a: string, b: string) {
    a == b || Less(a, b)
  }

  predicate ProperPrefix(a: string, b: string) {
    |a| < |b| && a == b[..|a|]
  }

  lemma {:induction false} Transitive(a: string, b: string, c: string)
    requires Less(a, b) && Less(b, c)
    ensures Less(a, c)
  {
    if a != "" && a[0] == b[0] == c[0] {
      Transitive(a[1..], b[1..], c[1..]);
    }
  }

  lemma {:induction false} Irreflexive(a: string)
    ensures !Less(a, a)
  {
    if a != "" {
      Irreflexive(a[1..]);
    }
  }

  lemma {:induction false} Total(a: string, b: string)
    ensures a == b || Less(a, b) || Less(b, a)
  {
    if a != "" && b != "" && a[0] == b[0] {
      Total(a[1..], b[1..]);
      assert a == [a[0]] + a[1..] && b == [b[0]] + b[1..];
    }
  }

  /** A strict order: at most one of the two directions holds. */
  lemma Asymmetric(a: string, b: string)
    requires Less(a, b)
    ensures !Less(b, a) && a != b
  {}

  /** The first difference decides; a proper prefix comes first. */
  lemma {:induction false} LessIsLexicographic(a: string, b: string)
    ensures Less(a, b)
            <==> ProperPrefix(a, b) || exists i :: 0 <= i < |a| && i < |b| && a[..i] == b[..i] && a[i] < b[i]
  {
    if a != "" && b != "" && a[0] == b[0] {
      LessIsLexicographic(a[1..], b[1..]);
      var x, y := a[1..], b[1..];
      assert a == [a[0]] + x && b == [a[0]] + y;
      assert ProperPrefix(a, b) <==> ProperPrefix(x, y) by { assert |a| < |b| ==> b[..|a|] == [a[0]] + y[..|x|]; }
      if i :| 0 <= i < |x| && i < |y| && x[..i] == y[..i] && x[i] < y[i] {
        assert a[..i + 1] == [a[0]] + x[..i] && b[..i + 1] == [a[0]] + y[..i];
      }
      if i :| 0 <= i < |a| && i < |b| && a[..i] == b[..i] && a[i] < b[i] {
        assert i > 0 && x[..i - 1] == a[..i][1..] && y[..i - 1] == b[..i][1..];
        assert x[i - 1] == a[i] && y[i - 1] == b[i];
      }
    } else if a != "" && b != "" {
      assert a[..0] == b[..0];
    }
  }

  /** A common prefix does not influence the comparison. */
  lemma {:induction false} CommonPrefix(p: string, a: string, b: string)
    ensures Less(p + a, p + b) == Less(a, b)
  {
    if p == "" {
      assert p + a == a && p + b == b;
    } else {
      CommonPrefix(p[1..], a, b);
      assert (p + a)[1..] == p[1..] + a && (p + b)[1..] == p[1..] + b;
    }
  }

  /** When neither text is a prefix of the other, what follows is irrelevant. */
  lemma {:induction false} Diverging(a: string, b: string, x: string, y: string)
    requires a != b && !ProperPrefix(a, b) && !ProperPrefix(b, a)
    ensures Less(a + x, b + y) == Less(a, b)
  {
    assert b[..0] == "" && a[..0] == "";
    assert (a + x)[1..] == a[1..] + x && (b + y)[1..] == b[1..] + y;
    if a[0] == b[0] {
      assert a == [a[0]] + a[1..] && b == [b[0]] + b[1..];
      Diverging(a[1..], b[1..], x, y);
    }
  }

  // ---------------------------------------------------------------- sorting

  predicate IsLeast(m: string, s: set<string>) {
    m in s && forall x | x in s :: LessEq(m, x)
  }

  lemma {:induction false} LeastExists(s: set<string>)
    requires s != {}
    ensures exists m :: IsLeast(m, s)
  {
    var x :| x in s;
    if s == {x} {
      assert IsLeast(x, s);
    } else {
      LeastExists(s - {x});
      var m :| IsLeast(m, s - {x});
      Total(m, x);
      if Less(x, m) {
        forall z | z in s ensures LessEq(x, z) {
          if z != x {
            assert z in s - {x} && LessEq(m, z);
            if z != m { Transitive(x, m, z); }
          }
        }
        assert IsLeast(x, s);
      } else {
        assert IsLeast(m, s);
      }
    }
  }

  lemma LeastUnique(s: set<string>, m: string, n: string)
    requires IsLeast(m, s) && IsLeast(n, s)
    ensures m == n
  {
    if m != n { Asymmetric(m, n); }
  }

  function Least(s: set<string>): (m: string)
    requires s != {}
    ensures IsLeast(m, s)
  {
    LeastExists(s);
    assert forall m, n | IsLeast(m, s) && IsLeast(n, s) :: m == n by {
      forall m, n | IsLeast(m, s) && IsLeast(n, s) ensures m == n { LeastUnique(s, m, n); }
    }
    var m :| IsLeast(m, s);
    m
  }

  /** The elements of `s` in ascending text order, as ORDER BY delivers them. */
  function Sorted(s: set<string>): (r: seq<string>)
    ensures |r| == |s|
    ensures forall x :: x in r <==> x in s
  {
    if s == {} then [] else var m := Least(s); [m] + Sorted(s - {m})
  }

  predicate Ascending(r: seq<string>) {
    forall i, j | 0 <= i < j < |r| :: Less(r[i], r[j])
  }

  lemma ConsAscends(m: string, r: seq<string>)
    requires Ascending(r) && forall x | x in r :: Less(m, x)
    ensures Ascending([m] + r)
  {}

  lemma {:induction false} SortedAscends(s: set<string>)
    ensures Ascending(Sorted(s))
  {
    if s != {} {
      var m := Least(s);
      var rest := Sorted(s - {m});
      SortedAscends(s - {m});
      forall x | x in rest ensures Less(m, x) {
        assert x in s - {m} && LessEq(m, x);
      }
      ConsAscends(m, rest);
    }
  }

  lemma AscendingHead(r: seq<string>, x: string)
    requires Ascending(r) && x in r
    ensures LessEq(r[0], x) && (x in r[1..] <==> x != r[0])
  {
    var i :| 0 <= i < |r| && r[i] == x;
    Irreflexive(x);
    if i > 0 {
      assert Less(r[0], r[i]) && r[1..][i - 1] == x;
    }
  }

  /** An ascending list is determined by its elements. */
  lemma {:induction false} AscendingUnique(r: seq<string>, t: seq<string>)
    requires Ascending(r) && Ascending(t)
    requires forall x :: x in r <==> x in t
    ensures r == t
  {
    assert r != [] ==> r[0] in r;
    assert t != [] ==> t[0] in t;
    if r != [] && t != [] {
      assert r[0] in t && t[0] in r;
      AscendingHead(r, t[0]);
      AscendingHead(t, r[0]);
      if r[0] != t[0] { Asymmetric(r[0], t[0]); }
      forall x ensures x in r[1..] <==> x in t[1..] {
        if x in r { AscendingHead(r, x); AscendingHead(t, x); }
      }
      AscendingUnique(r[1..], t[1..]);
      assert r == [r[0]] + r[1..] && t == [t[0]] + t[1..];
    }
  }
}
