/** String helpers shared by the renderers and the program dispatcher. */
module Strings {

  /** Python's `sep.join(xs)`. */
  function Join(xs: seq<string>, sep: string): string
  {
    if |xs| == 0 then ""
    else if |xs| == 1 then xs[0]
    else xs[0] + sep + Join(xs[1..], sep)
  }

  /** Python's `s.endswith(suffix)`. */
  predicate EndsWith(s: string, suffix: string)
  {
    |suffix| <= |s| && s[|s| - |suffix|..] == suffix
  }

  /** `n * " "` */
  function Spaces(n: nat): (r: string)
    ensures |r| == n && forall i :: 0 <= i < n ==> r[i] == ' '
  {
    if n == 0 then "" else Spaces(n - 1) + " "
  }

  /** Python's ordering of strings: lexicographic by code point, a proper prefix first. */
  predicate Below(a: string, b: string)
  {
    |a| == 0 || (|b| > 0 && (a[0] < b[0] || (a[0] == b[0] && Below(a[1..], b[1..]))))
  }

  lemma {:induction false} BelowTotal(a: string, b: string)
    ensures Below(a, b) || Below(b, a)
  {
    if |a| > 0 && |b| > 0 && a[0] == b[0] {
      BelowTotal(a[1..], b[1..]);
    }
  }

  lemma {:induction false} BelowAntisymmetric(a: string, b: string)
    requires Below(a, b) && Below(b, a)
    ensures a == b
  {
    if |a| > 0 && |b| > 0 {
      BelowAntisymmetric(a[1..], b[1..]);
      assert a == [a[0]] + a[1..] && b == [b[0]] + b[1..];
    }
  }

  lemma {:induction false} BelowTransitive(a: string, b: string, c: string)
    requires Below(a, b) && Below(b, c)
    ensures Below(a, c)
  {
    if |a| > 0 && |b| > 0 && |c| > 0 && a[0] == b[0] == c[0] {
      BelowTransitive(a[1..], b[1..], c[1..]);
    }
  }

  /** `s` lists its elements in ascending order without repetition. */
  predicate SortedDistinct(s: seq<string>)
  {
    forall i, j :: 0 <= i < j < |s| ==> s[i] != s[j] && Below(s[i], s[j])
  }

  /** Inserts `x` into an ascending list that does not contain it. */
  function Insert(s: seq<string>, x: string): (r: seq<string>)
    requires SortedDistinct(s) && x !in s
    ensures SortedDistinct(r)
    ensures forall y :: y in r <==> y in s || y == x
    ensures |r| == |s| + 1
  {
    if s == [] then [x]
    else if Below(x, s[0]) then
      assert forall j :: 0 <= j < |s| ==> Below(x, s[j]) by {
        forall j | 0 <= j < |s| ensures Below(x, s[j]) {
          if j > 0 { BelowTransitive(x, s[0], s[j]); }
        }
      }
      var r := [x] + s;
      assert forall i, j :: 0 <= i < j < |r| ==> r[i] != r[j] && Below(r[i], r[j]) by {
        forall i, j | 0 <= i < j < |r| ensures r[i] != r[j] && Below(r[i], r[j]) {
          if i > 0 { assert r[i] == s[i - 1] && r[j] == s[j - 1]; }
        }
      }
      r
    else
      BelowTotal(x, s[0]);
      var rest := Insert(s[1..], x);
      assert forall y :: y in rest ==> Below(s[0], y) && y != s[0] by {
        forall y | y in rest ensures Below(s[0], y) && y != s[0] {
          if y != x {
            assert y in s[1..];
          }
        }
      }
      var r := [s[0]] + rest;
      assert forall i, j :: 0 <= i < j < |r| ==> r[i] != r[j] && Below(r[i], r[j]) by {
        forall i, j | 0 <= i < j < |r| ensures r[i] != r[j] && Below(r[i], r[j]) {
          assert r[j] == rest[j - 1];
          if i > 0 { assert r[i] == rest[i - 1]; } else { assert r[j] in rest; }
        }
      }
      assert s == [s[0]] + s[1..];
      r
  }

  /** Python's `sorted(keys)` for a set of distinct strings. */
  method Sorted(keys: set<string>) returns (r: seq<string>)
    ensures SortedDistinct(r)
    ensures forall y :: y in r <==> y in keys
  {
    r := [];
    var rest := keys;
    while rest != {}
      invariant rest <= keys
      invariant SortedDistinct(r)
      invariant forall y :: y in r <==> y in keys - rest
      decreases rest
    {
      var x :| x in rest;
      r := Insert(r, x);
      rest := rest - {x};
    }
  }

  /** A set has only one ascending listing. */
  lemma {:induction false} SortedUnique(a: seq<string>, b: seq<string>)
    requires SortedDistinct(a) && SortedDistinct(b)
    requires forall y :: y in a <==> y in b
    ensures a == b
    decreases |a| + |b|, if a == [] then 1 else 0
  {
    if a == [] && b != [] {
      SortedUnique(b, a);
    } else if a != [] {
      assert b != [] by { assert a[0] in b; }
      assert Below(a[0], b[0]) by {
        BelowTotal(a[0], b[0]);
        if a[0] != b[0] {
          assert b[0] in a;
          var j :| 0 <= j < |a| && a[j] == b[0];
          assert j != 0;
        }
      }
      assert Below(b[0], a[0]) by {
        BelowTotal(a[0], b[0]);
        if a[0] != b[0] {
          assert a[0] in b;
          var j :| 0 <= j < |b| && b[j] == a[0];
          assert j != 0;
        }
      }
      BelowAntisymmetric(a[0], b[0]);
      forall y ensures y in a[1..] <==> y in b[1..] {
        if y in a[1..] {
          assert y != a[0];
          assert y in b;
        }
        if y in b[1..] {
          assert y != b[0];
          assert y in a;
        }
      }
      SortedUnique(a[1..], b[1..]);
      assert a == [a[0]] + a[1..] && b == [b[0]] + b[1..];
    }
  }
}
