/**
 * The order `Array.prototype.sort` puts category names in when it is given
 * no comparator: character by character, a proper prefix first.  Characters
 * are compared by their code point.
 *
 * `SortedKeys` turns the key set of a totals table into that order; it is
 * the only order a set of distinct names can be listed in sorted
 * (`StrictlySortedUnique`), so the model does not depend on how the
 * sorting is done.
 */
module Ordering {

  /** `a` sorts strictly before `b`. */
  predicate Less(a: string, b: string)
    decreases |a|
  {
    if a == [] then b != []
    else if b == [] then false
    else if a[0] != b[0] then a[0] < b[0]
    else Less(a[1..], b[1..])
  }

  lemma {:induction false} LessIrreflexive(a: string)
    ensures !Less(a, a)
    decreases |a|
  {
    if a != [] {
      LessIrreflexive(a[1..]);
    }
  }

  lemma {:induction false} LessTransitive(a: string, b: string, c: string)
    requires Less(a, b) && Less(b, c)
    ensures Less(a, c)
    decreases |a|
  {
    if a != [] && b != [] && c != [] && a[0] == b[0] && b[0] == c[0] {
      LessTransitive(a[1..], b[1..], c[1..]);
    }
  }

  /** Any two different names are ordered one way or the other. */
  lemma {:induction false} LessTotal(a: string, b: string)
    ensures a == b || Less(a, b) || Less(b, a)
    decreases |a|
  {
    if a != [] && b != [] && a[0] == b[0] {
      assert a == [a[0]] + a[1..] && b == [b[0]] + b[1..];
      LessTotal(a[1..], b[1..]);
    }
  }

  /** Never both ways round. */
  lemma {:induction false} LessAsymmetric(a: string, b: string)
    requires Less(a, b)
    ensures !Less(b, a)
    decreases |a|
  {
    if a != [] && b != [] && a[0] == b[0] {
      LessAsymmetric(a[1..], b[1..]);
    }
  }

  predicate StrictlySorted(s: seq<string>)
  {
    forall i, j :: 0 <= i < j < |s| ==> Less(s[i], s[j])
  }

  /** `m` sorts no later than any element of `s`. */
  predicate IsLeast(m: string, s: set<string>)
  {
    m in s && forall x :: x in s ==> !Less(x, m)
  }

  /** Every non-empty finite set of names has a least one. */
  lemma {:induction false} LeastExists(s: set<string>)
    requires s != {}
    ensures exists m :: IsLeast(m, s)
    decreases |s|
  {
    var x :| x in s;
    if s == {x} {
      LessIrreflexive(x);
      assert IsLeast(x, s);
    } else {
      LeastExists(s - {x});
      var m :| IsLeast(m, s - {x});
      if Less(x, m) {
        forall y | y in s ensures !Less(y, x) {
          if y == x {
            LessIrreflexive(x);
          } else {
            BelowLeast(x, m, y);
          }
        }
        assert IsLeast(x, s);
      } else {
        LessIrreflexive(m);
        assert IsLeast(m, s);
      }
    }
  }

  /** A name that does not sort before `m` does not sort before anything below `m`. */
  lemma BelowLeast(x: string, m: string, y: string)
    requires Less(x, m) && !Less(y, m)
    ensures !Less(y, x)
  {
    LessAsymmetric(x, m);
    LessTotal(y, m);
    if y != m {
      LessTransitive(x, m, y);
      LessAsymmetric(x, y);
    }
  }

  /** ... and only one. */
  lemma LeastUnique(s: set<string>, m: string, n: string)
    requires IsLeast(m, s) && IsLeast(n, s)
    ensures m == n
  {
    LessTotal(m, n);
  }

  lemma LeastIsUnique(s: set<string>)
    ensures forall n, n' :: IsLeast(n, s) && IsLeast(n', s) ==> n == n'
  {
    forall n, n' | IsLeast(n, s) && IsLeast(n', s) ensures n == n' {
      LeastUnique(s, n, n');
    }
  }

  /** The names of `s` in sorted order, least first. */
  function SortedKeys(s: set<string>): (r: seq<string>)
    ensures |r| == |s|
    ensures forall x :: x in r <==> x in s
    ensures StrictlySorted(r)
    decreases |s|
  {
    if s == {} then []
    else
      LeastExists(s);
      LeastIsUnique(s);
      var m :| IsLeast(m, s);
      var rest := SortedKeys(s - {m});
      SortedAfterLeast(m, s, rest);
      [m] + rest
  }

  lemma SortedAfterLeast(m: string, s: set<string>, rest: seq<string>)
    requires IsLeast(m, s)
    requires forall x :: x in rest <==> x in s - {m}
    requires StrictlySorted(rest)
    ensures StrictlySorted([m] + rest)
  {
    var r := [m] + rest;
    forall i, j | 0 <= i < j < |r| ensures Less(r[i], r[j]) {
      if i == 0 {
        assert r[j] == rest[j - 1] && rest[j - 1] in rest;
        LessTotal(m, r[j]);
      } else {
        assert r[i] == rest[i - 1] && r[j] == rest[j - 1];
      }
    }
  }

  /** A strictly sorted list has no repeated name. */
  lemma SortedDistinct(s: seq<string>, i: int, j: int)
    requires StrictlySorted(s) && 0 <= i < |s| && 0 <= j < |s| && i != j
    ensures s[i] != s[j]
  {
    if i < j {
      LessIrreflexive(s[i]);
    } else {
      LessIrreflexive(s[j]);
    }
  }

  /** The first name of a sorted list is its least one. */
  lemma SortedHeadLeast(a: seq<string>)
    requires StrictlySorted(a) && a != []
    ensures IsLeast(a[0], set x | x in a)
  {
    forall x | x in a ensures !Less(x, a[0]) {
      var i :| 0 <= i < |a| && a[i] == x;
      if i == 0 {
        LessIrreflexive(x);
      } else {
        LessAsymmetric(a[0], x);
      }
    }
  }

  /** Two sorted listings of the same names are the same listing. */
  lemma {:induction false} StrictlySortedUnique(a: seq<string>, b: seq<string>)
    requires StrictlySorted(a) && StrictlySorted(b)
    requires forall x :: x in a <==> x in b
    ensures a == b
    decreases |a|
  {
    if a != [] {
      assert a[0] in b;
    }
    if b != [] {
      assert b[0] in a;
    }
    if a != [] {
      var names := set x | x in a;
      assert names == set x | x in b;
      SortedHeadLeast(a);
      SortedHeadLeast(b);
      LeastUnique(names, a[0], b[0]);
      assert a == [a[0]] + a[1..] && b == [b[0]] + b[1..];
      forall x ensures x in a[1..] <==> x in b[1..] {
        if x in a[1..] {
          var i :| 0 <= i < |a| - 1 && a[1..][i] == x;
          SortedDistinct(a, 0, i + 1);
          assert x in b && x != b[0];
        }
        if x in b[1..] {
          var j :| 0 <= j < |b| - 1 && b[1..][j] == x;
          SortedDistinct(b, 0, j + 1);
          assert x in a && x != a[0];
        }
      }
      StrictlySortedUnique(a[1..], b[1..]);
    }
  }
}
