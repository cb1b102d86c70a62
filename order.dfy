/** The order on dates. Dates are ISO `YYYY-MM-DD` strings, for which the
    lexicographic order on characters is the chronological order. */
module Order {

  /** Strict lexicographic order on strings. */
  predicate StrLess(a: string, b: string)
    decreases |a|
  {
    if |a| == 0 then |b| > 0
    else if |b| == 0 then false
    else a[0] < b[0] || (a[0] == b[0] && StrLess(a[1..], b[1..]))
  }

  lemma {:induction false} StrLessIrreflexive(a: string)
    ensures !StrLess(a, a)
    decreases |a|
  {
    if |a| > 0 {
      StrLessIrreflexive(a[1..]);
    }
  }

  lemma {:induction false} StrLessAsymmetric(a: string, b: string)
    requires StrLess(a, b)
    ensures !StrLess(b, a)
    decreases |a|
  {
    if |a| > 0 && a[0] == b[0] {
      StrLessAsymmetric(a[1..], b[1..]);
    }
  }

  lemma {:induction false} StrLessTransitive(a: string, b: string, c: string)
    requires StrLess(a, b) && StrLess(b, c)
    ensures StrLess(a, c)
    decreases |a|
  {
    if |a| > 0 && a[0] == b[0] && b[0] == c[0] {
      StrLessTransitive(a[1..], b[1..], c[1..]);
    }
  }

  lemma {:induction false} StrLessTotal(a: string, b: string)
    requires a != b
    ensures StrLess(a, b) || StrLess(b, a)
    decreases |a|
  {
    if |a| > 0 && |b| > 0 && a[0] == b[0] {
      assert a == [a[0]] + a[1..] && b == [b[0]] + b[1..];
      StrLessTotal(a[1..], b[1..]);
    }
  }

  /** `m` is the least element of `keys`. */
  ghost predicate IsLeast(m: string, keys: set<string>) {
    m in keys && forall k :: k in keys ==> k == m || StrLess(m, k)
  }

  /** Every non-empty finite set of strings has a least element. */
  lemma {:induction false} LeastExists(keys: set<string>)
    requires keys != {}
    ensures exists m :: IsLeast(m, keys)
    decreases |keys|
  {
    var x :| x in keys;
    if keys == {x} {
      assert IsLeast(x, keys);
    } else {
      var rest := keys - {x};
      assert |rest| < |keys|;
      LeastExists(rest);
      var m :| IsLeast(m, rest);
      assert x != m;
      StrLessTotal(x, m);
      if StrLess(x, m) {
        forall k | k in keys
          ensures k == x || StrLess(x, k)
        {
          if k != x && k != m {
            assert k in rest;
            StrLessTransitive(x, m, k);
          }
        }
        assert IsLeast(x, keys);
      } else {
        forall k | k in keys
          ensures k == m || StrLess(m, k)
        {
          if k != x {
            assert k in rest;
          }
        }
        assert IsLeast(m, keys);
      }
    }
  }

  /** The earliest of a non-empty set of dates. */
  ghost function Least(keys: set<string>): (m: string)
    requires keys != {}
    ensures m in keys
    ensures forall k :: k in keys ==> k == m || StrLess(m, k)
  {
    LeastExists(keys);
    var m :| IsLeast(m, keys);
    m
  }
}
