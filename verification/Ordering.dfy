/** The key order of `std::map<std::string, ...>`: lexicographic, a strict total order. */
module Ordering {
  predicate Before(a: string, b: string) {
    if b == [] then false
    else if a == [] then true
    else a[0] < b[0] || (a[0] == b[0] && Before(a[1..], b[1..]))
  }

  lemma {:induction false} BeforeTotal(a: string, b: string)
    ensures a == b || Before(a, b) || Before(b, a)
  {
    if a != [] && b != [] && a[0] == b[0] {
      BeforeTotal(a[1..], b[1..]);
      assert a == [a[0]] + a[1..] && b == [b[0]] + b[1..];
    }
  }

  lemma {:induction false} BeforeAsymmetric(a: string, b: string)
    requires Before(a, b)
    ensures !Before(b, a)
  {
    if a != [] && a[0] == b[0] {
      BeforeAsymmetric(a[1..], b[1..]);
    }
  }

  lemma {:induction false} BeforeTransitive(a: string, b: string, c: string)
    requires Before(a, b) && Before(b, c)
    ensures Before(a, c)
  {
    if a != [] && a[0] == b[0] && b[0] == c[0] {
      BeforeTransitive(a[1..], b[1..], c[1..]);
    }
  }

  predicate IsFirst(k: string, keys: set<string>) {
    k in keys && forall other | other in keys :: other == k || Before(k, other)
  }

  lemma {:induction false} FirstExists(keys: set<string>)
    requires keys != {}
    ensures exists k :: IsFirst(k, keys)
    decreases |keys|
  {
    var x :| x in keys;
    var others := keys - {x};
    if others == {} {
      assert keys == {x} + others;
      assert IsFirst(x, keys);
    } else {
      FirstExists(others);
      var y :| IsFirst(y, others);
      BeforeTotal(x, y);
      if Before(x, y) {
        forall other | other in keys
          ensures other == x || Before(x, other)
        {
          if other != x && other != y {
            assert other in others;
            BeforeTransitive(x, y, other);
          }
        }
        assert IsFirst(x, keys);
      } else {
        assert IsFirst(y, keys);
      }
    }
  }

  lemma FirstUnique(j: string, k: string, keys: set<string>)
    requires IsFirst(j, keys) && IsFirst(k, keys)
    ensures j == k
  {
    if j != k {
      BeforeAsymmetric(j, k);
    }
  }

  ghost function FirstKey(keys: set<string>): (k: string)
    requires keys != {}
    ensures k in keys && IsFirst(k, keys)
  {
    FirstExists(keys);
    var k :| IsFirst(k, keys);
    k
  }
}
