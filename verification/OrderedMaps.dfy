/** JavaScript's `Map` over string keys: iteration follows first insertion, and setting a present key keeps its place. */
module OrderedMaps {
  /** The keys of a list that are not gone, in order. */
  function Remaining(keys: seq<string>, gone: set<string>): seq<string> {
    if keys == [] then []
    else if keys[0] in gone then Remaining(keys[1..], gone)
    else [keys[0]] + Remaining(keys[1..], gone)
  }

  ghost predicate Distinct(keys: seq<string>) {
    forall i, j | 0 <= i < j < |keys| :: keys[i] != keys[j]
  }

  datatype OrderedMap<+V> = OrderedMap(keys: seq<string>, vals: map<string, V>) {
    ghost predicate Valid() {
      Distinct(keys) && forall k :: k in keys <==> k in vals
    }

    predicate Has(k: string) {
      k in vals
    }

    function Set(k: string, v: V): OrderedMap<V> {
      OrderedMap(if k in vals then keys else keys + [k], vals[k := v])
    }

    function RemoveAll(gone: set<string>): OrderedMap<V> {
      OrderedMap(Remaining(keys, gone), vals - gone)
    }

    function Delete(k: string): OrderedMap<V> {
      RemoveAll({k})
    }
  }

  lemma {:induction false} RemainingMembers(keys: seq<string>, gone: set<string>, k: string)
    ensures k in Remaining(keys, gone) <==> k in keys && k !in gone
  {
    if keys != [] {
      RemainingMembers(keys[1..], gone, k);
      assert k in keys <==> k == keys[0] || k in keys[1..];
    }
  }

  lemma {:induction false} RemainingDistinct(keys: seq<string>, gone: set<string>)
    requires Distinct(keys)
    ensures Distinct(Remaining(keys, gone)) && |Remaining(keys, gone)| <= |keys|
  {
    if keys != [] {
      RemainingDistinct(keys[1..], gone);
      RemainingMembers(keys[1..], gone, keys[0]);
      var rest := Remaining(keys[1..], gone);
      if keys[0] !in gone {
        var all := [keys[0]] + rest;
        forall i, j | 0 <= i < j < |all|
          ensures all[i] != all[j]
        {
          assert all[j] == rest[j - 1];
        }
      }
    }
  }

  lemma {:induction false} RemainingTwice(keys: seq<string>, a: set<string>, b: set<string>)
    ensures Remaining(Remaining(keys, a), b) == Remaining(keys, a + b)
  {
    if keys != [] {
      RemainingTwice(keys[1..], a, b);
      if keys[0] !in a {
        assert Remaining(keys, a)[1..] == Remaining(keys[1..], a);
      }
    }
  }

  lemma {:induction false} RemainingNoneGone(keys: seq<string>, gone: set<string>)
    requires forall k | k in keys :: k !in gone
    ensures Remaining(keys, gone) == keys
  {
    if keys != [] {
      RemainingNoneGone(keys[1..], gone);
    }
  }

  /** Deleting the first key of a list drops exactly that entry. */
  lemma RemainingFirst(keys: seq<string>)
    requires keys != [] && Distinct(keys)
    ensures Remaining(keys, {keys[0]}) == keys[1..]
  {
    RemainingNoneGone(keys[1..], {keys[0]});
  }

  lemma SetKeepsValid<V>(m: OrderedMap<V>, k: string, v: V)
    requires m.Valid()
    ensures m.Set(k, v).Valid() && |m.Set(k, v).keys| == |m.keys| + (if m.Has(k) then 0 else 1)
  {
    var t := m.Set(k, v);
    forall x
      ensures x in t.keys <==> x in t.vals
    {
      assert x in m.keys <==> x in m.vals;
    }
    if k !in m.vals {
      assert k !in m.keys;
    }
  }

  lemma RemoveKeepsValid<V>(m: OrderedMap<V>, gone: set<string>)
    requires m.Valid()
    ensures m.RemoveAll(gone).Valid() && |m.RemoveAll(gone).keys| <= |m.keys|
  {
    RemainingDistinct(m.keys, gone);
    forall x
      ensures x in m.RemoveAll(gone).keys <==> x in m.RemoveAll(gone).vals
    {
      RemainingMembers(m.keys, gone, x);
      assert x in m.keys <==> x in m.vals;
    }
  }

  lemma RemoveTwice<V>(m: OrderedMap<V>, a: set<string>, b: set<string>)
    ensures m.RemoveAll(a).RemoveAll(b) == m.RemoveAll(a + b)
  {
    RemainingTwice(m.keys, a, b);
    assert m.vals - a - b == m.vals - (a + b);
  }

  /** The first key stands before the second. */
  ghost predicate Before(keys: seq<string>, x: string, y: string) {
    exists i, j :: 0 <= i < j < |keys| && keys[i] == x && keys[j] == y
  }

  lemma BeforeFirst(keys: seq<string>, x: string, y: string)
    requires keys != []
    ensures Before(keys, x, y) <==> (x == keys[0] && y in keys[1..]) || Before(keys[1..], x, y)
  {
    if Before(keys, x, y) {
      var i, j :| 0 <= i < j < |keys| && keys[i] == x && keys[j] == y;
      assert keys[1..][j - 1] == y;
      if i > 0 {
        assert keys[1..][i - 1] == x;
      }
    }
    if x == keys[0] && y in keys[1..] {
      var j :| 0 <= j < |keys[1..]| && keys[1..][j] == y;
      assert keys[j + 1] == y;
    }
    if Before(keys[1..], x, y) {
      var i, j :| 0 <= i < j < |keys[1..]| && keys[1..][i] == x && keys[1..][j] == y;
      assert keys[i + 1] == x && keys[j + 1] == y;
    }
  }

  /** Removing keys leaves the others in their order. */
  lemma {:induction false} BeforeRemaining(keys: seq<string>, gone: set<string>, x: string, y: string)
    ensures Before(Remaining(keys, gone), x, y) <==> Before(keys, x, y) && x !in gone && y !in gone
  {
    if keys != [] {
      BeforeRemaining(keys[1..], gone, x, y);
      RemainingMembers(keys[1..], gone, y);
      BeforeFirst(keys, x, y);
      var r := Remaining(keys, gone);
      if keys[0] !in gone {
        assert r[0] == keys[0] && r[1..] == Remaining(keys[1..], gone);
        BeforeFirst(r, x, y);
      }
    }
  }

  /** A key added at the end stands behind all others. */
  lemma BeforeSnoc(keys: seq<string>, k: string, x: string, y: string)
    ensures Before(keys + [k], x, y) <==> Before(keys, x, y) || (x in keys && y == k)
  {
    var all := keys + [k];
    if Before(all, x, y) {
      var i, j :| 0 <= i < j < |all| && all[i] == x && all[j] == y;
      assert keys[i] == x;
    }
    if Before(keys, x, y) {
      var i, j :| 0 <= i < j < |keys| && keys[i] == x && keys[j] == y;
      assert all[i] == x && all[j] == y;
    }
    if x in keys && y == k {
      var i :| 0 <= i < |keys| && keys[i] == x;
      assert all[i] == x && all[|keys|] == y;
    }
  }
}
