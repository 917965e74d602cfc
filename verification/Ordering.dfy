/** `ORDER BY` a text key: listing the values of a table in key order. */
module Ordering {

  predicate Before(a: string, b: string)
  {
    a != b && (a == "" || (b != "" && (a[0] < b[0] || (a[0] == b[0] && Before(a[1..], b[1..])))))
  }

  lemma {:induction false} BeforeTotal(a: string, b: string)
    ensures a == b || Before(a, b) || Before(b, a)
    ensures !(Before(a, b) && Before(b, a))
  {
    if a != "" && b != "" && a[0] == b[0] {
      BeforeTotal(a[1..], b[1..]);
      assert a == [a[0]] + a[1..] && b == [b[0]] + b[1..];
    }
  }

  lemma {:induction false} BeforeTransitive(a: string, b: string, c: string)
    requires Before(a, b) && Before(b, c)
    ensures Before(a, c)
  {
    BeforeTotal(a, c);
    if a != "" && a[0] == b[0] == c[0] {
      BeforeTransitive(a[1..], b[1..], c[1..]);
    }
  }

  predicate IsFirst(k: string, s: set<string>)
  {
    k in s && forall j <- s :: j == k || Before(k, j)
  }

  lemma {:induction false} FirstExists(s: set<string>)
    requires s != {}
    ensures exists k :: IsFirst(k, s)
  {
    var x :| x in s;
    var rest := s - {x};
    if rest == {} {
      assert s == {x};
      assert IsFirst(x, s);
    } else {
      FirstExists(rest);
      var k :| IsFirst(k, rest);
      BeforeTotal(x, k);
      if Before(k, x) {
        assert IsFirst(k, s);
      } else {
        forall j <- s ensures j == x || Before(x, j) {
          if j in rest && j != k {
            BeforeTransitive(x, k, j);
          }
        }
        assert IsFirst(x, s);
      }
    }
  }

  lemma FirstUnique(j: string, k: string, s: set<string>)
    requires IsFirst(j, s) && IsFirst(k, s)
    ensures j == k
  {
    BeforeTotal(j, k);
  }

  ghost function First(s: set<string>): (k: string)
    requires s != {}
    ensures IsFirst(k, s)
  {
    FirstExists(s);
    var k :| IsFirst(k, s);
    k
  }

  /** The keys in ascending order. */
  ghost function SortedKeys(s: set<string>): (r: seq<string>)
    ensures forall k :: k in r <==> k in s
    ensures forall i, j :: 0 <= i < j < |r| ==> Before(r[i], r[j])
  {
    if s == {} then [] else
      var rest := SortedKeys(s - {First(s)});
      assert forall k <- rest :: k in s - {First(s)};
      [First(s)] + rest
  }

  ghost function Values<V>(m: map<string, V>, keys: seq<string>): (r: seq<V>)
    requires forall k <- keys :: k in m
    ensures |r| == |keys| && forall i :: 0 <= i < |keys| ==> r[i] == m[keys[i]]
  {
    if keys == [] then [] else [m[keys[0]]] + Values(m, keys[1..])
  }

  /** The values of `m` in ascending order of their keys. */
  ghost function Listing<V>(m: map<string, V>): seq<V>
  {
    Values(m, SortedKeys(m.Keys))
  }

  lemma ListingMembers<V>(m: map<string, V>)
    ensures forall v :: v in Listing(m) <==> v in m.Values
  {
    var keys := SortedKeys(m.Keys);
    var values := Listing(m);
    forall v ensures v in values <==> v in m.Values {
      if v in values {
        var i :| 0 <= i < |values| && values[i] == v;
        assert keys[i] in keys;
      }
      if k :| k in m && m[k] == v {
        assert k in keys;
        var i :| 0 <= i < |keys| && keys[i] == k;
        assert values[i] == v;
      }
    }
  }

  method ListByKey<V>(m: map<string, V>) returns (r: seq<V>)
    ensures r == Listing(m)
  {
    hide SortedKeys, Before, IsFirst, Values;
    var rest := m.Keys;
    r := [];
    assert [] + Listing(m) == Listing(m);
    while rest != {}
      invariant rest <= m.Keys
      invariant r + Values(m, SortedKeys(rest)) == Listing(m)
      decreases rest
    {
      var k := NextKey(rest);
      ValuesStep(m, rest, k, r);
      r := r + [m[k]];
      rest := rest - {k};
    }
    ValuesNone(m);
    assert r + [] == r;
  }

  lemma ValuesStep<V>(m: map<string, V>, s: set<string>, k: string, done: seq<V>)
    requires s <= m.Keys && k in s && IsFirst(k, s)
    ensures done + Values(m, SortedKeys(s)) == (done + [m[k]]) + Values(m, SortedKeys(s - {k}))
  {
    hide SortedKeys, Before, IsFirst;
    SortedStep(s, k);
    var rest := SortedKeys(s - {k});
    assert ([k] + rest)[1..] == rest;
    assert Values(m, [k] + rest) == [m[k]] + Values(m, rest);
  }

  lemma ValuesNone<V>(m: map<string, V>)
    ensures Values(m, SortedKeys({})) == []
  {
  }

  lemma SortedStep(s: set<string>, k: string)
    requires IsFirst(k, s)
    ensures SortedKeys(s) == [k] + SortedKeys(s - {k})
  {
    FirstUnique(k, First(s), s);
  }

  method NextKey(s: set<string>) returns (k: string)
    requires s != {}
    ensures k in s && IsFirst(k, s)
  {
    FirstExists(s);
    k :| k in s && IsFirst(k, s);
  }
}
