/** The server's staging tables (inbox and snapshot rows) and the keyset pages
    it reads them back in. Rows are keyed by (generation, seq, row ordinal) and
    always read in ascending (seq, ordinal) order. */
module Staging {

  datatype Key = Key(generation: string, seqNo: nat, ordinal: nat)

  predicate Before(a: Key, b: Key) {
    a.seqNo < b.seqNo || (a.seqNo == b.seqNo && a.ordinal < b.ordinal)
  }

  ghost predicate Sorted(s: seq<Key>) {
    forall i, j | 0 <= i < j < |s| :: Before(s[i], s[j])
  }

  ghost predicate Uniform(keys: set<Key>) {
    forall a, b | a in keys && b in keys :: a.generation == b.generation
  }

  ghost predicate IsLast(k: Key, keys: set<Key>) {
    k in keys && forall j | j in keys && j != k :: Before(j, k)
  }

  lemma {:induction false} LastExists(keys: set<Key>)
    requires keys != {} && Uniform(keys)
    ensures exists k :: IsLast(k, keys)
    decreases |keys|
  {
    var k :| k in keys;
    var rest := keys - {k};
    if rest == {} {
      assert keys == {k};
      assert IsLast(k, keys);
    } else {
      LastExists(rest);
      var l :| IsLast(l, rest);
      assert l in keys && k.generation == l.generation;
      var top := if Before(l, k) then k else l;
      forall j | j in keys && j != top ensures Before(j, top) {
        assert j == k || j == l || Before(j, l);
      }
      assert IsLast(top, keys);
    }
  }

  /** The keys in ascending order, as an ORDER BY returns them. */
  ghost function Ordered(keys: set<Key>): seq<Key>
    requires Uniform(keys)
    decreases |keys|
  {
    if keys == {} then []
    else
      LastExists(keys);
      var k :| IsLast(k, keys);
      Ordered(keys - {k}) + [k]
  }

  lemma {:induction false} OrderedSorts(keys: set<Key>)
    requires Uniform(keys)
    ensures Sorted(Ordered(keys))
    ensures forall k :: k in Ordered(keys) <==> k in keys
    ensures |Ordered(keys)| == |keys|
    decreases |keys|
  {
    if keys != {} {
      LastExists(keys);
      var k :| IsLast(k, keys) && Ordered(keys) == Ordered(keys - {k}) + [k];
      OrderedSorts(keys - {k});
      var front := Ordered(keys - {k});
      forall i | 0 <= i < |front| ensures Before(front[i], k) {
        assert front[i] in keys - {k};
      }
    }
  }

  lemma {:induction false} SortedSize(s: seq<Key>, keys: set<Key>)
    requires Sorted(s) && forall k :: k in s <==> k in keys
    ensures |s| == |keys|
    decreases |s|
  {
    if s == [] {
      assert keys == {};
    } else {
      var n := |s| - 1;
      forall k ensures k in s[..n] <==> k in keys - {s[n]} {
        assert k in s[..n] <==> k in s && k != s[n];
      }
      SortedSize(s[..n], keys - {s[n]});
    }
  }

  /** There is only one ascending arrangement of a set of keys. */
  lemma {:induction false} SortedUnique(a: seq<Key>, b: seq<Key>)
    requires Sorted(a) && Sorted(b) && |a| == |b|
    requires forall k :: k in a <==> k in b
    ensures a == b
    decreases |a|
  {
    if a != [] {
      var n := |a| - 1;
      assert a[n] in b && b[n] in a;
      forall k ensures k in a[..n] <==> k in b[..n] {
        assert k in a[..n] <==> k in a && k != a[n];
        assert k in b[..n] <==> k in b && k != b[n];
      }
      SortedUnique(a[..n], b[..n]);
    }
  }

  lemma OrderedIs(keys: set<Key>, s: seq<Key>)
    requires Uniform(keys) && Sorted(s)
    requires forall k :: k in s <==> k in keys
    ensures Ordered(keys) == s
  {
    OrderedSorts(keys);
    SortedSize(s, keys);
    SortedUnique(Ordered(keys), s);
  }

  lemma OrderedAppends(keys: set<Key>, k: Key)
    requires Uniform(keys + {k}) && forall j | j in keys :: Before(j, k)
    ensures Ordered(keys + {k}) == Ordered(keys) + [k]
  {
    OrderedSorts(keys);
    OrderedIs(keys + {k}, Ordered(keys) + [k]);
  }

  lemma SortedPrepends(k: Key, rest: seq<Key>)
    requires Sorted(rest) && forall j | j in rest :: Before(k, j)
    ensures Sorted([k] + rest)
  {
    var all := [k] + rest;
    forall i, j | 0 <= i < j < |all| ensures Before(all[i], all[j]) {
      assert all[j] == rest[j - 1];
      assert i == 0 || all[i] == rest[i - 1];
    }
  }

  lemma OrderedPrepends(keys: set<Key>, k: Key)
    requires k in keys && Uniform(keys) && forall j | j in keys && j != k :: Before(k, j)
    ensures Ordered(keys) == [k] + Ordered(keys - {k})
  {
    var rest := Ordered(keys - {k});
    OrderedSorts(keys - {k});
    SortedPrepends(k, rest);
    assert forall j :: j in [k] + rest <==> j == k || j in rest;
    OrderedIs(keys, [k] + rest);
  }

  // ---------------------------------------------------------------- keyset pages

  predicate After(k: Key, seqNo: int, ordinal: int) {
    k.seqNo > seqNo || (k.seqNo == seqNo && k.ordinal > ordinal)
  }

  /** What a page query may return: the keys of one generation past the given position. */
  function Remaining(keys: set<Key>, generation: string, seqNo: int, ordinal: int): set<Key> {
    set k | k in keys && k.generation == generation && After(k, seqNo, ordinal)
  }

  function Min(a: nat, b: nat): nat {
    if a < b then a else b
  }

  method Smallest(keys: set<Key>) returns (first: Key)
    requires keys != {} && Uniform(keys)
    ensures first in keys && forall k | k in keys && k != first :: Before(first, k)
  {
    first :| first in keys;
    var rest := keys - {first};
    while rest != {}
      invariant rest <= keys && first in keys
      invariant forall k | k in keys && k !in rest && k != first :: Before(first, k)
      decreases rest
    {
      var k :| k in rest;
      if Before(k, first) {
        first := k;
      }
      rest := rest - {k};
    }
  }

  /** SELECT ... WHERE (seq, ordinal) > (?, ?) ORDER BY seq, ordinal LIMIT ?. */
  method SelectPage(keys: set<Key>, generation: string, seqNo: int, ordinal: int, limit: nat) returns (page: seq<Key>)
    ensures var rows := Ordered(Remaining(keys, generation, seqNo, ordinal));
            page == rows[..Min(limit, |rows|)]
  {
    var rest := Remaining(keys, generation, seqNo, ordinal);
    ghost var rows := Ordered(rest);
    page := [];
    while |page| < limit && rest != {}
      invariant Uniform(rest)
      invariant rows == page + Ordered(rest)
      invariant |page| <= limit
      decreases rest
    {
      var k := Smallest(rest);
      OrderedPrepends(rest, k);
      page := page + [k];
      rest := rest - {k};
    }
  }

  /** After reading up to position `n` of the ordered keys, exactly the suffix remains, even though
      the rows read so far have been deleted meanwhile. */
  lemma RemainingIsSuffix(all: seq<Key>, keys: set<Key>, generation: string, n: nat, seqNo: int, ordinal: int)
    requires Sorted(all) && n <= |all|
    requires forall k | k in all :: k.generation == generation
    requires if n == 0 then seqNo == -1 else seqNo == all[n - 1].seqNo && ordinal == all[n - 1].ordinal
    requires forall k | k in keys && k.generation == generation :: k in all
    requires forall i | n <= i < |all| :: all[i] in keys
    ensures Ordered(Remaining(keys, generation, seqNo, ordinal)) == all[n..]
  {
    var rest := Remaining(keys, generation, seqNo, ordinal);
    forall k ensures k in all[n..] <==> k in rest {
      if k in all[n..] {
        var i :| n <= i < |all| && all[i] == k;
        assert n == 0 || Before(all[n - 1], all[i]);
      }
      if k in rest {
        var i :| 0 <= i < |all| && all[i] == k;
        assert i < n - 1 ==> Before(all[i], all[n - 1]);
      }
    }
    OrderedIs(rest, all[n..]);
  }
}
