/**
 * The ordered key-value store the keeper writes through (ctx.KVStore): a map from byte-string
 * keys to values, whose iterators visit the keys of a range in ascending byte order.
 */
module Store {
  import opened Bytes
  import opened Wrappers
  import opened Keys

  /** `m` is a least element of `s` under the byte order. */
  predicate IsMin(m: seq<byte>, s: set<seq<byte>>)
  {
    forall k :: k in s ==> !Less(k, m)
  }

  lemma {:induction false} MinExists(s: set<seq<byte>>)
    requires s != {}
    ensures exists m :: m in s && IsMin(m, s)
    decreases s
  {
    var x :| x in s;
    if s != {x} {
      MinExists(s - {x});
      var m :| m in s - {x} && IsMin(m, s - {x});
      if Less(x, m) {
        forall k | k in s ensures !Less(k, x) {
          if k == x {
            LessIrreflexive(x);
          } else if Less(k, x) {
            LessTransitive(k, x, m);
          }
        }
      } else {
        assert IsMin(m, s);
      }
    } else {
      LessIrreflexive(x);
      assert IsMin(x, s);
    }
  }

  lemma MinUnique(a: seq<byte>, b: seq<byte>, s: set<seq<byte>>)
    requires a in s && b in s && IsMin(a, s) && IsMin(b, s)
    ensures a == b
  {
    if a != b {
      LessTotal(a, b);
    }
  }

  /** The elements of `s` in ascending byte order. */
  ghost function SortedKeys(s: set<seq<byte>>): seq<seq<byte>>
    decreases s
  {
    if s == {} then []
    else
      MinExists(s);
      var m :| m in s && IsMin(m, s);
      [m] + SortedKeys(s - {m})
  }

  lemma SortedKeysUnfold(s: set<seq<byte>>, m: seq<byte>)
    requires m in s && IsMin(m, s)
    ensures SortedKeys(s) == [m] + SortedKeys(s - {m})
  {
    var h := SortedKeys(s)[0];
    assert h in s && IsMin(h, s);
    MinUnique(h, m, s);
  }

  /** SortedKeys(s) lists every element of s exactly once, strictly ascending. */
  lemma {:induction false} SortedKeysSpec(s: set<seq<byte>>)
    ensures StrictlyAscending(SortedKeys(s))
    ensures forall k :: k in SortedKeys(s) <==> k in s
    ensures |SortedKeys(s)| == |s|
    decreases s
  {
    if s != {} {
      MinExists(s);
      var m :| m in s && IsMin(m, s);
      SortedKeysUnfold(s, m);
      var rest := SortedKeys(s - {m});
      SortedKeysSpec(s - {m});
      forall j | 0 <= j < |rest| ensures Less(m, rest[j]) {
        assert rest[j] in s - {m};
        LessTotal(m, rest[j]);
      }
      assert forall k :: k in SortedKeys(s) <==> k == m || k in rest;
    }
  }

  /** The keys of `contents` that lie in `r`. */
  function KeysInRange<V>(contents: map<seq<byte>, V>, r: Range): set<seq<byte>>
  {
    set k | k in contents && InRange(k, r)
  }

  class KVStore<V> {
    var contents: map<seq<byte>, V>

    constructor ()
      ensures contents == map[]
    {
      contents := map[];
    }

    /** store.Has */
    predicate Has(key: seq<byte>)
      reads this
    {
      key in contents
    }

    /** store.Set: writes one key and nothing else. */
    method Set(key: seq<byte>, value: V)
      modifies this
      ensures contents == old(contents)[key := value]
    {
      contents := contents[key := value];
    }

    /** store.Delete: removes one key (absent keys are left absent) and nothing else. */
    method Delete(key: seq<byte>)
      modifies this
      ensures contents == old(contents) - {key}
    {
      contents := contents - {key};
    }

    /** store.Iterator(start, end): the keys of the range, in ascending byte order. */
    method Iterator(r: Range) returns (keys: seq<seq<byte>>)
      ensures keys == SortedKeys(KeysInRange(contents, r))
    {
      var rest := KeysInRange(contents, r);
      keys := [];
      while rest != {}
        invariant keys + SortedKeys(rest) == SortedKeys(KeysInRange(contents, r))
        decreases rest
      {
        MinExists(rest);
        var m :| m in rest && IsMin(m, rest);
        SortedKeysUnfold(rest, m);
        keys, rest := keys + [m], rest - {m};
      }
      assert keys + [] == keys;
    }
  }
}
