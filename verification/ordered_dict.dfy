/**
 * A Python `dict` from strings to strings. Python dicts keep their keys
 * unique and iterate in insertion order, and the rendering layer prints them
 * in that order, so a dict is modelled as its list of entries.
 */
module OrderedDict {

  type Dict = seq<(string, string)>

  /** The keys of the entries of `d`. */
  function Keys(d: Dict): set<string> {
    if d == [] then {} else {d[0].0} + Keys(d[1..])
  }

  /** No key has two entries. */
  predicate DistinctKeys(d: Dict) {
    d == [] || (d[0].0 !in Keys(d[1..]) && DistinctKeys(d[1..]))
  }

  /** A key is in `Keys(d)` exactly when some entry carries it. */
  lemma {:induction false} KeysSpec(d: Dict, k: string)
    ensures k in Keys(d) <==> exists i | 0 <= i < |d| :: d[i].0 == k
    decreases |d|
  {
    if d != [] {
      KeysSpec(d[1..], k);
      if exists i | 0 <= i < |d| :: d[i].0 == k {
        var i :| 0 <= i < |d| && d[i].0 == k;
        if i > 0 {
          assert d[1..][i - 1].0 == k;
        }
      }
    }
  }

  /** Entries whose keys differ pairwise have distinct keys. */
  lemma {:induction false} DistinctKeysFromPairs(d: Dict)
    requires forall i, j | 0 <= i < j < |d| :: d[i].0 != d[j].0
    ensures DistinctKeys(d)
    decreases |d|
  {
    if d != [] {
      KeysSpec(d[1..], d[0].0);
      DistinctKeysFromPairs(d[1..]);
    }
  }

  /** The mapping `d` denotes. */
  function ToMap(d: Dict): (m: map<string, string>)
    ensures m.Keys == Keys(d)
  {
    if d == [] then map[] else map[d[0].0 := d[0].1] + ToMap(d[1..])
  }

  /**
   * `d[k] = v`: the entry of `k` is overwritten where it stands, or a new
   * entry is appended when `k` has none.
   */
  function Put(d: Dict, k: string, v: string): (r: Dict)
    ensures Keys(r) == Keys(d) + {k}
    ensures |r| == if k in Keys(d) then |d| else |d| + 1
    ensures forall i | 0 <= i < |d| :: r[i].0 == d[i].0
    ensures k !in Keys(d) ==> r == d + [(k, v)]
    decreases |d|
  {
    if d == [] then [(k, v)]
    else if d[0].0 == k then [(k, v)] + d[1..]
    else [d[0]] + Put(d[1..], k, v)
  }

  /** Writing a key keeps the keys distinct. */
  lemma {:induction false} PutKeepsDistinct(d: Dict, k: string, v: string)
    requires DistinctKeys(d)
    ensures DistinctKeys(Put(d, k, v))
    decreases |d|
  {
    if d != [] {
      var r := Put(d, k, v);
      if d[0].0 == k {
        assert r[1..] == d[1..];
      } else {
        PutKeepsDistinct(d[1..], k, v);
        assert r[1..] == Put(d[1..], k, v);
      }
    }
  }

  /** Writing a key updates the mapping at that key only. */
  lemma {:induction false} PutUpdatesMap(d: Dict, k: string, v: string)
    requires DistinctKeys(d)
    ensures ToMap(Put(d, k, v)) == ToMap(d)[k := v]
    decreases |d|
  {
    if d != [] {
      var r := Put(d, k, v);
      if d[0].0 == k {
        assert r[1..] == d[1..];
        PutAtHead(d, v);
      } else {
        PutUpdatesMap(d[1..], k, v);
        assert r[1..] == Put(d[1..], k, v);
        PutPastHead(d, k, v);
      }
    }
  }

  /** Overwriting the first entry. */
  lemma PutAtHead(d: Dict, v: string)
    requires d != [] && DistinctKeys(d)
    ensures ToMap([(d[0].0, v)] + d[1..]) == ToMap(d)[d[0].0 := v]
  {
    var k := d[0].0;
    var e := [(k, v)] + d[1..];
    assert e[1..] == d[1..];
    var t := ToMap(d[1..]);
    assert k !in t;
    assert ToMap(e) == map[k := v] + t;
    assert ToMap(d) == map[k := d[0].1] + t;
    forall key | key in ToMap(e) ensures ToMap(e)[key] == ToMap(d)[k := v][key] {
    }
    MapsAgree(ToMap(e), ToMap(d)[k := v]);
  }

  /** Writing past the first entry, once the rest is known to be updated. */
  lemma PutPastHead(d: Dict, k: string, v: string)
    requires d != [] && d[0].0 != k
    requires ToMap(Put(d[1..], k, v)) == ToMap(d[1..])[k := v]
    ensures ToMap([d[0]] + Put(d[1..], k, v)) == ToMap(d)[k := v]
  {
    var rest := Put(d[1..], k, v);
    var e := [d[0]] + rest;
    assert e[0] == d[0];
    assert e[1..] == rest;
    UpdateUnderHead(d[0].0, d[0].1, ToMap(d[1..]), k, v);
  }

  /** Updating a key other than the head's commutes with putting the head in front. */
  lemma UpdateUnderHead(a: string, b: string, t: map<string, string>, k: string, v: string)
    requires a != k
    ensures map[a := b] + t[k := v] == (map[a := b] + t)[k := v]
  {
    var m, n := map[a := b] + t[k := v], (map[a := b] + t)[k := v];
    assert m.Keys == n.Keys;
    forall key | key in m ensures m[key] == n[key] {
    }
    MapsAgree(m, n);
  }

  /** Writing a key keeps the keys distinct and updates the mapping at that key only. */
  lemma PutSpec(d: Dict, k: string, v: string)
    requires DistinctKeys(d)
    ensures DistinctKeys(Put(d, k, v))
    ensures ToMap(Put(d, k, v)) == ToMap(d)[k := v]
  {
    PutKeepsDistinct(d, k, v);
    PutUpdatesMap(d, k, v);
  }

  /** Two maps with the same keys and the same value at every key are equal. */
  lemma MapsAgree(m: map<string, string>, n: map<string, string>)
    requires m.Keys == n.Keys
    requires forall key | key in m :: m[key] == n[key]
    ensures m == n
  {
  }

  /** The keys of two entry lists put together. */
  lemma {:induction false} KeysAppend(a: Dict, b: Dict)
    ensures Keys(a + b) == Keys(a) + Keys(b)
    decreases |a|
  {
    if a == [] {
      assert a + b == b;
    } else {
      assert (a + b)[0] == a[0];
      assert (a + b)[1..] == a[1..] + b;
      KeysAppend(a[1..], b);
    }
  }

  /** `d[k] = v` for each entry, in order. */
  function PutAll(d: Dict, entries: seq<(string, string)>): Dict {
    if entries == [] then d
    else
      var last := entries[|entries| - 1];
      Put(PutAll(d, entries[..|entries| - 1]), last.0, last.1)
  }

  /** Assigning one more entry is one more `Put`. */
  lemma PutAllSnoc(d: Dict, entries: seq<(string, string)>, e: (string, string))
    ensures PutAll(d, entries + [e]) == Put(PutAll(d, entries), e.0, e.1)
  {
    assert (entries + [e])[..|entries|] == entries;
  }

  /** The mapping successive assignments `m[k] = v` leave behind. */
  function Assign(m: map<string, string>, entries: seq<(string, string)>): map<string, string> {
    if entries == [] then m
    else
      var last := entries[|entries| - 1];
      Assign(m, entries[..|entries| - 1])[last.0 := last.1]
  }

  /** Assigning a list of entries adds exactly their keys. */
  lemma {:induction false} PutAllKeys(d: Dict, entries: seq<(string, string)>)
    ensures Keys(PutAll(d, entries)) == Keys(d) + Keys(entries)
    decreases |entries|
  {
    if entries != [] {
      var n := |entries| - 1;
      PutAllKeys(d, entries[..n]);
      assert entries == entries[..n] + [entries[n]];
      KeysAppend(entries[..n], [entries[n]]);
    }
  }

  /**
   * Assigning a list of entries keeps the keys distinct and denotes the
   * mapping the same assignments give on a map: a later entry for a key
   * overwrites an earlier one.
   */
  lemma {:induction false} PutAllSpec(d: Dict, entries: seq<(string, string)>)
    requires DistinctKeys(d)
    ensures DistinctKeys(PutAll(d, entries))
    ensures ToMap(PutAll(d, entries)) == Assign(ToMap(d), entries)
    decreases |entries|
  {
    if entries != [] {
      var n := |entries| - 1;
      PutAllSpec(d, entries[..n]);
      PutSpec(PutAll(d, entries[..n]), entries[n].0, entries[n].1);
    }
  }

  /** `d.get(k, default)`. */
  function GetOr(d: Dict, k: string, default: string): string {
    if d == [] then default
    else if d[0].0 == k then d[0].1
    else GetOr(d[1..], k, default)
  }

  /** `GetOr` reads the mapping the dict denotes. */
  lemma {:induction false} GetOrSpec(d: Dict, k: string, default: string)
    requires DistinctKeys(d)
    ensures GetOr(d, k, default) == if k in ToMap(d) then ToMap(d)[k] else default
    decreases |d|
  {
    if d != [] && d[0].0 != k {
      GetOrSpec(d[1..], k, default);
    }
  }
}
