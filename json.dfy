/**
 * The JSON values the layers store and emit (an abstraction of `serde_json::Value`),
 * the fixed-width integer types of the source, and the key/value entries of a record.
 */
module Json {

  type U8 = x: int | 0 <= x < 0x100
  type U16 = x: int | 0 <= x < 0x1_0000
  type U32 = x: int | 0 <= x < 0x1_0000_0000
  type U64 = x: int | 0 <= x < 0x1_0000_0000_0000_0000
  type I64 = x: int | -0x8000_0000_0000_0000 <= x < 0x8000_0000_0000_0000

  /** One more than the largest `u64`. */
  const U64Limit: int := 0x1_0000_0000_0000_0000

  /**
   * A JSON value. Numbers are the integers `serde_json` builds from `i64`, `u64`,
   * `u32`, `u16` and `u8`; floating-point numbers are not modelled.
   */
  datatype Json =
    | Null
    | Bool(b: bool)
    | Number(n: int)
    | String(s: string)
    | Array(items: seq<Json>)
    | Object(members: seq<(string, Json)>)

  /** One `serialize_entry(key, value)` call of a JSON map serializer. */
  type Entry = (string, Json)

  /** The keys that occur in a list of entries. */
  function KeySet(entries: seq<Entry>): (keys: set<string>)
    ensures forall i :: 0 <= i < |entries| ==> entries[i].0 in keys
    ensures forall k :: k in keys ==> exists i :: 0 <= i < |entries| && entries[i].0 == k
  {
    set i | 0 <= i < |entries| :: entries[i].0
  }

  /** No key occurs twice. */
  predicate DistinctKeys(entries: seq<Entry>)
  {
    forall i, j :: 0 <= i < j < |entries| ==> entries[i].0 != entries[j].0
  }

  /**
   * `entries` lists, in some order and once each, exactly the pairs of `m` whose
   * key is not in `excluded`: what a loop over a `HashMap` that skips the keys of
   * `excluded` serializes, whatever order the map iterates in.
   */
  ghost predicate Listing(entries: seq<Entry>, m: map<string, Json>, excluded: set<string>)
  {
    && DistinctKeys(entries)
    && KeySet(entries) == m.Keys - excluded
    && forall i :: 0 <= i < |entries| ==> Listed(entries[i], m, excluded)
  }

  /** The entry is a pair of `m` whose key is not excluded. */
  ghost predicate Listed(e: Entry, m: map<string, Json>, excluded: set<string>)
  {
    e.0 in m && e.0 !in excluded && e.1 == m[e.0]
  }

  /** `record` is `head`, then a listing of `m1`, then a listing of `m2`, each leaving out its excluded keys. */
  ghost predicate Layout2(record: seq<Entry>, head: seq<Entry>, m1: map<string, Json>, x1: set<string>,
                          m2: map<string, Json>, x2: set<string>)
  {
    exists a, b :: record == head + a + b && Listing(a, m1, x1) && Listing(b, m2, x2)
  }

  /** `record` is `head`, then listings of `m1`, `m2` and `m3` in turn. */
  ghost predicate Layout3(record: seq<Entry>, head: seq<Entry>, m1: map<string, Json>, x1: set<string>,
                          m2: map<string, Json>, x2: set<string>, m3: map<string, Json>, x3: set<string>)
  {
    exists a, b, c :: record == head + a + b + c && Listing(a, m1, x1) && Listing(b, m2, x2) && Listing(c, m3, x3)
  }

  /** Appending an entry with a new key to a listing lists one more key. */
  lemma ListingAppend(entries: seq<Entry>, m: map<string, Json>, excluded: set<string>, key: string)
    requires Listing(entries, m, excluded + {key})
    requires key in m && key !in excluded
    ensures Listing(entries + [(key, m[key])], m, excluded)
  {
    var longer := entries + [(key, m[key])];
    assert key !in KeySet(entries);
    forall i, j | 0 <= i < j < |longer| ensures longer[i].0 != longer[j].0 {
      if j < |entries| {
        assert longer[i] == entries[i] && longer[j] == entries[j];
      } else {
        assert longer[i] == entries[i];
        assert entries[i].0 in KeySet(entries);
      }
    }
    forall k | k in KeySet(longer) ensures k in m.Keys - excluded {
      var i :| 0 <= i < |longer| && longer[i].0 == k;
      if i < |entries| { assert longer[i] == entries[i]; }
    }
    forall k | k in m.Keys - excluded ensures k in KeySet(longer) {
      if k == key {
        assert longer[|entries|].0 == k;
      } else {
        assert k in KeySet(entries);
        var i :| 0 <= i < |entries| && entries[i].0 == k;
        assert longer[i] == entries[i];
      }
    }
  }

  /** A listed key is listed with its value. */
  lemma ListingHas(entries: seq<Entry>, m: map<string, Json>, excluded: set<string>, key: string)
    requires Listing(entries, m, excluded)
    requires key in m && key !in excluded
    ensures exists i :: 0 <= i < |entries| && entries[i] == (key, m[key])
  {
    assert key in KeySet(entries);
    var i :| 0 <= i < |entries| && entries[i].0 == key;
    assert entries[i] == (key, m[key]);
  }

  /**
   * After its head, a record laid out in two listings holds only listed pairs of
   * the two maps, and it holds every pair either map can list; a key listable in
   * both occurs twice, with the value from `m1` first.
   */
  lemma Layout2Entry(record: seq<Entry>, head: seq<Entry>, m1: map<string, Json>, x1: set<string>,
                     m2: map<string, Json>, x2: set<string>, i: int)
    requires Layout2(record, head, m1, x1, m2, x2)
    requires |head| <= i < |record|
    ensures Listed(record[i], m1, x1) || Listed(record[i], m2, x2)
  {
    var a, b :| record == head + a + b && Listing(a, m1, x1) && Listing(b, m2, x2);
    if i < |head| + |a| {
      assert record[i] == a[i - |head|];
    } else {
      assert record[i] == b[i - |head| - |a|];
    }
  }

  lemma Layout2Head(record: seq<Entry>, head: seq<Entry>, m1: map<string, Json>, x1: set<string>,
                    m2: map<string, Json>, x2: set<string>)
    requires Layout2(record, head, m1, x1, m2, x2)
    ensures |head| <= |record| && record[..|head|] == head
  {
    var a, b :| record == head + a + b && Listing(a, m1, x1) && Listing(b, m2, x2);
    assert forall i :: 0 <= i < |head| ==> record[i] == head[i];
    assert record[..|head|] == head;
  }

  lemma Layout2Has(record: seq<Entry>, head: seq<Entry>, m1: map<string, Json>, x1: set<string>,
                   m2: map<string, Json>, x2: set<string>, key: string)
    requires Layout2(record, head, m1, x1, m2, x2)
    ensures key in m1 && key !in x1 ==> (key, m1[key]) in record
    ensures key in m2 && key !in x2 ==> (key, m2[key]) in record
    ensures key in m1 && key !in x1 && key in m2 && key !in x2 ==>
      exists i, j :: (|head| <= i < j < |record| && record[i] == (key, m1[key]) && record[j] == (key, m2[key]))
  {
    var a, b :| record == head + a + b && Listing(a, m1, x1) && Listing(b, m2, x2);
    if key in m1 && key !in x1 {
      ListingHas(a, m1, x1, key);
      var i :| 0 <= i < |a| && a[i] == (key, m1[key]);
      assert record[|head| + i] == a[i];
      if key in m2 && key !in x2 {
        ListingHas(b, m2, x2, key);
        var j :| 0 <= j < |b| && b[j] == (key, m2[key]);
        assert record[|head| + |a| + j] == b[j];
      }
    }
    if key in m2 && key !in x2 {
      ListingHas(b, m2, x2, key);
      var j :| 0 <= j < |b| && b[j] == (key, m2[key]);
      assert record[|head| + |a| + j] == b[j];
    }
  }

  /**
   * After its head, a record laid out in three listings holds only listed pairs
   * of the three maps, and it holds every pair any of them can list.
   */
  lemma Layout3Entry(record: seq<Entry>, head: seq<Entry>, m1: map<string, Json>, x1: set<string>,
                     m2: map<string, Json>, x2: set<string>, m3: map<string, Json>, x3: set<string>, i: int)
    requires Layout3(record, head, m1, x1, m2, x2, m3, x3)
    requires |head| <= i < |record|
    ensures Listed(record[i], m1, x1) || Listed(record[i], m2, x2) || Listed(record[i], m3, x3)
  {
    var a, b, c :| record == head + a + b + c && Listing(a, m1, x1) && Listing(b, m2, x2) && Listing(c, m3, x3);
    if i < |head| + |a| {
      assert record[i] == a[i - |head|];
    } else if i < |head| + |a| + |b| {
      assert record[i] == b[i - |head| - |a|];
    } else {
      assert record[i] == c[i - |head| - |a| - |b|];
    }
  }

  lemma Layout3Head(record: seq<Entry>, head: seq<Entry>, m1: map<string, Json>, x1: set<string>,
                    m2: map<string, Json>, x2: set<string>, m3: map<string, Json>, x3: set<string>)
    requires Layout3(record, head, m1, x1, m2, x2, m3, x3)
    ensures |head| <= |record| && record[..|head|] == head
  {
    var a, b, c :| record == head + a + b + c && Listing(a, m1, x1) && Listing(b, m2, x2) && Listing(c, m3, x3);
    assert forall i :: 0 <= i < |head| ==> record[i] == head[i];
    assert record[..|head|] == head;
  }

  lemma Layout3Has(record: seq<Entry>, head: seq<Entry>, m1: map<string, Json>, x1: set<string>,
                   m2: map<string, Json>, x2: set<string>, m3: map<string, Json>, x3: set<string>, key: string)
    requires Layout3(record, head, m1, x1, m2, x2, m3, x3)
    ensures key in m1 && key !in x1 ==> (key, m1[key]) in record
    ensures key in m2 && key !in x2 ==> (key, m2[key]) in record
    ensures key in m3 && key !in x3 ==> (key, m3[key]) in record
  {
    var a, b, c :| record == head + a + b + c && Listing(a, m1, x1) && Listing(b, m2, x2) && Listing(c, m3, x3);
    if key in m1 && key !in x1 {
      ListingHas(a, m1, x1, key);
      var i :| 0 <= i < |a| && a[i] == (key, m1[key]);
      assert record[|head| + i] == a[i];
    }
    if key in m2 && key !in x2 {
      ListingHas(b, m2, x2, key);
      var i :| 0 <= i < |b| && b[i] == (key, m2[key]);
      assert record[|head| + |a| + i] == b[i];
    }
    if key in m3 && key !in x3 {
      ListingHas(c, m3, x3, key);
      var i :| 0 <= i < |c| && c[i] == (key, m3[key]);
      assert record[|head| + |a| + |b| + i] == c[i];
    }
  }

  lemma Layout2Intro(record: seq<Entry>, head: seq<Entry>, a: seq<Entry>, b: seq<Entry>,
                     m1: map<string, Json>, x1: set<string>, m2: map<string, Json>, x2: set<string>)
    requires record == head + a + b && Listing(a, m1, x1) && Listing(b, m2, x2)
    ensures Layout2(record, head, m1, x1, m2, x2)
  {
  }

  lemma Layout3Intro(record: seq<Entry>, head: seq<Entry>, a: seq<Entry>, b: seq<Entry>, c: seq<Entry>,
                     m1: map<string, Json>, x1: set<string>, m2: map<string, Json>, x2: set<string>,
                     m3: map<string, Json>, x3: set<string>)
    requires record == head + a + b + c && Listing(a, m1, x1) && Listing(b, m2, x2) && Listing(c, m3, x3)
    ensures Layout3(record, head, m1, x1, m2, x2, m3, x3)
  {
  }

  /** The keys of two lists of entries, one after the other, are the keys of either. */
  lemma KeySetConcat(s: seq<Entry>, t: seq<Entry>)
    ensures KeySet(s + t) == KeySet(s) + KeySet(t)
  {
    forall k | k in KeySet(s + t) ensures k in KeySet(s) + KeySet(t) {
      var i :| 0 <= i < |s + t| && (s + t)[i].0 == k;
      if i >= |s| {
        assert t[i - |s|] == (s + t)[i];
      }
    }
    forall k | k in KeySet(s) + KeySet(t) ensures k in KeySet(s + t) {
      if k in KeySet(s) {
        var i :| 0 <= i < |s| && s[i].0 == k;
        assert (s + t)[i] == s[i];
      } else {
        var i :| 0 <= i < |t| && t[i].0 == k;
        assert (s + t)[|s| + i] == t[i];
      }
    }
  }

  /** The keys of a `Layout2` record: those of its head and the listed keys of both maps. */
  lemma Layout2Keys(record: seq<Entry>, head: seq<Entry>, m1: map<string, Json>, x1: set<string>,
                    m2: map<string, Json>, x2: set<string>)
    requires Layout2(record, head, m1, x1, m2, x2)
    ensures KeySet(record) == KeySet(head) + (m1.Keys - x1) + (m2.Keys - x2)
  {
    var a, b :| record == head + a + b && Listing(a, m1, x1) && Listing(b, m2, x2);
    KeySetConcat(head, a);
    KeySetConcat(head + a, b);
  }

  /** The keys of a `Layout3` record: those of its head and the listed keys of the three maps. */
  lemma Layout3Keys(record: seq<Entry>, head: seq<Entry>, m1: map<string, Json>, x1: set<string>,
                    m2: map<string, Json>, x2: set<string>, m3: map<string, Json>, x3: set<string>)
    requires Layout3(record, head, m1, x1, m2, x2, m3, x3)
    ensures KeySet(record) == KeySet(head) + (m1.Keys - x1) + (m2.Keys - x2) + (m3.Keys - x3)
  {
    var a, b, c :| record == head + a + b + c && Listing(a, m1, x1) && Listing(b, m2, x2) && Listing(c, m3, x3);
    KeySetConcat(head, a);
    KeySetConcat(head + a, b);
    KeySetConcat(head + a + b, c);
  }

  /** The keys of entries whose keys are listed, in order, by `keys`. */
  lemma KeySetOfKeys(entries: seq<Entry>, keys: seq<string>)
    requires |keys| == |entries| && forall i :: 0 <= i < |entries| ==> entries[i].0 == keys[i]
    ensures KeySet(entries) == set k | k in keys
  {
    forall k | k in keys ensures k in KeySet(entries) {
      var i :| 0 <= i < |keys| && keys[i] == k;
      assert entries[i].0 == k;
    }
  }

  /** The keys of a single entry, or of none. */
  lemma KeySetSmall(e: Entry)
    ensures KeySet([e]) == {e.0} && KeySet([]) == {}
  {
    assert [e][0].0 == e.0;
  }
}
