/** Entity tables as JavaScript objects keyed by id.

    normalizr stores each entity type as an object from id to record, and the
    services turn such an object into an array with
    `Object.keys(t).map((id) => t[id])`. JavaScript lists integer-like keys
    in ascending order and the others in insertion order; this model promises
    nothing about that order, only which records the array holds and that
    each id contributes exactly one of them.
 */
module Tables {
  import opened Shapes

  ghost predicate NoDup<T>(s: seq<T>)
  {
    forall i, j :: 0 <= i < j < |s| ==> s[i] != s[j]
  }

  /** No two elements of `s` share a key. */
  ghost predicate DistinctBy<T>(s: seq<T>, key: T -> Id)
  {
    forall i, j :: 0 <= i < j < |s| ==> key(s[i]) != key(s[j])
  }

  /** `table` has an entry for the key of each of `records` and no other. */
  ghost predicate Keyed<R>(table: map<Id, R>, records: seq<R>, key: R -> Id)
  {
    table.Keys == (set r | r in records :: key(r))
  }

  /** Each of `records` is found in `table` under its key. */
  ghost predicate Stores<R>(table: map<Id, R>, records: seq<R>, key: R -> Id)
  {
    forall r :: r in records ==> key(r) in table && table[key(r)] == r
  }

  /** `table` holds exactly the elements of `records`, each under its key. */
  ghost predicate Holds<R>(table: map<Id, R>, records: seq<R>, key: R -> Id)
  {
    Keyed(table, records, key) && Stores(table, records, key)
  }

  /** `Object.keys(table)`: every key exactly once, in an order left open. */
  ghost function KeyList<R>(table: map<Id, R>): (ks: seq<Id>)
    ensures |ks| == |table| && NoDup(ks)
    ensures forall k :: k in ks <==> k in table
    decreases |table|
  {
    if table == map[] then []
    else
      var k :| k in table;
      var rest := table - {k};
      assert rest.Keys == table.Keys - {k};
      [k] + KeyList(rest)
  }

  /** `Object.keys(table).map((id) => table[id])` */
  ghost function Values<R(!new)>(table: map<Id, R>): (vs: seq<R>)
    ensures |vs| == |table|
    ensures forall v :: v in vs <==> v in table.Values
  {
    var ks := KeyList(table);
    var vs := seq(|ks|, i requires 0 <= i < |ks| => table[ks[i]]);
    EveryValueListed(table, ks, vs);
    vs
  }

  lemma EveryValueListed<R(!new)>(table: map<Id, R>, ks: seq<Id>, vs: seq<R>)
    requires forall k :: k in ks <==> k in table
    requires |vs| == |ks| && forall i :: 0 <= i < |ks| ==> vs[i] == table[ks[i]]
    ensures forall v :: v in table.Values ==> v in vs
  {
    forall v | v in table.Values ensures v in vs {
      var k :| k in table && table[k] == v;
      var i :| 0 <= i < |ks| && ks[i] == k;
      assert vs[i] == v;
    }
  }

  /** `entities.<type>` as the services read it: normalizr creates a type's
      table when it adds the first entity of that type, so a table with no
      entries is not there at all and reads as `undefined`. */
  function Field<R>(table: map<Id, R>): (t: Option<map<Id, R>>)
    ensures t.Some? ==> t.value == table && |table| > 0
    ensures t.None? ==> table == map[]
  {
    if |table| == 0 then None else Some(table)
  }

  /** `table[key]`: the record under `key`, or `undefined`. */
  function Lookup<R>(table: map<Id, R>, key: Id): (r: Option<R>)
    ensures r.Some? <==> key in table
    ensures r.Some? ==> r.value == table[key]
  {
    if key in table then Some(table[key]) else None
  }

  /** `t === undefined ? [] : Object.keys(t).map((id) => t[id])` */
  ghost function ListOf<R(!new)>(t: Option<map<Id, R>>): (rs: seq<R>)
    ensures t.None? ==> rs == []
    ensures t.Some? ==> |rs| == |t.value| && forall v :: v in rs <==> v in t.value.Values
  {
    match t
    case None => []
    case Some(table) => Values(table)
  }

  /** An extracted list never fails: an absent table gives the empty list, a
      present one gives one record per id and nothing else. */
  lemma ListOfField<R(!new)>(table: map<Id, R>)
    ensures |ListOf(Field(table))| == |table|
    ensures forall v :: v in ListOf(Field(table)) <==> v in table.Values
  {
  }

  lemma {:induction false} DistinctByPrefix<T>(s: seq<T>, t: seq<T>, key: T -> Id)
    requires DistinctBy(s + t, key)
    ensures DistinctBy(s, key) && DistinctBy(t, key)
  {
    forall i, j | 0 <= i < j < |s| ensures key(s[i]) != key(s[j]) {
      assert (s + t)[i] == s[i] && (s + t)[j] == s[j];
    }
    forall i, j | 0 <= i < j < |t| ensures key(t[i]) != key(t[j]) {
      assert (s + t)[|s| + i] == t[i] && (s + t)[|s| + j] == t[j];
    }
  }

  lemma HoldsNone<R>(key: R -> Id)
    ensures Holds(map[], [], key)
  {
  }

  lemma HoldsOne<R>(r: R, key: R -> Id)
    ensures Holds(map[key(r) := r], [r], key)
  {
    assert (set x | x in [r] :: key(x)) == {key(r)};
  }

  /** Keys of two tables combine into the keys of all their records. */
  lemma KeyedUnion<R>(t1: map<Id, R>, s1: seq<R>, t2: map<Id, R>, s2: seq<R>, key: R -> Id)
    requires Keyed(t1, s1, key) && Keyed(t2, s2, key)
    ensures Keyed(t1 + t2, s1 + s2, key)
  {
  }

  /** Two tables built from records whose keys never clash combine into a
      table that still stores every record. */
  lemma StoresUnion<R>(t1: map<Id, R>, s1: seq<R>, t2: map<Id, R>, s2: seq<R>, key: R -> Id)
    requires Holds(t1, s1, key) && Holds(t2, s2, key)
    requires DistinctBy(s1 + s2, key)
    ensures Stores(t1 + t2, s1 + s2, key)
  {
    forall r | r in s1 ensures key(r) !in t2 {
      var i :| 0 <= i < |s1| && s1[i] == r;
      forall r2 | r2 in s2 ensures key(r2) != key(r) {
        var j :| 0 <= j < |s2| && s2[j] == r2;
        assert (s1 + s2)[i] == r && (s1 + s2)[|s1| + j] == r2;
      }
    }
  }

  /** A table holding `small`, whose records all occur in `big`, agrees
      with any table storing `big` on every key it has. */
  lemma HoldsWithin<R>(t1: map<Id, R>, s1: seq<R>, t2: map<Id, R>, s2: seq<R>, key: R -> Id)
    requires Holds(t1, s1, key) && Stores(t2, s2, key)
    requires forall x :: x in s1 ==> x in s2
    ensures forall k :: k in t1 ==> k in t2 && t2[k] == t1[k]
  {
    forall k | k in t1 ensures k in t2 && t2[k] == t1[k] {
      var x :| x in s1 && key(x) == k;
    }
  }

  /** With distinct keys, the records have as many keys as elements. */
  lemma {:induction false} KeySetSize<R>(records: seq<R>, key: R -> Id)
    requires DistinctBy(records, key)
    ensures |(set r | r in records :: key(r))| == |records|
  {
    if records != [] {
      var rest := records[1..];
      assert records == [records[0]] + rest;
      DistinctByPrefix([records[0]], rest, key);
      KeySetSize(rest, key);
      var keys := set r | r in records :: key(r);
      var restKeys := set r | r in rest :: key(r);
      assert keys == {key(records[0])} + restKeys;
      forall r | r in rest ensures key(r) != key(records[0]) {
        var j :| 0 <= j < |rest| && rest[j] == r;
        assert records[j + 1] == r;
      }
    }
  }

  /** With distinct keys, a table has exactly as many entries as records. */
  lemma HoldsSize<R>(table: map<Id, R>, records: seq<R>, key: R -> Id)
    requires Holds(table, records, key) && DistinctBy(records, key)
    ensures |table| == |records|
  {
    KeySetSize(records, key);
    assert |table| == |table.Keys|;
  }

  lemma {:induction false} NoDupCount<T>(s: seq<T>, x: T)
    requires NoDup(s)
    ensures multiset(s)[x] == if x in s then 1 else 0
  {
    if s != [] {
      var init := s[..|s| - 1];
      assert s == init + [s[|s| - 1]];
      assert NoDup(init) by {
        forall i, j | 0 <= i < j < |init| ensures init[i] != init[j] {
          assert s[i] == init[i] && s[j] == init[j];
        }
      }
      assert s[|s| - 1] !in init by {
        forall i | 0 <= i < |init| ensures init[i] != s[|s| - 1] {
          assert s[i] == init[i];
        }
      }
      NoDupCount(init, x);
    }
  }

  /** Two duplicate-free sequences with the same elements are reorderings of
      each other. */
  lemma NoDupPermutation<T>(a: seq<T>, b: seq<T>)
    requires NoDup(a) && NoDup(b)
    requires forall x :: x in a <==> x in b
    ensures multiset(a) == multiset(b)
  {
    forall x ensures multiset(a)[x] == multiset(b)[x] {
      NoDupCount(a, x);
      NoDupCount(b, x);
    }
  }

  /** The list extracted from a table that holds `records` (keys distinct)
      is a reordering of `records`: the same records, each exactly once. */
  lemma ExtractedRecords<R(!new)>(table: map<Id, R>, records: seq<R>, key: R -> Id)
    requires Holds(table, records, key) && DistinctBy(records, key)
    ensures multiset(ListOf(Field(table))) == multiset(records)
    ensures |ListOf(Field(table))| == |records|
  {
    HoldsSize(table, records, key);
    var vs := ListOf(Field(table));
    if table != map[] {
      var ks := KeyList(table);
      assert vs == Values(table);
      assert forall i :: 0 <= i < |vs| ==> vs[i] == table[ks[i]];
      forall i | 0 <= i < |ks| ensures key(table[ks[i]]) == ks[i] {
        var r :| r in records && key(r) == ks[i];
      }
    }
    assert NoDup(vs) by {
      forall i, j | 0 <= i < j < |vs| ensures vs[i] != vs[j] {
        var ks := KeyList(table);
        assert key(vs[i]) == ks[i] && key(vs[j]) == ks[j];
      }
    }
    assert NoDup(records) by {
      forall i, j | 0 <= i < j < |records| ensures records[i] != records[j] {
        assert key(records[i]) != key(records[j]);
      }
    }
    forall x ensures x in vs <==> x in records {
      if x in records {
        assert table[key(x)] == x;
      }
      if x in vs {
        var k :| k in table && table[k] == x;
        var r :| r in records && key(r) == k;
      }
    }
    NoDupPermutation(vs, records);
  }
}
