/**
 The meaning of eager loading: what a child query fetches, how the fetched neighbours are
 handed to the nodes, and how that compares with one lookup per node.
*/
module EagerJoin {
  import opened Base

  /**
   A row of a neighbour table. The key is what the join matches on: the row's own id for a
   to-one edge, its foreign key for a to-many edge.
  */
  datatype Neighbor<K> = Neighbor(key: Option<K>, data: nat)

  /** A child query: what its caller configured, and one id list for every load it served. */
  datatype Child<!K> = Child(where: Neighbor<K> -> bool, keySets: seq<seq<K>>, limit: Option<nat>, withFKs: bool)

  /** The row passes the caller's predicate and every id list added so far. */
  predicate Wanted<K(==,!new)>(c: Child<K>, n: Neighbor<K>) {
    c.where(n) && forall ks :: ks in c.keySets ==> n.key.Some? && n.key.value in ks
  }

  function Matching<K(==,!new)>(c: Child<K>, table: seq<Neighbor<K>>): (r: seq<Neighbor<K>>)
    ensures forall n :: n in r ==> n in table && Wanted(c, n)
    ensures forall n :: n in table && Wanted(c, n) ==> n in r
    ensures |r| <= |table|
  {
    if table == [] then []
    else
      var before := Matching(c, table[..|table| - 1]);
      var n := table[|table| - 1];
      assert table == table[..|table| - 1] + [n];
      if Wanted(c, n) then before + [n] else before
  }

  /** The rows the child query returns, in table order and cut at its limit. */
  function Fetch<K(==,!new)>(c: Child<K>, table: seq<Neighbor<K>>): seq<Neighbor<K>> {
    var m := Matching(c, table);
    if c.limit.Some? && c.limit.value < |m| then m[..c.limit.value] else m
  }

  function Narrow<K>(c: Child<K>, ids: seq<K>): Child<K> {
    c.(keySets := c.keySets + [ids])
  }

  // ------------------------------------------------------------------ to-one edges

  /** The non-nil keys in first-occurrence order, each once. */
  function FirstOccurrences<K(==,!new)>(keys: seq<Option<K>>): (ids: seq<K>)
    ensures forall k :: k in ids <==> Some(k) in keys
    ensures forall i, j :: 0 <= i < j < |ids| ==> ids[i] != ids[j]
  {
    if keys == [] then []
    else
      var before := FirstOccurrences(keys[..|keys| - 1]);
      var k := keys[|keys| - 1];
      assert keys == keys[..|keys| - 1] + [k];
      if k.Some? && k.value !in before then before + [k.value] else before
  }

  /** First-occurrence order: an id stands before another iff its first node does. */
  lemma {:induction false} InFirstOccurrenceOrder<K(!new)>(keys: seq<Option<K>>, i: nat, j: nat)
    requires i < j < |FirstOccurrences(keys)|
    ensures var ids := FirstOccurrences(keys);
            exists x :: 0 <= x < |keys| && keys[x] == Some(ids[i]) && Some(ids[j]) !in keys[..x + 1]
  {
    var init := keys[..|keys| - 1];
    var ids, before := FirstOccurrences(keys), FirstOccurrences(init);
    if j < |before| {
      InFirstOccurrenceOrder(init, i, j);
      var x :| 0 <= x < |init| && init[x] == Some(before[i]) && Some(before[j]) !in init[..x + 1];
      assert keys[..x + 1] == init[..x + 1];
    } else {
      assert Some(ids[i]) in init && Some(ids[j]) !in init;
      var x :| 0 <= x < |init| && init[x] == Some(ids[i]);
      assert forall k :: k in keys[..x + 1] ==> k in init by {
        assert keys[..x + 1] == init[..x + 1];
      }
    }
  }

  /** What a node's edge holds once the neighbours have been handed out. */
  function Pick<K(==,!new)>(neighbors: seq<Neighbor<K>>, key: Option<K>, before: Option<Neighbor<K>>):
    Option<Neighbor<K>>
  {
    if neighbors == [] || key.None? then before
    else if neighbors[|neighbors| - 1].key == key then Some(neighbors[|neighbors| - 1])
    else Pick(neighbors[..|neighbors| - 1], key, before)
  }

  /** Some neighbour has no node to go to. */
  predicate Stray<K(==,!new)>(neighbors: seq<Neighbor<K>>, ids: set<K>) {
    exists n :: n in neighbors && (n.key.None? || n.key.value !in ids)
  }

  lemma {:induction false} PickFinds<K(!new)>(neighbors: seq<Neighbor<K>>, key: Option<K>, before: Option<Neighbor<K>>)
    ensures var p := Pick(neighbors, key, before);
            if key.Some? && exists n :: n in neighbors && n.key == key then
              p.Some? && p.value in neighbors && p.value.key == key
            else p == before
  {
    if neighbors != [] && key.Some? {
      var n := neighbors[|neighbors| - 1];
      assert neighbors == neighbors[..|neighbors| - 1] + [n];
      PickFinds(neighbors[..|neighbors| - 1], key, before);
    }
  }

  /** The keys of a to-one neighbour table are its primary keys. */
  ghost predicate PrimaryKeys<K>(table: seq<Neighbor<K>>) {
    (forall i :: 0 <= i < |table| ==> table[i].key.Some?) && DistinctKeys(table)
  }

  ghost predicate DistinctKeys<K>(s: seq<Neighbor<K>>) {
    forall i, j :: 0 <= i < j < |s| ==> s[i].key != s[j].key
  }

  /** One lookup for one node: a row with this key that passes the caller's predicate. */
  ghost predicate Lookup<K>(c: Child<K>, table: seq<Neighbor<K>>, key: Option<K>, r: Option<Neighbor<K>>) {
    if r.Some? then r.value in table && r.value.key == key && key.Some? && c.where(r.value)
    else key.None? || forall n :: n in table && n.key == key ==> !c.where(n)
  }

  lemma LookupIsUnique<K>(c: Child<K>, table: seq<Neighbor<K>>, key: Option<K>,
                          r: Option<Neighbor<K>>, r': Option<Neighbor<K>>)
    requires PrimaryKeys(table) && Lookup(c, table, key, r) && Lookup(c, table, key, r')
    ensures r == r'
  {
  }

  /**
   The hash join of a fresh child query without a limit gives every node exactly what its
   own lookup would: the neighbour with its key, and nothing for a nil or dangling key. It
   never reports a stray neighbour.
  */
  lemma {:induction false} JoinIsLookup<K(!new)>(c: Child<K>, table: seq<Neighbor<K>>, keys: seq<Option<K>>, i: nat)
    requires c.keySets == [] && c.limit.None? && PrimaryKeys(table) && i < |keys|
    ensures var ids := FirstOccurrences(keys);
            var fetched := Fetch(Narrow(c, ids), table);
            && !Stray(fetched, set k | k in ids)
            && Lookup(c, table, keys[i], Pick(fetched, keys[i], None))
  {
    NeverStray(c, table, FirstOccurrences(keys));
    KeptUncutLooksUp(c, table, keys, i);
  }

  /** No row the caller wants for these ids is kept out by the id lists of earlier runs. */
  ghost predicate Kept<K>(c: Child<K>, table: seq<Neighbor<K>>, ids: seq<K>) {
    forall n, ks :: n in table && c.where(n) && n.key.Some? && n.key.value in ids && ks in c.keySets ==>
      n.key.value in ks
  }

  /** The limit, which is taken over all nodes together and not per node, cuts off no row. */
  predicate Uncut<K(==,!new)>(c: Child<K>, table: seq<Neighbor<K>>, ids: seq<K>) {
    c.limit.Some? ==> |Matching(Narrow(c, ids), table)| <= c.limit.value
  }

  lemma KeptIsWanted<K(!new)>(c: Child<K>, table: seq<Neighbor<K>>, ids: seq<K>, n: Neighbor<K>)
    requires Kept(c, table, ids) && n in table
    ensures Wanted(Narrow(c, ids), n) <==> c.where(n) && n.key.Some? && n.key.value in ids
  {
    NarrowWants(c, ids, n);
  }

  lemma {:induction false} KeptUncutLooksUp<K(!new)>(c: Child<K>, table: seq<Neighbor<K>>, keys: seq<Option<K>>, i: nat)
    requires i < |keys| && Kept(c, table, FirstOccurrences(keys)) && Uncut(c, table, FirstOccurrences(keys))
    ensures Lookup(c, table, keys[i], Pick(Fetch(Narrow(c, FirstOccurrences(keys)), table), keys[i], None))
  {
    var ids := FirstOccurrences(keys);
    var fetched := Fetch(Narrow(c, ids), table);
    PickFinds(fetched, keys[i], None);
    if keys[i].Some? {
      assert keys[i].value in ids;
      forall n | n in table && n.key == keys[i]
        ensures n in fetched <==> c.where(n)
      {
        KeptIsWanted(c, table, ids, n);
      }
    }
  }

  /** A wanted row that was not fetched leaves some node without its neighbour. */
  lemma {:induction false} LostRowIsMissed<K(!new)>(c: Child<K>, table: seq<Neighbor<K>>, keys: seq<Option<K>>,
                                                    n: Neighbor<K>)
    requires PrimaryKeys(table) && n in table && c.where(n) && n.key in keys && n.key.Some?
    requires n !in Fetch(Narrow(c, FirstOccurrences(keys)), table)
    ensures exists i :: 0 <= i < |keys| &&
              !Lookup(c, table, keys[i], Pick(Fetch(Narrow(c, FirstOccurrences(keys)), table), keys[i], None))
  {
    var fetched := Fetch(Narrow(c, FirstOccurrences(keys)), table);
    var i :| 0 <= i < |keys| && keys[i] == n.key;
    PickFinds(fetched, keys[i], None);
    forall x | x in fetched
      ensures x.key != n.key
    {
      assert x in table;
    }
    assert Pick(fetched, keys[i], None) == None;
  }

  /** Matching rows are distinct, so one beyond the limit is not among those before it. */
  lemma CutRowIsLost<K(!new)>(c: Child<K>, table: seq<Neighbor<K>>)
    requires PrimaryKeys(table) && c.limit.Some? && |Matching(c, table)| > c.limit.value
    ensures Matching(c, table)[c.limit.value] !in Fetch(c, table)
  {
    MatchingKeysDistinct(c, table);
  }

  /**
   The join of any child query, used before or not and limited or not, agrees with the lookups
   of all nodes exactly when earlier runs keep no wanted row out and the limit cuts none off.
  */
  lemma {:induction false} JoinIsLookupIff<K(!new)>(c: Child<K>, table: seq<Neighbor<K>>, keys: seq<Option<K>>)
    requires PrimaryKeys(table)
    ensures var ids := FirstOccurrences(keys);
            var fetched := Fetch(Narrow(c, ids), table);
            (forall i :: 0 <= i < |keys| ==> Lookup(c, table, keys[i], Pick(fetched, keys[i], None))) <==>
            Kept(c, table, ids) && Uncut(c, table, ids)
  {
    var ids := FirstOccurrences(keys);
    var c1 := Narrow(c, ids);
    if !Kept(c, table, ids) {
      var n, ks :|
        n in table && c.where(n) && n.key.Some? && n.key.value in ids && ks in c.keySets && n.key.value !in ks;
      NarrowWants(c, ids, n);
      LostRowIsMissed(c, table, keys, n);
    } else if !Uncut(c, table, ids) {
      var lost := Matching(c1, table)[c.limit.value];
      assert lost in Matching(c1, table);
      NarrowWants(c, ids, lost);
      CutRowIsLost(c1, table);
      LostRowIsMissed(c, table, keys, lost);
    } else {
      forall i | 0 <= i < |keys|
        ensures Lookup(c, table, keys[i], Pick(Fetch(c1, table), keys[i], None))
      {
        KeptUncutLooksUp(c, table, keys, i);
      }
    }
  }

  lemma {:induction false} SameMatching<K(!new)>(c: Child<K>, d: Child<K>, table: seq<Neighbor<K>>)
    requires c.where == d.where && c.keySets == d.keySets
    ensures Matching(c, table) == Matching(d, table)
  {
    if table != [] {
      SameMatching(c, d, table[..|table| - 1]);
    }
  }

  lemma {:induction false} MatchingKeysDistinct<K(!new)>(c: Child<K>, table: seq<Neighbor<K>>)
    requires PrimaryKeys(table)
    ensures DistinctKeys(Matching(c, table))
  {
    if table != [] {
      var init := table[..|table| - 1];
      var n := table[|table| - 1];
      MatchingKeysDistinct(c, init);
      var before := Matching(c, init);
      forall i | 0 <= i < |before|
        ensures before[i].key != n.key
      {
        assert before[i] in init;
        var x :| 0 <= x < |init| && init[x] == before[i];
        assert table[x].key != table[|table| - 1].key;
      }
      assert DistinctKeys(before + [n]);
    }
  }

  // ------------------------------------------------------------------ running a builder again

  /** The child query after one to-one load: a run without any key adds no list. */
  function AfterRun<K(==,!new)>(c: Child<K>, ids: seq<K>): Child<K> {
    if ids == [] then c else Narrow(c, ids)
  }

  function AfterRuns<K(==,!new)>(c: Child<K>, runs: seq<seq<K>>): Child<K> {
    if runs == [] then c else AfterRun(AfterRuns(c, runs[..|runs| - 1]), runs[|runs| - 1])
  }

  lemma {:induction false} AfterRunsKeepsConfig<K(!new)>(c: Child<K>, runs: seq<seq<K>>)
    ensures var c1 := AfterRuns(c, runs);
            && c1.where == c.where && c1.limit == c.limit && c1.withFKs == c.withFKs
            && forall ks :: ks in c1.keySets <==> ks in c.keySets || (ks in runs && ks != [])
  {
    if runs != [] {
      AfterRunsKeepsConfig(c, runs[..|runs| - 1]);
      assert runs == runs[..|runs| - 1] + [runs[|runs| - 1]];
    }
  }

  /**
   Running a builder again only narrows its child query. After any runs, a row is fetched
   iff it passed the caller's predicate and its key was asked for in every run that asked for
   anything, so an edge present in an earlier run can be missing from a later one.
  */
  lemma RerunsOnlyNarrow<K(!new)>(c: Child<K>, table: seq<Neighbor<K>>, runs: seq<seq<K>>, n: Neighbor<K>)
    requires c.keySets == [] && c.limit.None?
    ensures n in Fetch(AfterRuns(c, runs), table) <==>
            n in table && c.where(n) &&
            forall ks :: ks in runs && ks != [] ==> n.key.Some? && n.key.value in ks
  {
    AfterRunsKeepsConfig(c, runs);
    var c1 := AfterRuns(c, runs);
    assert n in Matching(c1, table) <==> n in table && Wanted(c1, n);
  }

  /**
   An edge is loaded in a run iff a row with its foreign key passes the caller's predicate and
   that key was asked for in every earlier run that asked for anything.
  */
  lemma {:induction false} LoadedInRunIff<K(!new)>(c: Child<K>, table: seq<Neighbor<K>>, runs: seq<seq<K>>,
                                                   keys: seq<Option<K>>, key: Option<K>)
    requires c.keySets == [] && c.limit.None? && key in keys
    ensures var p := Pick(Fetch(Narrow(AfterRuns(c, runs), FirstOccurrences(keys)), table), key, None);
            && (p.Some? <==> key.Some? && (forall ks :: ks in runs && ks != [] ==> key.value in ks) &&
                             exists n :: n in table && n.key == key && c.where(n))
            && (p.Some? ==> p.value in table && p.value.key == key && c.where(p.value))
  {
    var ids := FirstOccurrences(keys);
    var c1 := AfterRuns(c, runs);
    var fetched := Fetch(Narrow(c1, ids), table);
    AfterRunsKeepsConfig(c, runs);
    PickFinds(fetched, key, None);
    forall n | n in table && n.key == key && key.Some?
      ensures n in fetched <==> c.where(n) && forall ks :: ks in runs && ks != [] ==> key.value in ks
    {
      NarrowWants(c1, ids, n);
    }
    assert forall n :: n in fetched ==> n in table;
  }

  /** Repeating a run over the same nodes, with the same tables and limits, fetches the same rows. */
  lemma RepeatedRunFetchesTheSame<K(!new)>(c: Child<K>, table: seq<Neighbor<K>>, runs: seq<seq<K>>, ids: seq<K>)
    ensures Fetch(AfterRuns(c, runs + [ids] + [ids]), table) == Fetch(AfterRuns(c, runs + [ids]), table)
  {
    var once, twice := AfterRuns(c, runs + [ids]), AfterRuns(c, runs + [ids] + [ids]);
    assert (runs + [ids] + [ids])[..|runs| + 1] == runs + [ids] && (runs + [ids])[..|runs|] == runs;
    if ids != [] {
      assert ids in once.keySets;
      SameWanted(once, twice, table);
    }
  }

  lemma {:induction false} SameWanted<K(!new)>(c: Child<K>, d: Child<K>, table: seq<Neighbor<K>>)
    requires c.where == d.where && forall ks :: ks in c.keySets <==> ks in d.keySets
    ensures Matching(c, table) == Matching(d, table)
  {
    if table != [] {
      SameWanted(c, d, table[..|table| - 1]);
    }
  }

  // ------------------------------------------------------------------ to-many edges

  /** The neighbours whose key is id, in order. */
  function Bucket<K(==,!new)>(neighbors: seq<Neighbor<K>>, id: K): (r: seq<Neighbor<K>>)
    ensures |r| <= |neighbors|
    ensures forall n :: n in r <==> n in neighbors && n.key == Some(id)
  {
    if neighbors == [] then []
    else
      var before := Bucket(neighbors[..|neighbors| - 1], id);
      var n := neighbors[|neighbors| - 1];
      assert neighbors == neighbors[..|neighbors| - 1] + [n];
      if n.key == Some(id) then before + [n] else before
  }

  function Total<K(==,!new)>(neighbors: seq<Neighbor<K>>, ids: seq<K>): nat {
    if ids == [] then 0 else Total(neighbors, ids[..|ids| - 1]) + |Bucket(neighbors, ids[|ids| - 1])|
  }

  /** With distinct node ids and no stray neighbour, the lists share out the neighbours exactly. */
  lemma {:induction false} BucketsPartition<K(!new)>(neighbors: seq<Neighbor<K>>, ids: seq<K>)
    requires Distinct(ids) && !Stray(neighbors, set k | k in ids)
    ensures Total(neighbors, ids) == |neighbors|
  {
    if neighbors == [] {
      EmptyTotal(neighbors, ids);
    } else {
      var init := neighbors[..|neighbors| - 1];
      var n := neighbors[|neighbors| - 1];
      assert neighbors == init + [n];
      assert n in neighbors;
      var x :| 0 <= x < |ids| && Some(ids[x]) == n.key;
      BucketsPartition(init, ids);
      OneMoreIn(neighbors, ids, x);
    }
  }

  lemma {:induction false} EmptyTotal<K(!new)>(neighbors: seq<Neighbor<K>>, ids: seq<K>)
    requires neighbors == []
    ensures Total(neighbors, ids) == 0
  {
    if ids != [] {
      EmptyTotal(neighbors, ids[..|ids| - 1]);
    }
  }

  lemma {:induction false} OneMoreIn<K(!new)>(neighbors: seq<Neighbor<K>>, ids: seq<K>, x: int)
    requires neighbors != [] && Distinct(ids)
    requires 0 <= x ==> x < |ids| && neighbors[|neighbors| - 1].key == Some(ids[x])
    requires x < 0 ==> forall k :: k in ids ==> neighbors[|neighbors| - 1].key != Some(k)
    ensures Total(neighbors, ids) == Total(neighbors[..|neighbors| - 1], ids) + (if 0 <= x then 1 else 0)
  {
    if ids != [] {
      var last := |ids| - 1;
      OneMoreIn(neighbors, ids[..last], if x == last then -1 else x);
    }
  }

  /**
   The to-many load of a fresh child query without a limit never meets a stray neighbour, and
   each node's bucket is, in the same order, what a lookup by its id alone would return.
  */
  lemma {:induction false} BucketIsLookup<K(!new)>(c: Child<K>, table: seq<Neighbor<K>>, ids: seq<K>, id: K)
    requires c.keySets == [] && c.limit.None? && id in ids
    ensures var fetched := Fetch(Narrow(c, ids), table);
            !Stray(fetched, set k | k in ids) && Bucket(fetched, id) == Bucket(Matching(c, table), id)
  {
    assert c.(keySets := []) == c;
    KeptBucket(c, table, ids, id);
    NeverStray(c, table, ids);
  }

  /** Whatever a child query was narrowed to before, what it fetches for these ids has one of them as its key. */
  lemma NeverStray<K(!new)>(c: Child<K>, table: seq<Neighbor<K>>, ids: seq<K>)
    ensures !Stray(Fetch(Narrow(c, ids), table), set k | k in ids)
  {
    forall n | n in Fetch(Narrow(c, ids), table)
      ensures n.key.Some? && n.key.value in ids
    {
      NarrowWants(c, ids, n);
    }
  }

  /** The rows a lookup by id alone would return: the caller's predicate, no list and no limit. */
  function LookupAll<K(==,!new)>(c: Child<K>, table: seq<Neighbor<K>>, id: K): seq<Neighbor<K>> {
    Bucket(Matching(c.(keySets := []), table), id)
  }

  lemma {:induction false} KeptBucket<K(!new)>(c: Child<K>, table: seq<Neighbor<K>>, ids: seq<K>, id: K)
    requires id in ids && Kept(c, table, ids)
    ensures Bucket(Matching(Narrow(c, ids), table), id) == LookupAll(c, table, id)
  {
    if table != [] {
      var init := table[..|table| - 1];
      var n := table[|table| - 1];
      assert table == init + [n];
      KeptBucket(c, init, ids, id);
      KeptIsWanted(c, table, ids, n);
      BucketSnoc(Matching(Narrow(c, ids), init), n, id);
      BucketSnoc(Matching(c.(keySets := []), init), n, id);
    }
  }

  /** Equal lists for all ids mean equally many rows. */
  lemma {:induction false} SameTotal<K(!new)>(x: seq<Neighbor<K>>, y: seq<Neighbor<K>>, ids: seq<K>)
    requires forall id :: id in ids ==> Bucket(x, id) == Bucket(y, id)
    ensures Total(x, ids) == Total(y, ids)
  {
    if ids != [] {
      SameTotal(x, y, ids[..|ids| - 1]);
    }
  }

  lemma {:induction false} CutShowsInSomeBucket<K(!new)>(c: Child<K>, table: seq<Neighbor<K>>, ids: seq<K>)
    requires Distinct(ids) && Kept(c, table, ids)
    requires forall id :: id in ids ==> Bucket(Fetch(Narrow(c, ids), table), id) == LookupAll(c, table, id)
    ensures Uncut(c, table, ids)
  {
    var free := c.(limit := None);
    var fetched, all := Fetch(Narrow(c, ids), table), Fetch(Narrow(free, ids), table);
    SameMatching(Narrow(c, ids), Narrow(free, ids), table);
    forall id | id in ids
      ensures Bucket(fetched, id) == Bucket(all, id)
    {
      KeptBucket(c, table, ids, id);
    }
    SameTotal(fetched, all, ids);
    NeverStray(c, table, ids);
    NeverStray(free, table, ids);
    BucketsPartition(fetched, ids);
    BucketsPartition(all, ids);
  }

  lemma {:induction false} ListsMissOutsiders<K(!new)>(c: Child<K>, table: seq<Neighbor<K>>, ids: seq<K>)
    requires forall id :: id in ids ==> Bucket(Fetch(Narrow(c, ids), table), id) == LookupAll(c, table, id)
    ensures Kept(c, table, ids)
  {
    forall n, ks | n in table && c.where(n) && n.key.Some? && n.key.value in ids && ks in c.keySets
      ensures n.key.value in ks
    {
      assert n in LookupAll(c, table, n.key.value);
      assert n in Fetch(Narrow(c, ids), table);
      NarrowWants(c, ids, n);
    }
  }

  /**
   The to-many load of any child query gives every node exactly its own lookup, in order, when
   and only when earlier runs keep no wanted row out and the limit cuts none off.
  */
  lemma {:induction false} BucketsAreLookupsIff<K(!new)>(c: Child<K>, table: seq<Neighbor<K>>, ids: seq<K>)
    requires Distinct(ids)
    ensures (forall id :: id in ids ==> Bucket(Fetch(Narrow(c, ids), table), id) == LookupAll(c, table, id)) <==>
            Kept(c, table, ids) && Uncut(c, table, ids)
  {
    if Kept(c, table, ids) && Uncut(c, table, ids) {
      forall id | id in ids
        ensures Bucket(Fetch(Narrow(c, ids), table), id) == LookupAll(c, table, id)
      {
        KeptBucket(c, table, ids, id);
      }
    } else if forall id :: id in ids ==> Bucket(Fetch(Narrow(c, ids), table), id) == LookupAll(c, table, id) {
      ListsMissOutsiders(c, table, ids);
      CutShowsInSomeBucket(c, table, ids);
    }
  }

  lemma NarrowWants<K(!new)>(c: Child<K>, ids: seq<K>, n: Neighbor<K>)
    ensures Wanted(Narrow(c, ids), n) <==> Wanted(c, n) && n.key.Some? && n.key.value in ids
  {
    var c1 := Narrow(c, ids);
    assert c1.keySets == c.keySets + [ids];
    assert ids in c1.keySets;
    assert forall ks :: ks in c.keySets ==> ks in c1.keySets;
  }

  lemma BucketSnoc<K(!new)>(ns: seq<Neighbor<K>>, n: Neighbor<K>, id: K)
    ensures Bucket(ns + [n], id) == if n.key == Some(id) then Bucket(ns, id) + [n] else Bucket(ns, id)
  {
  }

  lemma {:induction false} BucketEmptyIff<K(!new)>(ns: seq<Neighbor<K>>, id: K)
    ensures Bucket(ns, id) == [] <==> forall n :: n in ns ==> n.key != Some(id)
  {
    var b := Bucket(ns, id);
    assert b != [] ==> b[0] in b;
  }
}
