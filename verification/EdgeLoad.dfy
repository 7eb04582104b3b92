/**
 The loaders of sqlAll, which set the edges of nodes in place through maps from keys to
 nodes. The to-one template serves loadSenderProfile and loadProviderProfile, the to-many
 template loadPaymentOrders and the three loads of FiatCurrencyQuery.
*/
module EdgeLoad {
  import opened Base
  import opened EagerJoin

  datatype Error = QueryFailed | UnexpectedKey | NilKey

  datatype EdgeError = NotFound | NotLoaded

  /** A child query builder. */
  class ChildQuery<K(==,!new)> {
    var where: Neighbor<K> -> bool
    var keySets: seq<seq<K>>
    var limit: Option<nat>
    var withFKs: bool

    constructor (where: Neighbor<K> -> bool, limit: Option<nat>)
      ensures Current() == Child(where, [], limit, false)
    {
      this.where, this.limit := where, limit;
      keySets, withFKs := [], false;
    }

    ghost function Current(): Child<K>
      reads this
    {
      Child(where, keySets, limit, withFKs)
    }

    /** Where(IDIn(ids...)): one more predicate, for good. */
    method Where(ids: seq<K>)
      modifies this`keySets
      ensures Current() == Narrow(old(Current()), ids)
    {
      keySets := keySets + [ids];
    }

    /** The rows, or an error if the database fails. */
    method All(table: seq<Neighbor<K>>, down: bool) returns (r: Result<seq<Neighbor<K>>, Error>)
      ensures r == if down then Err(QueryFailed) else Ok(Fetch(Current(), table))
    {
      if down {
        return Err(QueryFailed);
      }
      return Ok(Fetch(Child(where, keySets, limit, withFKs), table));
    }
  }

  /** One node's slot for a to-one edge: its foreign key and what was loaded. */
  class ToOneEdge<K(==,!new)> {
    const key: Option<K>
    var loaded: Option<Neighbor<K>>

    constructor (key: Option<K>)
      ensures this.key == key && loaded == None
    {
      this.key, loaded := key, None;
    }

    /** The edge accessor of a node whose query requested the edge, or not. */
    function OrErr(requested: bool): (r: Result<Neighbor<K>, EdgeError>)
      reads this
      ensures loaded.Some? ==> r == Ok(loaded.value)
      ensures loaded.None? ==> r.Err?
      ensures r == Err(NotLoaded) <==> loaded.None? && !requested
    {
      if loaded.Some? then Ok(loaded.value)
      else if requested then Err(NotFound)
      else Err(NotLoaded)
    }
  }

  /** One node's slot for a to-many edge: the node's id and the list. */
  class ToManyEdge {
    const id: Uuid
    var loaded: seq<Neighbor<Uuid>>

    constructor (id: Uuid)
      ensures this.id == id && loaded == []
    {
      this.id, loaded := id, [];
    }

    function OrErr(requested: bool): (r: Result<seq<Neighbor<Uuid>>, EdgeError>)
      reads this
      ensures r == Err(NotLoaded) <==> !requested
      ensures requested ==> r == Ok(loaded)
    {
      if requested then Ok(loaded) else Err(NotLoaded)
    }
  }

  // ------------------------------------------------------------------ to-one

  function Keys<K(==,!new)>(edges: seq<ToOneEdge<K>>): (keys: seq<Option<K>>)
    ensures |keys| == |edges| && forall i :: 0 <= i < |edges| ==> keys[i] == edges[i].key
  {
    seq(|edges|, i requires 0 <= i < |edges| => edges[i].key)
  }

  /** Under each key, exactly those of the first n slots that hold it. */
  ghost predicate Grouped<K(!new)>(edges: seq<ToOneEdge<K>>, n: nat, groups: map<K, seq<ToOneEdge<K>>>)
    requires n <= |edges|
  {
    && (forall k, m :: k in groups && 0 <= m < |groups[k]| ==>
          groups[k][m] in edges && groups[k][m].key == Some(k))
    && (forall j :: 0 <= j < n && edges[j].key.Some? ==>
          edges[j].key.value in groups && edges[j] in groups[edges[j].key.value])
  }

  lemma GroupStep<K(!new)>(edges: seq<ToOneEdge<K>>, i: nat, groups: map<K, seq<ToOneEdge<K>>>, k: K)
    requires i < |edges| && Grouped(edges, i, groups) && edges[i].key == Some(k)
    ensures Grouped(edges, i + 1, groups[k := (if k in groups then groups[k] else []) + [edges[i]]])
  {
  }

  method GroupByKey<K(==,!new)>(edges: seq<ToOneEdge<K>>) returns (ids: seq<K>, nodeids: map<K, seq<ToOneEdge<K>>>)
    ensures ids == FirstOccurrences(Keys(edges))
    ensures Grouped(edges, |edges|, nodeids) && forall k :: k in nodeids <==> k in ids
  {
    hide Grouped;
    ghost var keys := Keys(edges);
    ids, nodeids := [], map[];
    NothingGrouped(edges, nodeids);
    for i := 0 to |edges|
      invariant ids == FirstOccurrences(keys[..i])
      invariant Grouped(edges, i, nodeids)
      invariant forall k :: k in nodeids <==> k in ids
    {
      assert keys[..i + 1][..i] == keys[..i] && keys[..i + 1][i] == keys[i];
      if edges[i].key.None? {
        SkipStep(edges, i, nodeids);
        continue;
      }
      var fk := edges[i].key.value;
      GroupStep(edges, i, nodeids, fk);
      ghost var grown := nodeids[fk := (if fk in nodeids then nodeids[fk] else []) + [edges[i]]];
      if fk !in nodeids {
        ids := ids + [fk];
        nodeids := nodeids[fk := []];
      }
      nodeids := nodeids[fk := nodeids[fk] + [edges[i]]];
      assert nodeids == grown;
    }
    assert keys[..|edges|] == keys;
  }

  lemma NothingGrouped<K(!new)>(edges: seq<ToOneEdge<K>>, groups: map<K, seq<ToOneEdge<K>>>)
    requires groups == map[]
    ensures Grouped(edges, 0, groups)
  {
  }

  lemma SkipStep<K(!new)>(edges: seq<ToOneEdge<K>>, i: nat, groups: map<K, seq<ToOneEdge<K>>>)
    requires i < |edges| && Grouped(edges, i, groups) && edges[i].key.None?
    ensures Grouped(edges, i + 1, groups)
  {
  }

  /** `for i := range nodes { assign(nodes[i], n) }` */
  method AssignGroup<K(==,!new)>(group: seq<ToOneEdge<K>>, n: Neighbor<K>)
    modifies group`loaded
    ensures forall m :: 0 <= m < |group| ==> group[m].loaded == Some(n)
  {
    for t := 0 to |group|
      invariant forall m :: 0 <= m < t ==> group[m].loaded == Some(n)
    {
      group[t].loaded := Some(n);
    }
  }

  method HandOut<K(==,!new)>(edges: seq<ToOneEdge<K>>, nodeids: map<K, seq<ToOneEdge<K>>>, neighbors: seq<Neighbor<K>>)
    returns (err: Option<Error>)
    requires Grouped(edges, |edges|, nodeids)
    modifies edges`loaded
    ensures err.Some? <==> Stray(neighbors, nodeids.Keys)
    ensures err.None? ==>
              forall j :: 0 <= j < |edges| ==> edges[j].loaded == Pick(neighbors, edges[j].key, old(edges[j].loaded))
  {
    for m := 0 to |neighbors|
      invariant !Stray(neighbors[..m], nodeids.Keys)
      invariant forall j :: 0 <= j < |edges| ==>
                  edges[j].loaded == Pick(neighbors[..m], edges[j].key, old(edges[j].loaded))
    {
      var n := neighbors[m];
      assert neighbors[..m + 1] == neighbors[..m] + [n];
      if n.key.None? || n.key.value !in nodeids {
        assert n in neighbors;
        return Some(UnexpectedKey);
      }
      AssignGroup(nodeids[n.key.value], n);
      assert neighbors[..m + 1][..m] == neighbors[..m];
    }
    assert neighbors[..|neighbors|] == neighbors;
    return None;
  }

  /**
   The to-one load. Without any key it does not touch the query; otherwise the query gains
   the id list and every slot holds what Pick makes of the fetched neighbours.
  */
  method LoadToOne<K(==,!new)>(query: ChildQuery<K>, edges: seq<ToOneEdge<K>>, table: seq<Neighbor<K>>, down: bool)
    returns (err: Option<Error>)
    modifies query`keySets, edges`loaded
    ensures var ids := FirstOccurrences(Keys(edges));
            if ids == [] then
              err == None && query.keySets == old(query.keySets) &&
              forall j :: 0 <= j < |edges| ==> edges[j].loaded == old(edges[j].loaded)
            else
              var fetched := Fetch(query.Current(), table);
              && query.Current() == Narrow(old(query.Current()), ids)
              && (err.Some? <==> down || Stray(fetched, set k | k in ids))
              && (err.None? ==>
                    forall j :: 0 <= j < |edges| ==>
                      edges[j].loaded == Pick(fetched, edges[j].key, old(edges[j].loaded)))
  {
    var ids, nodeids := GroupByKey(edges);
    if ids == [] {
      return None;
    }
    query.Where(ids);
    var r := query.All(table, down);
    if r.Err? {
      return Some(r.error);
    }
    assert nodeids.Keys == set k | k in ids;
    err := HandOut(edges, nodeids, r.value);
  }

  // ------------------------------------------------------------------ to-many

  function Ids(edges: seq<ToManyEdge>): (ids: seq<Uuid>)
    ensures |ids| == |edges| && forall i :: 0 <= i < |edges| ==> ids[i] == edges[i].id
  {
    seq(|edges|, i requires 0 <= i < |edges| => edges[i].id)
  }

  ghost predicate DistinctSlots(edges: seq<ToManyEdge>) {
    forall i, j :: 0 <= i < j < |edges| ==> edges[i] != edges[j]
  }

  /** The last of the first n positions that hold id, or -1. */
  function LastAt(ids: seq<Uuid>, n: nat, id: Uuid): (r: int)
    requires n <= |ids|
    ensures -1 <= r < n
    ensures r >= 0 ==> ids[r] == id && forall x :: r < x < n ==> ids[x] != id
    ensures r < 0 ==> forall x :: 0 <= x < n ==> ids[x] != id
  {
    if n == 0 then -1
    else if ids[n - 1] == id then n - 1
    else LastAt(ids, n - 1, id)
  }

  /** The map holds, under each id, the last of the first n slots with that id. */
  ghost predicate Indexed(edges: seq<ToManyEdge>, n: nat, nodeids: map<Uuid, ToManyEdge>)
    requires n <= |edges|
  {
    forall k :: (k in nodeids <==> LastAt(Ids(edges), n, k) >= 0) &&
                (k in nodeids ==> nodeids[k] == edges[LastAt(Ids(edges), n, k)])
  }

  /** After `seen`, the last slot of an id holds that id's bucket and any earlier slot of it nothing. */
  ghost predicate Shared(edges: seq<ToManyEdge>, seen: seq<Neighbor<Uuid>>)
    reads edges
  {
    forall j :: 0 <= j < |edges| ==>
      edges[j].loaded == if LastAt(Ids(edges), |edges|, edges[j].id) == j then Bucket(seen, edges[j].id) else []
  }

  method IndexAndInit(edges: seq<ToManyEdge>) returns (fks: seq<Uuid>, nodeids: map<Uuid, ToManyEdge>)
    modifies edges`loaded
    ensures fks == Ids(edges) && Indexed(edges, |edges|, nodeids)
    ensures forall j :: 0 <= j < |edges| ==> edges[j].loaded == []
  {
    fks, nodeids := [], map[];
    ghost var ids := Ids(edges);
    for i := 0 to |edges|
      invariant fks == ids[..i] && Indexed(edges, i, nodeids)
      invariant forall j :: 0 <= j < i ==> edges[j].loaded == []
    {
      fks := fks + [edges[i].id];
      nodeids := nodeids[edges[i].id := edges[i]];
      edges[i].loaded := [];
    }
  }

  method Distribute(edges: seq<ToManyEdge>, nodeids: map<Uuid, ToManyEdge>, neighbors: seq<Neighbor<Uuid>>)
    returns (err: Option<Error>)
    requires DistinctSlots(edges) && Indexed(edges, |edges|, nodeids)
    requires Shared(edges, [])
    modifies edges`loaded
    ensures err.Some? <==> Stray(neighbors, nodeids.Keys)
    ensures err.None? ==> Shared(edges, neighbors)
  {
    for m := 0 to |neighbors|
      invariant !Stray(neighbors[..m], nodeids.Keys)
      invariant Shared(edges, neighbors[..m])
    {
      var n := neighbors[m];
      assert neighbors[..m + 1] == neighbors[..m] + [n];
      if n.key.None? {
        assert n in neighbors;
        return Some(NilKey);
      }
      if n.key.value !in nodeids {
        assert n in neighbors;
        return Some(UnexpectedKey);
      }
      AppendTo(edges, nodeids[n.key.value], neighbors[..m], n);
    }
    assert neighbors[..|neighbors|] == neighbors;
    return None;
  }

  /** `n.Edges.PaymentOrders = append(n.Edges.PaymentOrders, e)` on the slot of the neighbour's key. */
  method AppendTo(edges: seq<ToManyEdge>, node: ToManyEdge, ghost seen: seq<Neighbor<Uuid>>, n: Neighbor<Uuid>)
    requires DistinctSlots(edges) && Shared(edges, seen)
    requires n.key.Some? && LastAt(Ids(edges), |edges|, n.key.value) >= 0
    requires node == edges[LastAt(Ids(edges), |edges|, n.key.value)]
    modifies node`loaded
    ensures Shared(edges, seen + [n])
  {
    assert (seen + [n])[..|seen|] == seen;
    node.loaded := node.loaded + [n];
  }

  /**
   The to-many load. It always narrows the query and asks for the foreign keys; it fails iff
   the database does or some fetched neighbour has a nil or unknown key.
  */
  method LoadToMany(query: ChildQuery<Uuid>, edges: seq<ToManyEdge>, table: seq<Neighbor<Uuid>>, down: bool)
    returns (err: Option<Error>)
    requires DistinctSlots(edges)
    modifies query`keySets, query`withFKs, edges`loaded
    ensures query.Current() == Narrow(old(query.Current()), Ids(edges)).(withFKs := true)
    ensures var fetched := Fetch(query.Current(), table);
            && (err.Some? <==> down || Stray(fetched, set k | k in Ids(edges)))
            && (err.None? ==> Shared(edges, fetched))
  {
    var fks, nodeids := IndexAndInit(edges);
    query.withFKs := true;
    query.Where(fks);
    var r := query.All(table, down);
    if r.Err? {
      return Some(r.error);
    }
    SameKeys(edges, nodeids);
    hide Indexed;
    err := Distribute(edges, nodeids, r.value);
  }

  lemma SameKeys(edges: seq<ToManyEdge>, nodeids: map<Uuid, ToManyEdge>)
    requires Indexed(edges, |edges|, nodeids)
    ensures nodeids.Keys == set k | k in Ids(edges)
  {
  }

  /** Nodes with distinct ids each keep their own bucket. */
  lemma LastAtOnly(ids: seq<Uuid>, i: nat)
    requires i < |ids| && Distinct(ids)
    ensures LastAt(ids, |ids|, ids[i]) == i
  {
    var r := LastAt(ids, |ids|, ids[i]);
    assert r >= 0 && ids[r] == ids[i];
  }

  /** When a node occurs twice in a result, only its last copy gets the list. */
  lemma SharedIsBucketIff(edges: seq<ToManyEdge>, seen: seq<Neighbor<Uuid>>, j: nat)
    requires j < |edges| && Shared(edges, seen)
    ensures edges[j].loaded == Bucket(seen, edges[j].id) <==>
            (forall x :: j < x < |edges| ==> edges[x].id != edges[j].id) ||
            (forall n :: n in seen ==> n.key != Some(edges[j].id))
  {
    var ids := Ids(edges);
    var r := LastAt(ids, |edges|, edges[j].id);
    assert ids[j] == edges[j].id;
    BucketEmptyIff(seen, edges[j].id);
    if r != j {
      assert ids[r] == edges[r].id;
    } else {
      assert forall x :: j < x < |edges| ==> ids[x] == edges[x].id;
    }
  }
}
