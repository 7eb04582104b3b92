/** What it does to a query builder to be run more than once: its child queries and its selection keep growing. */
module QueryRuns {
  import opened Base
  import opened EagerJoin
  import opened EdgeLoad
  import opened ApiKeyQuery

  /** One run of a query: the rows it finds, and the tables that are down. */
  datatype Run = Run(rows: seq<ApiRow>, down: set<Table>)

  /** The child queries after these runs, whether they failed or not. */
  ghost function Plans(p: Children, runs: seq<Run>): Children {
    if runs == [] then p
    else PlanAfter(Plans(p, runs[..|runs| - 1]), runs[|runs| - 1].rows, runs[|runs| - 1].down)
  }

  /** The keys each load of a run sees: none when the run fails before it comes to that load. */
  function SeenSenders(run: Run): seq<Option<Uuid>> {
    if ApiKeys in run.down then [] else SenderKeys(run.rows)
  }

  function SeenProviders(sender: bool, run: Run): seq<Option<string>> {
    if ApiKeys in run.down || SenderFails(sender, run.rows, run.down) then [] else ProviderKeys(run.rows)
  }

  function SeenIds(sender: bool, provider: bool, run: Run): seq<Uuid> {
    if ApiKeys in run.down || SenderFails(sender, run.rows, run.down) || ProviderFails(provider, run.rows, run.down)
    then [] else RowIds(run.rows)
  }

  function SenderColumns(runs: seq<Run>): (r: seq<seq<Option<Uuid>>>)
    ensures |r| == |runs| && forall k :: 0 <= k < |r| ==> r[k] == SeenSenders(runs[k])
  {
    seq(|runs|, k requires 0 <= k < |runs| => SeenSenders(runs[k]))
  }

  function ProviderColumns(sender: bool, runs: seq<Run>): (r: seq<seq<Option<string>>>)
    ensures |r| == |runs| && forall k :: 0 <= k < |r| ==> r[k] == SeenProviders(sender, runs[k])
  {
    seq(|runs|, k requires 0 <= k < |runs| => SeenProviders(sender, runs[k]))
  }

  function IdLists(sender: bool, provider: bool, runs: seq<Run>): (r: seq<seq<Uuid>>)
    ensures |r| == |runs| && forall k :: 0 <= k < |r| ==> r[k] == SeenIds(sender, provider, runs[k])
  {
    seq(|runs|, k requires 0 <= k < |runs| => SeenIds(sender, provider, runs[k]))
  }

  /** The id lists that runs with these keys asked for. */
  function Asked<K(==,!new)>(columns: seq<seq<Option<K>>>): (r: seq<seq<K>>)
    ensures |r| == |columns| && forall k :: 0 <= k < |r| ==> r[k] == FirstOccurrences(columns[k])
  {
    seq(|columns|, k requires 0 <= k < |columns| => FirstOccurrences(columns[k]))
  }

  predicate HasKey<K>(keys: seq<Option<K>>) {
    exists x :: 0 <= x < |keys| && keys[x].Some?
  }

  /** The key is among those of every run that had any. */
  ghost predicate InEveryRun<K(!new)>(columns: seq<seq<Option<K>>>, key: K) {
    forall x :: 0 <= x < |columns| && HasKey(columns[x]) ==> Some(key) in columns[x]
  }

  lemma AskedInEveryRun<K(!new)>(columns: seq<seq<Option<K>>>, key: K)
    ensures (forall ks :: ks in Asked(columns) && ks != [] ==> key in ks) <==> InEveryRun(columns, key)
  {
    if forall ks :: ks in Asked(columns) && ks != [] ==> key in ks {
      forall x | 0 <= x < |columns| && HasKey(columns[x])
        ensures Some(key) in columns[x]
      {
        var y :| 0 <= y < |columns[x]| && columns[x][y].Some?;
        assert columns[x][y].value in Asked(columns)[x];
        assert Asked(columns)[x] in Asked(columns);
      }
    }
    if InEveryRun(columns, key) {
      forall ks | ks in Asked(columns) && ks != []
        ensures key in ks
      {
        var x :| 0 <= x < |columns| && Asked(columns)[x] == ks;
        assert Some(ks[0]) in columns[x];
      }
    }
  }

  lemma {:induction false} SameEdgesRequested(p: Children, runs: seq<Run>)
    ensures var q := Plans(p, runs);
            (q.0.Some? <==> p.0.Some?) && (q.1.Some? <==> p.1.Some?) && (q.2.Some? <==> p.2.Some?)
  {
    if runs != [] {
      SameEdgesRequested(p, runs[..|runs| - 1]);
    }
  }

  lemma NextOfEach(p: Children, run: Run)
    ensures var q := PlanAfter(p, run.rows, run.down);
            && q.0 == (if p.0.None? then None else Some(AfterRun(p.0.value, FirstOccurrences(SeenSenders(run)))))
            && q.1 == (if p.1.None? then None
                       else Some(AfterRun(p.1.value, FirstOccurrences(SeenProviders(p.0.Some?, run)))))
            && (q.2.Some? <==> p.2.Some?)
            && (p.2.Some? ==> var c := AfterRun(p.2.value, SeenIds(p.0.Some?, p.1.Some?, run));
                              && q.2.value.where == c.where && q.2.value.keySets == c.keySets
                              && q.2.value.limit == c.limit)
  {
  }

  /** Each to-one child query has served one load per run that came to it. */
  lemma {:induction false} SenderPlans(p: Children, runs: seq<Run>)
    ensures Plans(p, runs).0 == if p.0.None? then None else Some(AfterRuns(p.0.value, Asked(SenderColumns(runs))))
  {
    if runs != [] {
      var init := runs[..|runs| - 1];
      hide PlanAfter, SeenSenders;
      SenderPlans(p, init);
      NextOfEach(Plans(p, init), runs[|runs| - 1]);
      assert Asked(SenderColumns(runs))[..|runs| - 1] == Asked(SenderColumns(init));
    }
  }

  lemma {:induction false} ProviderPlans(p: Children, runs: seq<Run>)
    ensures Plans(p, runs).1 ==
            if p.1.None? then None else Some(AfterRuns(p.1.value, Asked(ProviderColumns(p.0.Some?, runs))))
  {
    if runs != [] {
      var init := runs[..|runs| - 1];
      hide PlanAfter, SeenProviders;
      ProviderPlans(p, init);
      SameEdgesRequested(p, init);
      NextOfEach(Plans(p, init), runs[|runs| - 1]);
      assert Asked(ProviderColumns(p.0.Some?, runs))[..|runs| - 1] == Asked(ProviderColumns(p.0.Some?, init));
    }
  }

  lemma SameNarrowing(q: Child<Uuid>, c: Child<Uuid>, ids: seq<Uuid>)
    requires q.where == c.where && q.keySets == c.keySets && q.limit == c.limit
    ensures var q1, c1 := AfterRun(q, ids), AfterRun(c, ids);
            q1.where == c1.where && q1.keySets == c1.keySets && q1.limit == c1.limit
  {
  }

  /** The to-many child query too, apart from asking for foreign keys. */
  lemma {:induction false} OrderPlans(p: Children, runs: seq<Run>)
    requires p.2.Some?
    ensures var q := Plans(p, runs).2;
            var c := AfterRuns(p.2.value, IdLists(p.0.Some?, p.1.Some?, runs));
            q.Some? && q.value.where == c.where && q.value.keySets == c.keySets && q.value.limit == c.limit
  {
    if runs != [] {
      var init := runs[..|runs| - 1];
      var lists := IdLists(p.0.Some?, p.1.Some?, runs);
      hide PlanAfter, SeenIds, AfterRun;
      OrderPlans(p, init);
      SameEdgesRequested(p, init);
      NextOfEach(Plans(p, init), runs[|runs| - 1]);
      assert lists[..|runs| - 1] == IdLists(p.0.Some?, p.1.Some?, init);
      SameNarrowing(Plans(p, init).2.value, AfterRuns(p.2.value, lists[..|runs| - 1]), lists[|runs| - 1]);
    }
  }

  lemma ToOneInRun<K(!new)>(c: Child<K>, table: seq<Neighbor<K>>, columns: seq<seq<Option<K>>>,
                               keys: seq<Option<K>>, i: nat)
    requires c.keySets == [] && c.limit.None? && i < |keys|
    ensures var p := LoadedOne(Some(AfterRuns(c, Asked(columns))), keys, table, keys[i]);
            && (p.Some? <==> keys[i].Some? && InEveryRun(columns, keys[i].value) &&
                             exists n :: n in table && n.key == keys[i] && c.where(n))
            && (p.Some? ==> p.value in table && p.value.key == keys[i] && c.where(p.value))
  {
    LoadedInRunIff(c, table, Asked(columns), keys, keys[i]);
    if keys[i].Some? {
      AskedInEveryRun(columns, keys[i].value);
    }
  }

  /**
   A profile edge is loaded in a run iff its neighbour exists and passes the caller's predicate,
   and its key was among the keys of every earlier run that came to this load with any key.
  */
  lemma ProfilesLoadedIff(p: Children, runs: seq<Run>, rows: seq<ApiRow>, db: Db, i: nat)
    requires p.0.Some? && p.0.value.keySets == [] && p.0.value.limit.None?
    requires p.1.Some? && p.1.value.keySets == [] && p.1.value.limit.None? && i < |rows|
    ensures var key := rows[i].senderKey;
            LoadedOne(Plans(p, runs).0, SenderKeys(rows), db.senders, key).Some? <==>
            key.Some? && InEveryRun(SenderColumns(runs), key.value) &&
            exists n :: n in db.senders && n.key == key && p.0.value.where(n)
    ensures var key := rows[i].providerKey;
            LoadedOne(Plans(p, runs).1, ProviderKeys(rows), db.providers, key).Some? <==>
            key.Some? && InEveryRun(ProviderColumns(true, runs), key.value) &&
            exists n :: n in db.providers && n.key == key && p.1.value.where(n)
  {
    SenderPlans(p, runs);
    ProviderPlans(p, runs);
    ToOneInRun(p.0.value, db.senders, SenderColumns(runs), SenderKeys(rows), i);
    ToOneInRun(p.1.value, db.providers, ProviderColumns(true, runs), ProviderKeys(rows), i);
    hide LoadedOne, Plans, AfterRuns, InEveryRun;
  }

  /**
   A node's list is its full lookup if the node was in every earlier run that came to this load
   with any node, and empty otherwise.
  */
  lemma {:induction false} OrdersLoadedIff(p: Children, runs: seq<Run>, rows: seq<ApiRow>, db: Db, i: nat)
    requires p.2.Some? && p.2.value.keySets == [] && p.2.value.limit.None? && i < |rows| && Distinct(RowIds(rows))
    ensures LoadedMany(Plans(p, runs).2, RowIds(rows), db.orders, i) ==
            if forall run :: run in runs && SeenIds(p.0.Some?, p.1.Some?, run) != [] ==>
                 rows[i].id in SeenIds(p.0.Some?, p.1.Some?, run)
            then LookupAll(p.2.value, db.orders, rows[i].id) else []
  {
    OrderPlans(p, runs);
    var c, q := p.2.value, Plans(p, runs).2.value;
    var ids, id := RowIds(rows), rows[i].id;
    AfterRunsKeepsConfig(c, IdLists(p.0.Some?, p.1.Some?, runs));
    LastAtOnly(ids, i);
    assert ids[i] == id;
    RunsOfLists(p.0.Some?, p.1.Some?, runs, id);
    ListInRun(q, c, db.orders, ids, id);
  }

  lemma RunsOfLists(sender: bool, provider: bool, runs: seq<Run>, id: Uuid)
    ensures (forall ks :: ks in IdLists(sender, provider, runs) && ks != [] ==> id in ks) <==>
            forall run :: run in runs && SeenIds(sender, provider, run) != [] ==> id in SeenIds(sender, provider, run)
  {
    var lists := IdLists(sender, provider, runs);
    forall run | run in runs
      ensures SeenIds(sender, provider, run) in lists
    {
      var x :| 0 <= x < |runs| && runs[x] == run;
      assert lists[x] == SeenIds(sender, provider, run);
    }
    forall ks | ks in lists
      ensures exists run :: run in runs && SeenIds(sender, provider, run) == ks
    {
      var x :| 0 <= x < |lists| && lists[x] == ks;
      assert runs[x] in runs;
    }
  }

  lemma {:induction false} ListInRun(q: Child<Uuid>, c: Child<Uuid>, table: seq<Neighbor<Uuid>>,
                                        ids: seq<Uuid>, id: Uuid)
    requires q.where == c.where && c.keySets == [] && q.limit.None? && id in ids
    ensures Bucket(Fetch(Narrow(q, ids), table), id) ==
            if forall ks :: ks in q.keySets ==> id in ks then LookupAll(c, table, id) else []
  {
    if table == [] {
    } else {
      var init, n := table[..|table| - 1], table[|table| - 1];
      ListInRun(q, c, init, ids, id);
      NarrowWants(q, ids, n);
      BucketSnoc(Matching(Narrow(q, ids), init), n, id);
      BucketSnoc(Matching(c.(keySets := []), init), n, id);
    }
  }

  // ------------------------------------------------------------------ the same run again

  lemma AgainToOne<K(!new)>(c: Child<K>, keys: seq<Option<K>>, table: seq<Neighbor<K>>, key: Option<K>)
    ensures LoadedOne(Some(AfterRun(c, FirstOccurrences(keys))), keys, table, key) ==
            LoadedOne(Some(c), keys, table, key)
  {
    var ids := FirstOccurrences(keys);
    if ids != [] {
      SameWanted(Narrow(Narrow(c, ids), ids), Narrow(c, ids), table);
    }
  }

  lemma AgainToMany(c: Child<Uuid>, ids: seq<Uuid>, table: seq<Neighbor<Uuid>>, i: nat)
    requires i < |ids|
    ensures LoadedMany(Some(Narrow(c, ids).(withFKs := true)), ids, table, i) == LoadedMany(Some(c), ids, table, i)
  {
    SameWanted(Narrow(Narrow(c, ids).(withFKs := true), ids), Narrow(c, ids), table);
  }

  /** The plan a run leaves behind loads the same three edges for the same rows. */
  lemma SameEdgesAgain(p: Children, rows: seq<ApiRow>, db: Db, i: nat)
    requires i < |rows|
    ensures var q := NextPlan(p, rows);
            && LoadedOne(q.0, SenderKeys(rows), db.senders, rows[i].senderKey) ==
               LoadedOne(p.0, SenderKeys(rows), db.senders, rows[i].senderKey)
            && LoadedOne(q.1, ProviderKeys(rows), db.providers, rows[i].providerKey) ==
               LoadedOne(p.1, ProviderKeys(rows), db.providers, rows[i].providerKey)
            && LoadedMany(q.2, RowIds(rows), db.orders, i) == LoadedMany(p.2, RowIds(rows), db.orders, i)
  {
    if p.0.Some? {
      AgainToOne(p.0.value, SenderKeys(rows), db.senders, rows[i].senderKey);
    }
    if p.1.Some? {
      AgainToOne(p.1.value, ProviderKeys(rows), db.providers, rows[i].providerKey);
    }
    if p.2.Some? {
      AgainToMany(p.2.value, RowIds(rows), db.orders, i);
    }
  }

  /** The two nodes hold the same three edges. */
  ghost predicate SameEdges(a: APIKey, z: APIKey)
    reads a.sender, a.provider, a.orders, z.sender, z.provider, z.orders
  {
    a.sender.loaded == z.sender.loaded && a.provider.loaded == z.provider.loaded && a.orders.loaded == z.orders.loaded
  }

  lemma EqualLoadsSameEdges(a: seq<APIKey>, z: seq<APIKey>, rows: seq<ApiRow>, p: Children, db: Db)
    requires |a| == |z| == |rows| && EdgesLoaded(a, rows, p, db) && EdgesLoaded(z, rows, NextPlan(p, rows), db)
    ensures forall i :: 0 <= i < |rows| ==> SameEdges(a[i], z[i])
  {
    forall i | 0 <= i < |rows|
      ensures SameEdges(a[i], z[i])
    {
      SameEdgesAgain(p, rows, db, i);
    }
  }

  /** No edge slot is a child query. */
  lemma SlotsApart(nodes: seq<APIKey>, q: ChildQuery?<Uuid>, p: ChildQuery?<string>)
    ensures forall s :: s in Senders(nodes) ==> s as object? != q as object? && s as object? != p as object?
    ensures forall s :: s in Providers(nodes) ==> s as object? != q as object? && s as object? != p as object?
    ensures forall s :: s in Orders(nodes) ==> s as object? != q as object? && s as object? != p as object?
  {
  }

  // ------------------------------------------------------------------ a builder over many runs

  /** The runs of one query over these snapshots. */
  function RunsOf(where: ApiRow -> bool, offset: Option<nat>, limit: Option<nat>, dbs: seq<Db>): (r: seq<Run>)
    ensures |r| == |dbs|
    ensures forall k :: 0 <= k < |r| ==> r[k] == Run(Rows(dbs[k].apiKeys, where, offset, limit), dbs[k].down)
  {
    seq(|dbs|, k requires 0 <= k < |dbs| => Run(Rows(dbs[k].apiKeys, where, offset, limit), dbs[k].down))
  }

  predicate Fails(requested: Loaded, run: Run) {
    ApiKeys in run.down || (run.rows != [] && LoadFails(requested, run.rows, run.down))
  }

  /** One node per row, with the edges that these child queries load. */
  ghost predicate Returned(nodes: seq<APIKey>, run: Run, plan: Children, db: Db)
    reads Senders(nodes), Providers(nodes), Orders(nodes)
  {
    && |nodes| == |run.rows| && EdgesLoaded(nodes, run.rows, plan, db)
    && forall i :: 0 <= i < |nodes| ==> nodes[i].id == run.rows[i].id
  }

  /** One run as a run of the query over a snapshot. */
  method RunOnce(query: APIKeyQuery, db: Db) returns (r: Result<seq<APIKey>, Error>)
    requires query.Valid()
    modifies query.withSenderProfile, query.withProviderProfile, query.withPaymentOrders
    ensures var run := Run(Rows(db.apiKeys, query.where, query.offset, query.limit), db.down);
            && (r.Err? <==> Fails(query.Requested(), run))
            && (r.Ok? ==> Returned(r.value, run, old(query.Plan()), db))
            && query.Plan() == PlanAfter(old(query.Plan()), run.rows, run.down)
  {
    hide LoadFails, PlanAfter, Rows, EdgesLoaded, APIKeyQuery.Plan;
    r := query.SqlAll(db);
  }

  /** Runs that did not fail returned what the child queries before them load. */
  ghost predicate AllReturned(rs: seq<Result<seq<APIKey>, Error>>, requested: Loaded, plan: Children, runs: seq<Run>,
                              dbs: seq<Db>)
    requires |rs| <= |runs| == |dbs|
    reads *
  {
    forall k :: 0 <= k < |rs| ==>
      && (rs[k].Err? <==> Fails(requested, runs[k]))
      && (rs[k].Ok? ==> Returned(rs[k].value, runs[k], Plans(plan, runs[..k]), dbs[k]))
  }

  /** One more run, over the next snapshot; what earlier runs returned stays as it was. */
  method RunNext(query: APIKeyQuery, db: Db, ghost rs: seq<Result<seq<APIKey>, Error>>, ghost plan: Children,
                 ghost runs: seq<Run>, ghost dbs: seq<Db>)
    returns (r: Result<seq<APIKey>, Error>)
    requires query.Valid() && |rs| < |runs| == |dbs| && dbs[|rs|] == db
    requires runs[|rs|] == Run(Rows(db.apiKeys, query.where, query.offset, query.limit), db.down)
    requires AllReturned(rs, query.Requested(), plan, runs, dbs) && query.Plan() == Plans(plan, runs[..|rs|])
    modifies query.withSenderProfile, query.withProviderProfile, query.withPaymentOrders
    ensures AllReturned(rs + [r], query.Requested(), plan, runs, dbs)
    ensures query.Plan() == Plans(plan, runs[..|rs| + 1])
  {
    hide Fails, PlanAfter, Rows, APIKeyQuery.Plan, Plans, LoadedOne, LoadedMany;
    r := RunOnce(query, db);
    OneMoreRun(plan, runs, |rs|);
    forall k | 0 <= k < |rs| && rs[k].Ok?
      ensures Returned(rs[k].value, runs[k], Plans(plan, runs[..k]), dbs[k])
    {
      SlotsApart(rs[k].value, query.withSenderProfile, query.withProviderProfile);
      SlotsApart(rs[k].value, query.withPaymentOrders, query.withProviderProfile);
    }
  }

  /**
   Any number of runs of one builder, each over its own snapshot: which fail, what edges each of
   the others returned, judged after all of them, and what the child queries have become.
  */
  method RunAll(query: APIKeyQuery, dbs: seq<Db>) returns (rs: seq<Result<seq<APIKey>, Error>>)
    requires query.Valid()
    modifies query.withSenderProfile, query.withProviderProfile, query.withPaymentOrders
    ensures |rs| == |dbs|
    ensures var runs := RunsOf(query.where, query.offset, query.limit, dbs);
            && query.Plan() == Plans(old(query.Plan()), runs)
            && AllReturned(rs, query.Requested(), old(query.Plan()), runs, dbs)
  {
    rs := [];
    ghost var plan, runs := query.Plan(), RunsOf(query.where, query.offset, query.limit, dbs);
    hide Rows, Plans, APIKeyQuery.Plan, Returned, Fails;
    NoRuns(plan);
    for j := 0 to |dbs|
      invariant |rs| == j && query.Plan() == Plans(plan, runs[..j])
      invariant AllReturned(rs, query.Requested(), plan, runs, dbs)
    {
      var r := RunNext(query, dbs[j], rs, plan, runs, dbs);
      rs := rs + [r];
    }
    assert runs[..|dbs|] == runs;
  }

  lemma NoRuns(p: Children)
    ensures Plans(p, []) == p
  {
  }

  lemma OneMoreRun(p: Children, runs: seq<Run>, j: nat)
    requires j < |runs|
    ensures Plans(p, runs[..j + 1]) == PlanAfter(Plans(p, runs[..j]), runs[j].rows, runs[j].down)
  {
    assert runs[..j + 1][..j] == runs[..j];
  }

  lemma SuccessNarrowsAll(p: Children, run: Run)
    requires !Fails(Loaded(p.0.Some?, p.1.Some?, p.2.Some?), run) && run.rows != []
    ensures PlanAfter(p, run.rows, run.down) == NextPlan(p, run.rows)
  {
  }

  /** A second run over unchanged tables and limits succeeds iff the first did and loads the same three edges. */
  method RunTwice(query: APIKeyQuery, db: Db)
    returns (first: Result<seq<APIKey>, Error>, second: Result<seq<APIKey>, Error>)
    requires query.Valid()
    modifies query.withSenderProfile, query.withProviderProfile, query.withPaymentOrders
    ensures first.Ok? <==> second.Ok?
    ensures first.Ok? ==>
              && |first.value| == |second.value|
              && forall i :: 0 <= i < |first.value| ==>
                   first.value[i].id == second.value[i].id && SameEdges(first.value[i], second.value[i])
  {
    ghost var plan := query.Plan();
    ghost var run := Run(Rows(db.apiKeys, query.where, query.offset, query.limit), db.down);
    hide SameEdges, Rows, Fails, EdgesLoaded, PlanAfter, NextPlan;
    var rs := RunAll(query, [db, db]);
    first, second := rs[0], rs[1];
    ghost var runs := RunsOf(query.where, query.offset, query.limit, [db, db]);
    assert runs[0] == run && runs[1] == run && runs[..0] == [] && runs[..1] == [run];
    assert Plans(plan, [run]) == PlanAfter(plan, run.rows, run.down) by { assert [run][..0] == []; }
    if first.Ok? && run.rows != [] {
      SuccessNarrowsAll(plan, run);
      EqualLoadsSameEdges(first.value, second.value, run.rows, plan, db);
    }
  }

  /** A second question for ids on one builder fails: the id column of the first is still selected. */
  method ExistTwice(query: APIKeyQuery, db: Db)
    returns (first: Result<bool, QueryError>, second: Result<bool, QueryError>)
    modifies query
    ensures ApiKeys !in db.down ==> second == Err(TooManyColumns)
    ensures ApiKeys !in db.down && old(query.fields) == [] ==> first == Ok(old(query.Unlimited(db)) != [])
  {
    first := query.Exist(db);
    second := query.Exist(db);
  }
}
