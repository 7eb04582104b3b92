/**
 APIKeyQuery: which columns a query reads, the nodes sqlAll returns with their edges loaded,
 and First, Only, OnlyID and Exist, which decide from one or two fetched rows.
*/
module ApiKeyQuery {
  import opened Base
  import opened EagerJoin
  import opened EdgeLoad

  datatype Column = IdColumn | SecretColumn | ProviderKeyColumn | SenderKeyColumn

  const COLUMNS := [IdColumn, SecretColumn]
  const FOREIGN_KEYS := [ProviderKeyColumn, SenderKeyColumn]

  datatype ApiRow = ApiRow(id: Uuid, secret: string, providerKey: Option<string>, senderKey: Option<Uuid>)

  datatype Table = ApiKeys | SenderProfiles | ProviderProfiles | PaymentOrders

  /** A snapshot of the tables, and the tables whose queries fail. */
  datatype Db = Db(
    apiKeys: seq<ApiRow>,
    senders: seq<Neighbor<Uuid>>,
    providers: seq<Neighbor<string>>,
    orders: seq<Neighbor<Uuid>>,
    down: set<Table>)

  datatype QueryError = LoadFailed(error: Error) | NodeNotFound | NotSingular | TooManyColumns

  datatype Loaded = Loaded(sender: bool, provider: bool, orders: bool)

  /** A node: the fields read, and one slot per edge. */
  class APIKey {
    const id: Uuid
    const secret: string
    const sender: ToOneEdge<Uuid>
    const provider: ToOneEdge<string>
    const orders: ToManyEdge
    const loadedTypes: Loaded

    /** assignValues for the columns the query read; the others keep their zero values. */
    constructor (row: ApiRow, columns: seq<Column>, loadedTypes: Loaded)
      ensures Reads(row, columns) && this.loadedTypes == loadedTypes
      ensures fresh(sender) && fresh(provider) && fresh(orders)
      ensures sender.loaded == None && provider.loaded == None && orders.loaded == []
    {
      var rowId := if IdColumn in columns then row.id else ZERO_UUID;
      id := rowId;
      secret := if SecretColumn in columns then row.secret else "";
      sender := new ToOneEdge(if SenderKeyColumn in columns then row.senderKey else None);
      provider := new ToOneEdge(if ProviderKeyColumn in columns then row.providerKey else None);
      orders := new ToManyEdge(rowId);
      this.loadedTypes := loadedTypes;
    }

    function SenderProfileOrErr(): Result<Neighbor<Uuid>, EdgeError>
      reads sender
    {
      sender.OrErr(loadedTypes.sender)
    }

    function ProviderProfileOrErr(): Result<Neighbor<string>, EdgeError>
      reads provider
    {
      provider.OrErr(loadedTypes.provider)
    }

    function PaymentOrdersOrErr(): Result<seq<Neighbor<Uuid>>, EdgeError>
      reads orders
    {
      orders.OrErr(loadedTypes.orders)
    }

    ghost predicate Reads(row: ApiRow, columns: seq<Column>) {
      && id == orders.id == (if IdColumn in columns then row.id else ZERO_UUID)
      && secret == (if SecretColumn in columns then row.secret else "")
      && sender.key == (if SenderKeyColumn in columns then row.senderKey else None)
      && provider.key == (if ProviderKeyColumn in columns then row.providerKey else None)
    }
  }

  /** The rows that pass a predicate, after the offset and up to the limit. */
  function Rows(table: seq<ApiRow>, where: ApiRow -> bool, offset: Option<nat>, limit: Option<nat>): seq<ApiRow> {
    var all := Filter(table, where);
    var o := if offset.Some? then offset.value else 0;
    var rest := if o <= |all| then all[o..] else [];
    if limit.Some? && limit.value < |rest| then rest[..limit.value] else rest
  }

  /** A table's rows pass the predicate or not one by one, in table order. */
  lemma RowsFilter(table: seq<ApiRow>, row: ApiRow, where: ApiRow -> bool)
    ensures Rows([], where, None, None) == []
    ensures Rows([row] + table, where, None, None) ==
            (if where(row) then [row] else []) + Rows(table, where, None, None)
  {
    assert ([row] + table)[1..] == table;
  }

  /** A page of the whole result: what comes after the offset, up to the limit. */
  lemma RowsPage(table: seq<ApiRow>, where: ApiRow -> bool, offset: Option<nat>, limit: Option<nat>)
    ensures var all, page := Rows(table, where, None, None), Rows(table, where, offset, limit);
            var first := if offset.Some? then offset.value else 0;
            var left := if first <= |all| then |all| - first else 0;
            && |page| == (if limit.Some? && limit.value < left then limit.value else left)
            && forall k :: 0 <= k < |page| ==> page[k] == all[first + k]
  {
  }

  function SenderKeys(rows: seq<ApiRow>): (keys: seq<Option<Uuid>>)
    ensures |keys| == |rows| && forall i :: 0 <= i < |rows| ==> keys[i] == rows[i].senderKey
  {
    seq(|rows|, i requires 0 <= i < |rows| => rows[i].senderKey)
  }

  function ProviderKeys(rows: seq<ApiRow>): (keys: seq<Option<string>>)
    ensures |keys| == |rows| && forall i :: 0 <= i < |rows| ==> keys[i] == rows[i].providerKey
  {
    seq(|rows|, i requires 0 <= i < |rows| => rows[i].providerKey)
  }

  function RowIds(rows: seq<ApiRow>): (ids: seq<Uuid>)
    ensures |ids| == |rows| && forall i :: 0 <= i < |rows| ==> ids[i] == rows[i].id
  {
    seq(|rows|, i requires 0 <= i < |rows| => rows[i].id)
  }

  /** What a to-one edge holds for a row with this key; None stands for an edge not requested. */
  function LoadedOne<K(==,!new)>(c: Option<Child<K>>, keys: seq<Option<K>>, table: seq<Neighbor<K>>,
                                 key: Option<K>): Option<Neighbor<K>>
  {
    if c.Some? then Pick(Fetch(Narrow(c.value, FirstOccurrences(keys)), table), key, None) else None
  }

  /** What a to-many edge holds for row i. */
  function LoadedMany(c: Option<Child<Uuid>>, ids: seq<Uuid>, table: seq<Neighbor<Uuid>>, i: nat): seq<Neighbor<Uuid>>
    requires i < |ids|
  {
    if c.Some? && LastAt(ids, |ids|, ids[i]) == i then Bucket(Fetch(Narrow(c.value, ids), table), ids[i]) else []
  }

  function Senders(nodes: seq<APIKey>): (s: seq<ToOneEdge<Uuid>>)
    ensures |s| == |nodes| && forall i :: 0 <= i < |nodes| ==> s[i] == nodes[i].sender
  {
    seq(|nodes|, i requires 0 <= i < |nodes| => nodes[i].sender)
  }

  function Providers(nodes: seq<APIKey>): (s: seq<ToOneEdge<string>>)
    ensures |s| == |nodes| && forall i :: 0 <= i < |nodes| ==> s[i] == nodes[i].provider
  {
    seq(|nodes|, i requires 0 <= i < |nodes| => nodes[i].provider)
  }

  function Orders(nodes: seq<APIKey>): (s: seq<ToManyEdge>)
    ensures |s| == |nodes| && forall i :: 0 <= i < |nodes| ==> s[i] == nodes[i].orders
  {
    seq(|nodes|, i requires 0 <= i < |nodes| => nodes[i].orders)
  }

  /** The nodes answer these rows, read through these columns. */
  ghost predicate Answers(nodes: seq<APIKey>, rows: seq<ApiRow>, columns: seq<Column>, loadedTypes: Loaded) {
    && |nodes| == |rows|
    && forall i :: 0 <= i < |nodes| ==> nodes[i].Reads(rows[i], columns) && nodes[i].loadedTypes == loadedTypes
  }

  ghost predicate Unloaded(nodes: seq<APIKey>)
    reads Senders(nodes), Providers(nodes), Orders(nodes)
  {
    forall i :: 0 <= i < |nodes| ==>
      nodes[i].sender.loaded == None && nodes[i].provider.loaded == None && nodes[i].orders.loaded == []
  }

  method NewNodes(rows: seq<ApiRow>, columns: seq<Column>, loadedTypes: Loaded) returns (nodes: seq<APIKey>)
    ensures Answers(nodes, rows, columns, loadedTypes) && Unloaded(nodes)
    ensures DistinctSlots(Orders(nodes))
    ensures forall i :: 0 <= i < |nodes| ==>
              fresh(nodes[i]) && fresh(nodes[i].sender) && fresh(nodes[i].provider) && fresh(nodes[i].orders)
  {
    nodes := [];
    for i := 0 to |rows|
      invariant |nodes| == i && Unloaded(nodes)
      invariant forall j :: 0 <= j < i ==> nodes[j].Reads(rows[j], columns) && nodes[j].loadedTypes == loadedTypes
      invariant forall j, k :: 0 <= j < k < i ==> nodes[j].orders != nodes[k].orders
      invariant forall j :: 0 <= j < i ==>
                  fresh(nodes[j]) && fresh(nodes[j].sender) && fresh(nodes[j].provider) && fresh(nodes[j].orders)
    {
      hide APIKey.Reads;
      var node := new APIKey(rows[i], columns, loadedTypes);
      nodes := nodes + [node];
    }
  }

  function UpTo(rows: seq<ApiRow>, n: nat): seq<ApiRow> {
    if n < |rows| then rows[..n] else rows
  }

  /** The columns other than the id, in order. */
  function ButId(columns: seq<Column>): seq<Column> {
    if columns == [] then []
    else
      var last := columns[|columns| - 1];
      ButId(columns[..|columns| - 1]) + (if last == IdColumn then [] else [last])
  }

  /** The child queries of the three edges. */
  type Children = (Option<Child<Uuid>>, Option<Child<string>>, Option<Child<Uuid>>)

  /** The child queries after a run over these rows: each one that loaded anything is narrower. */
  ghost function NextPlan(p: Children, rows: seq<ApiRow>): Children {
    (if p.0.None? then None else Some(AfterRun(p.0.value, FirstOccurrences(SenderKeys(rows)))),
     if p.1.None? then None else Some(AfterRun(p.1.value, FirstOccurrences(ProviderKeys(rows)))),
     if p.2.None? then None else Some(Narrow(p.2.value, RowIds(rows)).(withFKs := true)))
  }

  /** A to-one load whose table is down fails, unless no row has a key. */
  predicate SenderFails(requested: bool, rows: seq<ApiRow>, down: set<Table>) {
    requested && FirstOccurrences(SenderKeys(rows)) != [] && SenderProfiles in down
  }

  predicate ProviderFails(requested: bool, rows: seq<ApiRow>, down: set<Table>) {
    requested && FirstOccurrences(ProviderKeys(rows)) != [] && ProviderProfiles in down
  }

  predicate LoadFails(requested: Loaded, rows: seq<ApiRow>, down: set<Table>) {
    || SenderFails(requested.sender, rows, down) || ProviderFails(requested.provider, rows, down)
    || (requested.orders && PaymentOrders in down)
  }

  /** The child queries after the loads: each narrows its own before it can fail, and the first failure ends it. */
  ghost function PlanAfterLoads(p: Children, rows: seq<ApiRow>, down: set<Table>): Children {
    var next := NextPlan(p, rows);
    if SenderFails(p.0.Some?, rows, down) then (next.0, p.1, p.2)
    else if ProviderFails(p.1.Some?, rows, down) then (next.0, next.1, p.2)
    else next
  }

  /** The child queries after a run, failed or not; a run that finds no row loads nothing. */
  ghost function PlanAfter(p: Children, rows: seq<ApiRow>, down: set<Table>): Children {
    if ApiKeys in down || rows == [] then p else PlanAfterLoads(p, rows, down)
  }

  class APIKeyQuery {
    var fields: seq<Column>
    var where: ApiRow -> bool
    var limit: Option<nat>
    var offset: Option<nat>
    var withFKs: bool
    var withSenderProfile: ChildQuery?<Uuid>
    var withProviderProfile: ChildQuery?<string>
    var withPaymentOrders: ChildQuery?<Uuid>

    constructor (where: ApiRow -> bool)
      ensures this.where == where && fields == [] && limit == None && offset == None && !withFKs
      ensures withSenderProfile == null && withProviderProfile == null && withPaymentOrders == null
    {
      this.where := where;
      fields, limit, offset, withFKs := [], None, None, false;
      withSenderProfile, withProviderProfile, withPaymentOrders := null, null, null;
    }

    /** Each eager load has a child query of its own. */
    ghost predicate Valid()
      reads this
    {
      withSenderProfile != null ==> withSenderProfile != withPaymentOrders
    }

    ghost function Requested(): Loaded
      reads this
    {
      Loaded(withSenderProfile != null, withProviderProfile != null, withPaymentOrders != null)
    }

    /** The node carries the id, the selected fields and the set of loaded edges. */
    ghost predicate Shows(node: APIKey, row: ApiRow)
      reads this
    {
      && node.id == row.id && node.secret == (if fields == [] || SecretColumn in fields then row.secret else "")
      && node.loadedTypes == Requested()
    }

    method Select(more: seq<Column>)
      modifies this`fields
      ensures fields == old(fields) + more
    {
      fields := fields + more;
    }

    method Limit(n: nat)
      modifies this`limit
      ensures limit == Some(n)
    {
      limit := Some(n);
    }

    /**
     The columns sqlAll reads. Whatever was selected, the id is among them, and so are all
     foreign keys as soon as a to-one edge is requested.
    */
    method ReadColumns() returns (columns: seq<Column>)
      ensures IdColumn in columns
      ensures withSenderProfile != null || withProviderProfile != null || withFKs ==>
                SenderKeyColumn in columns && ProviderKeyColumn in columns
      ensures forall c :: c in columns <==>
                c == IdColumn || c in fields || (fields == [] && c == SecretColumn) ||
                ((withSenderProfile != null || withProviderProfile != null || withFKs) && c in FOREIGN_KEYS)
      ensures columns ==
                [IdColumn] + (if fields == [] then [SecretColumn] else ButId(fields)) +
                (if withSenderProfile != null || withProviderProfile != null || withFKs
                 then [ProviderKeyColumn, SenderKeyColumn] else [])
    {
      columns := COLUMNS;
      if |fields| > 0 {
        columns := [IdColumn];
        for i := 0 to |fields|
          invariant forall c :: c in columns <==> c == IdColumn || c in fields[..i]
          invariant columns == [IdColumn] + ButId(fields[..i])
        {
          assert fields[..i + 1] == fields[..i] + [fields[i]];
          assert fields[..i + 1][..i] == fields[..i];
          if fields[i] != IdColumn {
            columns := columns + [fields[i]];
          }
        }
        assert fields[..|fields|] == fields;
      }
      if withFKs || withSenderProfile != null || withProviderProfile != null {
        columns := columns + FOREIGN_KEYS;
      }
    }

    /** The child queries as they stand; None for an edge that was not requested. */
    ghost function Plan(): Children
      reads this, withSenderProfile, withProviderProfile, withPaymentOrders
    {
      (if withSenderProfile == null then None else Some(withSenderProfile.Current()),
       if withProviderProfile == null then None else Some(withProviderProfile.Current()),
       if withPaymentOrders == null then None else Some(withPaymentOrders.Current()))
    }

    method SqlAll(db: Db) returns (r: Result<seq<APIKey>, Error>)
      requires Valid()
      modifies withSenderProfile, withProviderProfile, withPaymentOrders
      ensures var rows := Rows(db.apiKeys, where, offset, limit);
              r.Err? <==> ApiKeys in db.down || (rows != [] && LoadFails(Requested(), rows, db.down))
      ensures forall node :: r.Ok? && node in r.value ==>
                fresh(node.sender) && fresh(node.provider) && fresh(node.orders)
      ensures r.Ok? ==>
                var rows := Rows(db.apiKeys, where, offset, limit);
                && ApiKeys !in db.down && |r.value| == |rows|
                && (forall i :: 0 <= i < |rows| ==> Shows(r.value[i], rows[i]))
                && EdgesLoaded(r.value, rows, old(Plan()), db)
      ensures Plan() == PlanAfter(old(Plan()), Rows(db.apiKeys, where, offset, limit), db.down)
    {
      hide SendersLoaded, ProvidersLoaded, OrdersLoaded, Rows;
      if ApiKeys in db.down {
        return Err(QueryFailed);
      }
      var rows := Rows(db.apiKeys, where, offset, limit);
      var nodes := ReadNodes(rows, db);
      if |nodes| == 0 {
        NoNodes(nodes, rows, Plan(), db);
        return Ok(nodes);
      }
      var err := LoadEdges(nodes, rows, db);
      return if err.Some? then Err(err.value) else Ok(nodes);
    }

    /** QueryNodes: one node per row, holding the keys the requested edges need. */
    method ReadNodes(rows: seq<ApiRow>, ghost db: Db) returns (nodes: seq<APIKey>)
      ensures HoldsKeys(nodes, rows, Requested()) && DistinctSlots(Orders(nodes))
      ensures forall i :: 0 <= i < |rows| ==> Shows(nodes[i], rows[i])
      ensures forall i :: 0 <= i < |nodes| ==>
                fresh(nodes[i].sender) && fresh(nodes[i].provider) && fresh(nodes[i].orders)
      ensures SendersLoaded(nodes, rows, None, db.senders) && ProvidersLoaded(nodes, rows, None, db.providers)
      ensures OrdersLoaded(nodes, rows, None, db.orders)
    {
      var columns := ReadColumns();
      var loadedTypes := Loaded(withSenderProfile != null, withProviderProfile != null, withPaymentOrders != null);
      nodes := NewNodes(rows, columns, loadedTypes);
      NothingLoaded(nodes, rows, db);
    }

    /** The whole result, whatever limit was set before. */
    ghost function Unlimited(db: Db): seq<ApiRow>
      reads this
    {
      Rows(db.apiKeys, where, offset, None)
    }

    /** Limit(n).All: the first n rows of the whole result. The limit stays on the builder. */
    method AllUpTo(n: nat, db: Db) returns (r: Result<seq<APIKey>, Error>)
      requires Valid()
      modifies this`limit, withSenderProfile, withProviderProfile, withPaymentOrders
      ensures limit == Some(n) && Requested() == old(Requested())
      ensures UpTo(Unlimited(db), n) == Rows(db.apiKeys, where, offset, limit)
      ensures var rows := UpTo(Unlimited(db), n);
              && (r.Err? <==> ApiKeys in db.down || (rows != [] && LoadFails(Requested(), rows, db.down)))
              && (r.Ok? ==> ApiKeys !in db.down && |r.value| == |rows| && EdgesLoaded(r.value, rows, old(Plan()), db) &&
                            forall i :: 0 <= i < |rows| ==> Shows(r.value[i], rows[i]))
      ensures Plan() == PlanAfter(old(Plan()), Rows(db.apiKeys, where, offset, limit), db.down)
    {
      limit := Some(n);
      assert UpTo(Unlimited(db), n) == Rows(db.apiKeys, where, offset, limit);
      hide Rows, LoadFails, EdgesLoaded, PlanAfter, Shows, Plan, UpTo;
      r := SqlAll(db);
    }

    /** The first row, from a query limited to one. The limit stays on the builder. */
    method First(db: Db) returns (r: Result<APIKey, QueryError>)
      requires Valid()
      modifies this`limit, withSenderProfile, withProviderProfile, withPaymentOrders
      ensures limit == Some(1) && Requested() == old(Requested())
      ensures r.Ok? <==>
                ApiKeys !in db.down && Unlimited(db) != [] && !LoadFails(Requested(), Unlimited(db)[..1], db.down)
      ensures r.Ok? ==> Shows(r.value, Unlimited(db)[0]) && EdgesLoaded([r.value], Unlimited(db)[..1], old(Plan()), db)
      ensures r == Err(NodeNotFound) <==> Unlimited(db) == [] && ApiKeys !in db.down
      ensures r != Err(NotSingular)
      ensures Plan() == PlanAfter(old(Plan()), Rows(db.apiKeys, where, offset, limit), db.down)
    {
      hide Rows, LoadFails, EdgesLoaded, PlanAfter, Shows, Plan, Unlimited;
      var nodes := AllUpTo(1, db);
      ghost var all := Unlimited(db);
      assert UpTo(all, 1) == if all == [] then [] else all[..1];
      if nodes.Err? {
        return Err(LoadFailed(nodes.error));
      }
      if |nodes.value| == 0 {
        return Err(NodeNotFound);
      }
      assert [nodes.value[0]] == nodes.value;
      return Ok(nodes.value[0]);
    }

    /** The only row, from a query limited to two: two fetched rows prove there is more than one. */
    method Only(db: Db) returns (r: Result<APIKey, QueryError>)
      requires Valid()
      modifies this`limit, withSenderProfile, withProviderProfile, withPaymentOrders
      ensures limit == Some(2) && Requested() == old(Requested())
      ensures r.Ok? <==> ApiKeys !in db.down && |Unlimited(db)| == 1 && !LoadFails(Requested(), Unlimited(db), db.down)
      ensures r.Ok? ==> Shows(r.value, Unlimited(db)[0]) && EdgesLoaded([r.value], Unlimited(db), old(Plan()), db)
      ensures r == Err(NodeNotFound) <==> Unlimited(db) == [] && ApiKeys !in db.down
      ensures r == Err(NotSingular) <==>
                ApiKeys !in db.down && |Unlimited(db)| >= 2 && !LoadFails(Requested(), Unlimited(db)[..2], db.down)
      ensures Plan() == PlanAfter(old(Plan()), Rows(db.apiKeys, where, offset, limit), db.down)
    {
      hide Rows, LoadFails, EdgesLoaded, PlanAfter, Shows, Plan, Unlimited;
      var nodes := AllUpTo(2, db);
      ghost var all := Unlimited(db);
      assert UpTo(all, 2) == if |all| >= 2 then all[..2] else all;
      if nodes.Err? {
        return Err(LoadFailed(nodes.error));
      }
      match |nodes.value|
      case 1 =>
        assert [nodes.value[0]] == nodes.value;
        return Ok(nodes.value[0]);
      case 0 => return Err(NodeNotFound);
      case _ => return Err(NotSingular);
    }

    /**
     Select(FieldID).Scan: ids only, no eager loads. The id joins whatever was selected before,
     and a slice of ids has room for one column only.
    */
    method IDs(db: Db) returns (r: Result<seq<Uuid>, QueryError>)
      modifies this`fields
      ensures fields == old(fields) + [IdColumn]
      ensures r == if ApiKeys in db.down then Err(LoadFailed(QueryFailed))
                   else if old(fields) != [] then Err(TooManyColumns)
                   else Ok(RowIds(Rows(db.apiKeys, where, offset, limit)))
    {
      Select([IdColumn]);
      if ApiKeys in db.down {
        return Err(LoadFailed(QueryFailed));
      }
      if |fields| > 1 {
        return Err(TooManyColumns);
      }
      return Ok(RowIds(Rows(db.apiKeys, where, offset, limit)));
    }

    method OnlyID(db: Db) returns (r: Result<Uuid, QueryError>)
      modifies this`fields, this`limit
      ensures limit == Some(2) && fields == old(fields) + [IdColumn]
      ensures ApiKeys in db.down ==> r == Err(LoadFailed(QueryFailed))
      ensures ApiKeys !in db.down && old(fields) != [] ==> r == Err(TooManyColumns)
      ensures ApiKeys !in db.down && old(fields) == [] ==>
                && (forall id :: r == Ok(id) <==> RowIds(Unlimited(db)) == [id])
                && (r == Err(NodeNotFound) <==> Unlimited(db) == [])
                && (r == Err(NotSingular) <==> |Unlimited(db)| >= 2)
    {
      limit := Some(2);
      var ids := IDs(db);
      if ids.Err? {
        return Err(ids.error);
      }
      match |ids.value|
      case 1 => return Ok(ids.value[0]);
      case 0 => return Err(NodeNotFound);
      case _ => return Err(NotSingular);
    }

    method FirstID(db: Db) returns (r: Result<Uuid, QueryError>)
      modifies this`fields, this`limit
      ensures limit == Some(1) && fields == old(fields) + [IdColumn]
      ensures ApiKeys in db.down ==> r == Err(LoadFailed(QueryFailed))
      ensures ApiKeys !in db.down && old(fields) != [] ==> r == Err(TooManyColumns)
      ensures ApiKeys !in db.down && old(fields) == [] ==>
                r == if Unlimited(db) == [] then Err(NodeNotFound) else Ok(Unlimited(db)[0].id)
    {
      limit := Some(1);
      var ids := IDs(db);
      if ids.Err? {
        return Err(ids.error);
      }
      return if |ids.value| == 0 then Err(NodeNotFound) else Ok(ids.value[0]);
    }

    method Exist(db: Db) returns (r: Result<bool, QueryError>)
      modifies this`fields, this`limit
      ensures limit == Some(1) && fields == old(fields) + [IdColumn]
      ensures r == if ApiKeys in db.down then Err(LoadFailed(QueryFailed))
                   else if old(fields) != [] then Err(TooManyColumns)
                   else Ok(Unlimited(db) != [])
    {
      var id := FirstID(db);
      match id
      case Ok(_) => return Ok(true);
      case Err(NodeNotFound) => return Ok(false);
      case Err(e) => return Err(e);
    }

    /** The loads of the requested edges, one after another; the first error ends it. */
    method LoadEdges(nodes: seq<APIKey>, rows: seq<ApiRow>, db: Db) returns (err: Option<Error>)
      requires Valid() && DistinctSlots(Orders(nodes)) && HoldsKeys(nodes, rows, Requested())
      requires SendersLoaded(nodes, rows, None, db.senders) && ProvidersLoaded(nodes, rows, None, db.providers)
      requires OrdersLoaded(nodes, rows, None, db.orders)
      modifies withSenderProfile, withProviderProfile, withPaymentOrders
      modifies Senders(nodes)`loaded, Providers(nodes)`loaded, Orders(nodes)`loaded
      ensures err.Some? <==> LoadFails(Requested(), rows, db.down)
      ensures err.None? ==>
                && SendersLoaded(nodes, rows, old(Plan().0), db.senders)
                && ProvidersLoaded(nodes, rows, old(Plan().1), db.providers)
                && OrdersLoaded(nodes, rows, old(Plan().2), db.orders)
      ensures Plan() == PlanAfterLoads(old(Plan()), rows, db.down)
    {
      hide SendersLoaded, ProvidersLoaded, OrdersLoaded;
      ghost var plan := Plan();
      OrdersApart(nodes, withSenderProfile);
      err := LoadProfiles(nodes, rows, db);
      if err.Some? {
        return;
      }
      QueriesApart(withPaymentOrders, withProviderProfile);
      if withPaymentOrders != null {
        err := LoadPaymentOrders(withPaymentOrders, nodes, rows, db, plan.0, plan.1);
      }
    }

    /** The two to-one loads. */
    method LoadProfiles(nodes: seq<APIKey>, rows: seq<ApiRow>, db: Db) returns (err: Option<Error>)
      requires HoldsKeys(nodes, rows, Requested())
      requires SendersLoaded(nodes, rows, None, db.senders) && ProvidersLoaded(nodes, rows, None, db.providers)
      modifies withSenderProfile, withProviderProfile
      modifies Senders(nodes)`loaded, Providers(nodes)`loaded
      ensures err.Some? <==> LoadFails(Requested().(orders := false), rows, db.down)
      ensures err.None? ==>
                && SendersLoaded(nodes, rows, old(Plan().0), db.senders)
                && ProvidersLoaded(nodes, rows, old(Plan().1), db.providers)
      ensures Plan().0 == PlanAfterLoads(old(Plan()), rows, db.down).0
      ensures Plan().1 == PlanAfterLoads(old(Plan()), rows, db.down).1
    {
      hide SendersLoaded, ProvidersLoaded;
      ghost var plan := Plan();
      if withSenderProfile != null {
        err := LoadSenderProfile(withSenderProfile, nodes, rows, db);
        if err.Some? {
          return;
        }
      }
      QueriesApart(withSenderProfile, withProviderProfile);
      if withProviderProfile != null {
        err := LoadProviderProfile(withProviderProfile, nodes, rows, db, plan.0);
        if err.Some? {
          return;
        }
      }
      return None;
    }
  }

  /** Where an edge is requested, the nodes hold the keys of their rows. */
  ghost predicate HoldsKeys(nodes: seq<APIKey>, rows: seq<ApiRow>, requested: Loaded) {
    && |nodes| == |rows|
    && (requested.sender ==> forall i :: 0 <= i < |nodes| ==> nodes[i].sender.key == rows[i].senderKey)
    && (requested.provider ==> forall i :: 0 <= i < |nodes| ==> nodes[i].provider.key == rows[i].providerKey)
    && forall i :: 0 <= i < |nodes| ==> nodes[i].orders.id == rows[i].id
  }

  lemma QueriesApart(q: ChildQuery?<Uuid>, p: ChildQuery?<string>)
    ensures q != null ==> q as object? != p as object?
  {
  }

  ghost predicate SendersLoaded(nodes: seq<APIKey>, rows: seq<ApiRow>, c: Option<Child<Uuid>>,
                                table: seq<Neighbor<Uuid>>)
    requires |nodes| == |rows|
    reads Senders(nodes)
  {
    forall i :: 0 <= i < |nodes| ==>
      nodes[i].sender.loaded == LoadedOne(c, SenderKeys(rows), table, rows[i].senderKey)
  }

  ghost predicate ProvidersLoaded(nodes: seq<APIKey>, rows: seq<ApiRow>, c: Option<Child<string>>,
                                  table: seq<Neighbor<string>>)
    requires |nodes| == |rows|
    reads Providers(nodes)
  {
    forall i :: 0 <= i < |nodes| ==>
      nodes[i].provider.loaded == LoadedOne(c, ProviderKeys(rows), table, rows[i].providerKey)
  }

  ghost predicate OrdersLoaded(nodes: seq<APIKey>, rows: seq<ApiRow>, c: Option<Child<Uuid>>,
                               table: seq<Neighbor<Uuid>>)
    requires |nodes| == |rows|
    reads Orders(nodes)
  {
    forall i :: 0 <= i < |nodes| ==> nodes[i].orders.loaded == LoadedMany(c, RowIds(rows), table, i)
  }

  /** All three edges hold what the plan loads for these rows. */
  ghost predicate EdgesLoaded(nodes: seq<APIKey>, rows: seq<ApiRow>, plan: Children, db: Db)
    requires |nodes| == |rows|
    reads Senders(nodes), Providers(nodes), Orders(nodes)
  {
    && SendersLoaded(nodes, rows, plan.0, db.senders)
    && ProvidersLoaded(nodes, rows, plan.1, db.providers)
    && OrdersLoaded(nodes, rows, plan.2, db.orders)
  }

  lemma NothingLoaded(nodes: seq<APIKey>, rows: seq<ApiRow>, db: Db)
    requires |nodes| == |rows| && Unloaded(nodes)
    ensures SendersLoaded(nodes, rows, None, db.senders) && ProvidersLoaded(nodes, rows, None, db.providers)
    ensures OrdersLoaded(nodes, rows, None, db.orders)
  {
  }

  lemma NoNodes(nodes: seq<APIKey>, rows: seq<ApiRow>, plan: Children, db: Db)
    requires |nodes| == |rows| == 0
    ensures SendersLoaded(nodes, rows, plan.0, db.senders) && ProvidersLoaded(nodes, rows, plan.1, db.providers)
    ensures OrdersLoaded(nodes, rows, plan.2, db.orders)
  {
  }

  method LoadSenderProfile(query: ChildQuery<Uuid>, nodes: seq<APIKey>, rows: seq<ApiRow>, db: Db)
    returns (err: Option<Error>)
    requires |nodes| == |rows| && forall i :: 0 <= i < |nodes| ==> nodes[i].sender.key == rows[i].senderKey
    requires SendersLoaded(nodes, rows, None, db.senders)
    modifies query`keySets, Senders(nodes)`loaded
    ensures err.Some? <==> FirstOccurrences(SenderKeys(rows)) != [] && SenderProfiles in db.down
    ensures err.None? ==> SendersLoaded(nodes, rows, Some(old(query.Current())), db.senders)
    ensures query.Current() == AfterRun(old(query.Current()), FirstOccurrences(SenderKeys(rows)))
  {
    assert Keys(Senders(nodes)) == SenderKeys(rows);
    err := LoadToOne(query, Senders(nodes), db.senders, SenderProfiles in db.down);
    NeverStray(old(query.Current()), db.senders, FirstOccurrences(SenderKeys(rows)));
    NoKeyNoPick(SenderKeys(rows), old(query.Current()), db.senders);
    assert forall i :: 0 <= i < |nodes| ==> Senders(nodes)[i] == nodes[i].sender;
  }

  method LoadProviderProfile(query: ChildQuery<string>, nodes: seq<APIKey>, rows: seq<ApiRow>, db: Db,
                             ghost senders: Option<Child<Uuid>>)
    returns (err: Option<Error>)
    requires |nodes| == |rows| && forall i :: 0 <= i < |nodes| ==> nodes[i].provider.key == rows[i].providerKey
    requires ProvidersLoaded(nodes, rows, None, db.providers)
    requires SendersLoaded(nodes, rows, senders, db.senders)
    modifies query`keySets, Providers(nodes)`loaded
    ensures err.Some? <==> FirstOccurrences(ProviderKeys(rows)) != [] && ProviderProfiles in db.down
    ensures err.None? ==> ProvidersLoaded(nodes, rows, Some(old(query.Current())), db.providers)
    ensures query.Current() == AfterRun(old(query.Current()), FirstOccurrences(ProviderKeys(rows)))
    ensures SendersLoaded(nodes, rows, senders, db.senders)
  {
    assert Keys(Providers(nodes)) == ProviderKeys(rows);
    SendersApart(nodes, query);
    err := LoadToOne(query, Providers(nodes), db.providers, ProviderProfiles in db.down);
    NeverStray(old(query.Current()), db.providers, FirstOccurrences(ProviderKeys(rows)));
    NoKeyNoPick(ProviderKeys(rows), old(query.Current()), db.providers);
    assert forall i :: 0 <= i < |nodes| ==> Providers(nodes)[i] == nodes[i].provider;
  }

  method LoadPaymentOrders(query: ChildQuery<Uuid>, nodes: seq<APIKey>, rows: seq<ApiRow>, db: Db,
                           ghost senders: Option<Child<Uuid>>, ghost providers: Option<Child<string>>)
    returns (err: Option<Error>)
    requires |nodes| == |rows| && forall i :: 0 <= i < |nodes| ==> nodes[i].orders.id == rows[i].id
    requires DistinctSlots(Orders(nodes))
    requires SendersLoaded(nodes, rows, senders, db.senders) && ProvidersLoaded(nodes, rows, providers, db.providers)
    modifies query`keySets, query`withFKs, Orders(nodes)`loaded
    ensures err.Some? <==> PaymentOrders in db.down
    ensures err.None? ==> OrdersLoaded(nodes, rows, Some(old(query.Current())), db.orders)
    ensures query.Current() == Narrow(old(query.Current()), RowIds(rows)).(withFKs := true)
    ensures SendersLoaded(nodes, rows, senders, db.senders) && ProvidersLoaded(nodes, rows, providers, db.providers)
  {
    OrdersApart(nodes, query);
    hide OrdersLoaded, Narrow;
    err := LoadOrders(query, nodes, rows, db);
  }

  method LoadOrders(query: ChildQuery<Uuid>, nodes: seq<APIKey>, rows: seq<ApiRow>, db: Db) returns (err: Option<Error>)
    requires |nodes| == |rows| && forall i :: 0 <= i < |nodes| ==> nodes[i].orders.id == rows[i].id
    requires DistinctSlots(Orders(nodes))
    modifies query`keySets, query`withFKs, Orders(nodes)`loaded
    ensures err.Some? <==> PaymentOrders in db.down
    ensures err.None? ==> OrdersLoaded(nodes, rows, Some(old(query.Current())), db.orders)
    ensures query.Current() == Narrow(old(query.Current()), RowIds(rows)).(withFKs := true)
  {
    hide Stray, Fetch, Narrow, Bucket;
    assert Ids(Orders(nodes)) == RowIds(rows);
    OrdersFetch(query.Current(), RowIds(rows), db.orders);
    err := LoadToMany(query, Orders(nodes), db.orders, PaymentOrders in db.down);
    assert forall i :: 0 <= i < |nodes| ==> Orders(nodes)[i] == nodes[i].orders;
  }

  /** Asking for the foreign keys as well changes neither the rows fetched nor that each has a wanted key. */
  lemma OrdersFetch(c: Child<Uuid>, ids: seq<Uuid>, table: seq<Neighbor<Uuid>>)
    ensures var d := Narrow(c, ids).(withFKs := true);
            Fetch(d, table) == Fetch(Narrow(c, ids), table) && !Stray(Fetch(d, table), set k | k in ids)
  {
    SameMatching(Narrow(c, ids), Narrow(c, ids).(withFKs := true), table);
    NeverStray(c, table, ids);
  }

  /** Without a single key nothing is picked, whatever the table holds. */
  lemma NoKeyNoPick<K(!new)>(keys: seq<Option<K>>, c: Child<K>, table: seq<Neighbor<K>>)
    ensures FirstOccurrences(keys) == [] ==>
              forall i :: 0 <= i < |keys| ==> LoadedOne(Some(c), keys, table, keys[i]) == None
  {
  }

  /** Slots and queries of different kinds are different objects. */
  lemma SendersApart(nodes: seq<APIKey>, query: ChildQuery<string>)
    ensures forall s :: s in Senders(nodes) ==> s as object != query as object
    ensures forall s, p :: s in Senders(nodes) && p in Providers(nodes) ==> s as object != p as object
  {
  }

  lemma OrdersApart(nodes: seq<APIKey>, query: ChildQuery?<Uuid>)
    ensures forall s :: s in Senders(nodes) ==> s as object? != query as object?
    ensures forall p :: p in Providers(nodes) ==> p as object? != query as object?
    ensures forall s, o :: s in Senders(nodes) && o in Orders(nodes) ==> s as object != o as object
    ensures forall p, o :: p in Providers(nodes) && o in Orders(nodes) ==> p as object != o as object
  {
  }

  // ------------------------------------------------------------------ what the accessors answer

  /**
   A to-one accessor answers not-loaded iff its edge was not requested, and not-found iff it
   was but the row's key is nil or no fetched row has it; else it answers the fetched row.
  */
  ghost predicate ToOneTells<K(!new)>(c: Option<Child<K>>, keys: seq<Option<K>>, table: seq<Neighbor<K>>,
                                      key: Option<K>, r: Result<Neighbor<K>, EdgeError>)
  {
    && (r == Err(NotLoaded) <==> c.None?)
    && (c.Some? ==>
          var fetched := Fetch(Narrow(c.value, FirstOccurrences(keys)), table);
          && (r == Err(NotFound) <==> key.None? || forall n :: n in fetched ==> n.key != key)
          && (r.Ok? ==> r.value in fetched && r.value.key == key))
  }

  lemma EdgeTells<K(!new)>(edge: ToOneEdge<K>, c: Option<Child<K>>, keys: seq<Option<K>>, table: seq<Neighbor<K>>,
                           key: Option<K>)
    requires edge.loaded == LoadedOne(c, keys, table, key)
    ensures ToOneTells(c, keys, table, key, edge.OrErr(c.Some?))
  {
    if c.Some? {
      PickFinds(Fetch(Narrow(c.value, FirstOccurrences(keys)), table), key, None);
    }
  }

  /** For a child query without a limit that was not used before, all of it in terms of the table. */
  lemma {:induction false} FreshTells<K(!new)>(c: Child<K>, keys: seq<Option<K>>, table: seq<Neighbor<K>>,
                                               key: Option<K>, r: Result<Neighbor<K>, EdgeError>)
    requires c.keySets == [] && c.limit.None? && key in keys && ToOneTells(Some(c), keys, table, key, r)
    ensures r == Err(NotFound) <==> key.None? || forall n :: n in table && n.key == key ==> !c.where(n)
    ensures r.Ok? ==> r.value in table && r.value.key == key && c.where(r.value)
  {
    var ids := FirstOccurrences(keys);
    forall n | n in table && n.key == key && key.Some?
      ensures n in Fetch(Narrow(c, ids), table) <==> c.where(n)
    {
      KeptIsWanted(c, table, ids, n);
    }
    assert forall n :: n in Fetch(Narrow(c, ids), table) ==> n in table;
  }

  /** The three accessors of the node of row i. */
  ghost predicate AccessorsTell(node: APIKey, rows: seq<ApiRow>, plan: Children, db: Db, i: nat)
    requires i < |rows|
    reads node.sender, node.provider, node.orders
  {
    && ToOneTells(plan.0, SenderKeys(rows), db.senders, rows[i].senderKey, node.SenderProfileOrErr())
    && ToOneTells(plan.1, ProviderKeys(rows), db.providers, rows[i].providerKey, node.ProviderProfileOrErr())
    && (node.PaymentOrdersOrErr() == Err(NotLoaded) <==> plan.2.None?)
    && (plan.2.Some? ==> node.PaymentOrdersOrErr() == Ok(LoadedMany(plan.2, RowIds(rows), db.orders, i)))
  }

  lemma LoadedTells(nodes: seq<APIKey>, rows: seq<ApiRow>, plan: Children, db: Db, i: nat)
    requires i < |nodes| == |rows| && EdgesLoaded(nodes, rows, plan, db)
    requires nodes[i].loadedTypes == Loaded(plan.0.Some?, plan.1.Some?, plan.2.Some?)
    ensures AccessorsTell(nodes[i], rows, plan, db, i)
  {
    EdgeTells(nodes[i].sender, plan.0, SenderKeys(rows), db.senders, rows[i].senderKey);
    EdgeTells(nodes[i].provider, plan.1, ProviderKeys(rows), db.providers, rows[i].providerKey);
  }

  /** All, for a query without interceptors: what the accessors of the returned nodes answer. */
  method All(query: APIKeyQuery, db: Db) returns (r: Result<seq<APIKey>, Error>)
    requires query.Valid()
    modifies query.withSenderProfile, query.withProviderProfile, query.withPaymentOrders
    ensures r.Ok? ==>
              var rows := Rows(db.apiKeys, query.where, query.offset, query.limit);
              |r.value| == |rows| &&
              forall i :: 0 <= i < |rows| ==>
                query.Shows(r.value[i], rows[i]) && AccessorsTell(r.value[i], rows, old(query.Plan()), db, i)
  {
    ghost var plan := query.Plan();
    hide EdgesLoaded, AccessorsTell, Rows, LoadFails;
    r := query.SqlAll(db);
    if r.Ok? {
      ghost var rows := Rows(db.apiKeys, query.where, query.offset, query.limit);
      forall i | 0 <= i < |rows|
        ensures AccessorsTell(r.value[i], rows, plan, db, i)
      {
        LoadedTells(r.value, rows, plan, db, i);
      }
    }
  }

  /**
   The edges of the returned nodes are what separate lookups would give exactly when, edge by
   edge, no wanted row is kept out by an earlier run or cut off by a limit on the child query.
  */
  lemma LoadedIsLookup(rows: seq<ApiRow>, c: Child<Uuid>, p: Child<string>, o: Child<Uuid>, db: Db)
    requires PrimaryKeys(db.senders) && PrimaryKeys(db.providers) && Distinct(RowIds(rows))
    ensures var ids := FirstOccurrences(SenderKeys(rows));
            (forall i :: 0 <= i < |rows| ==>
               Lookup(c, db.senders, rows[i].senderKey,
                      LoadedOne(Some(c), SenderKeys(rows), db.senders, rows[i].senderKey))) <==>
            Kept(c, db.senders, ids) && Uncut(c, db.senders, ids)
    ensures var ids := FirstOccurrences(ProviderKeys(rows));
            (forall i :: 0 <= i < |rows| ==>
               Lookup(p, db.providers, rows[i].providerKey,
                      LoadedOne(Some(p), ProviderKeys(rows), db.providers, rows[i].providerKey))) <==>
            Kept(p, db.providers, ids) && Uncut(p, db.providers, ids)
    ensures (forall i :: 0 <= i < |rows| ==>
               LoadedMany(Some(o), RowIds(rows), db.orders, i) == LookupAll(o, db.orders, rows[i].id)) <==>
            Kept(o, db.orders, RowIds(rows)) && Uncut(o, db.orders, RowIds(rows))
  {
    ToOneIsLookup(SenderKeys(rows), c, db.senders);
    ToOneIsLookup(ProviderKeys(rows), p, db.providers);
    ToManyIsLookup(RowIds(rows), o, db.orders);
    hide LoadedOne, LoadedMany, Kept, Uncut, Lookup, LookupAll;
  }

  lemma ToOneIsLookup<K(!new)>(keys: seq<Option<K>>, c: Child<K>, table: seq<Neighbor<K>>)
    requires PrimaryKeys(table)
    ensures (forall i :: 0 <= i < |keys| ==> Lookup(c, table, keys[i], LoadedOne(Some(c), keys, table, keys[i]))) <==>
            Kept(c, table, FirstOccurrences(keys)) && Uncut(c, table, FirstOccurrences(keys))
  {
    JoinIsLookupIff(c, table, keys);
    hide Lookup, Kept, Uncut;
  }

  lemma ToManyIsLookup(ids: seq<Uuid>, o: Child<Uuid>, table: seq<Neighbor<Uuid>>)
    requires Distinct(ids)
    ensures (forall i :: 0 <= i < |ids| ==> LoadedMany(Some(o), ids, table, i) == LookupAll(o, table, ids[i])) <==>
            Kept(o, table, ids) && Uncut(o, table, ids)
  {
    BucketsAreLookupsIff(o, table, ids);
    hide LookupAll, Kept, Uncut;
    forall i | 0 <= i < |ids|
      ensures LoadedMany(Some(o), ids, table, i) == Bucket(Fetch(Narrow(o, ids), table), ids[i])
    {
      LastAtOnly(ids, i);
    }
  }
}
