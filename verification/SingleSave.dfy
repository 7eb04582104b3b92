/**
 APIKeyCreate.Save: defaults, then withHooks around sqlSave. Here the mutation that arrives
 is copied over the builder's own before the check, where a bulk builder adopts the pointer
 after it. A bulk save of one builder refines this as long as no hook swaps mutations.
*/
module SingleSave {
  import opened Base
  import opened CreateModel
  import B = BulkSave
  import BulkSafety
  import BulkAtomic
  import BulkScript

  /** A create builder; its mutation is the one at world.current[0]. */
  datatype Single = Single(hooks: seq<Hook>, conflict: Conflict, driver: Driver)

  predicate Ready(w: World) {
    |w.current| == 1 && w.current[0] < |w.store|
  }

  predicate Keeps(w: World, w': World) {
    Ready(w') && w'.current == w.current && |w'.store| == |w.store|
  }

  /** Check, createSpec, CreateNode, then set id and done on the builder's mutation. */
  function SqlSave(s: Single, w: World): (r: (Resp, World))
    requires Ready(w)
    ensures Keeps(w, r.1)
  {
    var f := w.store[w.current[0]].fields;
    var checked := Check(f);
    if checked.Some? then (Failed(checked.value), w)
    else
      var (err, w1) := Insert(s.driver, s.conflict, [Some(SpecOf(f, s.conflict))], w);
      if err.Some? then (Failed(err.value), w1)
      else
        var node := NodeOf(f);
        (Done(ANode(node)),
         w1.(store := w1.store[w1.current[0] := Saved(w1.store[w1.current[0]], node.id)]))
  }

  /** The innermost mutator of withHooks: copy the mutation over, then run sqlSave. */
  function Exec(s: Single, arg: Arg, w: World): (r: (Resp, World))
    requires Ready(w)
    ensures Keeps(w, r.1)
  {
    if arg.Foreign? || arg.ref >= |w.store| then (Failed(UnexpectedMutationType), w)
    else SqlSave(s, w.(store := w.store[w.current[0] := w.store[arg.ref]]))
  }

  function Mutate(s: Single, k: nat, arg: Arg, w: World): (r: (Resp, World))
    requires Ready(w) && k <= |s.hooks|
    ensures Keeps(w, r.1)
    decreases |s.hooks| - k, 1, 0
  {
    if k == |s.hooks| then Exec(s, arg, w)
    else
      var w1 := Record(w, Enter(0, k));
      RunHook(s, k, arg, s.hooks[k].budget(arg, w1), None, w1)
  }

  function RunHook(s: Single, k: nat, arg: Arg, left: nat, last: Option<Resp>, w: World): (r: (Resp, World))
    requires Ready(w) && k < |s.hooks|
    ensures Keeps(w, r.1)
    decreases |s.hooks| - k, 0, left
  {
    if left == 0 then
      (s.hooks[k].finish(arg, last, w), Record(w, Leave(0, k)))
    else
      match s.hooks[k].act(arg, left, last, w)
      case Edit(ref, change) =>
        RunHook(s, k, arg, left - 1, last, ApplyEdit(w, ref, change))
      case Next(a) =>
        var (resp, w1) := Mutate(s, k + 1, a, w);
        RunHook(s, k, arg, left - 1, Some(resp), w1)
  }

  /** withHooks: without hooks the operation runs at once; else the value must be a node. */
  function WithHooks(s: Single, w: World): (r: (Result<Node, Error>, World))
    requires Ready(w)
    ensures Keeps(w, r.1)
  {
    var (resp, w1) :=
      if s.hooks == [] then SqlSave(s, w) else Mutate(s, 0, Own(w.current[0]), w);
    match resp
    case Failed(e) => (Err(e), w1)
    case Done(ANode(n)) => (Ok(n), w1)
    case Done(NotANode) => (Err(UnexpectedNodeType), w1)
  }

  function Save(s: Single, newId: Uuid, w: World): (Result<Node, Error>, World)
    requires Ready(w)
  {
    var ref := w.current[0];
    WithHooks(s, w.(store := w.store[ref := WithDefaults(w.store[ref], newId)]))
  }

  /** The bulk builder of one that has the same hooks, options and database. */
  function AsBulk(s: Single): B.Bulk {
    B.Bulk([s.hooks], [s.conflict], s.conflict, s.driver)
  }

  ghost predicate SameStep(s: Single, home: seq<Ref>, w: World, st: B.State) {
    && BulkSafety.NoSwap(AsBulk(s), home)
    && Ready(w) && w.current == home && st.world == w && B.Shape(AsBulk(s), st)
  }

  lemma {:induction false} MutateAgrees(s: Single, home: seq<Ref>, k: nat, arg: Arg, w: World, st: B.State)
    requires SameStep(s, home, w, st) && k <= |s.hooks|
    requires arg.Own? ==> arg.ref == home[0]
    ensures var (resp, w') := Mutate(s, k, arg, w);
            var (resp', st') := B.Mutate(AsBulk(s), 0, k, arg, st);
            resp == resp' && w' == st'.world
    decreases |s.hooks| - k, 1, 0
  {
    if k == |s.hooks| {
      ExecAgrees(s, home, arg, w, st);
    } else {
      var w1 := Record(w, Enter(0, k));
      RunHookAgrees(s, home, k, arg, s.hooks[k].budget(arg, w1), None, w1, B.LogEvent(st, Enter(0, k)));
    }
  }

  lemma {:induction false} RunHookAgrees(s: Single, home: seq<Ref>, k: nat, arg: Arg, left: nat,
                                         last: Option<Resp>, w: World, st: B.State)
    requires SameStep(s, home, w, st) && k < |s.hooks|
    ensures var (resp, w') := RunHook(s, k, arg, left, last, w);
            var (resp', st') := B.RunHook(AsBulk(s), 0, k, arg, left, last, st);
            resp == resp' && w' == st'.world
    decreases |s.hooks| - k, 0, left
  {
    if left > 0 {
      BulkSafety.PassesHome(AsBulk(s), true, home, 0, k, arg, left, last, w);
      var (last1, st1) := B.Step(AsBulk(s), 0, k, arg, left, last, st);
      match s.hooks[k].act(arg, left, last, w)
      case Edit(ref, change) =>
        RunHookAgrees(s, home, k, arg, left - 1, last, ApplyEdit(w, ref, change), st1);
      case Next(a) =>
        MutateAgrees(s, home, k + 1, a, w, st);
        var (resp, w1) := Mutate(s, k + 1, a, w);
        RunHookAgrees(s, home, k, arg, left - 1, Some(resp), w1, st1);
    }
  }

  lemma ExecAgrees(s: Single, home: seq<Ref>, arg: Arg, w: World, st: B.State)
    requires SameStep(s, home, w, st)
    requires arg.Own? ==> arg.ref == home[0]
    ensures var (resp, w') := Exec(s, arg, w);
            var (resp', st') := B.Closure(AsBulk(s), 0, arg, st);
            resp == resp' && w' == st'.world
  {
    if arg.Own? && arg.ref < |w.store| {
      assert w.(store := w.store[w.current[0] := w.store[arg.ref]]) == w;
      var f := w.store[home[0]].fields;
      assert B.Adopt(AsBulk(s), 0, arg.ref, st).specs == [Some(SpecOf(f, s.conflict))];
      assert B.Adopt(AsBulk(s), 0, arg.ref, st).world == w;
    }
  }

  /** The same error, but for the one that only a single save has: a hook answering with no node. */
  ghost predicate SameError(one: Result<Node, Error>, many: Result<seq<Option<Node>>, Error>) {
    && (many.Err? ==> one == Err(many.error))
    && (one.Err? && many.Ok? ==> one == Err(UnexpectedNodeType))
  }

  /** A bulk save of one builder does to the world exactly what a single save does, and fails alike. */
  ghost predicate Refines(s: Single, newId: Uuid, w: World)
    requires Ready(w)
  {
    var (one, w1) := Save(s, newId, w);
    var (many, w2) := B.Save(AsBulk(s), [newId], w);
    w1 == w2 && SameError(one, many)
  }

  /** All that callers can see of it: the same rows and errors. */
  ghost predicate SameRows(s: Single, newId: Uuid, w: World)
    requires Ready(w)
  {
    var (one, w1) := Save(s, newId, w);
    var (many, w2) := B.Save(AsBulk(s), [newId], w);
    w1.rows == w2.rows && SameError(one, many)
  }

  /** For all hooks that never swap the mutation, the bulk save of one builder refines the single save. */
  lemma BulkOfOneRefinesSave(s: Single, newId: Uuid, w: World)
    requires Ready(w) && BulkSafety.NoSwap(AsBulk(s), w.current)
    ensures Refines(s, newId, w) && SameRows(s, newId, w)
  {
    var b := AsBulk(s);
    var st := B.Start(b, [newId], w);
    assert B.Defaults(w, [newId], 0) == w;
    MutateAgrees(s, w.current, 0, Own(w.current[0]), st.world, st);
    if s.hooks == [] {
      assert st.world.(store := st.world.store[w.current[0] := st.world.store[w.current[0]]]) == st.world;
    }
  }

  // ------------------------------------------------------------------ the condition is exact

  /** Every row added between the two worlds passed the check. */
  ghost predicate AddsValidRows(a: World, z: World) {
    a.rows <= z.rows && forall m :: |a.rows| <= m < |z.rows| ==> ValidRow(z.rows[m])
  }

  lemma {:induction false} MutateAddsValidRows(s: Single, k: nat, arg: Arg, w: World)
    requires Ready(w) && k <= |s.hooks|
    ensures AddsValidRows(w, Mutate(s, k, arg, w).1)
    decreases |s.hooks| - k, 1, 0
  {
    if k < |s.hooks| {
      var w1 := Record(w, Enter(0, k));
      RunHookAddsValidRows(s, k, arg, s.hooks[k].budget(arg, w1), None, w1);
    }
  }

  lemma {:induction false} RunHookAddsValidRows(s: Single, k: nat, arg: Arg, left: nat, last: Option<Resp>, w: World)
    requires Ready(w) && k < |s.hooks|
    ensures AddsValidRows(w, RunHook(s, k, arg, left, last, w).1)
    decreases |s.hooks| - k, 0, left
  {
    if left > 0 {
      match s.hooks[k].act(arg, left, last, w)
      case Edit(ref, change) =>
        RunHookAddsValidRows(s, k, arg, left - 1, last, ApplyEdit(w, ref, change));
      case Next(a) =>
        MutateAddsValidRows(s, k + 1, a, w);
        var (resp, w1) := Mutate(s, k + 1, a, w);
        RunHookAddsValidRows(s, k, arg, left - 1, Some(resp), w1);
    }
  }

  /** A single save checks what it copied, so whatever its hooks do, swaps included, it stores only valid rows. */
  lemma SingleRowsAreValid(s: Single, newId: Uuid, w: World)
    requires Ready(w)
    ensures AddsValidRows(w, Save(s, newId, w).1)
  {
    var ref := w.current[0];
    var w1 := w.(store := w.store[ref := WithDefaults(w.store[ref], newId)]);
    if s.hooks != [] {
      MutateAddsValidRows(s, 0, Own(ref), w1);
    }
  }

  /** Every save of this builder whose hooks pass on only mutations ref with passes(ref) has the property. */
  ghost predicate Always(home: Ref, passes: Ref -> bool, strict: bool) {
    forall s: Single, newId: Uuid, w: World ::
      Ready(w) && w.current == [home] && BulkSafety.Passes(AsBulk(s), (i: nat, ref: Ref) => passes(ref)) ==>
        if strict then Refines(s, newId, w) else SameRows(s, newId, w)
  }

  /** The swapping save: its bulk form stores an invalid row, which no single save does. */
  lemma SwapTellsThemApart(home: Ref, ref: Ref, passes: Ref -> bool) returns (s: Single, w: World)
    requires passes(ref) && ref != home
    ensures Ready(w) && w.current == [home] && BulkSafety.Passes(AsBulk(s), (i: nat, r: Ref) => passes(r))
    ensures !SameRows(s, ZERO_UUID, w) && !Refines(s, ZERO_UUID, w)
  {
    var n := home + ref + 1;
    var script := BulkSafety.SwapIn([home], 0, ref);
    s := Single([BulkScript.HookOf(script[0])], [], BulkScript.AcceptAll);
    w := World(BulkScript.GoodStore(n), [home], [], []);
    assert AsBulk(s) == BulkScript.BulkOf(script);
    BulkSafety.SwapIsStored([home], 0, ref, n, [ZERO_UUID]);
    BulkSafety.SwapPasses([home], 0, ref, (i: nat, r: Ref) => passes(r));
    SingleRowsAreValid(s, ZERO_UUID, w);
    hide Save, B.Save;
    var rows := B.Save(AsBulk(s), [ZERO_UUID], w).1.rows;
    assert rows[0..] == rows;
  }

  /**
   Bulk saves of one builder refine single saves, whatever else their hooks do, if and only if
   hooks may pass on nothing but the builder's own mutation; nor is there a weaker condition
   under which they at least store the same rows and fail alike.
  */
  lemma AlwaysRefinesIff(home: Ref, passes: Ref -> bool)
    ensures Always(home, passes, true) <==> forall ref :: passes(ref) ==> ref == home
    ensures Always(home, passes, false) <==> forall ref :: passes(ref) ==> ref == home
  {
    if ref :| passes(ref) && ref != home {
      var s, w := SwapTellsThemApart(home, ref, passes);
      hide Refines, SameRows, BulkSafety.Passes;
      assert !Always(home, passes, true) && !Always(home, passes, false);
    } else {
      forall s: Single, newId: Uuid, w: World |
        Ready(w) && w.current == [home] && BulkSafety.Passes(AsBulk(s), (i: nat, ref: Ref) => passes(ref))
        ensures Refines(s, newId, w) && SameRows(s, newId, w)
      {
        BulkOfOneRefinesSave(s, newId, w);
      }
    }
  }

  // ------------------------------------------------------------------ the node

  /** Hooks that propagate and hand back the very answer of next. */
  ghost predicate HandsBack(b: B.Bulk) {
    BulkAtomic.AllPropagate(b) &&
    forall i, k, arg, resp, w :: 0 <= i < |b.hooks| && 0 <= k < |b.hooks[i]| ==>
      b.hooks[i][k].finish(arg, Some(resp), w) == resp
  }

  /** With hooks that hand back the answer of next, the node is the same too. */
  lemma BulkOfOneReturnsTheNode(s: Single, newId: Uuid, w: World)
    requires Ready(w) && BulkSafety.NoSwap(AsBulk(s), w.current) && HandsBack(AsBulk(s))
    ensures var one := Save(s, newId, w).0;
            var many := B.Save(AsBulk(s), [newId], w).0;
            if many.Ok? then one.Ok? && many.value == [Some(one.value)] else one == Err(many.error)
  {
    var b := AsBulk(s);
    var st := B.Start(b, [newId], w);
    assert B.Defaults(w, [newId], 0) == w;
    MutateAgrees(s, w.current, 0, Own(w.current[0]), st.world, st);
    NodeComesBack(b, 0, Own(w.current[0]), st);
    if s.hooks == [] {
      assert st.world.(store := st.world.store[w.current[0] := st.world.store[w.current[0]]]) == st.world;
    }
  }

  lemma {:induction false} NodeComesBack(b: B.Bulk, k: nat, arg: Arg, st: B.State)
    requires B.Shape(b, st) && |b.hooks| == 1 && k <= |b.hooks[0]| && HandsBack(b)
    ensures var (resp, st') := B.Mutate(b, 0, k, arg, st);
            resp.Done? ==> resp.value.ANode? && st'.nodes == [Some(resp.value.node)]
    decreases |b.hooks[0]| - k, 1, 0
  {
    if k < |b.hooks[0]| {
      var st1 := B.LogEvent(st, Enter(0, k));
      HookReturnsNode(b, k, arg, b.hooks[0][k].budget(arg, st1.world), st1);
    }
  }

  lemma {:induction false} AnswerComesBack(b: B.Bulk, k: nat, arg: Arg, left: nat, resp: Resp, st: B.State)
    requires B.Shape(b, st) && |b.hooks| == 1 && k < |b.hooks[0]| && HandsBack(b)
    ensures B.RunHook(b, 0, k, arg, left, Some(resp), st).0 == resp
    decreases left
  {
    if left > 0 {
      assert BulkAtomic.Propagating(b.hooks[0][k]);
      AnswerComesBack(b, k, arg, left - 1, resp, B.Step(b, 0, k, arg, left, Some(resp), st).1);
    }
  }

  lemma {:induction false} HookReturnsNode(b: B.Bulk, k: nat, arg: Arg, left: nat, st: B.State)
    requires B.Shape(b, st) && |b.hooks| == 1 && k < |b.hooks[0]| && HandsBack(b)
    ensures var (resp, st') := B.RunHook(b, 0, k, arg, left, None, st);
            resp.Done? ==> resp.value.ANode? && st'.nodes == [Some(resp.value.node)]
    decreases |b.hooks[0]| - k, 0, left
  {
    if left == 0 {
      assert BulkAtomic.Propagating(b.hooks[0][k]);
      return;
    }
    var (last1, st1) := B.Step(b, 0, k, arg, left, None, st);
    var a := b.hooks[0][k].act(arg, left, None, st.world);
    hide B.Mutate;
    if a.Next? {
      NodeComesBack(b, k + 1, a.arg, st);
      BulkAtomic.AfterNext(b, 0, k, arg, left - 1, last1.value, st1);
      AnswerComesBack(b, k, arg, left - 1, last1.value, st1);
    } else {
      HookReturnsNode(b, k, arg, left - 1, st1);
    }
  }

  /** The swap a bulk save lets through is refused by a single save, which checks what it copied. */
  lemma SingleSaveRefusesTheSwap()
    ensures var good := Mutation(Fields(None, Some("s"), None, None, {}), false);
            var bad := Mutation(Fields(None, None, None, None, {}), false);
            var (r, z) := Save(Single([BulkSafety.SwapTo(1)], [], BulkScript.AcceptAll), 7,
                               World([good, bad], [0], [], []));
            r == Err(MissingField("secret")) && z.rows == []
  {
  }
}
