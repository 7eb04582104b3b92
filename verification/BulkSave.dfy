/**
 What a bulk save means. Each builder's mutator is its hooks wrapped around a closure;
 the closure of builder i fills specs[i] and nodes[i] and then calls the mutator of
 builder i+1, and only the last closure writes. The recursion goes down on the builders
 left, then on the hooks left, then on the actions the running hook has left.
*/
module BulkSave {
  import opened Base
  import opened CreateModel

  /** What a bulk builder fixes before it runs. */
  datatype Bulk = Bulk(
    hooks: seq<seq<Hook>>,
    conflicts: seq<Conflict>,
    conflict: Conflict,
    driver: Driver)

  /** The world and the two slices local to Save. */
  datatype State = State(world: World, specs: seq<Option<Spec>>, nodes: seq<Option<Node>>)

  predicate Shape(b: Bulk, st: State) {
    && |b.hooks| == |b.conflicts| == |st.world.current| == |st.specs| == |st.nodes|
    && forall j :: 0 <= j < |st.world.current| ==> st.world.current[j] < |st.world.store|
  }

  /** What any stretch of execution that starts at builder i leaves alone. */
  predicate Keeps(b: Bulk, i: nat, st: State, st': State)
    requires Shape(b, st) && i <= |b.hooks|
  {
    && Shape(b, st')
    && |st'.world.store| == |st.world.store|
    && st.specs[..i] == st'.specs[..i]
    && st.nodes[..i] == st'.nodes[..i]
    && st.world.current[..i] == st'.world.current[..i]
    && st.world.log <= st'.world.log
    && st.world.rows <= st'.world.rows
  }

  function LogEvent(st: State, e: Event): State {
    st.(world := Record(st.world, e))
  }

  /** `mutators[i].Mutate(ctx, arg)` as seen from inside its first k hooks. */
  function Mutate(b: Bulk, i: nat, k: nat, arg: Arg, st: State): (r: (Resp, State))
    requires Shape(b, st) && i < |b.hooks| && k <= |b.hooks[i]|
    ensures Keeps(b, i, st, r.1)
    decreases |b.hooks| - i, |b.hooks[i]| - k, 1, 0
  {
    if k == |b.hooks[i]| then
      Closure(b, i, arg, st)
    else
      var st1 := LogEvent(st, Enter(i, k));
      RunHook(b, i, k, arg, b.hooks[i][k].budget(arg, st1.world), None, st1)
  }

  /** Hook k of builder i with `left` actions to go. */
  function RunHook(b: Bulk, i: nat, k: nat, arg: Arg, left: nat, last: Option<Resp>, st: State): (r: (Resp, State))
    requires Shape(b, st) && i < |b.hooks| && k < |b.hooks[i]|
    ensures Keeps(b, i, st, r.1)
    decreases |b.hooks| - i, |b.hooks[i]| - k, 0, left
  {
    if left == 0 then
      (b.hooks[i][k].finish(arg, last, st.world), LogEvent(st, Leave(i, k)))
    else
      var (last1, st1) := Step(b, i, k, arg, left, last, st);
      RunHook(b, i, k, arg, left - 1, last1, st1)
  }

  /** One action of a hook; the answer of next replaces the last one. */
  function Step(b: Bulk, i: nat, k: nat, arg: Arg, left: nat, last: Option<Resp>, st: State): (r: (Option<Resp>, State))
    requires Shape(b, st) && i < |b.hooks| && k < |b.hooks[i]| && left > 0
    ensures Keeps(b, i, st, r.1)
    decreases |b.hooks| - i, |b.hooks[i]| - k, 0, left - 1
  {
    match b.hooks[i][k].act(arg, left, last, st.world)
    case Edit(ref, change) =>
      (last, st.(world := ApplyEdit(st.world, ref, change)))
    case Next(a) =>
      var (resp, st1) := Mutate(b, i, k + 1, a, st);
      (Some(resp), st1)
  }

  /** The closure of builder i: check, adopt the mutation, fill slot i, go on, mark done. */
  function Closure(b: Bulk, i: nat, arg: Arg, st: State): (r: (Resp, State))
    requires Shape(b, st) && i < |b.hooks|
    ensures Keeps(b, i, st, r.1)
    decreases |b.hooks| - i, 0, 0, 0
  {
    if arg.Foreign? || arg.ref >= |st.world.store| then
      (Failed(UnexpectedMutationType), st)
    else
      var checked := Check(st.world.store[st.world.current[i]].fields);
      if checked.Some? then
        (Failed(checked.value), st)
      else
        var st1 := Adopt(b, i, arg.ref, st);
        var (err, st2) := Descend(b, i, st1);
        if err.Some? then
          (Failed(err.value), st2)
        else
          (Done(ANode(st2.nodes[i].value)), MarkDone(i, arg.ref, st2))
  }

  /** `builder.mutation = mutation; nodes[i], specs[i] = builder.createSpec()` */
  function Adopt(b: Bulk, i: nat, ref: Ref, st: State): (r: State)
    requires Shape(b, st) && i < |b.hooks| && ref < |st.world.store|
    ensures Keeps(b, i, st, r) && r.nodes[i].Some? && r.specs[i].Some?
  {
    var f := st.world.store[ref].fields;
    State(st.world.(current := st.world.current[i := ref]),
          st.specs[i := Some(SpecOf(f, b.conflicts[i]))],
          st.nodes[i := Some(NodeOf(f))])
  }

  /** The rest of the chain after builder i, or the write if there is none. */
  function Descend(b: Bulk, i: nat, st: State): (r: (Option<Error>, State))
    requires Shape(b, st) && i < |b.hooks|
    ensures Keeps(b, i + 1, st, r.1)
    decreases |b.hooks| - i - 1, if i + 1 < |b.hooks| then |b.hooks[i + 1]| + 1 else 0, 0, 0
  {
    if i + 1 < |b.hooks| then
      var (resp, st1) := Mutate(b, i + 1, 0, Own(st.world.current[i + 1]), st);
      (if resp.Failed? then Some(resp.error) else None, st1)
    else
      var (err, w) := Insert(b.driver, b.conflict, st.specs, st.world);
      (err, st.(world := w))
  }

  /** `mutation.id = &nodes[i].ID; mutation.done = true` */
  function MarkDone(i: nat, ref: Ref, st: State): State
    requires i < |st.nodes| && st.nodes[i].Some? && ref < |st.world.store|
  {
    st.(world := st.world.(store := st.world.store[ref := Saved(st.world.store[ref], st.nodes[i].value.id)]))
  }

  /** `builder.defaults()` for builders 0..upto, each with its own new id. */
  function Defaults(w: World, newIds: seq<Uuid>, upto: nat): (r: World)
    requires upto <= |w.current| && |newIds| == |w.current|
    requires forall j :: 0 <= j < |w.current| ==> w.current[j] < |w.store|
    ensures |r.store| == |w.store| && r.(store := w.store) == w
  {
    if upto == 0 then w
    else
      var w1 := Defaults(w, newIds, upto - 1);
      var ref := w.current[upto - 1];
      w1.(store := w1.store[ref := WithDefaults(w1.store[ref], newIds[upto - 1])])
  }

  predicate CanSave(b: Bulk, newIds: seq<Uuid>, w: World) {
    && |b.hooks| == |b.conflicts| == |w.current| == |newIds|
    && forall j :: 0 <= j < |w.current| ==> w.current[j] < |w.store|
  }

  /** The state in which the first mutator is called. */
  function Start(b: Bulk, newIds: seq<Uuid>, w: World): (r: State)
    requires CanSave(b, newIds, w)
    ensures Shape(b, r)
  {
    var n := |b.hooks|;
    State(Defaults(w, newIds, n), seq(n, _ => None), seq(n, _ => None))
  }

  /** APIKeyCreateBulk.Save on a bulk builder whose own err field is nil. */
  function Save(b: Bulk, newIds: seq<Uuid>, w: World): (r: (Result<seq<Option<Node>>, Error>, World))
    requires CanSave(b, newIds, w)
  {
    var st := Start(b, newIds, w);
    if |b.hooks| == 0 then
      (Ok(st.nodes), st.world)
    else
      var (resp, st1) := Mutate(b, 0, 0, Own(st.world.current[0]), st);
      (if resp.Failed? then Err(resp.error) else Ok(st1.nodes), st1.world)
  }
}
