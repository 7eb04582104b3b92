/**
 APIKeyCreateBulk as the object it is: `Save` allocates the specs and nodes arrays, and
 the mutators fill them in place and move the builders' mutation pointers. Go keeps the
 mutators as closures; here a mutator is named by its builder and the hooks already
 entered, and each method is proved equal to its meaning in BulkSave.
*/
module BulkBuilder {
  import opened Base
  import opened CreateModel
  import BulkSave

  class APIKeyCreateBulk {
    const hooks: seq<seq<Hook>>
    const conflicts: seq<Conflict>
    const driver: Driver
    var conflict: Conflict
    var err: Option<Error>

    // The mutation objects, the builders' pointers to them, the table and the history.
    var store: seq<Mutation>
    var current: seq<Ref>
    var rows: seq<Spec>
    var log: seq<Event>

    constructor (hooks: seq<seq<Hook>>, conflicts: seq<Conflict>, driver: Driver, w: World)
      requires |hooks| == |conflicts| == |w.current|
      requires forall j :: 0 <= j < |w.current| ==> w.current[j] < |w.store|
      ensures this.hooks == hooks && this.conflicts == conflicts && this.driver == driver
      ensures conflict == [] && err == None
      ensures CurrentWorld() == w && Valid()
    {
      this.hooks, this.conflicts, this.driver := hooks, conflicts, driver;
      conflict, err := [], None;
      store, current, rows, log := w.store, w.current, w.rows, w.log;
    }

    ghost predicate Valid()
      reads this
    {
      && |hooks| == |conflicts| == |current|
      && forall j :: 0 <= j < |current| ==> current[j] < |store|
    }

    function CurrentWorld(): World
      reads this
    {
      World(store, current, rows, log)
    }

    ghost function Config(): BulkSave.Bulk
      reads this
    {
      BulkSave.Bulk(hooks, conflicts, conflict, driver)
    }

    ghost function StateOf(specs: array<Option<Spec>>, nodes: array<Option<Node>>): BulkSave.State
      reads this, specs, nodes
    {
      BulkSave.State(CurrentWorld(), specs[..], nodes[..])
    }

    ghost predicate Ready(specs: array<Option<Spec>>, nodes: array<Option<Node>>)
      reads this, specs, nodes
    {
      && Valid()
      && specs as object != nodes as object
      && BulkSave.Shape(Config(), StateOf(specs, nodes))
    }

    method Save(newIds: seq<Uuid>) returns (r: Result<seq<Option<Node>>, Error>)
      requires Valid() && |newIds| == |hooks|
      modifies this
      ensures Valid() && err == old(err) && conflict == old(conflict)
      ensures err.Some? ==> r == Err(err.value) && CurrentWorld() == old(CurrentWorld())
      ensures err.None? ==> (r, CurrentWorld()) == BulkSave.Save(Config(), newIds, old(CurrentWorld()))
    {
      if err.Some? {
        return Err(err.value);
      }
      var n := |hooks|;
      var specs := new Option<Spec>[n](_ => None);
      var nodes := new Option<Node>[n](_ => None);
      ghost var w0 := CurrentWorld();
      for i := 0 to n
        invariant Valid() && err == None && conflict == old(conflict)
        invariant CurrentWorld() == BulkSave.Defaults(w0, newIds, i)
        invariant forall j :: 0 <= j < n ==> specs[j] == None && nodes[j] == None
      {
        var ref := current[i];
        store := store[ref := WithDefaults(store[ref], newIds[i])];
      }
      ghost var start := BulkSave.Start(Config(), newIds, w0);
      assert specs[..] == start.specs && nodes[..] == start.nodes;
      assert StateOf(specs, nodes) == start;
      if n > 0 {
        var resp := Mutate(0, 0, Own(current[0]), specs, nodes);
        if resp.Failed? {
          return Err(resp.error);
        }
      }
      return Ok(nodes[..]);
    }

    method Mutate(i: nat, k: nat, arg: Arg, specs: array<Option<Spec>>, nodes: array<Option<Node>>)
      returns (resp: Resp)
      requires Ready(specs, nodes) && i < |hooks| && k <= |hooks[i]|
      modifies this, specs, nodes
      ensures Ready(specs, nodes) && err == old(err) && conflict == old(conflict)
      ensures (resp, StateOf(specs, nodes)) == BulkSave.Mutate(Config(), i, k, arg, old(StateOf(specs, nodes)))
      decreases |hooks| - i, |hooks[i]| - k, 1, 0
    {
      if k == |hooks[i]| {
        resp := Closure(i, arg, specs, nodes);
      } else {
        log := log + [Enter(i, k)];
        var left := hooks[i][k].budget(arg, CurrentWorld());
        resp := RunHook(i, k, arg, left, None, specs, nodes);
      }
    }

    method RunHook(i: nat, k: nat, arg: Arg, left: nat, last: Option<Resp>,
                   specs: array<Option<Spec>>, nodes: array<Option<Node>>)
      returns (resp: Resp)
      requires Ready(specs, nodes) && i < |hooks| && k < |hooks[i]|
      modifies this, specs, nodes
      ensures Ready(specs, nodes) && err == old(err) && conflict == old(conflict)
      ensures (resp, StateOf(specs, nodes)) ==
              BulkSave.RunHook(Config(), i, k, arg, left, last, old(StateOf(specs, nodes)))
      decreases |hooks| - i, |hooks[i]| - k, 0, left
    {
      if left == 0 {
        resp := hooks[i][k].finish(arg, last, CurrentWorld());
        log := log + [Leave(i, k)];
      } else {
        var last1 := Step(i, k, arg, left, last, specs, nodes);
        resp := RunHook(i, k, arg, left - 1, last1, specs, nodes);
      }
    }

    method Step(i: nat, k: nat, arg: Arg, left: nat, last: Option<Resp>,
                specs: array<Option<Spec>>, nodes: array<Option<Node>>)
      returns (last1: Option<Resp>)
      requires Ready(specs, nodes) && i < |hooks| && k < |hooks[i]| && left > 0
      modifies this, specs, nodes
      ensures Ready(specs, nodes) && err == old(err) && conflict == old(conflict)
      ensures (last1, StateOf(specs, nodes)) ==
              BulkSave.Step(Config(), i, k, arg, left, last, old(StateOf(specs, nodes)))
      decreases |hooks| - i, |hooks[i]| - k, 0, left - 1
    {
      match hooks[i][k].act(arg, left, last, CurrentWorld())
      case Edit(ref, change) =>
        if ref < |store| {
          store := store[ref := store[ref].(fields := change(store[ref].fields))];
        }
        return last;
      case Next(a) =>
        var answer := Mutate(i, k + 1, a, specs, nodes);
        return Some(answer);
    }

    method Closure(i: nat, arg: Arg, specs: array<Option<Spec>>, nodes: array<Option<Node>>)
      returns (resp: Resp)
      requires Ready(specs, nodes) && i < |hooks|
      modifies this, specs, nodes
      ensures Ready(specs, nodes) && err == old(err) && conflict == old(conflict)
      ensures (resp, StateOf(specs, nodes)) == BulkSave.Closure(Config(), i, arg, old(StateOf(specs, nodes)))
      decreases |hooks| - i, 0, 0, 0
    {
      if arg.Foreign? || arg.ref >= |store| {
        return Failed(UnexpectedMutationType);
      }
      var checked := Check(store[current[i]].fields);
      if checked.Some? {
        return Failed(checked.value);
      }
      Adopt(i, arg.ref, specs, nodes);
      ghost var adopted := StateOf(specs, nodes);
      var failure := Descend(i, specs, nodes);
      assert nodes[..][i] == adopted.nodes[..i + 1][i];
      if failure.Some? {
        return Failed(failure.value);
      }
      store := store[arg.ref := Saved(store[arg.ref], nodes[i].value.id)];
      return Done(ANode(nodes[i].value));
    }

    method Adopt(i: nat, ref: Ref, specs: array<Option<Spec>>, nodes: array<Option<Node>>)
      requires Ready(specs, nodes) && i < |hooks| && ref < |store|
      modifies this, specs, nodes
      ensures Ready(specs, nodes) && err == old(err) && conflict == old(conflict)
      ensures StateOf(specs, nodes) == BulkSave.Adopt(Config(), i, ref, old(StateOf(specs, nodes)))
    {
      var f := store[ref].fields;
      current := current[i := ref];
      specs[i] := Some(SpecOf(f, conflicts[i]));
      nodes[i] := Some(NodeOf(f));
    }

    method Descend(i: nat, specs: array<Option<Spec>>, nodes: array<Option<Node>>)
      returns (failure: Option<Error>)
      requires Ready(specs, nodes) && i < |hooks|
      modifies this, specs, nodes
      ensures Ready(specs, nodes) && err == old(err) && conflict == old(conflict)
      ensures (failure, StateOf(specs, nodes)) == BulkSave.Descend(Config(), i, old(StateOf(specs, nodes)))
      decreases |hooks| - i - 1, if i + 1 < |hooks| then |hooks[i + 1]| + 1 else 0, 0, 0
    {
      failure := None;
      if i + 1 < |hooks| {
        var answer := Mutate(i + 1, 0, Own(current[i + 1]), specs, nodes);
        if answer.Failed? {
          failure := Some(answer.error);
        }
      } else {
        var (e, w) := Insert(driver, conflict, specs[..], CurrentWorld());
        rows, log, failure := w.rows, w.log, e;
      }
    }
  }
}
