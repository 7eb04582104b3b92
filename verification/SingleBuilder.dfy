/** APIKeyCreate as the object it is: Save, withHooks and sqlSave update its state in place. */
module SingleBuilder {
  import opened Base
  import opened CreateModel
  import SingleSave

  class APIKeyCreate {
    const hooks: seq<Hook>
    const driver: Driver
    const mutation: Ref
    var conflict: Conflict

    var store: seq<Mutation>
    var rows: seq<Spec>
    var log: seq<Event>

    constructor (hooks: seq<Hook>, driver: Driver, w: World)
      requires SingleSave.Ready(w)
      ensures this.hooks == hooks && this.driver == driver && conflict == []
      ensures Valid() && CurrentWorld() == w
    {
      this.hooks, this.driver, conflict := hooks, driver, [];
      mutation, store, rows, log := w.current[0], w.store, w.rows, w.log;
    }

    ghost predicate Valid()
      reads this
    {
      mutation < |store|
    }

    function CurrentWorld(): World
      reads this
    {
      World(store, [mutation], rows, log)
    }

    ghost function Config(): SingleSave.Single
      reads this
    {
      SingleSave.Single(hooks, conflict, driver)
    }

    /** OnConflict replaces the options that the next Save sends along. */
    method OnConflict(opts: Conflict)
      requires Valid()
      modifies this
      ensures Valid() && CurrentWorld() == old(CurrentWorld())
      ensures Config() == old(Config()).(conflict := opts)
    {
      conflict := opts;
    }

    method Save(newId: Uuid) returns (r: Result<Node, Error>)
      requires Valid()
      modifies this
      ensures Valid() && Config() == old(Config())
      ensures (r, CurrentWorld()) == SingleSave.Save(Config(), newId, old(CurrentWorld()))
    {
      store := store[mutation := WithDefaults(store[mutation], newId)];
      var resp;
      if hooks == [] {
        resp := SqlSave();
      } else {
        resp := Mutate(0, Own(mutation));
      }
      match resp
      case Failed(e) => return Err(e);
      case Done(ANode(n)) => return Ok(n);
      case Done(NotANode) => return Err(UnexpectedNodeType);
    }

    method SqlSave() returns (resp: Resp)
      requires Valid()
      modifies this
      ensures Valid() && Config() == old(Config())
      ensures (resp, CurrentWorld()) == SingleSave.SqlSave(Config(), old(CurrentWorld()))
    {
      var f := store[mutation].fields;
      var checked := Check(f);
      if checked.Some? {
        return Failed(checked.value);
      }
      var node := NodeOf(f);
      var (err, w) := Insert(driver, conflict, [Some(SpecOf(f, conflict))], CurrentWorld());
      rows, log := w.rows, w.log;
      if err.Some? {
        return Failed(err.value);
      }
      store := store[mutation := Saved(store[mutation], node.id)];
      return Done(ANode(node));
    }

    method Mutate(k: nat, arg: Arg) returns (resp: Resp)
      requires Valid() && k <= |hooks|
      modifies this
      ensures Valid() && Config() == old(Config())
      ensures (resp, CurrentWorld()) == SingleSave.Mutate(Config(), k, arg, old(CurrentWorld()))
      decreases |hooks| - k, 1, 0
    {
      if k < |hooks| {
        log := log + [Enter(0, k)];
        var left := hooks[k].budget(arg, CurrentWorld());
        resp := RunHook(k, arg, left, None);
      } else if arg.Foreign? || arg.ref >= |store| {
        resp := Failed(UnexpectedMutationType);
      } else {
        store := store[mutation := store[arg.ref]];
        resp := SqlSave();
      }
    }

    method RunHook(k: nat, arg: Arg, left: nat, last: Option<Resp>) returns (resp: Resp)
      requires Valid() && k < |hooks|
      modifies this
      ensures Valid() && Config() == old(Config())
      ensures (resp, CurrentWorld()) ==
              SingleSave.RunHook(Config(), k, arg, left, last, old(CurrentWorld()))
      decreases |hooks| - k, 0, left
    {
      if left == 0 {
        resp := hooks[k].finish(arg, last, CurrentWorld());
        log := log + [Leave(0, k)];
      } else {
        match hooks[k].act(arg, left, last, CurrentWorld())
        case Edit(ref, change) =>
          if ref < |store| {
            store := store[ref := store[ref].(fields := change(store[ref].fields))];
          }
          resp := RunHook(k, arg, left - 1, last);
        case Next(a) =>
          var answer := Mutate(k + 1, a);
          resp := RunHook(k, arg, left - 1, Some(answer));
      }
    }
  }
}
