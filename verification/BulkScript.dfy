/**
 Bulk saves whose hooks follow a script: each builder has one hook, which may set the secret of
 one mutation and then passes on one mutation. Their runs are known exactly, which is what it
 takes to show that a condition on hooks cannot be relaxed.
*/
module BulkScript {
  import opened Base
  import opened CreateModel
  import opened BulkSave

  datatype Line = Line(edit: Option<(Ref, string)>, pass: Ref)

  /** Return what next returned. */
  function Answer(last: Option<Resp>): Resp {
    if last.Some? then last.value else Failed(HookError(0))
  }

  const AcceptAll: Driver := (rows, batch, conflict) => None

  function SetSecret(secret: string): Fields -> Fields {
    (f: Fields) => f.(secret := Some(secret))
  }

  function HookOf(l: Line): Hook {
    Hook((arg, w) => if l.edit.Some? then 2 else 1,
         (arg, left, last, w) =>
           if l.edit.Some? && left == 2 then Edit(l.edit.value.0, SetSecret(l.edit.value.1)) else Next(Own(l.pass)),
         (arg, last, w) => Answer(last))
  }

  function BulkOf(s: seq<Line>): (b: Bulk)
    ensures |b.hooks| == |b.conflicts| == |s| && b.conflict == [] && b.driver == AcceptAll
    ensures forall x :: 0 <= x < |s| ==> b.hooks[x] == [HookOf(s[x])] && b.conflicts[x] == []
  {
    Bulk(seq(|s|, x requires 0 <= x < |s| => [HookOf(s[x])]), seq(|s|, x => []), [], AcceptAll)
  }

  /** A mutation with an id, which defaults leave alone, and a secret. */
  function Good(secret: string): Mutation {
    Mutation(Fields(Some(ZERO_UUID), Some(secret), None, None, {}), false)
  }

  function GoodStore(n: nat): (r: seq<Mutation>)
    ensures |r| == n && forall x :: 0 <= x < n ==> r[x] == Good("s")
  {
    seq(n, x => Good("s"))
  }

  /** The builders' own mutations, one each. */
  function Homes(n: nat): (r: seq<Ref>)
    ensures |r| == n && forall x :: 0 <= x < n ==> r[x] == x
  {
    seq(n, x requires 0 <= x < n => x)
  }

  function EditStore(store: seq<Mutation>, l: Line): (r: seq<Mutation>)
    ensures |r| == |store|
  {
    if l.edit.Some? && l.edit.value.0 < |store| then
      var m := store[l.edit.value.0];
      store[l.edit.value.0 := m.(fields := m.fields.(secret := Some(l.edit.value.1)))]
    else store
  }

  /** The mutations after the edits of the first n lines. */
  function StoreAt(s: seq<Line>, store: seq<Mutation>, n: nat): (r: seq<Mutation>)
    requires n <= |s|
    ensures |r| == |store|
  {
    if n == 0 then store else EditStore(StoreAt(s, store, n - 1), s[n - 1])
  }

  /** The script stays within the store, and every builder's own mutation passes the check when its turn comes. */
  ghost predicate Playable(s: seq<Line>, home: seq<Ref>, store: seq<Mutation>) {
    && |home| == |s|
    && forall x :: 0 <= x < |s| ==>
         home[x] < |store| && s[x].pass < |store| && Check(StoreAt(s, store, x + 1)[home[x]].fields).None?
  }

  /** The batch: row x is what builder x's line passed on, as it read after the edits up to x. */
  function Batch(s: seq<Line>, store: seq<Mutation>): (r: seq<Option<Spec>>)
    requires forall x :: 0 <= x < |s| ==> s[x].pass < |store|
    ensures |r| == |s| && AllFilled(r)
    ensures forall x :: 0 <= x < |r| ==> r[x] == Some(SpecOf(StoreAt(s, store, x + 1)[s[x].pass].fields, []))
  {
    seq(|s|, x requires 0 <= x < |s| => Some(SpecOf(StoreAt(s, store, x + 1)[s[x].pass].fields, [])))
  }

  function Passed(s: seq<Line>): (r: seq<Ref>)
    ensures |r| == |s| && forall x :: 0 <= x < |r| ==> r[x] == s[x].pass
  {
    seq(|s|, x requires 0 <= x < |s| => s[x].pass)
  }

  /** Where the run stands when builder x's turn comes. */
  ghost predicate Reached(s: seq<Line>, home: seq<Ref>, store: seq<Mutation>, x: nat, st: State)
    requires Playable(s, home, store) && x <= |s|
  {
    InPlace(s, home, store, x, st) && st.world.store == StoreAt(s, store, x)
  }

  /** Builders before x point at what they passed on and have their slot filled. */
  ghost predicate InPlace(s: seq<Line>, home: seq<Ref>, store: seq<Mutation>, x: nat, st: State)
    requires Playable(s, home, store) && x <= |s|
  {
    && Shape(BulkOf(s), st)
    && st.world.current == Passed(s)[..x] + home[x..]
    && st.specs[..x] == Batch(s, store)[..x]
  }

  /** The script's write is in the history. */
  ghost predicate Sent(s: seq<Line>, store: seq<Mutation>, log: seq<Event>)
    requires forall x :: 0 <= x < |s| ==> s[x].pass < |store|
  {
    Write(Batch(s, store), Passed(s), StoreAt(s, store, |s|), true) in log
  }

  /** From builder x's turn on, the run sends the script's batch and stores it. */
  ghost predicate Plays(s: seq<Line>, store: seq<Mutation>, st: State, z: State)
    requires forall x :: 0 <= x < |s| ==> s[x].pass < |store|
  {
    Sent(s, store, z.world.log) && z.world.rows == st.world.rows + Values(Batch(s, store))
  }

  lemma EditLine(b: Bulk, s: seq<Line>, x: nat, arg: Arg, st: State)
    requires b == BulkOf(s) && Shape(b, st) && x < |s|
    ensures var st1 := st.(world := st.world.(store := EditStore(st.world.store, s[x])));
            && Shape(b, st1)
            && RunHook(b, x, 0, arg, if s[x].edit.Some? then 2 else 1, None, st) == RunHook(b, x, 0, arg, 1, None, st1)
  {
    hide Mutate;
    if s[x].edit.Some? {
      assert b.hooks[x][0].act(arg, 2, None, st.world) == Edit(s[x].edit.value.0, SetSecret(s[x].edit.value.1));
    }
  }

  lemma PassLine(b: Bulk, s: seq<Line>, x: nat, arg: Arg, st: State)
    requires b == BulkOf(s) && Shape(b, st) && x < |s|
    ensures RunHook(b, x, 0, arg, 1, None, st).1 == LogEvent(Closure(b, x, Own(s[x].pass), st).1, Leave(x, 0))
  {
    hide Closure;
    var (resp, st1) := Mutate(b, x, 1, Own(s[x].pass), st);
    assert Step(b, x, 0, arg, 1, None, st) == (Some(resp), st1);
  }

  lemma {:induction false} TurnPlays(s: seq<Line>, home: seq<Ref>, store: seq<Mutation>, x: nat, arg: Arg, st: State)
    requires Playable(s, home, store) && x < |s| && Reached(s, home, store, x, st)
    ensures Plays(s, store, st, Mutate(BulkOf(s), x, 0, arg, st).1)
    decreases |s| - x, 2
  {
    var b := BulkOf(s);
    var st1 := LogEvent(st, Enter(x, 0));
    var st2 := st1.(world := st1.world.(store := EditStore(st1.world.store, s[x])));
    EditLine(b, s, x, arg, st1);
    PassLine(b, s, x, arg, st2);
    assert Mutate(b, x, 0, arg, st).1 == LogEvent(Closure(b, x, Own(s[x].pass), st2).1, Leave(x, 0));
    hide Mutate, Closure, RunHook, Batch, Passed, Playable;
    ClosurePlays(s, home, store, x, st2);
  }

  /** The state in which builder x's closure is entered. */
  ghost predicate Edited(s: seq<Line>, home: seq<Ref>, store: seq<Mutation>, x: nat, st: State)
    requires Playable(s, home, store) && x < |s|
  {
    InPlace(s, home, store, x, st) && st.world.store == StoreAt(s, store, x + 1)
  }

  lemma {:induction false} AdoptReaches(s: seq<Line>, home: seq<Ref>, store: seq<Mutation>, x: nat, st: State)
    requires Playable(s, home, store) && x < |s| && Edited(s, home, store, x, st)
    ensures Reached(s, home, store, x + 1, Adopt(BulkOf(s), x, s[x].pass, st))
    ensures st.world.current[x] == home[x] && Check(st.world.store[home[x]].fields).None?
  {
    var st1 := Adopt(BulkOf(s), x, s[x].pass, st);
    assert st1.specs[..x + 1] == st.specs[..x] + [st1.specs[x]];
    assert Batch(s, store)[..x + 1] == Batch(s, store)[..x] + [Batch(s, store)[x]];
    assert st1.world.current == Passed(s)[..x + 1] + home[x + 1..];
  }

  lemma {:induction false} ClosurePlays(s: seq<Line>, home: seq<Ref>, store: seq<Mutation>, x: nat, st: State)
    requires Playable(s, home, store) && x < |s| && Edited(s, home, store, x, st)
    ensures Plays(s, store, st, Closure(BulkOf(s), x, Own(s[x].pass), st).1)
    decreases |s| - x, 1
  {
    AdoptReaches(s, home, store, x, st);
    hide Edited, Reached, Batch, Values, Playable;
    DescendPlays(s, home, store, x, Adopt(BulkOf(s), x, s[x].pass, st));
  }

  lemma {:induction false} DescendPlays(s: seq<Line>, home: seq<Ref>, store: seq<Mutation>, x: nat, st: State)
    requires Playable(s, home, store) && x < |s| && Reached(s, home, store, x + 1, st)
    ensures Plays(s, store, st, Descend(BulkOf(s), x, st).1)
    decreases |s| - x, 0
  {
    if x + 1 < |s| {
      TurnPlays(s, home, store, x + 1, Own(st.world.current[x + 1]), st);
    } else {
      WritePlays(s, home, store, st);
    }
  }

  lemma WritePlays(s: seq<Line>, home: seq<Ref>, store: seq<Mutation>, st: State)
    requires Playable(s, home, store) && Reached(s, home, store, |s|, st)
    ensures var w := Insert(AcceptAll, [], st.specs, st.world).1;
            Sent(s, store, w.log) && w.rows == st.world.rows + Values(Batch(s, store))
  {
    assert st.specs == Batch(s, store) && st.world.current == Passed(s);
    var w := Insert(AcceptAll, [], st.specs, st.world).1;
    assert w.log[|st.world.log|] in w.log;
  }

  /** A world of scripted builders whose mutations all have an id, so that defaults leave them alone. */
  ghost predicate Ready(s: seq<Line>, home: seq<Ref>, store: seq<Mutation>) {
    s != [] && Playable(s, home, store) && forall ref :: 0 <= ref < |store| ==> store[ref].fields.id.Some?
  }

  lemma {:induction false} NoDefaults(w: World, newIds: seq<Uuid>, upto: nat)
    requires upto <= |w.current| && |newIds| == |w.current|
    requires forall j :: 0 <= j < |w.current| ==> w.current[j] < |w.store|
    requires forall ref :: 0 <= ref < |w.store| ==> w.store[ref].fields.id.Some?
    ensures Defaults(w, newIds, upto) == w
  {
    if upto > 0 {
      NoDefaults(w, newIds, upto - 1);
    }
  }

  lemma {:induction false} StartReached(s: seq<Line>, home: seq<Ref>, store: seq<Mutation>, newIds: seq<Uuid>)
    requires Ready(s, home, store) && |newIds| == |s|
    ensures var w := World(store, home, [], []);
            && CanSave(BulkOf(s), newIds, w)
            && Reached(s, home, store, 0, Start(BulkOf(s), newIds, w))
            && Start(BulkOf(s), newIds, w).world == w
  {
    var w := World(store, home, [], []);
    NoDefaults(w, newIds, |s|);
    hide Check, AllFilled, Defaults;
    assert Passed(s)[..0] + home[0..] == home;
    var st := Start(BulkOf(s), newIds, w);
    assert st.specs[..0] == Batch(s, store)[..0];
  }

  /** What a scripted save writes and stores. */
  lemma {:induction false} ScriptedSave(s: seq<Line>, home: seq<Ref>, store: seq<Mutation>, newIds: seq<Uuid>)
    requires Ready(s, home, store) && |newIds| == |s|
    ensures var w := World(store, home, [], []);
            && CanSave(BulkOf(s), newIds, w)
            && var z := Save(BulkOf(s), newIds, w).1;
               Sent(s, store, z.log) && z.rows == Values(Batch(s, store))
  {
    assert |s| > 0;
    hide *;
    StartReached(s, home, store, newIds);
    StartedPlays(s, home, store, newIds);
    SaveRuns(BulkOf(s), newIds, World(store, home, [], []));
  }

  lemma SaveRuns(b: Bulk, newIds: seq<Uuid>, w: World)
    requires CanSave(b, newIds, w) && |b.hooks| > 0
    ensures var st := Start(b, newIds, w);
            Save(b, newIds, w).1 == Mutate(b, 0, 0, Own(st.world.current[0]), st).1.world
  {
    hide Mutate, Start;
  }

  lemma {:induction false} StartedPlays(s: seq<Line>, home: seq<Ref>, store: seq<Mutation>, newIds: seq<Uuid>)
    requires Ready(s, home, store) && |newIds| == |s|
    ensures var w := World(store, home, [], []);
            var st := Start(BulkOf(s), newIds, w);
            var z := Mutate(BulkOf(s), 0, 0, Own(st.world.current[0]), st).1.world;
            Sent(s, store, z.log) && z.rows == Values(Batch(s, store))
  {
    StartReached(s, home, store, newIds);
    var st := Start(BulkOf(s), newIds, World(store, home, [], []));
    hide Mutate, Reached, Batch, Values, StoreAt, Check, Start, Sent;
    TurnPlays(s, home, store, 0, Own(st.world.current[0]), st);
  }
}
