/**
 What a bulk save guarantees about every write, whatever its hooks do: skip next, call it
 again and again, pass another mutation, edit any mutation, swallow errors or invent them.
*/
module BulkSafety {
  import opened Base
  import opened CreateModel
  import opened BulkSave
  import opened BulkScript

  /** No hook of builder i ever passes on a mutation other than home[i]. */
  ghost predicate NoSwap(b: Bulk, home: seq<Ref>) {
    |home| == |b.hooks| &&
    forall i, k, arg, left, last, w ::
      0 <= i < |b.hooks| && 0 <= k < |b.hooks[i]| ==>
        var a := b.hooks[i][k].act(arg, left, last, w);
        a.Next? && a.arg.Own? ==> a.arg.ref == home[i]
  }

  /** Every slot is filled, and in the strict reading by a row that passed the check. */
  ghost predicate Sound(strict: bool, specs: seq<Option<Spec>>) {
    forall j :: 0 <= j < |specs| ==> specs[j].Some? && (strict ==> ValidRow(specs[j].value))
  }

  /** Every write between the two worlds was of a complete batch, one row per builder. */
  ghost predicate SoundWrites(n: nat, strict: bool, a: World, z: World) {
    && a.log <= z.log && a.rows <= z.rows
    && (forall m :: |a.log| <= m < |z.log| && z.log[m].Write? ==>
          |z.log[m].batch| == n && Sound(strict, z.log[m].batch))
    && (strict ==> forall m :: |a.rows| <= m < |z.rows| ==> ValidRow(z.rows[m]))
  }

  ghost predicate Pinned(b: Bulk, strict: bool, home: seq<Ref>, st: State) {
    strict ==> NoSwap(b, home) && st.world.current == home
  }

  lemma SoundWritesTrans(n: nat, strict: bool, a: World, m: World, z: World)
    requires SoundWrites(n, strict, a, m) && SoundWrites(n, strict, m, z)
    ensures SoundWrites(n, strict, a, z)
  {
  }

  lemma {:induction false} MutateSound(b: Bulk, strict: bool, home: seq<Ref>, i: nat, k: nat, arg: Arg, st: State)
    requires Shape(b, st) && i < |b.hooks| && k <= |b.hooks[i]|
    requires Pinned(b, strict, home, st) && Sound(strict, st.specs[..i])
    requires strict && arg.Own? ==> arg.ref == home[i]
    ensures var r := Mutate(b, i, k, arg, st).1;
            Pinned(b, strict, home, r) && SoundWrites(|b.hooks|, strict, st.world, r.world)
    decreases |b.hooks| - i, |b.hooks[i]| - k, 1, 0
  {
    if k == |b.hooks[i]| {
      ClosureSound(b, strict, home, i, arg, st);
    } else {
      var st1 := LogEvent(st, Enter(i, k));
      RunHookSound(b, strict, home, i, k, arg, b.hooks[i][k].budget(arg, st1.world), None, st1);
    }
  }

  lemma {:induction false} RunHookSound(b: Bulk, strict: bool, home: seq<Ref>, i: nat, k: nat, arg: Arg,
                                        left: nat, last: Option<Resp>, st: State)
    requires Shape(b, st) && i < |b.hooks| && k < |b.hooks[i]|
    requires Pinned(b, strict, home, st) && Sound(strict, st.specs[..i])
    ensures var r := RunHook(b, i, k, arg, left, last, st).1;
            Pinned(b, strict, home, r) && SoundWrites(|b.hooks|, strict, st.world, r.world)
    decreases |b.hooks| - i, |b.hooks[i]| - k, 0, left
  {
    if left > 0 {
      StepSound(b, strict, home, i, k, arg, left, last, st);
      var (last1, st1) := Step(b, i, k, arg, left, last, st);
      RunHookSound(b, strict, home, i, k, arg, left - 1, last1, st1);
      SoundWritesTrans(|b.hooks|, strict, st.world, st1.world,
                       RunHook(b, i, k, arg, left - 1, last1, st1).1.world);
    }
  }

  lemma {:induction false} StepSound(b: Bulk, strict: bool, home: seq<Ref>, i: nat, k: nat, arg: Arg,
                                     left: nat, last: Option<Resp>, st: State)
    requires Shape(b, st) && i < |b.hooks| && k < |b.hooks[i]| && left > 0
    requires Pinned(b, strict, home, st) && Sound(strict, st.specs[..i])
    ensures var r := Step(b, i, k, arg, left, last, st).1;
            Pinned(b, strict, home, r) && SoundWrites(|b.hooks|, strict, st.world, r.world)
    decreases |b.hooks| - i, |b.hooks[i]| - k, 0, left - 1
  {
    PassesHome(b, strict, home, i, k, arg, left, last, st.world);
    var a := b.hooks[i][k].act(arg, left, last, st.world);
    if a.Next? {
      MutateSound(b, strict, home, i, k + 1, a.arg, st);
    }
  }

  lemma PassesHome(b: Bulk, strict: bool, home: seq<Ref>, i: nat, k: nat, arg: Arg,
                   left: nat, last: Option<Resp>, w: World)
    requires strict ==> NoSwap(b, home)
    requires i < |b.hooks| && k < |b.hooks[i]|
    ensures var a := b.hooks[i][k].act(arg, left, last, w);
            strict && a.Next? && a.arg.Own? ==> a.arg.ref == home[i]
  {
  }

  lemma {:induction false} ClosureSound(b: Bulk, strict: bool, home: seq<Ref>, i: nat, arg: Arg, st: State)
    requires Shape(b, st) && i < |b.hooks|
    requires Pinned(b, strict, home, st) && Sound(strict, st.specs[..i])
    requires strict && arg.Own? ==> arg.ref == home[i]
    ensures var r := Closure(b, i, arg, st).1;
            Pinned(b, strict, home, r) && SoundWrites(|b.hooks|, strict, st.world, r.world)
    decreases |b.hooks| - i, 0, 0, 0
  {
    if arg.Own? && arg.ref < |st.world.store| && Check(st.world.store[st.world.current[i]].fields).None? {
      var st1 := Adopt(b, i, arg.ref, st);
      assert Sound(strict, st1.specs[..i + 1]) by {
        assert st1.specs[..i + 1] == st.specs[..i] + [st1.specs[i]];
      }
      DescendSound(b, strict, home, i, st1);
    }
  }

  lemma {:induction false} DescendSound(b: Bulk, strict: bool, home: seq<Ref>, i: nat, st: State)
    requires Shape(b, st) && i < |b.hooks|
    requires Pinned(b, strict, home, st) && Sound(strict, st.specs[..i + 1])
    ensures var r := Descend(b, i, st).1;
            Pinned(b, strict, home, r) && SoundWrites(|b.hooks|, strict, st.world, r.world)
    decreases |b.hooks| - i - 1, if i + 1 < |b.hooks| then |b.hooks[i + 1]| + 1 else 0, 0, 0
  {
    if i + 1 < |b.hooks| {
      MutateSound(b, strict, home, i + 1, 0, Own(st.world.current[i + 1]), st);
    } else {
      assert st.specs[..i + 1] == st.specs;
    }
  }

  /** Whatever the hooks do, no write ever sees an unfilled slot or a batch of another length. */
  lemma EveryWriteIsComplete(b: Bulk, newIds: seq<Uuid>, w: World)
    requires CanSave(b, newIds, w)
    ensures var z := Save(b, newIds, w).1;
            && w.log <= z.log
            && forall m :: |w.log| <= m < |z.log| && z.log[m].Write? ==>
                 |z.log[m].batch| == |b.hooks| && AllFilled(z.log[m].batch)
  {
    if |b.hooks| > 0 {
      var st := Start(b, newIds, w);
      MutateSound(b, false, [], 0, 0, Own(st.world.current[0]), st);
    }
  }

  /** If no hook swaps a mutation, every row that reaches the table passed the check, edits notwithstanding. */
  lemma UnswappedRowsAreValid(b: Bulk, newIds: seq<Uuid>, w: World)
    requires CanSave(b, newIds, w) && NoSwap(b, w.current)
    ensures var z := Save(b, newIds, w).1;
            && z.current == w.current && w.rows <= z.rows
            && forall m :: |w.rows| <= m < |z.rows| ==> ValidRow(z.rows[m])
  {
    if |b.hooks| > 0 {
      var st := Start(b, newIds, w);
      MutateSound(b, true, w.current, 0, 0, Own(st.world.current[0]), st);
    }
  }

  // ------------------------------------------------------------------ swapped mutations

  /** Every write between the two worlds carries these slots first. */
  ghost predicate WritesExtend(slots: seq<Option<Spec>>, a: World, z: World) {
    a.log <= z.log && forall m :: |a.log| <= m < |z.log| && z.log[m].Write? ==> slots <= z.log[m].batch
  }

  lemma WritesExtendTrans(slots: seq<Option<Spec>>, a: World, m: World, z: World)
    requires WritesExtend(slots, a, m) && WritesExtend(slots, m, z)
    ensures WritesExtend(slots, a, z)
  {
  }

  /** A mutator of builder i leaves the slots before i alone, in every write it causes. */
  lemma {:induction false} MutateExtends(b: Bulk, i: nat, k: nat, arg: Arg, st: State)
    requires Shape(b, st) && i < |b.hooks| && k <= |b.hooks[i]|
    ensures WritesExtend(st.specs[..i], st.world, Mutate(b, i, k, arg, st).1.world)
    decreases |b.hooks| - i, |b.hooks[i]| - k, 1, 0
  {
    if k == |b.hooks[i]| {
      ClosureExtends(b, i, arg, st);
    } else {
      var st1 := LogEvent(st, Enter(i, k));
      RunHookExtends(b, i, k, arg, b.hooks[i][k].budget(arg, st1.world), None, st1);
    }
  }

  lemma {:induction false} RunHookExtends(b: Bulk, i: nat, k: nat, arg: Arg, left: nat, last: Option<Resp>, st: State)
    requires Shape(b, st) && i < |b.hooks| && k < |b.hooks[i]|
    ensures WritesExtend(st.specs[..i], st.world, RunHook(b, i, k, arg, left, last, st).1.world)
    decreases |b.hooks| - i, |b.hooks[i]| - k, 0, left
  {
    if left > 0 {
      StepExtends(b, i, k, arg, left, last, st);
      var (last1, st1) := Step(b, i, k, arg, left, last, st);
      RunHookExtends(b, i, k, arg, left - 1, last1, st1);
      WritesExtendTrans(st.specs[..i], st.world, st1.world, RunHook(b, i, k, arg, left - 1, last1, st1).1.world);
    }
  }

  lemma {:induction false} StepExtends(b: Bulk, i: nat, k: nat, arg: Arg, left: nat, last: Option<Resp>, st: State)
    requires Shape(b, st) && i < |b.hooks| && k < |b.hooks[i]| && left > 0
    ensures WritesExtend(st.specs[..i], st.world, Step(b, i, k, arg, left, last, st).1.world)
    decreases |b.hooks| - i, |b.hooks[i]| - k, 0, left - 1
  {
    var a := b.hooks[i][k].act(arg, left, last, st.world);
    if a.Next? {
      MutateExtends(b, i, k + 1, a.arg, st);
    }
  }

  lemma {:induction false} ClosureExtends(b: Bulk, i: nat, arg: Arg, st: State)
    requires Shape(b, st) && i < |b.hooks|
    ensures WritesExtend(st.specs[..i], st.world, Closure(b, i, arg, st).1.world)
    ensures arg.Own? && arg.ref < |st.world.store| ==>
              WritesExtend(st.specs[..i] + [Some(SpecOf(st.world.store[arg.ref].fields, b.conflicts[i]))],
                           st.world, Closure(b, i, arg, st).1.world)
    decreases |b.hooks| - i, 0, 0, 0
  {
    if arg.Own? && arg.ref < |st.world.store| && Check(st.world.store[st.world.current[i]].fields).None? {
      var st1 := Adopt(b, i, arg.ref, st);
      assert st1.specs[..i + 1] == st.specs[..i] + [st1.specs[i]];
      DescendExtends(b, i, st1);
    }
  }

  lemma {:induction false} DescendExtends(b: Bulk, i: nat, st: State)
    requires Shape(b, st) && i < |b.hooks|
    ensures WritesExtend(st.specs[..i + 1], st.world, Descend(b, i, st).1.world)
    decreases |b.hooks| - i - 1, if i + 1 < |b.hooks| then |b.hooks[i + 1]| + 1 else 0, 0, 0
  {
    if i + 1 < |b.hooks| {
      MutateExtends(b, i + 1, 0, Own(st.world.current[i + 1]), st);
    }
  }

  /**
   The guard looks at the wrong object: builder i is checked on the mutation it had, then
   adopts the one it was given. In every write that follows from it, whatever the hooks of
   later builders do, row i is valid exactly when the given mutation would have passed the
   check itself.
  */
  lemma SwappedRowValidIff(b: Bulk, i: nat, ref: Ref, st: State)
    requires Shape(b, st) && i < |b.hooks| && ref < |st.world.store|
    ensures var z := Closure(b, i, Own(ref), st).1.world;
            && st.world.log <= z.log
            && forall m :: |st.world.log| <= m < |z.log| && z.log[m].Write? ==>
                 && i < |z.log[m].batch| && z.log[m].batch[i].Some?
                 && (ValidRow(z.log[m].batch[i].value) <==> Check(st.world.store[ref].fields).None?)
  {
    ClosureExtends(b, i, Own(ref), st);
    var z := Closure(b, i, Own(ref), st).1.world;
    var slots := st.specs[..i] + [Some(SpecOf(st.world.store[ref].fields, b.conflicts[i]))];
    forall m | |st.world.log| <= m < |z.log| && z.log[m].Write?
      ensures i < |z.log[m].batch| && z.log[m].batch[i] == slots[i]
    {
      assert slots <= z.log[m].batch;
    }
  }

  /** A hook of builder i passes on only mutations ref with passes(i, ref). */
  ghost predicate Passes(b: Bulk, passes: (nat, Ref) -> bool) {
    forall i, k, arg, left, last, w ::
      0 <= i < |b.hooks| && 0 <= k < |b.hooks[i]| ==>
        var a := b.hooks[i][k].act(arg, left, last, w);
        a.Next? && a.arg.Own? ==> passes(i, a.arg.ref)
  }

  ghost predicate StoresValidRows(b: Bulk, newIds: seq<Uuid>, w: World)
    requires CanSave(b, newIds, w)
  {
    forall row :: row in Save(b, newIds, w).1.rows[|w.rows|..] ==> ValidRow(row)
  }

  /** Every save of builders with these mutations, whose hooks pass on within the relation, stores valid rows. */
  ghost predicate AlwaysValid(home: seq<Ref>, passes: (nat, Ref) -> bool) {
    forall b: Bulk, newIds: seq<Uuid>, w: World ::
      CanSave(b, newIds, w) && w.current == home && Passes(b, passes) ==>
        w.rows <= Save(b, newIds, w).1.rows && StoresValidRows(b, newIds, w)
  }

  /** Builder i spoils ref and passes it on; every other builder repairs and passes on its own mutation. */
  function SwapIn(home: seq<Ref>, i: nat, ref: Ref): (s: seq<Line>)
    ensures |s| == |home|
    ensures forall x :: 0 <= x < |s| ==>
              s[x] == if x == i then Line(Some((ref, "")), ref) else Line(Some((home[x], "s")), home[x])
  {
    seq(|home|, x requires 0 <= x < |home| =>
      if x == i then Line(Some((ref, "")), ref) else Line(Some((home[x], "s")), home[x]))
  }

  lemma {:induction false} SwapStore(home: seq<Ref>, i: nat, ref: Ref, n: nat, x: nat)
    requires i < |home| && ref < n && x <= |home| && forall y :: 0 <= y < |home| ==> home[y] < n
    ensures var store := StoreAt(SwapIn(home, i, ref), GoodStore(n), x);
            && (forall r :: 0 <= r < n && r != ref ==> store[r] == Good("s"))
            && store[ref] in {Good("s"), Good("")}
            && (x <= i ==> store[ref] == Good("s"))
            && (x == i + 1 ==> store[ref] == Good(""))
            && (x > i + 1 && home[x - 1] == ref ==> store[ref] == Good("s"))
  {
    if x > 0 {
      SwapStore(home, i, ref, n, x - 1);
    }
  }

  lemma SwapPlayable(home: seq<Ref>, i: nat, ref: Ref, n: nat)
    requires i < |home| && ref < n && ref != home[i] && forall y :: 0 <= y < |home| ==> home[y] < n
    ensures Ready(SwapIn(home, i, ref), home, GoodStore(n))
  {
    forall x | 0 <= x < |home|
      ensures Check(StoreAt(SwapIn(home, i, ref), GoodStore(n), x + 1)[home[x]].fields).None?
    {
      SwapStore(home, i, ref, n, x + 1);
    }
  }

  /** Passing on any mutation but the builder's own, in some save, gets an invalid row stored. */
  lemma SwapIsStored(home: seq<Ref>, i: nat, ref: Ref, n: nat, newIds: seq<Uuid>)
    requires i < |home| == |newIds| && ref < n && ref != home[i] && forall y :: 0 <= y < |home| ==> home[y] < n
    ensures var b := BulkOf(SwapIn(home, i, ref));
            var w := World(GoodStore(n), home, [], []);
            CanSave(b, newIds, w) && !StoresValidRows(b, newIds, w)
  {
    var s := SwapIn(home, i, ref);
    SwapPlayable(home, i, ref, n);
    ScriptedSave(s, home, GoodStore(n), newIds);
    SwapStore(home, i, ref, n, i + 1);
    hide Save;
    var rows := Save(BulkOf(s), newIds, World(GoodStore(n), home, [], [])).1.rows;
    assert rows == Values(Batch(s, GoodStore(n)));
    assert Some(rows[i]) == Batch(s, GoodStore(n))[i];
    assert rows[i].secret == Some("") && rows[0..] == rows && rows[i] in rows;
  }

  lemma SwapPasses(home: seq<Ref>, i: nat, ref: Ref, passes: (nat, Ref) -> bool)
    requires i < |home| && passes(i, ref) && forall x :: 0 <= x < |home| && x != i ==> passes(x, home[x])
    ensures Passes(BulkOf(SwapIn(home, i, ref)), passes)
  {
  }

  lemma {:induction false} Above(home: seq<Ref>, ref: Ref) returns (n: nat)
    ensures ref < n && forall y :: 0 <= y < |home| ==> home[y] < n
  {
    if home == [] {
      n := ref + 1;
    } else {
      n := Above(home[..|home| - 1], ref);
      var last := home[|home| - 1];
      n := if last < n then n else last + 1;
      assert forall y :: 0 <= y < |home| - 1 ==> home[y] == home[..|home| - 1][y];
    }
  }

  /**
   Stored rows are valid, whatever else the hooks do, if and only if hooks pass on only their
   builder's own mutation.
  */
  lemma AlwaysValidIff(home: seq<Ref>, passes: (nat, Ref) -> bool)
    requires forall i :: 0 <= i < |home| ==> passes(i, home[i])
    ensures AlwaysValid(home, passes) <==> forall i, ref: Ref :: 0 <= i < |home| && passes(i, ref) ==> ref == home[i]
  {
    if i: nat, ref: Ref :| i < |home| && passes(i, ref) && ref != home[i] {
      var n := Above(home, ref);
      var newIds := seq(|home|, x => ZERO_UUID);
      SwapIsStored(home, i, ref, n, newIds);
      SwapPasses(home, i, ref, passes);
    } else {
      forall b: Bulk, newIds: seq<Uuid>, w: World | CanSave(b, newIds, w) && w.current == home && Passes(b, passes)
        ensures w.rows <= Save(b, newIds, w).1.rows && StoresValidRows(b, newIds, w)
      {
        UnswappedRowsAreValid(b, newIds, w);
      }
    }
  }

  function SwapTo(ref: Ref): Hook {
    Hook((arg, w) => 1, (arg, left, last, w) => Next(Own(ref)), (arg, last, w) => Answer(last))
  }

  function NoSecret(): Mutation {
    Mutation(Fields(None, None, None, None, {}), false)
  }

  function Secret(): Mutation {
    Mutation(Fields(None, Some("s"), None, None, {}), false)
  }

  function SwapBulk(): Bulk {
    Bulk([[SwapTo(1)]], [[]], [], AcceptAll)
  }

  /** The swap inside the hook: the guard passes on mutation 0, and mutation 1 is written. */
  lemma SwapCloses(st: State)
    requires Shape(SwapBulk(), st) && st.world.store == [WithDefaults(Secret(), 7), NoSecret()]
    requires st.world.current == [0] && st.world.rows == []
    ensures var (resp, z) := Closure(SwapBulk(), 0, Own(1), st);
            resp.Done? && z.world.rows == [SpecOf(NoSecret().fields, [])] && z.world.store[1].done
  {
    var st1 := Adopt(SwapBulk(), 0, 1, st);
    assert st1.specs == [Some(SpecOf(NoSecret().fields, []))];
    var (err, st2) := Descend(SwapBulk(), 0, st1);
    assert Values(st1.specs) == [SpecOf(NoSecret().fields, [])];
    assert err.None? && st2.world.rows == [SpecOf(NoSecret().fields, [])];
  }

  lemma SwapStarts()
    ensures var w := World([Secret(), NoSecret()], [0], [], []);
            Start(SwapBulk(), [7], w).world == w.(store := [WithDefaults(Secret(), 7), NoSecret()])
  {
    var w := World([Secret(), NoSecret()], [0], [], []);
    assert Defaults(w, [7], 0) == w;
    assert Defaults(w, [7], 1).store == [WithDefaults(Secret(), 7), NoSecret()];
  }

  /** A builder with a good secret whose hook swaps in a mutation with none: the secretless row is stored. */
  lemma SwapStoresUncheckedRow()
    ensures var (r, z) := Save(SwapBulk(), [7], World([Secret(), NoSecret()], [0], [], []));
            r.Ok? && |z.rows| == 1 && !ValidRow(z.rows[0]) && z.store[1].done
  {
    var b := SwapBulk();
    SwapStarts();
    var st := Start(b, [7], World([Secret(), NoSecret()], [0], [], []));
    var st1 := LogEvent(st, Enter(0, 0));
    SwapCloses(st1);
    hide Closure, Start, Defaults;
    var (resp, st2) := Mutate(b, 0, 1, Own(1), st1);
    assert Step(b, 0, 0, Own(0), 1, None, st1) == (Some(resp), st2);
    assert RunHook(b, 0, 0, Own(0), 1, None, st1) == (resp, LogEvent(st2, Leave(0, 0)));
    assert Mutate(b, 0, 0, Own(0), st) == (resp, LogEvent(st2, Leave(0, 0)));
  }
}
