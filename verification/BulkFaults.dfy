/**
 The all-or-nothing condition is exact: whichever of the four faults some builder's hooks may
 commit, there is a save of good mutations in which one hook commits it and the law breaks.
*/
module BulkFaults {
  import opened Base
  import opened CreateModel
  import opened BulkSave
  import opened BulkScript
  import opened BulkAtomic

  datatype Fault = Skip | Swallow | Invent | Again

  function Calls(f: Fault): nat {
    if f.Skip? then 0 else if f.Again? then 2 else 1
  }

  function FaultyAnswer(f: Fault, last: Option<Resp>): Resp {
    if last.None? then if f.Skip? then Done(NotANode) else Failed(HookError(0))
    else if f.Swallow? && last.value.Failed? then Done(NotANode)
    else if f.Invent? && last.value.Done? then Failed(HookError(0))
    else last.value
  }

  /** A hook that commits one fault and is otherwise blameless. */
  function Faulty(f: Fault): Hook {
    Hook((arg, w) => Calls(f),
         (arg, left, last: Option<Resp>, w) => if last.Some? && !f.Again? then Edit(0, (x: Fields) => x) else Next(arg),
         (arg, last, w) => FaultyAnswer(f, last))
  }

  predicate Permits(may: Licence, f: Fault) {
    match f
    case Skip => may.skip
    case Swallow => may.swallow
    case Invent => may.invent
    case Again => may.again
  }

  lemma FaultyIsWithin(f: Fault, may: Licence)
    requires Permits(may, f)
    ensures Within(Faulty(f), may)
  {
  }

  function Drives(f: Fault): Driver {
    if f.Swallow? then RefuseAll else AcceptAll
  }

  /** Builders without hooks, but for one faulty hook of builder i. */
  function OneFault(n: nat, i: nat, f: Fault): (b: Bulk)
    ensures |b.hooks| == |b.conflicts| == n && b.driver == Drives(f)
    ensures forall x :: 0 <= x < n ==> b.hooks[x] == if x == i then [Faulty(f)] else []
  {
    Bulk(seq(n, x => if x == i then [Faulty(f)] else []), seq(n, x => []), [], Drives(f))
  }

  /** Every mutation passes the check, and the slots before j are filled. */
  ghost predicate Poised(b: Bulk, j: nat, st: State) {
    && Shape(b, st) && j <= |b.hooks|
    && (forall ref :: 0 <= ref < |st.world.store| ==> Check(st.world.store[ref].fields).None?)
    && AllFilled(st.specs[..j])
  }

  /** Calls to next made by builder i, if it is reached through builder j. */
  function Times(i: nat, f: Fault, j: nat): nat {
    if f.Swallow? then 0 else if j <= i then Calls(f) else 1
  }

  predicate Answers(i: nat, f: Fault, j: nat) {
    if j <= i then !f.Invent? else !f.Swallow?
  }

  /** Some rows later, with all mutations still good. */
  ghost predicate Stored(b: Bulk, j: nat, times: nat, st: State, z: State) {
    Poised(b, j, z) && |z.world.rows| == |st.world.rows| + times * |b.hooks|
  }

  lemma StoredTwice(b: Bulk, j: nat, x: nat, y: nat, a: State, m: State, z: State)
    requires Stored(b, j, x, a, m) && Stored(b, j, y, m, z)
    ensures Stored(b, j, x + y, a, z)
  {
    assert (x + y) * |b.hooks| == x * |b.hooks| + y * |b.hooks|;
  }

  lemma {:induction false} TurnStores(n: nat, i: nat, f: Fault, j: nat, ref: Ref, st: State)
    requires i < n && j < n && Poised(OneFault(n, i, f), j, st) && ref < |st.world.store|
    ensures var (resp, z) := Mutate(OneFault(n, i, f), j, 0, Own(ref), st);
            Stored(OneFault(n, i, f), j, Times(i, f, j), st, z) && (resp.Done? <==> Answers(i, f, j))
    decreases n - j, 2, 0
  {
    if j == i {
      HookStores(n, i, f, ref, Calls(f), None, LogEvent(st, Enter(i, 0)));
    } else {
      ClosureStores(n, i, f, j, ref, st);
    }
  }

  /** The faulty hook with `left` calls to go, after an answer that told what the database did. */
  lemma {:induction false} HookStores(n: nat, i: nat, f: Fault, ref: Ref, left: nat, last: Option<Resp>, st: State)
    requires i < n && Poised(OneFault(n, i, f), i, st) && ref < |st.world.store|
    requires last.Some? ==> !f.Skip? && (last.value.Done? <==> !f.Swallow?) && (left > 0 ==> f.Again?)
    requires last.None? ==> left == Calls(f)
    ensures var (resp, z) := RunHook(OneFault(n, i, f), i, 0, Own(ref), left, last, st);
            Stored(OneFault(n, i, f), i, if f.Swallow? then 0 else left, st, z) && (resp.Done? <==> !f.Invent?)
    decreases n - i, 1, left
  {
    var b := OneFault(n, i, f);
    if left > 0 {
      ClosureStores(n, i, f, i, ref, st);
      var (resp, st1) := Mutate(b, i, 1, Own(ref), st);
      assert Step(b, i, 0, Own(ref), left, last, st) == (Some(resp), st1);
      hide Stored, Mutate, Closure;
      StoredIsPoised(b, i, st, st1);
      HookStores(n, i, f, ref, left - 1, Some(resp), st1);
      var z := RunHook(b, i, 0, Own(ref), left - 1, Some(resp), st1).1;
      if f.Swallow? {
        StoredTwice(b, i, 0, 0, st, st1, z);
      } else {
        StoredTwice(b, i, 1, left - 1, st, st1, z);
      }
    }
  }

  lemma StoredIsPoised(b: Bulk, j: nat, a: State, z: State)
    requires exists times :: Stored(b, j, times, a, z)
    ensures Poised(b, j, z)
  {
  }

  lemma {:induction false} ClosureStores(n: nat, i: nat, f: Fault, j: nat, ref: Ref, st: State)
    requires i < n && j < n && Poised(OneFault(n, i, f), j, st) && ref < |st.world.store|
    ensures var (resp, z) := Closure(OneFault(n, i, f), j, Own(ref), st);
            Stored(OneFault(n, i, f), j, Times(i, f, j + 1), st, z) && (resp.Done? <==> Answers(i, f, j + 1))
    decreases n - j, 0, 0
  {
    var b := OneFault(n, i, f);
    var st1 := Adopt(b, j, ref, st);
    assert st1.specs[..j + 1] == st.specs[..j] + [st1.specs[j]];
    DescendStores(n, i, f, j, st1);
  }

  lemma {:induction false} DescendStores(n: nat, i: nat, f: Fault, j: nat, st: State)
    requires i < n && j < n && Poised(OneFault(n, i, f), j + 1, st)
    ensures var (err, z) := Descend(OneFault(n, i, f), j, st);
            Stored(OneFault(n, i, f), j + 1, Times(i, f, j + 1), st, z) && (err.None? <==> Answers(i, f, j + 1))
    decreases n - j - 1, 3, 0
  {
    if j + 1 < n {
      TurnStores(n, i, f, j + 1, st.world.current[j + 1], st);
    } else {
      assert st.specs[..n] == st.specs;
    }
  }

  lemma FaultStarts(n: nat, i: nat, f: Fault, newIds: seq<Uuid>)
    requires i < n == |newIds|
    ensures var b, w := OneFault(n, i, f), World(GoodStore(n), Homes(n), [], []);
            && CanSave(b, newIds, w) && Poised(b, 0, Start(b, newIds, w)) && Start(b, newIds, w).world == w
  {
    NoDefaults(World(GoodStore(n), Homes(n), [], []), newIds, n);
  }

  /** Under the law, success and n new rows go together, and so do failure and none. */
  lemma AtomicTells(b: Bulk, newIds: seq<Uuid>, w: World)
    requires CanSave(b, newIds, w) && |b.hooks| > 0 && Atomic(b, newIds, w)
    ensures var st := Start(b, newIds, w);
            var (resp, z) := Mutate(b, 0, 0, Own(st.world.current[0]), st);
            |z.world.rows| == |st.world.rows| + (if resp.Done? then |b.hooks| else 0)
  {
    hide Mutate, Start, Save;
  }

  lemma FaultMiscounts(n: nat, i: nat, f: Fault)
    requires n > 0
    ensures Times(i, f, 0) * n != if Answers(i, f, 0) then n else 0
  {
    assert f.Again? ==> Times(i, f, 0) * n == n + n;
  }

  /** The faulty save of n good mutations stores them as often as next was called, whatever it answers. */
  lemma FaultBreaksTheLaw(n: nat, i: nat, f: Fault, newIds: seq<Uuid>)
    requires i < n == |newIds|
    ensures var b, w := OneFault(n, i, f), World(GoodStore(n), Homes(n), [], []);
            CanSave(b, newIds, w) && !Atomic(b, newIds, w)
  {
    var b, w := OneFault(n, i, f), World(GoodStore(n), Homes(n), [], []);
    FaultStarts(n, i, f, newIds);
    var st := Start(b, newIds, w);
    hide *;
    TurnStores(n, i, f, 0, 0, st);
    FaultMiscounts(n, i, f);
    assert w.rows == [] && w.current[0] == 0 && b.hooks != [] && CanSave(b, newIds, w);
    StoredCount(b, 0, Times(i, f, 0), st, Mutate(b, 0, 0, Own(0), st).1);
    if Atomic(b, newIds, w) {
      AtomicTells(b, newIds, w);
    }
  }

  lemma StoredCount(b: Bulk, j: nat, times: nat, a: State, z: State)
    requires Stored(b, j, times, a, z)
    ensures |z.world.rows| == |a.world.rows| + times * |b.hooks|
  {
  }

  /** Hooks of builder i do nothing beyond the law but what may(i) permits. */
  ghost predicate AllWithin(b: Bulk, may: nat -> Licence) {
    forall i, k :: 0 <= i < |b.hooks| && 0 <= k < |b.hooks[i]| ==> Within(b.hooks[i][k], may(i))
  }

  /** Every save of n builders with such hooks is all or nothing. */
  ghost predicate AlwaysAtomic(n: nat, may: nat -> Licence)
    requires n > 0
  {
    forall b: Bulk, newIds: seq<Uuid>, w: World ::
      |b.hooks| == n && CanSave(b, newIds, w) && AllWithin(b, may) ==> Atomic(b, newIds, w)
  }

  /**
   Saves are all or nothing, whatever else the hooks do, if and only if no builder's hooks may
   commit any of the four faults.
  */
  lemma AlwaysAtomicIff(n: nat, may: nat -> Licence)
    requires n > 0
    ensures AlwaysAtomic(n, may) <==> forall i: nat :: i < n ==> may(i) == NOTHING
  {
    hide Atomic, CanSave, Within;
    if forall i: nat :: i < n ==> may(i) == NOTHING {
      forall b: Bulk, newIds: seq<Uuid>, w: World |
        |b.hooks| == n && CanSave(b, newIds, w) && AllWithin(b, may)
        ensures Atomic(b, newIds, w)
      {
        AllOrNothing(b, newIds, w);
      }
    } else {
      var i: nat :| i < n && may(i) != NOTHING;
      var l := may(i);
      var f := if l.skip then Skip else if l.swallow then Swallow else if l.invent then Invent else Again;
      var newIds := seq(n, x => ZERO_UUID);
      FaultBreaksTheLaw(n, i, f, newIds);
      FaultyIsWithin(f, may(i));
      assert AllWithin(OneFault(n, i, f), may);
    }
  }
}
