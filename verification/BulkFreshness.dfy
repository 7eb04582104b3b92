/**
 When every write sends the builders' mutations as they are at that moment: exactly as long as
 hooks edit no mutation of an earlier builder. They may still skip, repeat, swallow and swap.
*/
module BulkFreshness {
  import opened Base
  import opened CreateModel
  import opened BulkSave
  import opened BulkScript

  /**
   Hooks pass on only mutations of their own builder, and a hook of builder i edits only
   mutations of builders j with edits(i, j).
  */
  ghost predicate Edits(b: Bulk, owner: Ref -> nat, edits: (nat, nat) -> bool) {
    forall i, k, arg, left, last, w ::
      0 <= i < |b.hooks| && 0 <= k < |b.hooks[i]| ==>
        match b.hooks[i][k].act(arg, left, last, w)
        case Edit(ref, _) => edits(i, owner(ref))
        case Next(a) => a.Own? ==> owner(a.ref) == i
  }

  /** No hook edits a mutation of an earlier builder. */
  ghost predicate EditsForward(b: Bulk, owner: Ref -> nat) {
    Edits(b, owner, (i, j) => i <= j)
  }

  ghost predicate Assigned(owner: Ref -> nat, current: seq<Ref>) {
    forall j :: 0 <= j < |current| ==> owner(current[j]) == j
  }

  /** The first `upto` specs are exactly what createSpec would build now. */
  ghost predicate UpToDate(b: Bulk, specs: seq<Option<Spec>>, refs: seq<Ref>, store: seq<Mutation>, upto: nat) {
    && upto <= |specs| && |specs| == |refs| == |b.conflicts|
    && forall j :: 0 <= j < upto ==>
         refs[j] < |store| && specs[j] == Some(SpecOf(store[refs[j]].fields, b.conflicts[j]))
  }

  ghost predicate FreshWrites(b: Bulk, a: World, z: World) {
    && a.log <= z.log
    && forall m :: |a.log| <= m < |z.log| && z.log[m].Write? ==>
         UpToDate(b, z.log[m].batch, z.log[m].refs, z.log[m].snapshot, |b.hooks|)
  }

  /** Builders before i keep their mutations untouched. */
  ghost predicate Local(owner: Ref -> nat, i: nat, a: World, z: World) {
    |a.store| == |z.store| &&
    forall ref :: 0 <= ref < |a.store| && owner(ref) < i ==> z.store[ref] == a.store[ref]
  }

  ghost predicate Fine(b: Bulk, owner: Ref -> nat, i: nat, a: World, z: World) {
    Assigned(owner, z.current) && FreshWrites(b, a, z) && Local(owner, i, a, z)
  }

  lemma FineTrans(b: Bulk, owner: Ref -> nat, i: nat, a: World, m: World, z: World)
    requires Fine(b, owner, i, a, m) && Fine(b, owner, i, m, z)
    ensures Fine(b, owner, i, a, z)
  {
  }

  lemma StaysUpToDate(b: Bulk, owner: Ref -> nat, i: nat, st: State, st': State)
    requires Shape(b, st) && i <= |b.hooks| && Keeps(b, i, st, st')
    requires Assigned(owner, st.world.current) && Local(owner, i, st.world, st'.world)
    requires UpToDate(b, st.specs, st.world.current, st.world.store, i)
    ensures UpToDate(b, st'.specs, st'.world.current, st'.world.store, i)
  {
  }

  ghost predicate Before(b: Bulk, owner: Ref -> nat, i: nat, st: State) {
    && Shape(b, st) && i <= |b.hooks|
    && EditsForward(b, owner) && Assigned(owner, st.world.current)
    && UpToDate(b, st.specs, st.world.current, st.world.store, i)
  }

  lemma {:induction false} MutateFresh(b: Bulk, owner: Ref -> nat, i: nat, k: nat, arg: Arg, st: State)
    requires i < |b.hooks| && k <= |b.hooks[i]| && Before(b, owner, i, st)
    requires arg.Own? ==> owner(arg.ref) == i
    ensures Fine(b, owner, i, st.world, Mutate(b, i, k, arg, st).1.world)
    decreases |b.hooks| - i, |b.hooks[i]| - k, 1, 0
  {
    if k == |b.hooks[i]| {
      ClosureFresh(b, owner, i, arg, st);
    } else {
      var st1 := LogEvent(st, Enter(i, k));
      RunHookFresh(b, owner, i, k, arg, b.hooks[i][k].budget(arg, st1.world), None, st1);
    }
  }

  lemma {:induction false} RunHookFresh(b: Bulk, owner: Ref -> nat, i: nat, k: nat, arg: Arg,
                                        left: nat, last: Option<Resp>, st: State)
    requires i < |b.hooks| && k < |b.hooks[i]| && Before(b, owner, i, st)
    ensures Fine(b, owner, i, st.world, RunHook(b, i, k, arg, left, last, st).1.world)
    decreases |b.hooks| - i, |b.hooks[i]| - k, 0, left
  {
    if left > 0 {
      StepFresh(b, owner, i, k, arg, left, last, st);
      var (last1, st1) := Step(b, i, k, arg, left, last, st);
      StaysUpToDate(b, owner, i, st, st1);
      RunHookFresh(b, owner, i, k, arg, left - 1, last1, st1);
      FineTrans(b, owner, i, st.world, st1.world, RunHook(b, i, k, arg, left - 1, last1, st1).1.world);
    }
  }

  lemma {:induction false} StepFresh(b: Bulk, owner: Ref -> nat, i: nat, k: nat, arg: Arg,
                                     left: nat, last: Option<Resp>, st: State)
    requires i < |b.hooks| && k < |b.hooks[i]| && left > 0 && Before(b, owner, i, st)
    ensures Fine(b, owner, i, st.world, Step(b, i, k, arg, left, last, st).1.world)
    decreases |b.hooks| - i, |b.hooks[i]| - k, 0, left - 1
  {
    ActsForward(b, owner, i, k, arg, left, last, st.world);
    var a := b.hooks[i][k].act(arg, left, last, st.world);
    if a.Next? {
      MutateFresh(b, owner, i, k + 1, a.arg, st);
    }
  }

  lemma ActsForward(b: Bulk, owner: Ref -> nat, i: nat, k: nat, arg: Arg, left: nat, last: Option<Resp>, w: World)
    requires EditsForward(b, owner) && i < |b.hooks| && k < |b.hooks[i]|
    ensures var a := b.hooks[i][k].act(arg, left, last, w);
            (a.Edit? ==> i <= owner(a.ref)) && (a.Next? && a.arg.Own? ==> owner(a.arg.ref) == i)
  {
  }

  lemma {:induction false} ClosureFresh(b: Bulk, owner: Ref -> nat, i: nat, arg: Arg, st: State)
    requires i < |b.hooks| && Before(b, owner, i, st)
    requires arg.Own? ==> owner(arg.ref) == i
    ensures Fine(b, owner, i, st.world, Closure(b, i, arg, st).1.world)
    decreases |b.hooks| - i, 0, 0, 0
  {
    if arg.Own? && arg.ref < |st.world.store| && Check(st.world.store[st.world.current[i]].fields).None? {
      var st1 := Adopt(b, i, arg.ref, st);
      DescendFresh(b, owner, i, st1);
    }
  }

  lemma {:induction false} DescendFresh(b: Bulk, owner: Ref -> nat, i: nat, st: State)
    requires i < |b.hooks| && Before(b, owner, i + 1, st)
    ensures Fine(b, owner, i + 1, st.world, Descend(b, i, st).1.world)
    decreases |b.hooks| - i - 1, if i + 1 < |b.hooks| then |b.hooks[i + 1]| + 1 else 0, 0, 0
  {
    if i + 1 < |b.hooks| {
      MutateFresh(b, owner, i + 1, 0, Own(st.world.current[i + 1]), st);
    }
  }

  /** Row j of every write of this save is the spec of the mutation builder j then points at, as it then reads. */
  ghost predicate WritesAreCurrent(b: Bulk, newIds: seq<Uuid>, w: World)
    requires CanSave(b, newIds, w)
  {
    forall e :: e in Save(b, newIds, w).1.log[|w.log|..] && e.Write? ==>
      UpToDate(b, e.batch, e.refs, e.snapshot, |b.hooks|)
  }

  lemma EveryWriteIsCurrent(b: Bulk, owner: Ref -> nat, newIds: seq<Uuid>, w: World)
    requires CanSave(b, newIds, w) && EditsForward(b, owner) && Assigned(owner, w.current)
    ensures w.log <= Save(b, newIds, w).1.log && WritesAreCurrent(b, newIds, w)
  {
    if |b.hooks| > 0 {
      var st := Start(b, newIds, w);
      MutateFresh(b, owner, 0, 0, Own(st.world.current[0]), st);
    }
  }

  // ------------------------------------------------------------------ the condition is exact

  /** Every builder passes on its own mutation; builder i first gives that of builder j another secret. */
  function LateEdit(n: nat, i: nat, j: nat): (s: seq<Line>)
    ensures |s| == n && forall x :: 0 <= x < n ==> s[x] == Line(if x == i then Some((j, "t")) else None, x)
  {
    seq(n, x requires 0 <= x < n => Line(if x == i then Some((j, "t")) else None, x))
  }

  lemma {:induction false} LateStore(n: nat, i: nat, j: nat, x: nat)
    requires j < n && i < n && x <= n
    ensures StoreAt(LateEdit(n, i, j), GoodStore(n), x) ==
            if i < x then GoodStore(n)[j := Good("t")] else GoodStore(n)
  {
    if x > 0 {
      LateStore(n, i, j, x - 1);
    }
  }

  lemma LateEditPlayable(n: nat, i: nat, j: nat)
    requires j < i < n
    ensures Ready(LateEdit(n, i, j), Homes(n), GoodStore(n))
  {
    var s := LateEdit(n, i, j);
    forall x | 0 <= x < n
      ensures Check(StoreAt(s, GoodStore(n), x + 1)[Homes(n)[x]].fields).None?
    {
      LateStore(n, i, j, x + 1);
    }
  }

  lemma LateWriteIsStale(n: nat, i: nat, j: nat)
    requires j < i < n
    ensures var s, store := LateEdit(n, i, j), GoodStore(n);
            !UpToDate(BulkOf(s), Batch(s, store), Passed(s), StoreAt(s, store, n), n)
  {
    var s, store := LateEdit(n, i, j), GoodStore(n);
    LateStore(n, i, j, j + 1);
    LateStore(n, i, j, n);
    hide StoreAt;
    assert Batch(s, store)[j].value.secret == Some("s");
    assert StoreAt(s, store, n)[Passed(s)[j]].fields.secret == Some("t");
  }

  /** A hook that edits the mutation of an earlier builder comes too late: the row sent is the old one. */
  lemma {:induction false} LateEditIsLost(n: nat, i: nat, j: nat, newIds: seq<Uuid>)
    requires j < i < n && |newIds| == n
    ensures var b := BulkOf(LateEdit(n, i, j));
            var w := World(GoodStore(n), Homes(n), [], []);
            CanSave(b, newIds, w) && !WritesAreCurrent(b, newIds, w)
  {
    var s := LateEdit(n, i, j);
    var w := World(GoodStore(n), Homes(n), [], []);
    LateEditPlayable(n, i, j);
    LateWriteIsStale(n, i, j);
    ScriptedSave(s, Homes(n), GoodStore(n), newIds);
    hide Save, UpToDate, Batch, StoreAt, Playable;
    var log := Save(BulkOf(s), newIds, w).1.log;
    assert log[0..] == log;
  }

  lemma LateEditEdits(n: nat, i: nat, j: nat, edits: (nat, nat) -> bool)
    requires j < i < n && edits(i, j)
    ensures Edits(BulkOf(LateEdit(n, i, j)), r => r, edits)
  {
  }

  /** Every save of n builders whose hooks edit within the relation sends current rows. */
  ghost predicate AlwaysCurrent(n: nat, edits: (nat, nat) -> bool) {
    forall b: Bulk, owner: Ref -> nat, newIds: seq<Uuid>, w: World ::
      |b.hooks| == n && CanSave(b, newIds, w) && Edits(b, owner, edits) && Assigned(owner, w.current) ==>
        WritesAreCurrent(b, newIds, w)
  }

  lemma WithinIsForward(b: Bulk, owner: Ref -> nat, edits: (nat, nat) -> bool)
    requires Edits(b, owner, edits) && forall i, j :: 0 <= j < i < |b.hooks| ==> !edits(i, j)
    ensures EditsForward(b, owner)
  {
  }

  /** Rows are current, whatever the hooks do, if and only if no builder may edit an earlier builder's mutation. */
  lemma AlwaysCurrentIff(n: nat, edits: (nat, nat) -> bool)
    ensures AlwaysCurrent(n, edits) <==> forall i, j :: 0 <= j < i < n ==> !edits(i, j)
  {
    hide Edits, WritesAreCurrent, CanSave, EditsForward;
    if forall i, j :: 0 <= j < i < n ==> !edits(i, j) {
      forall b: Bulk, owner: Ref -> nat, newIds: seq<Uuid>, w: World |
        |b.hooks| == n && CanSave(b, newIds, w) && Edits(b, owner, edits) && Assigned(owner, w.current)
        ensures WritesAreCurrent(b, newIds, w)
      {
        WithinIsForward(b, owner, edits);
        EveryWriteIsCurrent(b, owner, newIds, w);
      }
    } else {
      var i: nat, j: nat :| j < i < n && edits(i, j);
      var newIds := seq(n, x => ZERO_UUID);
      LateEditIsLost(n, i, j, newIds);
      LateEditEdits(n, i, j, edits);
      assert Assigned(r => r, Homes(n));
    }
  }
}
