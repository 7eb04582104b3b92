/**
 All or nothing: when every hook calls next at most once, fails if it did not, and otherwise fails
 exactly when next did, a bulk save either inserts one complete batch and marks every mutation
 done, or changes neither the table nor any done flag. Hooks may edit before and after, swap
 mutations, refuse, wrap errors and answer with another value.
*/
module BulkAtomic {
  import opened Base
  import opened CreateModel
  import opened BulkSave

  /**
   What a hook may do beyond that: succeed without calling next, succeed after next failed, fail
   after next succeeded, and call next again.
  */
  datatype Licence = Licence(skip: bool, swallow: bool, invent: bool, again: bool)

  const NOTHING := Licence(false, false, false, false)

  ghost predicate Within(h: Hook, may: Licence) {
    && (forall arg, left, resp, w :: h.act(arg, left, Some(resp), w).Next? ==> may.again)
    && (forall arg, w :: h.finish(arg, None, w).Done? ==> may.skip)
    && (forall arg, resp: Resp, w :: resp.Failed? && h.finish(arg, Some(resp), w).Done? ==> may.swallow)
    && (forall arg, resp: Resp, w :: resp.Done? && h.finish(arg, Some(resp), w).Failed? ==> may.invent)
  }

  ghost predicate Propagating(h: Hook) {
    Within(h, NOTHING)
  }

  ghost predicate AllPropagate(b: Bulk) {
    forall i, k :: 0 <= i < |b.hooks| && 0 <= k < |b.hooks[i]| ==> Propagating(b.hooks[i][k])
  }

  /** The writes of a history, in order. */
  function Writes(log: seq<Event>): seq<Event> {
    if log == [] then []
    else Writes(log[..|log| - 1]) + (if log[|log| - 1].Write? then [log[|log| - 1]] else [])
  }

  lemma WritesSnoc(log: seq<Event>, e: Event)
    ensures Writes(log + [e]) == Writes(log) + (if e.Write? then [e] else [])
  {
  }

  /** A node reports the row that its slot sent. */
  predicate Describes(n: Option<Node>, s: Option<Spec>) {
    && n.Some? && s.Some?
    && n.value.id == (if s.value.id.Some? then s.value.id.value else ZERO_UUID)
    && n.value.secret == (if s.value.secret.Some? then s.value.secret.value else "")
    && n.value.senderProfile == s.value.senderProfile
    && n.value.providerProfile == s.value.providerProfile
  }

  predicate Described(st: State, upto: nat) {
    upto <= |st.nodes| == |st.specs| && forall j :: 0 <= j < upto ==> Describes(st.nodes[j], st.specs[j])
  }

  ghost predicate SameDone(a: World, z: World) {
    |a.store| == |z.store| && forall ref :: 0 <= ref < |a.store| ==> z.store[ref].done == a.store[ref].done
  }

  /** Nothing but edits and log entries that are not writes. */
  ghost predicate Quiet(a: State, z: State) {
    && SameDone(a.world, z.world)
    && z.specs == a.specs && z.nodes == a.nodes
    && z.world.rows == a.world.rows && z.world.current == a.world.current
    && Writes(z.world.log) == Writes(a.world.log)
  }

  /** The outcome of the chain from builder i on. */
  ghost predicate Outcome(b: Bulk, i: nat, st: State, ok: bool, st': State)
    requires Shape(b, st) && Shape(b, st') && i <= |b.hooks|
  {
    var w, w' := st.world, st'.world;
    if ok then
      && AllFilled(st'.specs) && Described(st', |b.hooks|)
      && w'.rows == w.rows + Values(st'.specs)
      && (exists e :: Writes(w'.log) == Writes(w.log) + [e] && e.Write? && e.accepted && e.batch == st'.specs)
      && |w'.store| == |w.store|
      && forall ref :: 0 <= ref < |w.store| ==>
           (w'.store[ref].done <==> w.store[ref].done || ref in w'.current[i..])
    else
      && w'.rows == w.rows && SameDone(w, w')
      && (Writes(w'.log) == Writes(w.log) ||
          exists e :: Writes(w'.log) == Writes(w.log) + [e] && e.Write? && !e.accepted)
  }

  lemma QuietThenOutcome(b: Bulk, i: nat, a: State, st: State, ok: bool, st': State)
    requires Shape(b, a) && Shape(b, st) && Shape(b, st') && i <= |b.hooks|
    requires Quiet(a, st) && Outcome(b, i, st, ok, st')
    ensures Outcome(b, i, a, ok, st')
  {
  }

  lemma OutcomeThenQuiet(b: Bulk, i: nat, st: State, ok: bool, st': State, z: State)
    requires Shape(b, st) && Shape(b, st') && Shape(b, z) && i <= |b.hooks|
    requires Outcome(b, i, st, ok, st') && Quiet(st', z)
    ensures Outcome(b, i, st, ok, z)
  {
  }

  lemma EditIsQuiet(st: State, ref: Ref, change: Fields -> Fields)
    ensures Quiet(st, st.(world := ApplyEdit(st.world, ref, change)))
  {
  }

  lemma LogIsQuiet(st: State, e: Event)
    requires !e.Write?
    ensures Quiet(st, LogEvent(st, e))
  {
  }

  /** After next has answered, a hook only edits, and succeeds iff next did. */
  lemma {:induction false} AfterNext(b: Bulk, i: nat, k: nat, arg: Arg, left: nat, resp: Resp, st: State)
    requires Shape(b, st) && i < |b.hooks| && k < |b.hooks[i]| && Propagating(b.hooks[i][k])
    ensures var r := RunHook(b, i, k, arg, left, Some(resp), st);
            (r.0.Done? <==> resp.Done?) && Quiet(st, r.1)
    decreases left
  {
    if left == 0 {
      LogIsQuiet(st, Leave(i, k));
    } else {
      var a := b.hooks[i][k].act(arg, left, Some(resp), st.world);
      EditIsQuiet(st, a.ref, a.change);
      AfterNext(b, i, k, arg, left - 1, resp, Step(b, i, k, arg, left, Some(resp), st).1);
    }
  }

  lemma {:induction false} MutateAtomic(b: Bulk, i: nat, k: nat, arg: Arg, st: State)
    requires Shape(b, st) && AllPropagate(b) && i < |b.hooks| && k <= |b.hooks[i]| && Described(st, i)
    ensures var r := Mutate(b, i, k, arg, st);
            Outcome(b, i, st, r.0.Done?, r.1)
    decreases |b.hooks| - i, |b.hooks[i]| - k, 1, 0
  {
    if k == |b.hooks[i]| {
      ClosureAtomic(b, i, arg, st);
    } else {
      var st1 := LogEvent(st, Enter(i, k));
      LogIsQuiet(st, Enter(i, k));
      var r := Mutate(b, i, k, arg, st);
      BeforeNext(b, i, k, arg, b.hooks[i][k].budget(arg, st1.world), st1);
      QuietThenOutcome(b, i, st, st1, r.0.Done?, r.1);
    }
  }

  lemma {:induction false} BeforeNext(b: Bulk, i: nat, k: nat, arg: Arg, left: nat, st: State)
    requires Shape(b, st) && AllPropagate(b) && i < |b.hooks| && k < |b.hooks[i]| && Described(st, i)
    ensures var r := RunHook(b, i, k, arg, left, None, st);
            Outcome(b, i, st, r.0.Done?, r.1)
    decreases |b.hooks| - i, |b.hooks[i]| - k, 0, left
  {
    if left == 0 {
      LogIsQuiet(st, Leave(i, k));
      return;
    }
    var a := b.hooks[i][k].act(arg, left, None, st.world);
    if a.Next? {
      CallNext(b, i, k, arg, left, a.arg, st);
    } else {
      var st1 := st.(world := ApplyEdit(st.world, a.ref, a.change));
      EditIsQuiet(st, a.ref, a.change);
      assert Step(b, i, k, arg, left, None, st) == (None, st1);
      BeforeNext(b, i, k, arg, left - 1, st1);
      var r := RunHook(b, i, k, arg, left - 1, None, st1);
      QuietThenOutcome(b, i, st, st1, r.0.Done?, r.1);
    }
  }

  lemma {:induction false} CallNext(b: Bulk, i: nat, k: nat, arg: Arg, left: nat, a: Arg, st: State)
    requires Shape(b, st) && AllPropagate(b) && i < |b.hooks| && k < |b.hooks[i]| && Described(st, i)
    requires left > 0 && b.hooks[i][k].act(arg, left, None, st.world) == Next(a)
    ensures var r := RunHook(b, i, k, arg, left, None, st);
            Outcome(b, i, st, r.0.Done?, r.1)
    decreases |b.hooks| - i, |b.hooks[i]| - k, 0, 0
  {
    MutateAtomic(b, i, k + 1, a, st);
    var (resp, st1) := Mutate(b, i, k + 1, a, st);
    assert Step(b, i, k, arg, left, None, st) == (Some(resp), st1);
    AfterNext(b, i, k, arg, left - 1, resp, st1);
    OutcomeThenQuiet(b, i, st, resp.Done?, st1, RunHook(b, i, k, arg, left - 1, Some(resp), st1).1);
  }

  lemma {:induction false} ClosureAtomic(b: Bulk, i: nat, arg: Arg, st: State)
    requires Shape(b, st) && AllPropagate(b) && i < |b.hooks| && Described(st, i)
    ensures var r := Closure(b, i, arg, st);
            Outcome(b, i, st, r.0.Done?, r.1)
    decreases |b.hooks| - i, 0, 0, 0
  {
    if arg.Own? && arg.ref < |st.world.store| && Check(st.world.store[st.world.current[i]].fields).None? {
      AdoptDescribes(b, i, arg.ref, st);
      var st1 := Adopt(b, i, arg.ref, st);
      DescendAtomic(b, i, st1);
      var (err, st2) := Descend(b, i, st1);
      hide Adopt, Descend, Outcome, Described;
      AdoptedOutcome(b, i, arg.ref, st, err.None?, st2);
    }
  }

  lemma AdoptDescribes(b: Bulk, i: nat, ref: Ref, st: State)
    requires Shape(b, st) && i < |b.hooks| && Described(st, i) && ref < |st.world.store|
    ensures Described(Adopt(b, i, ref, st), i + 1)
  {
  }

  /** The outcome from builder i + 1 on, seen from before builder i adopted ref, once ref is marked done too. */
  lemma {:induction false} AdoptedOutcome(b: Bulk, i: nat, ref: Ref, st: State, ok: bool, st2: State)
    requires Shape(b, st) && i < |b.hooks| && ref < |st.world.store|
    requires var st1 := Adopt(b, i, ref, st); Keeps(b, i + 1, st1, st2) && Outcome(b, i + 1, st1, ok, st2)
    ensures Outcome(b, i, st, ok, if ok then MarkDone(i, ref, st2) else st2)
  {
    var st1 := Adopt(b, i, ref, st);
    if ok {
      assert st1.world.current[..i + 1][i] == st2.world.current[..i + 1][i];
      assert st2.world.current[i..] == [ref] + st2.world.current[i + 1..];
    }
  }

  lemma {:induction false} DescendAtomic(b: Bulk, i: nat, st: State)
    requires Shape(b, st) && AllPropagate(b) && i < |b.hooks| && Described(st, i + 1)
    ensures var r := Descend(b, i, st);
            Outcome(b, i + 1, st, r.0.None?, r.1)
    decreases |b.hooks| - i - 1, if i + 1 < |b.hooks| then |b.hooks[i + 1]| + 1 else 0, 0, 0
  {
    if i + 1 < |b.hooks| {
      MutateAtomic(b, i + 1, 0, Own(st.world.current[i + 1]), st);
    } else {
      var (err, w) := Insert(b.driver, b.conflict, st.specs, st.world);
      WritesSnoc(st.world.log, w.log[|st.world.log|]);
      assert w.log == st.world.log + [w.log[|st.world.log|]];
    }
  }

  /** The all-or-nothing law of a bulk save. */
  ghost predicate Atomic(b: Bulk, newIds: seq<Uuid>, w: World)
    requires CanSave(b, newIds, w) && |b.hooks| > 0
  {
    var st := Start(b, newIds, w);
    var (resp, st') := Mutate(b, 0, 0, Own(st.world.current[0]), st);
    var (r, z) := Save(b, newIds, w);
    && z == st'.world && (r.Ok? <==> resp.Done?) && (r.Ok? ==> r.value == st'.nodes)
    && Outcome(b, 0, st, r.Ok?, st')
  }

  lemma AllOrNothing(b: Bulk, newIds: seq<Uuid>, w: World)
    requires CanSave(b, newIds, w) && AllPropagate(b) && |b.hooks| > 0
    ensures Atomic(b, newIds, w)
  {
    var st := Start(b, newIds, w);
    MutateAtomic(b, 0, 0, Own(st.world.current[0]), st);
  }

  /** A bulk save of no builders succeeds without a write. */
  lemma EmptySave(b: Bulk, w: World)
    requires CanSave(b, [], w) && |b.hooks| == 0
    ensures Save(b, [], w) == (Ok([]), w)
  {
  }

  function Forgiving(n: Node): Hook {
    Hook((arg, w) => 1, (arg, left, last, w) => Next(arg), (arg, last, w) => Done(ANode(n)))
  }

  const RefuseAll: Driver := (rows, batch, conflict) => Some(ConstraintViolation)

  function Fine(): Mutation {
    Mutation(Fields(None, Some("s"), None, None, {}), false)
  }

  function SwallowBulk(): Bulk {
    Bulk([[], [Forgiving(Node(8, "s", None, None))]], [[], []], [], RefuseAll)
  }

  lemma SwallowStarts()
    ensures Start(SwallowBulk(), [7, 8], World([Fine(), Fine()], [0, 1], [], [])).world.store ==
            [WithDefaults(Fine(), 7), WithDefaults(Fine(), 8)]
  {
    var w := World([Fine(), Fine()], [0, 1], [], []);
    assert Defaults(w, [7, 8], 0) == w;
    assert Defaults(w, [7, 8], 1).store == [WithDefaults(Fine(), 7), Fine()];
  }

  /** The write of the last builder is refused. */
  lemma LastIsRefused(st: State)
    requires Shape(SwallowBulk(), st) && st.world.rows == [] && st.specs[0].Some?
    requires st.world.store == [WithDefaults(Fine(), 7), WithDefaults(Fine(), 8)] && st.world.current == [0, 1]
    ensures var (resp, z) := Closure(SwallowBulk(), 1, Own(1), st);
            resp.Failed? && z.world.rows == [] && z.world.store == st.world.store
  {
  }

  lemma RefusalIsSwallowed(st: State)
    requires Shape(SwallowBulk(), st) && st.world.rows == [] && st.specs[0].Some?
    requires st.world.store == [WithDefaults(Fine(), 7), WithDefaults(Fine(), 8)] && st.world.current == [0, 1]
    ensures var (resp, z) := Mutate(SwallowBulk(), 1, 0, Own(1), st);
            resp.Done? && z.world.rows == [] && z.world.store == st.world.store
  {
    var b := SwallowBulk();
    var st1 := LogEvent(st, Enter(1, 0));
    LastIsRefused(st1);
    hide Closure;
    var (resp, st2) := Mutate(b, 1, 1, Own(1), st1);
    assert Step(b, 1, 0, Own(1), 1, None, st1) == (Some(resp), st2);
    assert Mutate(b, 1, 0, Own(1), st) == (Done(ANode(Node(8, "s", None, None))), LogEvent(st2, Leave(1, 0)));
  }

  /** One hook that swallows the error of a refused write is enough to break the law. */
  lemma SwallowedErrorBreaksTheLaw()
    ensures var (r, z) := Save(SwallowBulk(), [7, 8], World([Fine(), Fine()], [0, 1], [], []));
            r.Ok? && z.rows == [] && z.store[0].done && !z.store[1].done
  {
    var b := SwallowBulk();
    SwallowStarts();
    var st := Start(b, [7, 8], World([Fine(), Fine()], [0, 1], [], []));
    hide Start, Defaults;
    var st1 := Adopt(b, 0, 0, st);
    RefusalIsSwallowed(st1);
    assert Mutate(b, 0, 0, Own(0), st) == Closure(b, 0, Own(0), st);
  }
}
