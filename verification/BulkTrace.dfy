/**
 The exact run of a bulk save whose hooks only observe: which builder fails first, what is
 sent, and the order in which hooks are entered and left.
*/
module BulkTrace {
  import opened Base
  import opened CreateModel
  import opened BulkSave

  ghost predicate Observer(h: Hook) {
    && (forall arg, w :: h.budget(arg, w) == 1)
    && (forall arg, left, last, w :: h.act(arg, left, last, w) == Next(arg))
    && (forall arg, resp, w :: h.finish(arg, Some(resp), w) == resp)
  }

  ghost predicate AllObserve(b: Bulk) {
    forall i, k :: 0 <= i < |b.hooks| && 0 <= k < |b.hooks[i]| ==> Observer(b.hooks[i][k])
  }

  function CurrentFields(w: World, j: nat): Fields
    requires j < |w.current| && w.current[j] < |w.store|
  {
    w.store[w.current[j]].fields
  }

  /** The first builder from i on whose mutation fails its check, or n. */
  function FirstFailure(b: Bulk, st: State, i: nat): (f: nat)
    requires Shape(b, st) && i <= |b.hooks|
    ensures i <= f <= |b.hooks|
    ensures forall j :: i <= j < f ==> Check(CurrentFields(st.world, j)).None?
    ensures f < |b.hooks| ==> Check(CurrentFields(st.world, f)).Some?
    decreases |b.hooks| - i
  {
    if i == |b.hooks| || Check(CurrentFields(st.world, i)).Some? then i else FirstFailure(b, st, i + 1)
  }

  /** Hooks entered from hook k of builder i down to the last hook of builder f, or of the last builder. */
  function Opening(b: Bulk, i: nat, k: nat, f: nat): (o: seq<Event>)
    requires i < |b.hooks| && k <= |b.hooks[i]|
    decreases |b.hooks| - i, |b.hooks[i]| - k
  {
    if k < |b.hooks[i]| then [Enter(i, k)] + Opening(b, i, k + 1, f)
    else if i < f && i + 1 < |b.hooks| then Opening(b, i + 1, 0, f)
    else []
  }

  /** The matching exits, innermost first. */
  function Mirror(o: seq<Event>): (c: seq<Event>) {
    if o == [] then []
    else Mirror(o[1..]) + (if o[0].Enter? then [Leave(o[0].builder, o[0].hook)] else [])
  }

  /** The batch the observers' run sends. */
  ghost predicate Sends(b: Bulk, w: World, batch: seq<Option<Spec>>, from: nat) {
    && |batch| == |b.hooks| == |w.current| == |b.conflicts|
    && forall j :: from <= j < |batch| ==>
         w.current[j] < |w.store| && batch[j] == Some(SpecOf(CurrentFields(w, j), b.conflicts[j]))
  }

  /** What happens in the middle: nothing if a builder fails its check, else the one write. */
  function Core(b: Bulk, st: State, i: nat, resp: Resp, st': State): seq<Event>
    requires Shape(b, st) && i <= |b.hooks|
  {
    if FirstFailure(b, st, i) < |b.hooks| then []
    else [Write(st'.specs, st.world.current, st.world.store, resp.Done?)]
  }

  /** The verdict: the first failed check, or else what the database says to the batch. */
  ghost predicate Verdict(b: Bulk, i: nat, st: State, resp: Resp, st': State)
    requires Shape(b, st) && i <= |b.hooks|
  {
    var f := FirstFailure(b, st, i);
    if f < |b.hooks| then
      resp == Failed(Check(CurrentFields(st.world, f)).value)
    else
      && Sends(b, st.world, st'.specs, i)
      && (AllFilled(st'.specs) ==>
            var refused := b.driver(st.world.rows, Values(st'.specs), b.conflict);
            if refused.Some? then resp == Failed(Translate(refused.value)) else resp.Done?)
  }

  /** From hook k of builder i the history grows by entries, the middle, and the mirrored exits. */
  ghost predicate Nested(b: Bulk, i: nat, k: nat, st: State, resp: Resp, st': State)
    requires Shape(b, st) && i < |b.hooks| && k <= |b.hooks[i]|
  {
    var o := Opening(b, i, k, FirstFailure(b, st, i));
    st'.world.log == st.world.log + o + Core(b, st, i, resp, st') + Mirror(o)
  }

  lemma {:induction false} ObserverRun(b: Bulk, i: nat, k: nat, st: State)
    requires Shape(b, st) && AllObserve(b) && i < |b.hooks| && k <= |b.hooks[i]|
    ensures var (resp, st') := Mutate(b, i, k, Own(st.world.current[i]), st);
            Nested(b, i, k, st, resp, st') && Verdict(b, i, st, resp, st')
    decreases |b.hooks| - i, |b.hooks[i]| - k, 1
  {
    if k < |b.hooks[i]| {
      var st1 := LogEvent(st, Enter(i, k));
      ObserverRun(b, i, k + 1, st1);
      var (resp, st2) := Mutate(b, i, k + 1, Own(st.world.current[i]), st1);
      ObserverStep(b, i, k, Own(st.world.current[i]), st);
      Enclose(b, i, k, st, resp, st2);
      EncloseVerdict(b, i, k, st, resp, st2);
    } else {
      ObserverClosure(b, i, st);
    }
  }

  lemma {:induction false} ObserverClosure(b: Bulk, i: nat, st: State)
    requires Shape(b, st) && AllObserve(b) && i < |b.hooks|
    ensures var (resp, st') := Closure(b, i, Own(st.world.current[i]), st);
            Nested(b, i, |b.hooks[i]|, st, resp, st') && Verdict(b, i, st, resp, st')
    decreases |b.hooks| - i, 0, 0
  {
    if FirstFailure(b, st, i) > i {
      if i + 1 < |b.hooks| {
        ObserverRun(b, i + 1, 0, Adopt(b, i, st.world.current[i], st));
      }
      ThroughClosure(b, i, st);
    }
  }

  /** Bracketing a run by one more hook keeps it nested and its verdict the same. */
  lemma Enclose(b: Bulk, i: nat, k: nat, st: State, resp: Resp, st2: State)
    requires Shape(b, st) && i < |b.hooks| && k < |b.hooks[i]|
    requires Nested(b, i, k + 1, LogEvent(st, Enter(i, k)), resp, st2)
    ensures Nested(b, i, k, st, resp, LogEvent(st2, Leave(i, k)))
  {
    var st1 := LogEvent(st, Enter(i, k));
    SameFailure(b, st, st1, i);
    var o := Opening(b, i, k + 1, FirstFailure(b, st, i));
    var core := Core(b, st1, i, resp, st2);
    assert core == Core(b, st, i, resp, LogEvent(st2, Leave(i, k)));
    MirrorCons(Enter(i, k), o);
    Bracket(st.world.log, Enter(i, k), o, core, Mirror(o), Leave(i, k));
  }

  lemma EncloseVerdict(b: Bulk, i: nat, k: nat, st: State, resp: Resp, st2: State)
    requires Shape(b, st) && i < |b.hooks|
    requires Verdict(b, i, LogEvent(st, Enter(i, k)), resp, st2)
    ensures Verdict(b, i, st, resp, LogEvent(st2, Leave(i, k)))
  {
    SameFailure(b, st, LogEvent(st, Enter(i, k)), i);
  }

  lemma MirrorCons(e: Event, o: seq<Event>)
    requires e.Enter?
    ensures Mirror([e] + o) == Mirror(o) + [Leave(e.builder, e.hook)]
  {
  }

  lemma Bracket(log: seq<Event>, e: Event, o: seq<Event>, core: seq<Event>, c: seq<Event>, l: Event)
    ensures log + [e] + o + core + c + [l] == log + ([e] + o) + core + (c + [l])
  {
  }

  /** An observing hook only brackets what lies inside it. */
  lemma ObserverStep(b: Bulk, i: nat, k: nat, arg: Arg, st: State)
    requires Shape(b, st) && AllObserve(b) && i < |b.hooks| && k < |b.hooks[i]|
    ensures var (resp, st2) := Mutate(b, i, k + 1, arg, LogEvent(st, Enter(i, k)));
            Mutate(b, i, k, arg, st) == (resp, LogEvent(st2, Leave(i, k)))
  {
    var st1 := LogEvent(st, Enter(i, k));
    var (resp, st2) := Mutate(b, i, k + 1, arg, st1);
    assert Observer(b.hooks[i][k]);
    assert Step(b, i, k, arg, 1, None, st1) == (Some(resp), st2);
    assert RunHook(b, i, k, arg, 1, None, st1) == RunHook(b, i, k, arg, 0, Some(resp), st2);
  }

  lemma ThroughClosure(b: Bulk, i: nat, st: State)
    requires Shape(b, st) && i < |b.hooks| && FirstFailure(b, st, i) > i
    requires var st1 := Adopt(b, i, st.world.current[i], st);
             i + 1 < |b.hooks| ==>
               var (resp, st') := Mutate(b, i + 1, 0, Own(st1.world.current[i + 1]), st1);
               Nested(b, i + 1, 0, st1, resp, st') && Verdict(b, i + 1, st1, resp, st')
    ensures var (resp, st') := Closure(b, i, Own(st.world.current[i]), st);
            Nested(b, i, |b.hooks[i]|, st, resp, st') && Verdict(b, i, st, resp, st')
  {
    var st1 := Adopt(b, i, st.world.current[i], st);
    assert st1.world == st.world;
    SameFailure(b, st, st1, i + 1);
    var (err, st2) := Descend(b, i, st1);
    assert st2.specs[i] == st1.specs[i] by {
      assert st1.specs[..i + 1][i] == st2.specs[..i + 1][i];
    }
    if i + 1 == |b.hooks| {
      var w := Insert(b.driver, b.conflict, st1.specs, st1.world).1;
      assert w.log == st.world.log + [w.log[|st.world.log|]];
    }
  }

  lemma {:induction false} SameFailure(b: Bulk, a: State, z: State, i: nat)
    requires Shape(b, a) && Shape(b, z) && i <= |b.hooks|
    requires a.world.store == z.world.store && a.world.current == z.world.current
    ensures FirstFailure(b, a, i) == FirstFailure(b, z, i)
    decreases |b.hooks| - i
  {
    if i < |b.hooks| {
      SameFailure(b, a, z, i + 1);
    }
  }

  /**
   A bulk save with observing hooks: if some mutation fails its check after defaults, the
   error is that of the first one and nothing is written; otherwise one write carries the
   spec of every builder in order and the database decides. Either way the hooks are
   entered in order and left in exactly the reverse order, around the write.
  */
  lemma ObservedSave(b: Bulk, newIds: seq<Uuid>, w: World)
    requires CanSave(b, newIds, w) && AllObserve(b) && |b.hooks| > 0
    ensures var st := Start(b, newIds, w);
            var f := FirstFailure(b, st, 0);
            var (r, z) := Save(b, newIds, w);
            var o := Opening(b, 0, 0, f);
            if f < |b.hooks| then
              r == Err(Check(CurrentFields(st.world, f)).value) && z.log == w.log + o + Mirror(o)
            else
              exists batch ::
                && Sends(b, st.world, batch, 0) && AllFilled(batch)
                && z.log == w.log + o + [Write(batch, w.current, st.world.store, r.Ok?)] + Mirror(o)
                && var refused := b.driver(w.rows, Values(batch), b.conflict);
                   if refused.Some? then r == Err(Translate(refused.value)) else r.Ok?
  {
    var st := Start(b, newIds, w);
    ObserverRun(b, 0, 0, st);
    var (resp, st') := Mutate(b, 0, 0, Own(st.world.current[0]), st);
    var o := Opening(b, 0, 0, FirstFailure(b, st, 0));
    if FirstFailure(b, st, 0) < |b.hooks| {
      assert w.log + o + [] + Mirror(o) == w.log + o + Mirror(o);
    } else {
      assert Sends(b, st.world, st'.specs, 0);
    }
  }

  /** Exits are the entries read backwards. */
  lemma {:induction false} MirrorReverses(o: seq<Event>)
    requires forall e :: e in o ==> e.Enter?
    ensures |Mirror(o)| == |o|
    ensures forall m :: 0 <= m < |o| ==>
              Mirror(o)[|o| - 1 - m] == Leave(o[m].builder, o[m].hook)
  {
    if o != [] {
      MirrorReverses(o[1..]);
    }
  }

  /** Exactly the hooks from hook k of builder i to the last hook of builder f are entered. */
  lemma {:induction false} OpeningMembers(b: Bulk, i: nat, k: nat, f: nat)
    requires i < |b.hooks| && k <= |b.hooks[i]|
    ensures forall e :: e in Opening(b, i, k, f) ==>
              e.Enter? && e.builder < |b.hooks| && e.hook < |b.hooks[e.builder]| &&
              ((e.builder == i && e.hook >= k) || i < e.builder <= f)
    ensures forall j: nat, m: nat ::
              (i < j <= f && j < |b.hooks| && m < |b.hooks[j]|) || (j == i && k <= m < |b.hooks[i]|)
              ==> Enter(j, m) in Opening(b, i, k, f)
    decreases |b.hooks| - i, |b.hooks[i]| - k
  {
    if k < |b.hooks[i]| {
      OpeningMembers(b, i, k + 1, f);
    } else if i < f && i + 1 < |b.hooks| {
      OpeningMembers(b, i + 1, 0, f);
    }
  }

  ghost predicate InOrder(o: seq<Event>) {
    forall x, y :: 0 <= x < y < |o| ==>
      && o[x].Enter? && o[y].Enter?
      && (o[x].builder < o[y].builder || (o[x].builder == o[y].builder && o[x].hook < o[y].hook))
  }

  /** Entries come builder by builder, and within a builder outermost hook first. */
  lemma {:induction false} OpeningInOrder(b: Bulk, i: nat, k: nat, f: nat)
    requires i < |b.hooks| && k <= |b.hooks[i]|
    ensures InOrder(Opening(b, i, k, f))
    decreases |b.hooks| - i, |b.hooks[i]| - k
  {
    if k < |b.hooks[i]| {
      OpeningInOrder(b, i, k + 1, f);
      OpeningMembers(b, i, k + 1, f);
      var o := Opening(b, i, k + 1, f);
      assert forall y :: 0 <= y < |o| ==> o[y] in o;
    } else if i < f && i + 1 < |b.hooks| {
      OpeningInOrder(b, i + 1, 0, f);
    }
  }
}
