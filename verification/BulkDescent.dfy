/**
 The way down through a bulk save whose hooks keep to the all-or-nothing rules and hand errors
 back: each builder's turn comes in the state its predecessors left, the first one refused ends
 it, and if none is, the batch they filled is what the database sees.
*/
module BulkDescent {
  import opened Base
  import opened CreateModel
  import opened BulkSave
  import opened BulkAtomic

  /** The argument and the state with which a builder's closure is entered. */
  datatype Turn = Turn(arg: Arg, st: State)

  /** The turns in order, and how the way down ends: with an error, or in the state of the write. */
  datatype Descent = Descent(turns: seq<Turn>, end: Result<State, Error>)

  /** What a closure has against its turn. */
  function Refusal(b: Bulk, i: nat, t: Turn): Option<Error>
    requires Shape(b, t.st) && i < |b.hooks|
  {
    if t.arg.Foreign? || t.arg.ref >= |t.st.world.store| then Some(UnexpectedMutationType)
    else Check(t.st.world.store[t.st.world.current[i]].fields)
  }

  ghost predicate HandsErrorsBack(b: Bulk) {
    AllPropagate(b) &&
    forall i, k, arg, e, w :: 0 <= i < |b.hooks| && 0 <= k < |b.hooks[i]| ==>
      b.hooks[i][k].finish(arg, Some(Failed(e)), w) == Failed(e)
  }

  /** Down from hook k of builder i. */
  ghost function Way(b: Bulk, i: nat, k: nat, arg: Arg, st: State): Descent
    requires Shape(b, st) && AllPropagate(b) && i < |b.hooks| && k <= |b.hooks[i]|
    decreases |b.hooks| - i, |b.hooks[i]| - k, 1, 0
  {
    if k < |b.hooks[i]| then
      var st1 := LogEvent(st, Enter(i, k));
      WayIn(b, i, k, arg, b.hooks[i][k].budget(arg, st1.world), st1)
    else
      var turn := Turn(arg, st);
      var rest :=
        if Refusal(b, i, turn).Some? then Descent([], Err(Refusal(b, i, turn).value))
        else
          var st1 := Adopt(b, i, arg.ref, st);
          if i + 1 < |b.hooks| then Way(b, i + 1, 0, Own(st1.world.current[i + 1]), st1) else Descent([], Ok(st1));
      Descent([turn] + rest.turns, rest.end)
  }

  /** What hook k does before it calls next; if it never does, its own error ends the way. */
  ghost function WayIn(b: Bulk, i: nat, k: nat, arg: Arg, left: nat, st: State): Descent
    requires Shape(b, st) && AllPropagate(b) && i < |b.hooks| && k < |b.hooks[i]|
    decreases |b.hooks| - i, |b.hooks[i]| - k, 0, left
  {
    if left == 0 then
      assert Propagating(b.hooks[i][k]);
      Descent([], Err(b.hooks[i][k].finish(arg, None, st.world).error))
    else
      match b.hooks[i][k].act(arg, left, None, st.world)
      case Edit(ref, change) => WayIn(b, i, k, arg, left - 1, st.(world := ApplyEdit(st.world, ref, change)))
      case Next(a) => Way(b, i, k + 1, a, st)
  }

  /** Some hook of builder i, not having called next, answers with this error. */
  ghost predicate HookRefuses(b: Bulk, i: nat, error: Error) {
    i < |b.hooks| &&
    exists k, arg, w :: 0 <= k < |b.hooks[i]| && b.hooks[i][k].finish(arg, None, w) == Failed(error)
  }

  /** Builder i's turn comes first, and so on; all are admitted but perhaps the last, whose refusal is the error. */
  ghost predicate InTurn(b: Bulk, i: nat, d: Descent)
    requires i <= |b.hooks|
  {
    var n := |d.turns|;
    && i + n <= |b.hooks|
    && (forall m :: 0 <= m < n ==> Shape(b, d.turns[m].st))
    && (forall m :: 0 <= m < n - 1 ==> Refusal(b, i + m, d.turns[m]).None?)
    && (if n > 0 && Refusal(b, i + n - 1, d.turns[n - 1]).Some? then
          d.end == Err(Refusal(b, i + n - 1, d.turns[n - 1]).value)
        else if d.end.Ok? then i + n == |b.hooks|
        else HookRefuses(b, i + n, d.end.error))
  }

  lemma {:induction false} WayInTurn(b: Bulk, i: nat, k: nat, arg: Arg, st: State)
    requires Shape(b, st) && AllPropagate(b) && i < |b.hooks| && k <= |b.hooks[i]|
    ensures InTurn(b, i, Way(b, i, k, arg, st))
    decreases |b.hooks| - i, |b.hooks[i]| - k, 1, 0
  {
    if k < |b.hooks[i]| {
      var st1 := LogEvent(st, Enter(i, k));
      HookInTurn(b, i, k, arg, b.hooks[i][k].budget(arg, st1.world), st1);
    } else if Refusal(b, i, Turn(arg, st)).None? && i + 1 < |b.hooks| {
      var st1 := Adopt(b, i, arg.ref, st);
      WayInTurn(b, i + 1, 0, Own(st1.world.current[i + 1]), st1);
      OneTurnEarlier(b, i, Turn(arg, st), Way(b, i + 1, 0, Own(st1.world.current[i + 1]), st1));
    }
  }

  lemma OneTurnEarlier(b: Bulk, i: nat, turn: Turn, rest: Descent)
    requires i < |b.hooks| && Shape(b, turn.st) && Refusal(b, i, turn).None? && InTurn(b, i + 1, rest)
    ensures InTurn(b, i, Descent([turn] + rest.turns, rest.end))
  {
  }

  lemma {:induction false} HookInTurn(b: Bulk, i: nat, k: nat, arg: Arg, left: nat, st: State)
    requires Shape(b, st) && AllPropagate(b) && i < |b.hooks| && k < |b.hooks[i]|
    ensures InTurn(b, i, WayIn(b, i, k, arg, left, st))
    decreases |b.hooks| - i, |b.hooks[i]| - k, 0, left
  {
    if left == 0 {
      assert Propagating(b.hooks[i][k]);
    } else {
      var a := b.hooks[i][k].act(arg, left, None, st.world);
      if a.Next? {
        WayInTurn(b, i, k + 1, a.arg, st);
      } else {
        HookInTurn(b, i, k, arg, left - 1, st.(world := ApplyEdit(st.world, a.ref, a.change)));
      }
    }
  }

  /** The end of the way down decides: its error and no write, or one write and what the database says to it. */
  ghost predicate Decided(b: Bulk, st: State, end: Result<State, Error>, resp: Resp, st': State) {
    var w, w' := st.world, st'.world;
    match end
    case Err(e) => resp == Failed(e) && w'.rows == w.rows && Writes(w'.log) == Writes(w.log)
    case Ok(z) =>
      && AllFilled(z.specs) && z.world.rows == w.rows && Writes(z.world.log) == Writes(w.log)
      && var refused := b.driver(w.rows, Values(z.specs), b.conflict);
         && Writes(w'.log) == Writes(w.log) + [Write(z.specs, z.world.current, z.world.store, refused.None?)]
         && w'.rows == (if refused.Some? then w.rows else w.rows + Values(z.specs))
         && if refused.Some? then resp == Failed(Translate(refused.value)) else resp.Done?
  }

  lemma QuietThenDecided(b: Bulk, a: State, st: State, end: Result<State, Error>, resp: Resp, st': State)
    requires Quiet(a, st) && Decided(b, st, end, resp, st')
    ensures Decided(b, a, end, resp, st')
  {
  }

  lemma DecidedThenQuiet(b: Bulk, st: State, end: Result<State, Error>, resp: Resp, st': State, resp': Resp, z: State)
    requires Decided(b, st, end, resp, st') && Quiet(st', z)
    requires if resp.Failed? then resp' == resp else resp'.Done?
    ensures Decided(b, st, end, resp', z)
  {
  }

  lemma {:induction false} ErrorComesBack(b: Bulk, i: nat, k: nat, arg: Arg, left: nat, e: Error, st: State)
    requires Shape(b, st) && i < |b.hooks| && k < |b.hooks[i]| && HandsErrorsBack(b)
    ensures RunHook(b, i, k, arg, left, Some(Failed(e)), st).0 == Failed(e)
    decreases left
  {
    if left > 0 {
      assert Propagating(b.hooks[i][k]);
      ErrorComesBack(b, i, k, arg, left - 1, e, Step(b, i, k, arg, left, Some(Failed(e)), st).1);
    }
  }

  lemma {:induction false} WayDecides(b: Bulk, i: nat, k: nat, arg: Arg, st: State)
    requires Shape(b, st) && HandsErrorsBack(b) && i < |b.hooks| && k <= |b.hooks[i]| && AllFilled(st.specs[..i])
    ensures var (resp, st') := Mutate(b, i, k, arg, st);
            Decided(b, st, Way(b, i, k, arg, st).end, resp, st')
    decreases |b.hooks| - i, |b.hooks[i]| - k, 1, 0
  {
    if k == |b.hooks[i]| {
      ClosureDecides(b, i, arg, st);
    } else {
      var st1 := LogEvent(st, Enter(i, k));
      var left := b.hooks[i][k].budget(arg, st1.world);
      LogIsQuiet(st, Enter(i, k));
      HookDecides(b, i, k, arg, left, st1);
      var (resp, st') := RunHook(b, i, k, arg, left, None, st1);
      QuietThenDecided(b, st, st1, WayIn(b, i, k, arg, left, st1).end, resp, st');
    }
  }

  lemma {:induction false} HookDecides(b: Bulk, i: nat, k: nat, arg: Arg, left: nat, st: State)
    requires Shape(b, st) && HandsErrorsBack(b) && i < |b.hooks| && k < |b.hooks[i]| && AllFilled(st.specs[..i])
    ensures var (resp, st') := RunHook(b, i, k, arg, left, None, st);
            Decided(b, st, WayIn(b, i, k, arg, left, st).end, resp, st')
    decreases |b.hooks| - i, |b.hooks[i]| - k, 0, left
  {
    if left == 0 {
      assert Propagating(b.hooks[i][k]);
      LogIsQuiet(st, Leave(i, k));
    } else {
      var a := b.hooks[i][k].act(arg, left, None, st.world);
      if a.Next? {
        NextDecides(b, i, k, arg, left, a.arg, st);
      } else {
        var st1 := st.(world := ApplyEdit(st.world, a.ref, a.change));
        EditIsQuiet(st, a.ref, a.change);
        HookDecides(b, i, k, arg, left - 1, st1);
        assert Step(b, i, k, arg, left, None, st) == (None, st1);
        var (resp, st') := RunHook(b, i, k, arg, left - 1, None, st1);
        QuietThenDecided(b, st, st1, WayIn(b, i, k, arg, left - 1, st1).end, resp, st');
      }
    }
  }

  lemma NextRuns(b: Bulk, i: nat, k: nat, arg: Arg, left: nat, a: Arg, st: State)
    requires Shape(b, st) && i < |b.hooks| && k < |b.hooks[i]|
    requires left > 0 && b.hooks[i][k].act(arg, left, None, st.world) == Next(a)
    ensures var (resp, st1) := Mutate(b, i, k + 1, a, st);
            && Shape(b, st1)
            && RunHook(b, i, k, arg, left, None, st) == RunHook(b, i, k, arg, left - 1, Some(resp), st1)
  {
    hide Mutate;
    var (resp, st1) := Mutate(b, i, k + 1, a, st);
    assert Step(b, i, k, arg, left, None, st) == (Some(resp), st1);
  }

  /** What a hook does after next has answered leaves the decision as it is. */
  lemma AfterNextDecided(b: Bulk, i: nat, k: nat, arg: Arg, left: nat, st: State, end: Result<State, Error>,
                         resp: Resp, st1: State)
    requires Shape(b, st1) && HandsErrorsBack(b) && i < |b.hooks| && k < |b.hooks[i]|
    requires Decided(b, st, end, resp, st1)
    ensures var (resp', z) := RunHook(b, i, k, arg, left, Some(resp), st1);
            Decided(b, st, end, resp', z)
  {
    assert Propagating(b.hooks[i][k]);
    hide RunHook, Decided, Quiet;
    AfterNext(b, i, k, arg, left, resp, st1);
    if resp.Failed? {
      ErrorComesBack(b, i, k, arg, left, resp.error, st1);
    }
    var (resp', z) := RunHook(b, i, k, arg, left, Some(resp), st1);
    DecidedThenQuiet(b, st, end, resp, st1, resp', z);
  }

  lemma {:induction false} NextDecides(b: Bulk, i: nat, k: nat, arg: Arg, left: nat, a: Arg, st: State)
    requires Shape(b, st) && HandsErrorsBack(b) && i < |b.hooks| && k < |b.hooks[i]| && AllFilled(st.specs[..i])
    requires left > 0 && b.hooks[i][k].act(arg, left, None, st.world) == Next(a)
    ensures var (resp, st') := RunHook(b, i, k, arg, left, None, st);
            Decided(b, st, Way(b, i, k + 1, a, st).end, resp, st')
    decreases |b.hooks| - i, |b.hooks[i]| - k, 0, 0
  {
    hide Decided, Way, RunHook, Mutate;
    WayDecides(b, i, k + 1, a, st);
    NextRuns(b, i, k, arg, left, a, st);
    var (resp, st1) := Mutate(b, i, k + 1, a, st);
    AfterNextDecided(b, i, k, arg, left - 1, st, Way(b, i, k + 1, a, st).end, resp, st1);
  }

  lemma {:induction false} ClosureDecides(b: Bulk, i: nat, arg: Arg, st: State)
    requires Shape(b, st) && HandsErrorsBack(b) && i < |b.hooks| && AllFilled(st.specs[..i])
    ensures var (resp, st') := Closure(b, i, arg, st);
            Decided(b, st, Way(b, i, |b.hooks[i]|, arg, st).end, resp, st')
    decreases |b.hooks| - i, 0, 0, 0
  {
    if Refusal(b, i, Turn(arg, st)).None? {
      var st1 := Adopt(b, i, arg.ref, st);
      assert st1.specs[..i + 1] == st.specs[..i] + [st1.specs[i]];
      if i + 1 < |b.hooks| {
        WayDecides(b, i + 1, 0, Own(st1.world.current[i + 1]), st1);
      } else {
        WriteDecides(b, st1);
      }
    }
  }

  lemma WriteDecides(b: Bulk, st: State)
    requires AllFilled(st.specs)
    ensures var (err, w) := Insert(b.driver, b.conflict, st.specs, st.world);
            Decided(b, st, Ok(st), if err.Some? then Failed(err.value) else Done(NotANode), st.(world := w))
  {
    var w := Insert(b.driver, b.conflict, st.specs, st.world).1;
    WritesSnoc(st.world.log, w.log[|st.world.log|]);
    assert w.log == st.world.log + [w.log[|st.world.log|]];
  }

  /**
   A bulk save whose hooks edit, swap and refuse as they like, but call next at most once and
   hand its errors back: the error is that of the first builder refused at its turn, and nothing
   is written; if none is refused, the one write is of what they filled, and the database decides.
  */
  lemma FirstRefusalDecides(b: Bulk, newIds: seq<Uuid>, w: World)
    requires CanSave(b, newIds, w) && HandsErrorsBack(b) && |b.hooks| > 0
    ensures var st := Start(b, newIds, w);
            var way := Way(b, 0, 0, Own(st.world.current[0]), st);
            var (r, z) := Save(b, newIds, w);
            && InTurn(b, 0, way)
            && exists resp, st' :: Decided(b, st, way.end, resp, st') && z == st'.world &&
                 (if resp.Failed? then r == Err(resp.error) else r == Ok(st'.nodes))
  {
    var st := Start(b, newIds, w);
    var arg := Own(st.world.current[0]);
    WayInTurn(b, 0, 0, arg, st);
    WayDecides(b, 0, 0, arg, st);
    hide Start, Way, InTurn, Decided, Mutate;
    var (resp, st') := Mutate(b, 0, 0, arg, st);
  }
}
