/**
 What a caller gets from a save whose hooks only observe: which error, which rows, which nodes and
 which mutations, all in terms of the fields that were set before it.
*/
module SaveContents {
  import opened Base
  import opened CreateModel
  import opened BulkSave
  import opened BulkAtomic
  import opened BulkTrace
  import S = SingleSave

  /** The id that was set, or else the new one. */
  function IdFor(f: Fields, newId: Uuid): Uuid {
    if f.id.Some? then f.id.value else newId
  }

  predicate HasSecret(f: Fields) {
    f.secret.Some? && f.secret.value != ""
  }

  function SecretError(f: Fields): Error {
    if f.secret.None? then MissingField("secret") else ValidatorFailed("secret")
  }

  function DatabaseError(e: DbError): Error {
    match e
    case ConstraintViolation => ConstraintError
    case OtherDbError(code) => DriverError(code)
  }

  /** The row holds what was set, under that id. */
  predicate RowHolds(row: Spec, f: Fields, newId: Uuid, conflict: Conflict) {
    && row.id == Some(IdFor(f, newId)) && row.secret == f.secret
    && row.senderProfile == f.senderProfile && row.providerProfile == f.providerProfile
    && row.paymentOrders == f.paymentOrders && row.conflict == conflict
  }

  predicate NodeHolds(n: Node, f: Fields, newId: Uuid) {
    && n.id == IdFor(f, newId) && Some(n.secret) == f.secret
    && n.senderProfile == f.senderProfile && n.providerProfile == f.providerProfile
  }

  /** The mutation is done, and differs from what it was in its id at most. */
  predicate IsSaved(m: Mutation, f: Fields, newId: Uuid) {
    m.done && m.fields == Fields(Some(IdFor(f, newId)), f.secret, f.senderProfile, f.providerProfile, f.paymentOrders)
  }

  /** Nothing was inserted and no mutation newly marked. */
  ghost predicate NothingSaved(w: World, z: World) {
    && z.rows == w.rows && |z.store| == |w.store|
    && forall ref :: 0 <= ref < |w.store| ==> z.store[ref].done == w.store[ref].done
  }

  function FieldsAt(w: World, j: nat): Fields
    requires j < |w.current| && w.current[j] < |w.store|
  {
    w.store[w.current[j]].fields
  }

  // ------------------------------------------------------------------ defaults

  /** The fields with the id that a save will use. */
  function WithId(f: Fields, newId: Uuid): Fields {
    Fields(Some(IdFor(f, newId)), f.secret, f.senderProfile, f.providerProfile, f.paymentOrders)
  }

  ghost predicate Prepared(w: World, newIds: seq<Uuid>, upto: nat, z: World)
    requires upto <= |w.current| == |newIds|
    requires forall j :: 0 <= j < |w.current| ==> w.current[j] < |w.store|
  {
    && |z.store| == |w.store| && z.current == w.current && z.rows == w.rows && z.log == w.log
    && (forall ref :: 0 <= ref < |w.store| ==> z.store[ref].done == w.store[ref].done)
    && (forall j :: 0 <= j < upto ==> z.store[w.current[j]].fields == WithId(FieldsAt(w, j), newIds[j]))
    && (forall ref :: 0 <= ref < |w.store| && ref !in w.current[..upto] ==> z.store[ref] == w.store[ref])
  }

  lemma {:induction false} DefaultsPrepare(w: World, newIds: seq<Uuid>, upto: nat)
    requires upto <= |w.current| == |newIds| && Distinct(w.current)
    requires forall j :: 0 <= j < |w.current| ==> w.current[j] < |w.store|
    ensures Prepared(w, newIds, upto, Defaults(w, newIds, upto))
  {
    hide Prepared, WithDefaults;
    if upto == 0 {
      NothingPrepared(w, newIds);
    } else {
      DefaultsPrepare(w, newIds, upto - 1);
      PrepareOne(w, newIds, upto - 1, Defaults(w, newIds, upto - 1));
    }
  }

  lemma NothingPrepared(w: World, newIds: seq<Uuid>)
    requires |w.current| == |newIds| && forall j :: 0 <= j < |w.current| ==> w.current[j] < |w.store|
    ensures Prepared(w, newIds, 0, w)
  {
  }

  lemma PrepareOne(w: World, newIds: seq<Uuid>, i: nat, z: World)
    requires i < |w.current| == |newIds| && Distinct(w.current)
    requires forall j :: 0 <= j < |w.current| ==> w.current[j] < |w.store|
    requires Prepared(w, newIds, i, z)
    ensures var ref := w.current[i];
            Prepared(w, newIds, i + 1, z.(store := z.store[ref := WithDefaults(z.store[ref], newIds[i])]))
  {
    var ref := w.current[i];
    assert w.current[..i + 1] == w.current[..i] + [ref];
    assert forall j :: 0 <= j < i ==> w.current[j] != ref;
    assert ref !in w.current[..i];
    assert WithDefaults(z.store[ref], newIds[i]) == Mutation(WithId(FieldsAt(w, i), newIds[i]), w.store[ref].done);
    hide WithDefaults, WithId, Distinct;
  }

  // ------------------------------------------------------------------ a bulk save

  /** What the closures leave in the store: from builder i on every mutation saved, or all as it was. */
  ghost predicate Marked(a: World, z: World, i: nat, ok: bool) {
    && |a.store| == |z.store| && z.current == a.current && i <= |a.current|
    && (forall j :: 0 <= j < |a.current| ==> a.current[j] < |a.store|)
    && (!ok ==> z.store == a.store)
    && (ok ==>
          && (forall j :: i <= j < |a.current| ==> IsSaved(z.store[a.current[j]], FieldsAt(a, j), ZERO_UUID))
          && (forall ref :: 0 <= ref < |a.store| && ref !in a.current[i..] ==> z.store[ref] == a.store[ref]))
  }

  lemma {:induction false} ObserversMark(b: Bulk, i: nat, k: nat, st: State)
    requires Shape(b, st) && AllObserve(b) && i < |b.hooks| && k <= |b.hooks[i]| && Distinct(st.world.current)
    ensures var (resp, st') := Mutate(b, i, k, Own(st.world.current[i]), st);
            Marked(st.world, st'.world, i, resp.Done?)
    decreases |b.hooks| - i, |b.hooks[i]| - k, 1
  {
    if k < |b.hooks[i]| {
      ObserversMark(b, i, k + 1, LogEvent(st, Enter(i, k)));
      ObserverStep(b, i, k, Own(st.world.current[i]), st);
    } else {
      ObserverClosureMarks(b, i, st);
    }
  }

  lemma {:induction false} ObserverClosureMarks(b: Bulk, i: nat, st: State)
    requires Shape(b, st) && AllObserve(b) && i < |b.hooks| && Distinct(st.world.current)
    ensures var (resp, st') := Closure(b, i, Own(st.world.current[i]), st);
            Marked(st.world, st'.world, i, resp.Done?)
    decreases |b.hooks| - i, 0, 0
  {
    var ref := st.world.current[i];
    if Check(st.world.store[ref].fields).None? {
      var st1 := Adopt(b, i, ref, st);
      assert st1.world == st.world;
      var (err, st2) := Descend(b, i, st1);
      if i + 1 < |b.hooks| {
        ObserversMark(b, i + 1, 0, st1);
      }
      assert st2.nodes[i] == st1.nodes[i] by {
        assert st1.nodes[..i + 1][i] == st2.nodes[..i + 1][i];
      }
      hide Descend, Closure;
      if err.None? {
        MarkOneMore(i, ref, st1.world, st2);
      }
    }
  }

  lemma MarkOneMore(i: nat, ref: Ref, w: World, st: State)
    requires i < |w.current| && w.current[i] == ref && ref < |w.store| && Distinct(w.current)
    requires Marked(w, st.world, i + 1, true)
    requires i < |st.nodes| && st.nodes[i] == Some(NodeOf(w.store[ref].fields))
    ensures Marked(w, MarkDone(i, ref, st).world, i, true)
  {
    assert w.current[i..] == [ref] + w.current[i + 1..];
    assert ref !in w.current[i + 1..];
    assert forall j :: i + 1 <= j < |w.current| ==> w.current[j] != ref;
  }

  /** What reaches the table and the nodes: from builder i on those of the mutations, or nothing. */
  ghost predicate Inserted(b: Bulk, st: State, st': State, i: nat, ok: bool)
    requires Shape(b, st) && Shape(b, st')
  {
    && (!ok ==> st'.world.rows == st.world.rows)
    && (ok ==>
          && AllFilled(st'.specs) && st'.world.rows == st.world.rows + Values(st'.specs)
          && forall j :: i <= j < |b.hooks| ==> st'.nodes[j] == Some(NodeOf(FieldsAt(st.world, j))))
  }

  lemma {:induction false} ObserversInsert(b: Bulk, i: nat, k: nat, st: State)
    requires Shape(b, st) && AllObserve(b) && i < |b.hooks| && k <= |b.hooks[i]|
    ensures var (resp, st') := Mutate(b, i, k, Own(st.world.current[i]), st);
            Inserted(b, st, st', i, resp.Done?)
    decreases |b.hooks| - i, |b.hooks[i]| - k, 1
  {
    if k < |b.hooks[i]| {
      ObserversInsert(b, i, k + 1, LogEvent(st, Enter(i, k)));
      ObserverStep(b, i, k, Own(st.world.current[i]), st);
    } else {
      ObserverClosureInserts(b, i, st);
    }
  }

  lemma {:induction false} ObserverClosureInserts(b: Bulk, i: nat, st: State)
    requires Shape(b, st) && AllObserve(b) && i < |b.hooks|
    ensures var (resp, st') := Closure(b, i, Own(st.world.current[i]), st);
            Inserted(b, st, st', i, resp.Done?)
    decreases |b.hooks| - i, 0, 0
  {
    var ref := st.world.current[i];
    if Check(st.world.store[ref].fields).None? {
      var st1 := Adopt(b, i, ref, st);
      assert st1.world == st.world;
      var (err, st2) := Descend(b, i, st1);
      if i + 1 < |b.hooks| {
        ObserversInsert(b, i + 1, 0, st1);
      }
      assert st2.nodes[i] == st1.nodes[i] by {
        assert st1.nodes[..i + 1][i] == st2.nodes[..i + 1][i];
      }
    }
  }

  /** The check passes exactly when a secret was set, and else names what is wrong with it. */
  lemma PreparedCheck(f: Fields, newId: Uuid)
    ensures Check(WithId(f, newId)) == if HasSecret(f) then None else Some(SecretError(f))
  {
  }

  /** The first builder whose mutation has no good secret, or n. */
  ghost predicate FirstBad(w: World, f: nat)
    requires forall j :: 0 <= j < |w.current| ==> w.current[j] < |w.store|
  {
    && f <= |w.current| && (forall j :: 0 <= j < f ==> HasSecret(FieldsAt(w, j)))
    && (f < |w.current| ==> !HasSecret(FieldsAt(w, f)))
  }

  /** The outcome of a save that gets to its write, by what the database says to the batch. */
  ghost predicate Written(b: Bulk, newIds: seq<Uuid>, w: World, batch: seq<Spec>,
                          r: Result<seq<Option<Node>>, Error>, z: World)
    requires CanSave(b, newIds, w)
  {
    && |batch| == |b.hooks|
    && (forall j :: 0 <= j < |batch| ==> RowHolds(batch[j], FieldsAt(w, j), newIds[j], b.conflicts[j]))
    && match b.driver(w.rows, batch, b.conflict)
       case Some(e) => r == Err(DatabaseError(e)) && NothingSaved(w, z)
       case None =>
         && r.Ok? && |r.value| == |batch| && z.rows == w.rows + batch
         && z.current == w.current && |z.store| == |w.store|
         && forall j :: 0 <= j < |batch| ==>
              && r.value[j].Some? && NodeHolds(r.value[j].value, FieldsAt(w, j), newIds[j])
              && IsSaved(z.store[w.current[j]], FieldsAt(w, j), newIds[j])
  }

  /**
   A bulk save with observing hooks of mutations that are all different. If one lacks a secret or
   has an empty one, the error names that of the first, and nothing is saved. Otherwise the
   database gets one row per builder, in order, that holds exactly what was set, under the id
   that was set or else the new one, with the builder's conflict options; if it takes them, the
   nodes say the same and every mutation is marked done with its id.
  */
  lemma ObservedSaveTells(b: Bulk, newIds: seq<Uuid>, w: World, f: nat)
    requires CanSave(b, newIds, w) && AllObserve(b) && |b.hooks| > 0 && Distinct(w.current) && FirstBad(w, f)
    ensures var (r, z) := Save(b, newIds, w);
            if f < |b.hooks| then r == Err(SecretError(FieldsAt(w, f))) && NothingSaved(w, z)
            else exists batch :: Written(b, newIds, w, batch, r, z)
  {
    var st := Start(b, newIds, w);
    DefaultsPrepare(w, newIds, |b.hooks|);
    StartTells(b, newIds, w, f);
    ObserverRun(b, 0, 0, st);
    ObserversMark(b, 0, 0, st);
    ObserversInsert(b, 0, 0, st);
    SaveIs(b, newIds, w);
    var (resp, st') := Mutate(b, 0, 0, Own(st.world.current[0]), st);
    hide Mutate, Start, Defaults, FirstFailure, Save, Written, Sends;
    if f < |b.hooks| {
      assert NothingSaved(w, st'.world);
    } else {
      WrittenFromPrepared(b, newIds, w, st, resp, st');
    }
  }

  lemma SaveIs(b: Bulk, newIds: seq<Uuid>, w: World)
    requires CanSave(b, newIds, w) && |b.hooks| > 0
    ensures var st := Start(b, newIds, w);
            var (resp, st') := Mutate(b, 0, 0, Own(st.world.current[0]), st);
            Save(b, newIds, w) == (if resp.Failed? then Err(resp.error) else Ok(st'.nodes), st'.world)
  {
    hide Mutate, Start;
  }

  lemma WrittenFromPrepared(b: Bulk, newIds: seq<Uuid>, w: World, st: State, resp: Resp, st': State)
    requires CanSave(b, newIds, w) && Shape(b, st) && Shape(b, st') && FirstBad(w, |b.hooks|)
    requires Prepared(w, newIds, |b.hooks|, st.world) && FirstFailure(b, st, 0) == |b.hooks|
    requires Verdict(b, 0, st, resp, st') && Inserted(b, st, st', 0, resp.Done?)
    requires Marked(st.world, st'.world, 0, resp.Done?)
    ensures var r := if resp.Failed? then Err(resp.error) else Ok(st'.nodes);
            exists batch :: Written(b, newIds, w, batch, r, st'.world)
  {
    hide FirstFailure, Check;
    assert AllFilled(st'.specs);
    var batch := Values(st'.specs);
    forall j | 0 <= j < |b.hooks|
      ensures RowHolds(batch[j], FieldsAt(w, j), newIds[j], b.conflicts[j])
      ensures resp.Done? ==>
                && st'.nodes[j].Some? && NodeHolds(st'.nodes[j].value, FieldsAt(w, j), newIds[j])
                && IsSaved(st'.world.store[w.current[j]], FieldsAt(w, j), newIds[j])
    {
      PreparedAt(w, newIds, |b.hooks|, st.world, j);
      assert Some(batch[j]) == st'.specs[j] && HasSecret(FieldsAt(w, j));
    }
    hide RowHolds, NodeHolds, IsSaved, FieldsAt;
    assert Written(b, newIds, w, batch, if resp.Failed? then Err(resp.error) else Ok(st'.nodes), st'.world);
  }

  /** There is always a first builder without a good secret, or none at all. */
  lemma {:induction false} FindFirstBad(w: World, n: nat) returns (f: nat)
    requires n <= |w.current| && forall j :: 0 <= j < |w.current| ==> w.current[j] < |w.store|
    requires forall j :: 0 <= j < n ==> HasSecret(FieldsAt(w, j))
    ensures FirstBad(w, f)
    decreases |w.current| - n
  {
    f := n;
    if n < |w.current| && HasSecret(FieldsAt(w, n)) {
      f := FindFirstBad(w, n + 1);
    }
  }

  lemma {:induction false} StartTells(b: Bulk, newIds: seq<Uuid>, w: World, f: nat)
    requires CanSave(b, newIds, w) && Distinct(w.current) && FirstBad(w, f)
    requires Prepared(w, newIds, |b.hooks|, Start(b, newIds, w).world)
    ensures var st := Start(b, newIds, w);
            && FirstFailure(b, st, 0) == f
            && (f < |b.hooks| ==> Check(CurrentFields(st.world, f)) == Some(SecretError(FieldsAt(w, f))))
  {
    var st := Start(b, newIds, w);
    hide Start, Prepared, FirstFailure, Check;
    forall j | 0 <= j < |b.hooks|
      ensures Check(CurrentFields(st.world, j)) ==
              if HasSecret(FieldsAt(w, j)) then None else Some(SecretError(FieldsAt(w, j)))
    {
      PreparedAt(w, newIds, |b.hooks|, st.world, j);
      PreparedCheck(FieldsAt(w, j), newIds[j]);
    }
    var first := FirstFailure(b, st, 0);
  }

  lemma PreparedAt(w: World, newIds: seq<Uuid>, upto: nat, z: World, j: nat)
    requires j < upto <= |w.current| == |newIds|
    requires forall j :: 0 <= j < |w.current| ==> w.current[j] < |w.store|
    requires Prepared(w, newIds, upto, z)
    ensures z.current == w.current && z.store[w.current[j]].fields == WithId(FieldsAt(w, j), newIds[j])
  {
  }

  // ------------------------------------------------------------------ a single save

  ghost predicate SingleObserves(s: S.Single) {
    forall k :: 0 <= k < |s.hooks| ==> Observer(s.hooks[k])
  }

  /** The worlds agree on everything but their histories. */
  ghost predicate SameButLog(w: World, z: World) {
    w.store == z.store && w.current == z.current && w.rows == z.rows
  }

  lemma SqlSaveIgnoresLog(s: S.Single, w: World, z: World)
    requires S.Ready(w) && S.Ready(z) && SameButLog(w, z)
    ensures S.SqlSave(s, w).0 == S.SqlSave(s, z).0 && SameButLog(S.SqlSave(s, w).1, S.SqlSave(s, z).1)
  {
  }

  /** Observing hooks hand the builder's own mutation down to sqlSave and its answer back up. */
  lemma {:induction false} ObserversRunSqlSave(s: S.Single, k: nat, w: World)
    requires S.Ready(w) && SingleObserves(s) && k <= |s.hooks|
    ensures var (resp, z) := S.Mutate(s, k, Own(w.current[0]), w);
            resp == S.SqlSave(s, w).0 && SameButLog(z, S.SqlSave(s, w).1)
    decreases |s.hooks| - k
  {
    var arg := Own(w.current[0]);
    if k == |s.hooks| {
      assert w.(store := w.store[w.current[0] := w.store[w.current[0]]]) == w;
    } else {
      var w1 := Record(w, Enter(0, k));
      ObserversRunSqlSave(s, k + 1, w1);
      SqlSaveIgnoresLog(s, w1, w);
      assert Observer(s.hooks[k]);
      var (resp, w2) := S.Mutate(s, k + 1, arg, w1);
      assert S.RunHook(s, k, arg, 1, None, w1) == S.RunHook(s, k, arg, 0, Some(resp), w2);
      hide S.SqlSave;
    }
  }

  /** The outcome of a single save that gets to its insert. */
  ghost predicate OneWritten(s: S.Single, newId: Uuid, w: World, row: Spec, r: Result<Node, Error>, z: World)
    requires S.Ready(w)
  {
    match s.driver(w.rows, [row], s.conflict)
    case Some(e) => r == Err(DatabaseError(e)) && NothingSaved(w, z)
    case None =>
      && r.Ok? && NodeHolds(r.value, FieldsAt(w, 0), newId) && z.rows == w.rows + [row]
      && |z.store| == |w.store| && IsSaved(z.store[w.current[0]], FieldsAt(w, 0), newId)
  }

  /** A single save with observing hooks, in the same terms. */
  lemma ObservedSingleTells(s: S.Single, newId: Uuid, w: World)
    requires S.Ready(w) && SingleObserves(s)
    ensures var (r, z) := S.Save(s, newId, w);
            var f := FieldsAt(w, 0);
            if !HasSecret(f) then r == Err(SecretError(f)) && NothingSaved(w, z)
            else exists row :: RowHolds(row, f, newId, s.conflict) && OneWritten(s, newId, w, row, r, z)
  {
    var ref, f := w.current[0], FieldsAt(w, 0);
    var w1 := w.(store := w.store[ref := WithDefaults(w.store[ref], newId)]);
    assert w1.store[ref].fields == WithId(f, newId);
    PreparedCheck(f, newId);
    if s.hooks != [] {
      ObserversRunSqlSave(s, 0, w1);
    }
    var row := SpecOf(WithId(f, newId), s.conflict);
    assert Values([Some(row)]) == [row];
    hide S.Mutate, Check;
    if HasSecret(f) {
      var (r, z) := S.Save(s, newId, w);
      assert RowHolds(row, f, newId, s.conflict) && OneWritten(s, newId, w, row, r, z);
    }
  }
}
