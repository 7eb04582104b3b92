/**
 Movements as database transactions that interleave. A spending movement locks the account it
 spends from and reads its committed balance; every movement then passes the guard of Post and
 inserts its entries, which become visible when it commits, if the trigger lets it.

 A lock lasts to the end of its transaction. An entry references its account, so a database
 that keeps that reference valid also share-locks the account while the entry is uncommitted;
 fkLocks says whether it does.
*/
module LedgerLocks {
  import opened Base
  import opened Ledger
  import opened Movements

  datatype Config = Config(moves: seq<Movement>, fkLocks: bool)

  datatype Phase = Waiting | Locked | Writing(inserted: nat) | Committed | Aborted

  /** The committed legs of all time, and where each movement is. */
  datatype State = State(rows: seq<Leg>, phases: seq<Phase>)

  datatype Action = Lock(t: nat) | CheckFunds(t: nat) | Insert(t: nat) | Commit(t: nat) | Fail(t: nat)

  function Start(cfg: Config, rows: seq<Leg>): State {
    State(rows, seq(|cfg.moves|, i => Waiting))
  }

  // ------------------------------------------------------------------ locks

  predicate Active(p: Phase) {
    p.Locked? || p.Writing?
  }

  predicate Unfinished(p: Phase) {
    p.Waiting? || Active(p)
  }

  /** t holds a FOR UPDATE. */
  predicate Holds(cfg: Config, s: State, t: nat, a: Account) {
    && t < |cfg.moves| && t < |s.phases| && Active(s.phases[t])
    && cfg.moves[t].spend.Some? && cfg.moves[t].spend.value.account == a
  }

  /** One of the legs from..to is on a. */
  predicate Mentions(legs: seq<Leg>, from: nat, to: nat, a: Account) {
    exists i :: from <= i < to && i < |legs| && legs[i].account == a
  }

  /** t has an uncommitted entry on a, and share-locks a for it. */
  predicate Shares(cfg: Config, s: State, t: nat, a: Account) {
    && cfg.fkLocks && t < |cfg.moves| && t < |s.phases|
    && s.phases[t].Writing? && Mentions(cfg.moves[t].legs, 0, s.phases[t].inserted, a)
  }

  /** Nobody else stands in the way of t locking a FOR UPDATE. */
  predicate Lockable(cfg: Config, s: State, t: nat, a: Account) {
    forall u: nat :: u < |s.phases| && u != t ==> !Holds(cfg, s, u, a) && !Shares(cfg, s, u, a)
  }

  /** Nobody else stands in the way of t inserting an entry on a. */
  predicate Enterable(cfg: Config, s: State, t: nat, a: Account) {
    cfg.fkLocks ==> forall u: nat :: u < |s.phases| && u != t ==> !Holds(cfg, s, u, a)
  }

  /** u has begun and not ended, and spends from a. */
  predicate SpendingFrom(cfg: Config, s: State, u: nat, a: Account) {
    && u < |cfg.moves| && u < |s.phases| && (s.phases[u].Locked? || s.phases[u].Writing?)
    && cfg.moves[u].spend.Some? && cfg.moves[u].spend.value.account == a
  }

  /** u has an uncommitted entry on a. */
  predicate HasEntryOn(cfg: Config, s: State, u: nat, a: Account) {
    && u < |cfg.moves| && u < |s.phases| && s.phases[u].Writing?
    && exists i :: 0 <= i < s.phases[u].inserted && i < |cfg.moves[u].legs| && cfg.moves[u].legs[i].account == a
  }

  // ------------------------------------------------------------------ steps

  predicate Enabled(cfg: Config, s: State, act: Action) {
    && act.t < |cfg.moves| && act.t < |s.phases|
    && var m, p := cfg.moves[act.t], s.phases[act.t];
       match act
       case Lock(t) => p.Waiting? && (m.spend.Some? ==> Lockable(cfg, s, t, m.spend.value.account))
       case CheckFunds(_) => p.Locked? && m.spend.Some?
       case Insert(t) => p.Writing? && p.inserted < |m.legs| && Enterable(cfg, s, t, m.legs[p.inserted].account)
       case Commit(_) => p.Writing? && p.inserted == |m.legs|
       case Fail(_) => Unfinished(p)
  }

  /**
   A spending movement waits for its lock exactly while another one that has not ended spends
   from the same account, or, with share locks, has an entry on it.
  */
  lemma LockWaitsIff(cfg: Config, s: State, t: nat)
    requires t < |cfg.moves| == |s.phases| && s.phases[t].Waiting? && cfg.moves[t].spend.Some?
    ensures var a := cfg.moves[t].spend.value.account;
            !Enabled(cfg, s, Lock(t)) <==>
            exists u: nat :: u != t && (SpendingFrom(cfg, s, u, a) || (cfg.fkLocks && HasEntryOn(cfg, s, u, a)))
  {
    var a := cfg.moves[t].spend.value.account;
    if u: nat :| u != t && (SpendingFrom(cfg, s, u, a) || (cfg.fkLocks && HasEntryOn(cfg, s, u, a))) {
      assert Holds(cfg, s, u, a) || Shares(cfg, s, u, a);
    }
    if !Lockable(cfg, s, t, a) {
      var u: nat :| u < |s.phases| && u != t && (Holds(cfg, s, u, a) || Shares(cfg, s, u, a));
      assert SpendingFrom(cfg, s, u, a) || (cfg.fkLocks && HasEntryOn(cfg, s, u, a));
    }
  }

  /** An insert waits exactly while, with share locks, another one that has not ended spends from its account. */
  lemma InsertWaitsIff(cfg: Config, s: State, t: nat)
    requires t < |cfg.moves| == |s.phases| && s.phases[t].Writing? && s.phases[t].inserted < |cfg.moves[t].legs|
    ensures var a := cfg.moves[t].legs[s.phases[t].inserted].account;
            !Enabled(cfg, s, Insert(t)) <==> cfg.fkLocks && exists u: nat :: u != t && SpendingFrom(cfg, s, u, a)
  {
    var a := cfg.moves[t].legs[s.phases[t].inserted].account;
    if u: nat :| u != t && SpendingFrom(cfg, s, u, a) {
      assert Holds(cfg, s, u, a);
    }
    if u: nat :| u < |s.phases| && u != t && Holds(cfg, s, u, a) {
      assert SpendingFrom(cfg, s, u, a);
    }
  }

  /** ensureFunds: a positive amount, an account that exists, and a committed balance that covers it. */
  predicate HasFunds(s: State, spend: Spend) {
    spend.need > 0 && !spend.account.currency.Unsupported? && Balance(s.rows, spend.account) >= spend.need
  }

  /** Post, up to its first insert: the guard lets the movement write or ends it. */
  function Entering(m: Movement): Phase {
    if PassesGuard(m.legs) then Writing(0) else Aborted
  }

  /** One step of one movement; a step that has to wait changes nothing. */
  function Step(cfg: Config, s: State, act: Action): State {
    if !Enabled(cfg, s, act) then s
    else
      var t, m := act.t, cfg.moves[act.t];
      match act
      case Lock(_) => s.(phases := s.phases[t := if m.spend.Some? then Locked else Entering(m)])
      case CheckFunds(_) => s.(phases := s.phases[t := if HasFunds(s, m.spend.value) then Entering(m) else Aborted])
      case Insert(_) => s.(phases := s.phases[t := Writing(s.phases[t].inserted + 1)])
      case Commit(_) =>
        if NetsToZero(m.legs) then State(s.rows + m.legs, s.phases[t := Committed])
        else s.(phases := s.phases[t := Aborted])
      case Fail(_) => s.(phases := s.phases[t := Aborted])
  }

  function Run(cfg: Config, s: State, acts: seq<Action>): State {
    if acts == [] then s else Step(cfg, Run(cfg, s, acts[..|acts| - 1]), acts[|acts| - 1])
  }

  lemma RunSnoc(cfg: Config, s: State, acts: seq<Action>, act: Action)
    ensures Run(cfg, s, acts + [act]) == Step(cfg, Run(cfg, s, acts), act)
  {
  }

  lemma {:induction false} RunAppend(cfg: Config, s: State, x: seq<Action>, y: seq<Action>)
    ensures Run(cfg, s, x + y) == Run(cfg, Run(cfg, s, x), y)
  {
    if y == [] {
      assert x + y == x;
    } else {
      assert (x + y)[..|x + y| - 1] == x + y[..|y| - 1];
      RunAppend(cfg, s, x, y[..|y| - 1]);
    }
  }

  // ------------------------------------------------------------------ what every step keeps

  /** At most one movement holds an account, and only funded movements that pass the guard write. */
  ghost predicate Consistent(cfg: Config, s: State) {
    && |s.phases| == |cfg.moves|
    && (forall t :: 0 <= t < |s.phases| && s.phases[t].Writing? ==>
          s.phases[t].inserted <= |cfg.moves[t].legs| && Fundable(cfg.moves[t]) && PassesGuard(cfg.moves[t].legs))
    && (forall t :: 0 <= t < |s.phases| && s.phases[t].Locked? ==> cfg.moves[t].spend.Some?)
    && (forall t: nat, u: nat, a :: t != u && Holds(cfg, s, t, a) ==> !Holds(cfg, s, u, a))
  }

  /** A lock is gained only by a movement nobody else stood in the way of. */
  lemma LockGained(cfg: Config, s: State, act: Action, t: nat, a: Account)
    requires Consistent(cfg, s) && Holds(cfg, Step(cfg, s, act), t, a)
    ensures Holds(cfg, s, t, a) || forall u: nat :: u != t ==> !Holds(cfg, s, u, a)
    ensures t != act.t ==> Holds(cfg, s, t, a)
  {
  }

  lemma StepConsistent(cfg: Config, s: State, act: Action)
    requires Consistent(cfg, s)
    ensures Consistent(cfg, Step(cfg, s, act))
  {
    var s1 := Step(cfg, s, act);
    forall t: nat, u: nat, a | t != u && Holds(cfg, s1, t, a)
      ensures !Holds(cfg, s1, u, a)
    {
      LockGained(cfg, s, act, t, a);
      if Holds(cfg, s1, u, a) {
        LockGained(cfg, s, act, u, a);
        assert false;
      }
    }
  }

  lemma {:induction false} RunConsistent(cfg: Config, rows: seq<Leg>, acts: seq<Action>)
    ensures Consistent(cfg, Run(cfg, Start(cfg, rows), acts))
  {
    if acts != [] {
      RunConsistent(cfg, rows, acts[..|acts| - 1]);
      StepConsistent(cfg, Run(cfg, Start(cfg, rows), acts[..|acts| - 1]), acts[|acts| - 1]);
    }
  }

  lemma StepKeepsPosted(cfg: Config, s: State, act: Action)
    requires Consistent(cfg, s) && Posted(s.rows)
    ensures Posted(Step(cfg, s, act).rows)
  {
    if act.Commit? && Enabled(cfg, s, act) && NetsToZero(cfg.moves[act.t].legs) {
      PostedSnoc(s.rows, cfg.moves[act.t].legs);
    }
  }

  /** However the movements interleave, what is committed is made of whole accepted movements. */
  lemma {:induction false} RunKeepsPosted(cfg: Config, rows: seq<Leg>, acts: seq<Action>)
    requires Posted(rows)
    ensures Posted(Run(cfg, Start(cfg, rows), acts).rows) && NetsToZero(Run(cfg, Start(cfg, rows), acts).rows)
  {
    if acts != [] {
      var before := acts[..|acts| - 1];
      RunKeepsPosted(cfg, rows, before);
      RunConsistent(cfg, rows, before);
      StepKeepsPosted(cfg, Run(cfg, Start(cfg, rows), before), acts[|acts| - 1]);
    }
    PostedNets(Run(cfg, Start(cfg, rows), acts).rows);
  }

  /** What the committed ones among the first n movements do to an account. */
  function Contributed(cfg: Config, phases: seq<Phase>, a: Account, n: nat): int
    requires n <= |phases| && n <= |cfg.moves|
  {
    if n == 0 then 0
    else
      Contributed(cfg, phases, a, n - 1) + (if phases[n - 1].Committed? then Balance(cfg.moves[n - 1].legs, a) else 0)
  }

  lemma {:induction false} ContributedAfter(cfg: Config, phases: seq<Phase>, t: nat, p: Phase, a: Account, n: nat)
    requires n <= |phases| == |cfg.moves| && t < |phases| && !phases[t].Committed?
    ensures Contributed(cfg, phases[t := p], a, n) ==
            Contributed(cfg, phases, a, n) + (if t < n && p.Committed? then Balance(cfg.moves[t].legs, a) else 0)
  {
    if n > 0 {
      ContributedAfter(cfg, phases, t, p, a, n - 1);
    }
  }

  /** The account holds its opening balance and what the committed movements did, all of them accepted ones. */
  ghost predicate AddsUp(cfg: Config, s: State, opening: int, a: Account) {
    && |s.phases| == |cfg.moves|
    && Balance(s.rows, a) == opening + Contributed(cfg, s.phases, a, |s.phases|)
    && forall t :: 0 <= t < |s.phases| && s.phases[t].Committed? ==> Posts(cfg.moves[t].legs)
  }

  lemma StepAddsUp(cfg: Config, s: State, act: Action, opening: int, a: Account)
    requires Consistent(cfg, s) && AddsUp(cfg, s, opening, a)
    ensures AddsUp(cfg, Step(cfg, s, act), opening, a)
  {
    if Enabled(cfg, s, act) {
      hide Lockable, Enterable, Balance, HasFunds;
      ContributedAfter(cfg, s.phases, act.t, Step(cfg, s, act).phases[act.t], a, |s.phases|);
      if act.Commit? {
        BalanceAppend(s.rows, cfg.moves[act.t].legs, a);
      }
    }
  }

  /** However movements interleave and fail, the committed ones reach the books, each once, and nothing else does. */
  lemma {:induction false} RunAddsUp(cfg: Config, rows: seq<Leg>, acts: seq<Action>, a: Account)
    ensures AddsUp(cfg, Run(cfg, Start(cfg, rows), acts), Balance(rows, a), a)
  {
    if acts == [] {
      NothingContributed(cfg, Start(cfg, rows).phases, a, |cfg.moves|);
    } else {
      var before := acts[..|acts| - 1];
      RunAddsUp(cfg, rows, before, a);
      RunConsistent(cfg, rows, before);
      StepAddsUp(cfg, Run(cfg, Start(cfg, rows), before), acts[|acts| - 1], Balance(rows, a), a);
    }
  }

  lemma {:induction false} NothingContributed(cfg: Config, phases: seq<Phase>, a: Account, n: nat)
    requires n <= |phases| == |cfg.moves| && forall t :: 0 <= t < |phases| ==> phases[t].Waiting?
    ensures Contributed(cfg, phases, a, n) == 0
  {
    if n > 0 {
      NothingContributed(cfg, phases, a, n - 1);
    }
  }

  // ------------------------------------------------------------------ no overdraft

  /** a is not overdrawn, and whoever was told it has funds still finds them there. */
  ghost predicate Solvent(cfg: Config, s: State, a: Account) {
    && Balance(s.rows, a) >= 0
    && forall t: nat :: Holds(cfg, s, t, a) && s.phases[t].Writing? ==>
         Balance(s.rows, a) >= cfg.moves[t].spend.value.need
  }

  ghost predicate AllCover(moves: seq<Movement>, a: Account) {
    forall t :: 0 <= t < |moves| ==> !Uncovered(moves[t], a)
  }

  lemma StepSolvent(cfg: Config, s: State, act: Action, a: Account)
    requires Consistent(cfg, s) && Solvent(cfg, s, a) && AllCover(cfg.moves, a)
    ensures Solvent(cfg, Step(cfg, s, act), a)
  {
    var s1 := Step(cfg, s, act);
    if act.Commit? && Enabled(cfg, s, act) && NetsToZero(cfg.moves[act.t].legs) {
      CommitSolvent(cfg, s, act, a);
    } else {
      forall t: nat | Holds(cfg, s1, t, a) && s1.phases[t].Writing?
        ensures Balance(s1.rows, a) >= cfg.moves[t].spend.value.need
      {
        assert s.phases[t].Writing? ==> Holds(cfg, s, t, a);
      }
    }
  }

  lemma CommitSolvent(cfg: Config, s: State, act: Action, a: Account)
    requires Consistent(cfg, s) && Solvent(cfg, s, a) && AllCover(cfg.moves, a)
    requires act.Commit? && Enabled(cfg, s, act) && NetsToZero(cfg.moves[act.t].legs)
    ensures Solvent(cfg, Step(cfg, s, act), a)
  {
    var t0 := act.t;
    var m := cfg.moves[t0];
    var s1 := Step(cfg, s, act);
    BalanceAppend(s.rows, m.legs, a);
    assert !Uncovered(m, a) && Fundable(m);
    if Holds(cfg, s, t0, a) {
      assert Balance(s.rows, a) >= m.spend.value.need;
    }
    forall t: nat | Holds(cfg, s1, t, a) && s1.phases[t].Writing?
      ensures Balance(s1.rows, a) >= cfg.moves[t].spend.value.need
    {
      assert Holds(cfg, s, t, a) && t != t0;
    }
  }

  /** However the movements interleave, an account they all cover is never overdrawn. */
  lemma {:induction false} NeverOverdrawn(cfg: Config, rows: seq<Leg>, acts: seq<Action>, a: Account)
    requires AllCover(cfg.moves, a) && Balance(rows, a) >= 0
    ensures Solvent(cfg, Run(cfg, Start(cfg, rows), acts), a)
  {
    if acts != [] {
      var before := acts[..|acts| - 1];
      NeverOverdrawn(cfg, rows, before, a);
      RunConsistent(cfg, rows, before);
      StepSolvent(cfg, Run(cfg, Start(cfg, rows), before), acts[|acts| - 1], a);
    }
  }

  /** Movement t goes alone: lock, check, then each entry, then commit. */
  function Alone(m: Movement, t: nat): seq<Action> {
    Entry(m, t) + Inserts(t, |m.legs|) + [Commit(t)]
  }

  function Entry(m: Movement, t: nat): seq<Action> {
    if m.spend.Some? then [Lock(t), CheckFunds(t)] else [Lock(t)]
  }

  function Inserts(t: nat, n: nat): seq<Action> {
    if n == 0 then [] else Inserts(t, n - 1) + [Insert(t)]
  }

  /** Movement t is in phase p and no other has begun. */
  function OnlyAt(cfg: Config, rows: seq<Leg>, t: nat, p: Phase): State {
    State(rows, seq(|cfg.moves|, i => if i == t then p else Waiting))
  }

  lemma OnlyStep(cfg: Config, rows: seq<Leg>, t: nat, p: Phase, act: Action, p1: Phase)
    requires t < |cfg.moves| && act.t == t && Enabled(cfg, OnlyAt(cfg, rows, t, p), act)
    requires Step(cfg, OnlyAt(cfg, rows, t, p), act).phases[t] == p1 && !p1.Committed?
    ensures Step(cfg, OnlyAt(cfg, rows, t, p), act) == OnlyAt(cfg, rows, t, p1)
  {
    hide Enabled, HasFunds, NetsToZero;
    var s1 := Step(cfg, OnlyAt(cfg, rows, t, p), act);
    assert s1.phases == OnlyAt(cfg, rows, t, p1).phases;
  }

  lemma InsertStep(cfg: Config, rows: seq<Leg>, t: nat, n: nat)
    requires t < |cfg.moves| && n < |cfg.moves[t].legs|
    ensures Step(cfg, OnlyAt(cfg, rows, t, Writing(n)), Insert(t)) == OnlyAt(cfg, rows, t, Writing(n + 1))
  {
    var s := OnlyAt(cfg, rows, t, Writing(n));
    assert Enterable(cfg, s, t, cfg.moves[t].legs[n].account);
    OnlyStep(cfg, rows, t, Writing(n), Insert(t), Writing(n + 1));
  }

  lemma {:induction false} InsertsRun(cfg: Config, rows: seq<Leg>, t: nat, n: nat)
    requires t < |cfg.moves| && n <= |cfg.moves[t].legs|
    ensures Run(cfg, OnlyAt(cfg, rows, t, Writing(0)), Inserts(t, n)) == OnlyAt(cfg, rows, t, Writing(n))
  {
    hide Step, OnlyAt;
    if n > 0 {
      InsertsRun(cfg, rows, t, n - 1);
      RunSnoc(cfg, OnlyAt(cfg, rows, t, Writing(0)), Inserts(t, n - 1), Insert(t));
      InsertStep(cfg, rows, t, n - 1);
    }
  }

  lemma EntrySteps(cfg: Config, rows: seq<Leg>, t: nat)
    requires t < |cfg.moves| && PassesGuard(cfg.moves[t].legs)
    requires cfg.moves[t].spend.Some? ==> HasFunds(State(rows, []), cfg.moves[t].spend.value)
    ensures var spends := cfg.moves[t].spend.Some?;
            && Step(cfg, OnlyAt(cfg, rows, t, Waiting), Lock(t)) ==
               OnlyAt(cfg, rows, t, if spends then Locked else Writing(0))
            && (spends ==>
                  Step(cfg, OnlyAt(cfg, rows, t, Locked), CheckFunds(t)) == OnlyAt(cfg, rows, t, Writing(0)))
  {
    var m := cfg.moves[t];
    if m.spend.Some? {
      assert Lockable(cfg, OnlyAt(cfg, rows, t, Waiting), t, m.spend.value.account);
      OnlyStep(cfg, rows, t, Waiting, Lock(t), Locked);
      OnlyStep(cfg, rows, t, Locked, CheckFunds(t), Writing(0));
    } else {
      OnlyStep(cfg, rows, t, Waiting, Lock(t), Writing(0));
    }
  }

  lemma EntryRun(cfg: Config, rows: seq<Leg>, t: nat)
    requires t < |cfg.moves| && PassesGuard(cfg.moves[t].legs)
    requires cfg.moves[t].spend.Some? ==> HasFunds(State(rows, []), cfg.moves[t].spend.value)
    ensures Run(cfg, Start(cfg, rows), Entry(cfg.moves[t], t)) == OnlyAt(cfg, rows, t, Writing(0))
  {
    assert Start(cfg, rows).phases == OnlyAt(cfg, rows, t, Waiting).phases;
    EntrySteps(cfg, rows, t);
    hide Step, OnlyAt, PassesGuard, HasFunds;
    RunSnoc(cfg, Start(cfg, rows), [], Lock(t));
    RunSnoc(cfg, Start(cfg, rows), [Lock(t)], CheckFunds(t));
    assert [] + [Lock(t)] == [Lock(t)] && [Lock(t)] + [CheckFunds(t)] == [Lock(t), CheckFunds(t)];
  }

  lemma AloneRun(cfg: Config, rows: seq<Leg>, t: nat)
    requires t < |cfg.moves| && Posts(cfg.moves[t].legs)
    requires cfg.moves[t].spend.Some? ==> HasFunds(State(rows, []), cfg.moves[t].spend.value)
    ensures Run(cfg, Start(cfg, rows), Alone(cfg.moves[t], t)).rows == rows + cfg.moves[t].legs
  {
    var m := cfg.moves[t];
    var s := Start(cfg, rows);
    EntryRun(cfg, rows, t);
    InsertsRun(cfg, rows, t, |m.legs|);
    RunAppend(cfg, s, Entry(m, t), Inserts(t, |m.legs|));
    RunSnoc(cfg, s, Entry(m, t) + Inserts(t, |m.legs|), Commit(t));
    hide Run, Entry, Inserts;
  }

  /** A posting that puts what a movement asks for on its account, out of another one. */
  function Opening(spend: Spend, from: Account): seq<Leg>
    requires spend.need > 0
  {
    Legs(Leg(spend.account, spend.need, "opening"), Leg(from, -spend.need, "opening"), None)
  }

  lemma OpeningPosts(spend: Spend, from: Account)
    requires spend.need > 0 && from.currency == spend.account.currency && !from.currency.Unsupported?
    ensures Posts(Opening(spend, from))
  {
    LegsNet(Leg(spend.account, spend.need, "opening"), Leg(from, -spend.need, "opening"), None, from.currency);
  }

  lemma OpeningBalance(spend: Spend, from: Account, a: Account)
    requires spend.need > 0
    ensures Balance(Opening(spend, from), a) ==
            (if a == spend.account then spend.need else 0) - (if a == from then spend.need else 0)
  {
    LegsTell(Leg(spend.account, spend.need, "opening"), Leg(from, -spend.need, "opening"), None, a, NGN);
  }

  /** Books that just fund m: its own account holds what it asks for, and a does not pay for it. */
  lemma JustFunding(m: Movement, a: Account) returns (rows: seq<Leg>)
    requires Fundable(m)
    ensures Posted(rows) && (m.spend.Some? ==> HasFunds(State(rows, []), m.spend.value))
    ensures Balance(rows, a) == if m.spend.Some? && m.spend.value.account == a then m.spend.value.need else 0
  {
    rows := [];
    if m.spend.Some? {
      var spend := m.spend.value;
      var n: Uuid := 1 + (if a.owner.Some? then a.owner.value else 0);
      n := n + (if spend.account.owner.Some? then spend.account.owner.value else 0);
      var from := Of(n, Available, spend.account.currency);
      rows := Opening(spend, from);
      OpeningPosts(spend, from);
      PostedSnoc([], rows);
      assert [] + rows == rows;
      OpeningBalance(spend, from, a);
      OpeningBalance(spend, from, spend.account);
    }
  }

  /** Some schedule overdraws an account, from books of accepted postings in which it was not. */
  ghost predicate CanOverdraw(cfg: Config, a: Account) {
    exists rows, acts ::
      Posted(rows) && Balance(rows, a) >= 0 && Balance(Run(cfg, Start(cfg, rows), acts).rows, a) < 0
  }

  lemma UncoveredOverdraws(cfg: Config, t: nat, a: Account)
    requires t < |cfg.moves| && Uncovered(cfg.moves[t], a)
    ensures CanOverdraw(cfg, a)
  {
    var m := cfg.moves[t];
    var rows := JustFunding(m, a);
    AloneRun(cfg, rows, t);
    BalanceAppend(rows, m.legs, a);
    hide Run, Posted;
    assert Balance(Run(cfg, Start(cfg, rows), Alone(m, t)).rows, a) < 0;
  }

  /** Movements can overdraw an account exactly when one that the ledger accepts does not cover it. */
  lemma CanOverdrawIff(cfg: Config, a: Account)
    ensures CanOverdraw(cfg, a) <==> exists t :: 0 <= t < |cfg.moves| && Uncovered(cfg.moves[t], a)
  {
    if t :| 0 <= t < |cfg.moves| && Uncovered(cfg.moves[t], a) {
      UncoveredOverdraws(cfg, t, a);
    } else {
      forall rows, acts | Balance(rows, a) >= 0
        ensures Balance(Run(cfg, Start(cfg, rows), acts).rows, a) >= 0
      {
        NeverOverdrawn(cfg, rows, acts, a);
      }
    }
  }
}
