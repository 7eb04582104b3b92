/**
 Which movements can come to wait for each other for ever: exactly those that form a ring, and
 only where entries share-lock their accounts.
*/
module LedgerWaits {
  import opened Base
  import opened Ledger
  import opened Movements
  import opened LedgerLocks

  predicate Spends(moves: seq<Movement>, t: nat, a: Account) {
    t < |moves| && moves[t].spend.Some? && moves[t].spend.value.account == a
  }

  /** Members that may post, each spending from an account of its own and writing to another member's. */
  ghost predicate Ring(moves: seq<Movement>, members: set<nat>) {
    && members != {}
    && (forall t :: t in members ==>
          t < |moves| && moves[t].spend.Some? && Fundable(moves[t]) && PassesGuard(moves[t].legs))
    && (forall t, u :: t in members && u in members && t != u ==>
          moves[t].spend.value.account != moves[u].spend.value.account)
    && forall t :: t in members ==> Blockable(moves, members, t, 0)
  }

  /** From leg i on, t has an entry on the account another member spends from. */
  ghost predicate Blockable(moves: seq<Movement>, members: set<nat>, t: nat, i: nat)
    requires t < |moves|
  {
    exists u :: u in members && u != t && u < |moves| && moves[u].spend.Some? &&
                Mentions(moves[t].legs, i, |moves[t].legs|, moves[u].spend.value.account)
  }

  /** Nothing can be done but give up. */
  ghost predicate Quiet(cfg: Config, s: State) {
    forall act :: Enabled(cfg, s, act) ==> act.Fail?
  }

  /** Something is unfinished and nothing can be done about it. */
  ghost predicate Hung(cfg: Config, s: State) {
    Quiet(cfg, s) && exists t: nat :: t < |s.phases| && Unfinished(s.phases[t])
  }

  /** In a hung state a movement that is writing waits for an account another writer holds. */
  lemma WriterWaits(cfg: Config, s: State, t: nat) returns (u: nat)
    requires Consistent(cfg, s) && Hung(cfg, s) && t < |s.phases| && s.phases[t].Writing?
    ensures cfg.fkLocks && u < |s.phases| && u != t && s.phases[u].Writing? && cfg.moves[u].spend.Some?
    ensures Mentions(cfg.moves[t].legs, 0, |cfg.moves[t].legs|, cfg.moves[u].spend.value.account)
  {
    assert !Enabled(cfg, s, Commit(t)) && !Enabled(cfg, s, Insert(t));
    var k := s.phases[t].inserted;
    var a := cfg.moves[t].legs[k].account;
    u :| u < |s.phases| && u != t && Holds(cfg, s, u, a);
    assert !Enabled(cfg, s, CheckFunds(u));
  }

  lemma SomeoneWrites(cfg: Config, s: State) returns (t: nat)
    requires Consistent(cfg, s) && Hung(cfg, s)
    ensures t < |s.phases| && s.phases[t].Writing?
  {
    t :| t < |s.phases| && Unfinished(s.phases[t]);
    assert !Enabled(cfg, s, CheckFunds(t)) && !Enabled(cfg, s, Lock(t));
    if s.phases[t].Waiting? {
      var a := cfg.moves[t].spend.value.account;
      var u: nat :| u < |s.phases| && u != t && (Holds(cfg, s, u, a) || Shares(cfg, s, u, a));
      assert !Enabled(cfg, s, CheckFunds(u));
      t := u;
    }
  }

  /** The movements that hold their account and are writing. */
  ghost function Writers(cfg: Config, s: State): set<nat>
    requires |s.phases| == |cfg.moves|
  {
    set t: nat | t < |s.phases| && s.phases[t].Writing? && cfg.moves[t].spend.Some?
  }

  lemma WritersDiffer(cfg: Config, s: State)
    requires Consistent(cfg, s)
    ensures forall t :: t in Writers(cfg, s) ==> Fundable(cfg.moves[t]) && PassesGuard(cfg.moves[t].legs)
    ensures forall t, u :: t in Writers(cfg, s) && u in Writers(cfg, s) && t != u ==>
              cfg.moves[t].spend.value.account != cfg.moves[u].spend.value.account
  {
    forall t, u | t in Writers(cfg, s) && u in Writers(cfg, s) && t != u
      ensures cfg.moves[t].spend.value.account != cfg.moves[u].spend.value.account
    {
      assert Holds(cfg, s, t, cfg.moves[t].spend.value.account);
      assert !Holds(cfg, s, u, cfg.moves[t].spend.value.account);
    }
  }

  lemma WriterBlockable(cfg: Config, s: State, t: nat)
    requires Consistent(cfg, s) && Hung(cfg, s) && t < |s.phases| && s.phases[t].Writing?
    ensures cfg.fkLocks && Writers(cfg, s) != {} && Blockable(cfg.moves, Writers(cfg, s), t, 0)
  {
    var u := WriterWaits(cfg, s, t);
    assert u in Writers(cfg, s);
  }

  /** A hung state is a ring of movements, and needs the share locks to come about. */
  lemma HungIsRing(cfg: Config, s: State)
    requires Consistent(cfg, s) && Hung(cfg, s)
    ensures cfg.fkLocks && Ring(cfg.moves, Writers(cfg, s))
  {
    var w := SomeoneWrites(cfg, s);
    WriterBlockable(cfg, s, w);
    WritersDiffer(cfg, s);
    hide Hung, Consistent, Blockable;
    forall t | t in Writers(cfg, s)
      ensures Blockable(cfg.moves, Writers(cfg, s), t, 0)
    {
      WriterBlockable(cfg, s, t);
    }
  }

  // ------------------------------------------------------------------ every ring hangs

  /** Every member holds its account and still has to write to another member's. */
  ghost predicate Stuck(cfg: Config, s: State, members: set<nat>) {
    && Ring(cfg.moves, members) && |s.phases| == |cfg.moves|
    && forall t :: t in members ==> s.phases[t].Writing? && Blockable(cfg.moves, members, t, s.phases[t].inserted)
  }

  lemma CannotPass(cfg: Config, s: State, t: nat, u: nat, a: Account)
    requires cfg.fkLocks && |s.phases| == |cfg.moves| && t < |s.phases| && s.phases[t].Writing?
    requires u < |s.phases| && u != t && Holds(cfg, s, u, a)
    requires Mentions(cfg.moves[t].legs, s.phases[t].inserted, |cfg.moves[t].legs|, a)
    ensures !Enabled(cfg, s, Commit(t))
    ensures Enabled(cfg, s, Insert(t)) ==> Mentions(cfg.moves[t].legs, s.phases[t].inserted + 1, |cfg.moves[t].legs|, a)
  {
  }

  lemma BlockerOf(moves: seq<Movement>, members: set<nat>, t: nat, i: nat) returns (u: nat)
    requires t < |moves| && Blockable(moves, members, t, i)
    ensures u in members && u != t && u < |moves| && moves[u].spend.Some?
    ensures Mentions(moves[t].legs, i, |moves[t].legs|, moves[u].spend.value.account)
  {
    u :| u in members && u != t && u < |moves| && moves[u].spend.Some? &&
         Mentions(moves[t].legs, i, |moves[t].legs|, moves[u].spend.value.account);
  }

  lemma MentionsBlocks(moves: seq<Movement>, members: set<nat>, t: nat, i: nat, u: nat, a: Account)
    requires t < |moves| && u in members && u != t && Spends(moves, u, a)
    ensures Mentions(moves[t].legs, i, |moves[t].legs|, a) ==> Blockable(moves, members, t, i)
  {
  }

  lemma {:induction false} BlockerHolds(cfg: Config, s: State, members: set<nat>, t: nat) returns (u: nat, a: Account)
    requires Stuck(cfg, s, members) && t in members
    ensures u in members && u != t && u < |s.phases| && Holds(cfg, s, u, a)
    ensures Mentions(cfg.moves[t].legs, s.phases[t].inserted, |cfg.moves[t].legs|, a)
  {
    hide Mentions, Blockable;
    assert s.phases[t].Writing? && Blockable(cfg.moves, members, t, s.phases[t].inserted);
    u := BlockerOf(cfg.moves, members, t, s.phases[t].inserted);
    a := cfg.moves[u].spend.value.account;
    assert s.phases[u].Writing?;
  }

  lemma {:induction false} MemberStaysBlocked(cfg: Config, s: State, members: set<nat>, t: nat)
    requires cfg.fkLocks && Stuck(cfg, s, members) && t in members
    ensures !Enabled(cfg, s, Commit(t))
    ensures Enabled(cfg, s, Insert(t)) ==> Blockable(cfg.moves, members, t, s.phases[t].inserted + 1)
  {
    hide Enabled, Mentions, Blockable;
    var u, a := BlockerHolds(cfg, s, members, t);
    CannotPass(cfg, s, t, u, a);
    MentionsBlocks(cfg.moves, members, t, s.phases[t].inserted + 1, u, a);
  }

  lemma {:induction false} MemberStep(cfg: Config, s: State, members: set<nat>, act: Action)
    requires cfg.fkLocks && Stuck(cfg, s, members) && !act.Fail? && act.t in members
    ensures var s1 := Step(cfg, s, act);
            s1.phases[act.t].Writing? && Blockable(cfg.moves, members, act.t, s1.phases[act.t].inserted)
  {
    hide Blockable, Lockable, Enterable;
    MemberStaysBlocked(cfg, s, members, act.t);
    assert s.phases[act.t].Writing?;
  }

  lemma StepElsewhere(cfg: Config, s: State, act: Action)
    requires |s.phases| == |cfg.moves|
    ensures |Step(cfg, s, act).phases| == |s.phases|
    ensures forall t :: 0 <= t < |s.phases| && t != act.t ==> Step(cfg, s, act).phases[t] == s.phases[t]
  {
  }

  lemma {:induction false} MembersInRange(cfg: Config, s: State, members: set<nat>)
    requires Stuck(cfg, s, members)
    ensures forall t :: t in members ==> t < |cfg.moves|
  {
    hide Blockable;
  }

  /** Only giving up a member unsticks a ring. */
  lemma {:induction false} StepStuck(cfg: Config, s: State, members: set<nat>, act: Action)
    requires cfg.fkLocks && Stuck(cfg, s, members) && !act.Fail?
    ensures Stuck(cfg, Step(cfg, s, act), members)
  {
    hide Blockable, Step, Enabled, Ring;
    MembersInRange(cfg, s, members);
    StepElsewhere(cfg, s, act);
    if act.t in members {
      MemberStep(cfg, s, members, act);
    }
    var s1 := Step(cfg, s, act);
    forall t | t in members
      ensures s1.phases[t].Writing? && Blockable(cfg.moves, members, t, s1.phases[t].inserted)
    {
      if t != act.t {
        assert s1.phases[t] == s.phases[t];
      }
    }
  }

  /** The state in which the movements of done, and no others, have their lock and funds. */
  function Entered(cfg: Config, rows: seq<Leg>, done: set<nat>): State {
    State(rows, seq(|cfg.moves|, i => if i in done then Writing(0) else Waiting))
  }

  lemma EnterOne(cfg: Config, rows: seq<Leg>, done: set<nat>, t: nat)
    requires t !in done && t < |cfg.moves| && cfg.moves[t].spend.Some? && PassesGuard(cfg.moves[t].legs)
    requires HasFunds(State(rows, []), cfg.moves[t].spend.value)
    requires forall u :: u in done && u < |cfg.moves| && cfg.moves[u].spend.Some? ==>
               cfg.moves[u].spend.value.account != cfg.moves[t].spend.value.account
    ensures Run(cfg, Entered(cfg, rows, done), [Lock(t), CheckFunds(t)]) == Entered(cfg, rows, done + {t})
  {
    var s := Entered(cfg, rows, done);
    assert Lockable(cfg, s, t, cfg.moves[t].spend.value.account);
    RunSnoc(cfg, s, [], Lock(t));
    assert [] + [Lock(t)] == [Lock(t)];
    RunSnoc(cfg, s, [Lock(t)], CheckFunds(t));
    assert [Lock(t)] + [CheckFunds(t)] == [Lock(t), CheckFunds(t)];
    var s1 := Step(cfg, s, Lock(t));
    assert s1 == State(rows, s.phases[t := Locked]);
    assert Step(cfg, s1, CheckFunds(t)).phases == Entered(cfg, rows, done + {t}).phases;
  }

  lemma EnterMember(cfg: Config, rows: seq<Leg>, members: set<nat>, done: set<nat>, t: nat)
    requires Ring(cfg.moves, members) && done <= members && t in members && t !in done
    requires HasFunds(State(rows, []), cfg.moves[t].spend.value)
    ensures Run(cfg, Entered(cfg, rows, done), [Lock(t), CheckFunds(t)]) == Entered(cfg, rows, done + {t})
  {
    hide Blockable, Run, Entered;
    EnterOne(cfg, rows, done, t);
  }

  lemma {:induction false} EnterAll(cfg: Config, rows: seq<Leg>, members: set<nat>, todo: set<nat>)
    returns (acts: seq<Action>)
    requires Ring(cfg.moves, members) && todo <= members
    requires forall t :: t in members ==>
               t < |cfg.moves| && cfg.moves[t].spend.Some? && HasFunds(State(rows, []), cfg.moves[t].spend.value)
    ensures Run(cfg, Start(cfg, rows), acts) == Entered(cfg, rows, todo) && NoFailure(acts)
    decreases |todo|
  {
    hide Ring, HasFunds;
    acts := [];
    if todo == {} {
      assert Start(cfg, rows).phases == Entered(cfg, rows, {}).phases;
    } else {
      hide Run, Entered, Start;
      var t :| t in todo;
      acts := EnterAll(cfg, rows, members, todo - {t});
      EnterMember(cfg, rows, members, todo - {t}, t);
      RunAppend(cfg, Start(cfg, rows), acts, [Lock(t), CheckFunds(t)]);
      acts := acts + [Lock(t), CheckFunds(t)];
      assert todo - {t} + {t} == todo;
    }
  }

  /** Accounts of this owner and kind pay the openings, and no movement spends from them. */
  predicate Outside(moves: seq<Movement>, owner: Option<Uuid>, kind: Kind) {
    forall t :: 0 <= t < |moves| && moves[t].spend.Some? ==>
      moves[t].spend.value.account.owner != owner || moves[t].spend.value.account.kind != kind
  }

  /** Only accounts of this owner and kind are in debt. */
  ghost predicate InDebtOnly(rows: seq<Leg>, owner: Option<Uuid>, kind: Kind) {
    forall a: Account :: a.owner != owner || a.kind != kind ==> Balance(rows, a) >= 0
  }

  lemma FundOne(rest: seq<Leg>, spend: Spend, from: Account) returns (rows: seq<Leg>)
    requires Posted(rest) && spend.need > 0
    requires from.currency == spend.account.currency && !from.currency.Unsupported?
    ensures Posted(rows)
    ensures forall a :: Balance(rows, a) == Balance(rest, a) +
              (if a == spend.account then spend.need else 0) - (if a == from then spend.need else 0)
  {
    rows := rest + Opening(spend, from);
    OpeningPosts(spend, from);
    PostedSnoc(rest, Opening(spend, from));
    forall a
      ensures Balance(rows, a) == Balance(rest, a) +
                (if a == spend.account then spend.need else 0) - (if a == from then spend.need else 0)
    {
      BalanceAppend(rest, Opening(spend, from), a);
      OpeningBalance(spend, from, a);
    }
  }

  /** Books of accepted postings that fund every member, in which only the outside is in debt. */
  lemma {:induction false} FundAll(moves: seq<Movement>, members: set<nat>, owner: Option<Uuid>, kind: Kind)
    returns (rows: seq<Leg>)
    requires forall t :: t in members ==> t < |moves| && moves[t].spend.Some? && Fundable(moves[t])
    requires Outside(moves, owner, kind)
    ensures forall t :: t in members ==> HasFunds(State(rows, []), moves[t].spend.value)
    ensures Posted(rows) && InDebtOnly(rows, owner, kind)
    decreases |members|
  {
    rows := [];
    if members != {} {
      var t :| t in members;
      var rest := FundAll(moves, members - {t}, owner, kind);
      var spend := moves[t].spend.value;
      rows := FundOne(rest, spend, Account(owner, kind, spend.account.currency));
    }
  }

  /** An owner that spends nothing. */
  lemma {:induction false} SomeOutside(moves: seq<Movement>) returns (n: Uuid)
    ensures forall t :: 0 <= t < |moves| && moves[t].spend.Some? && moves[t].spend.value.account.owner.Some? ==>
              moves[t].spend.value.account.owner.value < n
  {
    n := 0;
    if moves != [] {
      n := SomeOutside(moves[..|moves| - 1]);
      var last := moves[|moves| - 1];
      if last.spend.Some? && last.spend.value.account.owner.Some? {
        n := n + last.spend.value.account.owner.value + 1;
      }
      assert forall t :: 0 <= t < |moves| - 1 ==> moves[t] == moves[..|moves| - 1][t];
    }
  }

  // ------------------------------------------------------------------ every schedule ends

  /** How many steps a movement may still take. */
  function Work(m: Movement, p: Phase): int {
    match p
    case Waiting => |m.legs| + 3
    case Locked => |m.legs| + 2
    case Writing(n) => |m.legs| - n + 1
    case _ => 0
  }

  function Left(cfg: Config, s: State, n: nat): int
    requires n <= |s.phases| && n <= |cfg.moves|
  {
    if n == 0 then 0 else Left(cfg, s, n - 1) + Work(cfg.moves[n - 1], s.phases[n - 1])
  }

  lemma {:induction false} LeftFalls(cfg: Config, s: State, s1: State, t: nat, n: nat)
    requires |s.phases| == |cfg.moves| == |s1.phases| && n <= |s.phases| && t < |s.phases|
    requires forall i :: 0 <= i < |s.phases| && i != t ==> s1.phases[i] == s.phases[i]
    requires Work(cfg.moves[t], s1.phases[t]) < Work(cfg.moves[t], s.phases[t])
    ensures if t < n then Left(cfg, s1, n) < Left(cfg, s, n) else Left(cfg, s1, n) == Left(cfg, s, n)
  {
    if n > 0 {
      LeftFalls(cfg, s, s1, t, n - 1);
    }
  }

  lemma {:induction false} LeftBounded(cfg: Config, s: State, n: nat)
    requires Consistent(cfg, s) && n <= |s.phases|
    ensures Left(cfg, s, n) >= 0
  {
    if n > 0 {
      LeftBounded(cfg, s, n - 1);
    }
  }

  /** Every enabled step uses up work, so no schedule goes on for ever. */
  lemma StepUsesWork(cfg: Config, s: State, act: Action)
    requires Consistent(cfg, s) && Enabled(cfg, s, act)
    ensures 0 <= Left(cfg, Step(cfg, s, act), |cfg.moves|) < Left(cfg, s, |cfg.moves|)
  {
    StepConsistent(cfg, s, act);
    LeftBounded(cfg, Step(cfg, s, act), |cfg.moves|);
    LeftFalls(cfg, s, Step(cfg, s, act), act.t, |cfg.moves|);
  }

  predicate NoFailure(acts: seq<Action>) {
    forall i :: 0 <= i < |acts| ==> !acts[i].Fail?
  }

  /** From any state some schedule without failures goes on until nothing more can be done. */
  lemma {:induction false} RunOut(cfg: Config, s: State) returns (acts: seq<Action>)
    requires Consistent(cfg, s)
    ensures Consistent(cfg, Run(cfg, s, acts)) && Quiet(cfg, Run(cfg, s, acts))
    ensures NoFailure(acts)
    decreases Left(cfg, s, |cfg.moves|)
  {
    hide Consistent, Left, Step;
    acts := [];
    if !Quiet(cfg, s) {
      var act :| Enabled(cfg, s, act) && !act.Fail?;
      hide Enabled, Quiet;
      StepUsesWork(cfg, s, act);
      StepConsistent(cfg, s, act);
      var rest := RunOut(cfg, Step(cfg, s, act));
      RunSnoc(cfg, s, [], act);
      assert [] + [act] == [act];
      RunAppend(cfg, s, [act], rest);
      acts := [act] + rest;
    }
  }

  lemma {:induction false} RunStuck(cfg: Config, s: State, members: set<nat>, acts: seq<Action>)
    requires cfg.fkLocks && Stuck(cfg, s, members) && NoFailure(acts)
    ensures Stuck(cfg, Run(cfg, s, acts), members)
  {
    hide Stuck, Step;
    if acts != [] {
      RunStuck(cfg, s, members, acts[..|acts| - 1]);
      StepStuck(cfg, Run(cfg, s, acts[..|acts| - 1]), members, acts[|acts| - 1]);
    }
  }

  lemma EnteredIsStuck(cfg: Config, rows: seq<Leg>, members: set<nat>)
    requires Ring(cfg.moves, members)
    ensures Stuck(cfg, Entered(cfg, rows, members), members)
  {
  }

  /** Every member is writing and waits for another, and nothing is left to do but give up. */
  ghost predicate HungRing(cfg: Config, s: State, members: set<nat>) {
    && Hung(cfg, s) && Stuck(cfg, s, members)
    && forall t :: t in members ==> t < |s.phases| && s.phases[t].Writing?
  }

  lemma {:induction false} StuckIsHung(cfg: Config, s: State, members: set<nat>)
    requires Stuck(cfg, s, members) && Quiet(cfg, s)
    ensures HungRing(cfg, s, members)
  {
    hide Blockable, Enabled;
    MembersInRange(cfg, s, members);
    var t :| t in members;
    assert Unfinished(s.phases[t]);
  }

  lemma JoinedNoFailure(x: seq<Action>, y: seq<Action>)
    requires NoFailure(x) && NoFailure(y)
    ensures NoFailure(x + y)
  {
  }

  /** Posted books and a schedule without a failure, after which every member has its lock and funds. */
  lemma RingEnters(cfg: Config, members: set<nat>, owner: Option<Uuid>, kind: Kind)
    returns (rows: seq<Leg>, acts: seq<Action>)
    requires Ring(cfg.moves, members) && Outside(cfg.moves, owner, kind)
    ensures Posted(rows) && InDebtOnly(rows, owner, kind) && NoFailure(acts)
    ensures Run(cfg, Start(cfg, rows), acts) == Entered(cfg, rows, members)
  {
    hide Blockable, Run, Entered, NoFailure, Balance, Posted, Outside, InDebtOnly;
    rows := FundAll(cfg.moves, members, owner, kind);
    acts := EnterAll(cfg, rows, members, members);
  }

  /**
   Every ring has books of accepted postings, in which nobody but the outside is in debt, and a
   schedule without a failure that end in its hanging.
  */
  lemma RingHangs(cfg: Config, members: set<nat>, owner: Option<Uuid>, kind: Kind)
    returns (rows: seq<Leg>, acts: seq<Action>)
    requires cfg.fkLocks && Ring(cfg.moves, members) && Outside(cfg.moves, owner, kind)
    ensures Posted(rows) && InDebtOnly(rows, owner, kind) && NoFailure(acts)
    ensures HungRing(cfg, Run(cfg, Start(cfg, rows), acts), members)
  {
    hide *;
    var entering;
    rows, entering := RingEnters(cfg, members, owner, kind);
    var s := Entered(cfg, rows, members);
    RunConsistent(cfg, rows, entering);
    EnteredIsStuck(cfg, rows, members);
    var rest := RunOut(cfg, s);
    RunStuck(cfg, s, members, rest);
    RunAppend(cfg, Start(cfg, rows), entering, rest);
    StuckIsHung(cfg, Run(cfg, s, rest), members);
    acts := entering + rest;
    JoinedNoFailure(entering, rest);
  }

  /** Some schedule hangs, from books of accepted postings. */
  ghost predicate CanHang(cfg: Config) {
    exists rows, acts :: Posted(rows) && Hung(cfg, Run(cfg, Start(cfg, rows), acts))
  }

  lemma RingCanHang(cfg: Config, members: set<nat>)
    requires cfg.fkLocks && Ring(cfg.moves, members)
    ensures CanHang(cfg)
  {
    hide Ring, Posted, Run, Hung, InDebtOnly;
    var n := SomeOutside(cfg.moves);
    var rows, acts := RingHangs(cfg, members, Some(n), Available);
  }

  /** Movements can come to wait for each other exactly when entries share-lock and some of them form a ring. */
  lemma CanHangIff(cfg: Config)
    ensures CanHang(cfg) <==> cfg.fkLocks && exists members :: Ring(cfg.moves, members)
  {
    hide Ring, Posted, Run, Hung;
    if CanHang(cfg) {
      var rows, acts :| Posted(rows) && Hung(cfg, Run(cfg, Start(cfg, rows), acts));
      RunConsistent(cfg, rows, acts);
      HungIsRing(cfg, Run(cfg, Start(cfg, rows), acts));
    }
    if members :| cfg.fkLocks && Ring(cfg.moves, members) {
      RingCanHang(cfg, members);
    }
  }
}
