/**
 What the named movements come to when they run together: which accounts can be overdrawn, how
 many movements that race for one balance get through, and which mixtures can wait for each other.
*/
module LedgerSafety {
  import opened Base
  import opened Ledger
  import opened Movements
  import opened LedgerLocks
  import opened LedgerWaits

  /** The movements of some requests; a request that is refused opens no transaction. */
  function Planned(rs: seq<Request>): seq<Movement> {
    if rs == [] then []
    else
      var rest := Planned(rs[..|rs| - 1]);
      if Plan(rs[|rs| - 1]).Ok? then rest + [Plan(rs[|rs| - 1]).value] else rest
  }

  lemma PlannedSnoc(rs: seq<Request>, r: Request)
    requires Plan(r).Ok?
    ensures Planned(rs + [r]) == Planned(rs) + [Plan(r).value]
  {
  }

  lemma {:induction false} PlannedFrom(rs: seq<Request>, t: nat) returns (i: nat)
    requires t < |Planned(rs)|
    ensures i < |rs| && Plan(rs[i]) == Ok(Planned(rs)[t])
  {
    var rest := Planned(rs[..|rs| - 1]);
    if t < |rest| {
      i := PlannedFrom(rs[..|rs| - 1], t);
    } else {
      i := |rs| - 1;
    }
  }

  lemma {:induction false} PlannedAt(rs: seq<Request>, i: nat) returns (t: nat)
    requires i < |rs| && Plan(rs[i]).Ok?
    ensures t < |Planned(rs)| && Planned(rs)[t] == Plan(rs[i]).value
  {
    if i == |rs| - 1 {
      t := |Planned(rs)| - 1;
    } else {
      t := PlannedAt(rs[..|rs| - 1], i);
    }
  }

  /**
   Any requests, in any interleaving and with any failures: an account can fall below zero if
   and only if one of the requests takes from it without having locked it.
  */
  lemma OverdrawnIff(rs: seq<Request>, fkLocks: bool, a: Account)
    ensures CanOverdraw(Config(Planned(rs), fkLocks), a) <==> exists i :: 0 <= i < |rs| && TakesUnchecked(rs[i], a)
  {
    var cfg := Config(Planned(rs), fkLocks);
    hide TakesUnchecked, Uncovered, CanOverdraw, Planned, Plan;
    CanOverdrawIff(cfg, a);
    if i :| 0 <= i < |rs| && TakesUnchecked(rs[i], a) {
      TakerIsPlanned(rs[i], a);
      var t := PlannedAt(rs, i);
      PlannedUncoveredIff(rs[i], a);
      assert Uncovered(cfg.moves[t], a);
    }
    if t :| 0 <= t < |cfg.moves| && Uncovered(cfg.moves[t], a) {
      var i := PlannedFrom(rs, t);
      PlannedUncoveredIff(rs[i], a);
      assert TakesUnchecked(rs[i], a);
    }
  }

  lemma TakerIsPlanned(r: Request, a: Account)
    requires TakesUnchecked(r, a)
    ensures Plan(r).Ok?
  {
  }

  /**
   For an available balance, an agent's float or escrow, what a merchant is owed or the
   treasury: if and only if one of the requests is a reversal or a return that debits it.
  */
  lemma FundsOverdrawnIff(rs: seq<Request>, fkLocks: bool, a: Account)
    requires HoldsFunds(a.kind)
    ensures CanOverdraw(Config(Planned(rs), fkLocks), a) <==> exists i :: 0 <= i < |rs| && TakesBack(rs[i], a)
  {
    OverdrawnIff(rs, fkLocks, a);
    forall i | 0 <= i < |rs|
      ensures TakesUnchecked(rs[i], a) <==> TakesBack(rs[i], a)
    {
      OnlyTakenBack(rs[i], a);
    }
    hide TakesUnchecked, TakesBack, CanOverdraw, Planned;
  }

  /** Without such a request, nobody's own money is ever overdrawn, whatever the books were. */
  lemma FundsNeverOverdrawn(rs: seq<Request>, fkLocks: bool, rows: seq<Leg>, acts: seq<Action>, a: Account)
    requires HoldsFunds(a.kind) && Balance(rows, a) >= 0
    requires forall i :: 0 <= i < |rs| ==> !TakesBack(rs[i], a)
    ensures var cfg := Config(Planned(rs), fkLocks);
            Balance(Run(cfg, Start(cfg, rows), acts).rows, a) >= 0
  {
    var cfg := Config(Planned(rs), fkLocks);
    hide TakesBack, TakesUnchecked, Uncovered, Plan, Run;
    forall t | 0 <= t < |cfg.moves|
      ensures !Uncovered(cfg.moves[t], a)
    {
      var i := PlannedFrom(rs, t);
      PlannedUncoveredIff(rs[i], a);
      OnlyTakenBack(rs[i], a);
    }
    NeverOverdrawn(cfg, rows, acts, a);
  }

  lemma AloneOverdrawsIff(r: Request, fkLocks: bool, a: Account)
    ensures CanOverdraw(Config(Planned([r]), fkLocks), a) <==> TakesUnchecked(r, a)
  {
    OverdrawnIff([r], fkLocks, a);
    assert forall i :: 0 <= i < |[r]| ==> [r][i] == r;
    assert [r][0] == r;
    hide TakesUnchecked, CanOverdraw, Planned;
  }

  /**
   A reversal checks no balance: it can overdraw the merchant if and only if the amount exceeds
   the fee, and the cardholder if and only if the amount is negative.
  */
  lemma ReversalOverdrawsIff(r: Request, fkLocks: bool)
    requires r.TapReversal? && Plan(r).Ok? && Sane(r)
    ensures var cfg, c := Config(Planned([r]), fkLocks), r.amount.currency;
            && (CanOverdraw(cfg, Of(r.merchant, MerchantPayable, c)) <==> r.amount.minor > r.fee.minor)
            && (CanOverdraw(cfg, Of(r.cardholder, Available, c)) <==> r.amount.minor < 0)
  {
    AloneOverdrawsIff(r, fkLocks, Of(r.merchant, MerchantPayable, r.amount.currency));
    AloneOverdrawsIff(r, fkLocks, Of(r.cardholder, Available, r.amount.currency));
    hide CanOverdraw, Plan, Sane, Planned;
  }

  /** Nor does a return: it can overdraw what is on its way out, and with a negative amount the user. */
  lemma ReturnOverdrawsIff(r: Request, fkLocks: bool)
    requires r.Returned? && Plan(r).Ok? && Sane(r)
    ensures var cfg, c := Config(Planned([r]), fkLocks), r.amount.currency;
            && (CanOverdraw(cfg, System(Payable, c)) <==> r.amount.minor > 0)
            && (CanOverdraw(cfg, Of(r.user, Available, c)) <==> r.amount.minor < 0)
  {
    AloneOverdrawsIff(r, fkLocks, System(Payable, r.amount.currency));
    AloneOverdrawsIff(r, fkLocks, Of(r.user, Available, r.amount.currency));
    hide CanOverdraw, Planned;
  }

  // ------------------------------------------------------------------ racing for one balance

  /** Every movement spends the same amount from a, credits it with nothing, and is one the ledger accepts. */
  ghost predicate AllSpend(moves: seq<Movement>, a: Account, need: Int64) {
    forall t :: 0 <= t < |moves| ==>
      moves[t].spend == Some(Spend(a, need)) && Balance(moves[t].legs, a) + need == 0 && Posts(moves[t].legs)
  }

  function CommittedCount(phases: seq<Phase>): nat {
    if phases == [] then 0
    else CommittedCount(phases[..|phases| - 1]) + (if phases[|phases| - 1].Committed? then 1 else 0)
  }

  lemma {:induction false} CountAfter(phases: seq<Phase>, t: nat, p: Phase)
    requires t < |phases| && !phases[t].Committed?
    ensures CommittedCount(phases[t := p]) == CommittedCount(phases) + (if p.Committed? then 1 else 0)
  {
    var last := |phases| - 1;
    if t == last {
      assert phases[t := p][..last] == phases[..last];
    } else {
      assert phases[t := p][..last] == phases[..last][t := p];
      CountAfter(phases[..last], t, p);
    }
  }

  lemma {:induction false} CountAll(phases: seq<Phase>)
    ensures CommittedCount(phases) <= |phases|
    ensures CommittedCount(phases) == |phases| <==> forall t :: 0 <= t < |phases| ==> phases[t].Committed?
  {
    if phases != [] {
      CountAll(phases[..|phases| - 1]);
    }
  }

  lemma {:induction false} CountNone(phases: seq<Phase>)
    requires forall t :: 0 <= t < |phases| ==> phases[t].Waiting?
    ensures CommittedCount(phases) == 0
  {
    if phases != [] {
      CountNone(phases[..|phases| - 1]);
    }
  }

  /** Each commit takes its amount, and nobody is declined while the amount is there. */
  ghost predicate FairlySpent(s: State, opening: int, a: Account, need: Int64) {
    && Balance(s.rows, a) == opening - CommittedCount(s.phases) * need
    && ((exists t :: 0 <= t < |s.phases| && s.phases[t].Aborted?) ==> Balance(s.rows, a) < need)
  }

  /** Proper legs only touch accounts in a known currency. */
  lemma {:induction false} TouchedIsSupported(legs: seq<Leg>, a: Account)
    requires forall i :: 0 <= i < |legs| ==> LegIsProper(legs[i])
    requires Balance(legs, a) != 0
    ensures !a.currency.Unsupported?
  {
    if legs[|legs| - 1].account != a {
      TouchedIsSupported(legs[..|legs| - 1], a);
    }
  }

  lemma StepFairlySpent(cfg: Config, s: State, act: Action, opening: int, a: Account, need: Int64)
    requires Consistent(cfg, s) && AllSpend(cfg.moves, a, need) && need > 0 && !act.Fail?
    requires FairlySpent(s, opening, a, need)
    ensures FairlySpent(Step(cfg, s, act), opening, a, need)
  {
    hide Lockable, Enterable, Balance;
    if Enabled(cfg, s, act) {
      TouchedIsSupported(cfg.moves[act.t].legs, a);
      CountAfter(s.phases, act.t, Step(cfg, s, act).phases[act.t]);
      if act.Commit? {
        BalanceAppend(s.rows, cfg.moves[act.t].legs, a);
        assert (CommittedCount(s.phases) + 1) * need == CommittedCount(s.phases) * need + need;
      }
    }
  }

  lemma {:induction false} RunFairlySpent(cfg: Config, rows: seq<Leg>, acts: seq<Action>, a: Account, need: Int64)
    requires AllSpend(cfg.moves, a, need) && need > 0 && NoFailure(acts)
    ensures FairlySpent(Run(cfg, Start(cfg, rows), acts), Balance(rows, a), a, need)
  {
    if acts == [] {
      CountNone(Start(cfg, rows).phases);
    } else {
      var before := acts[..|acts| - 1];
      RunFairlySpent(cfg, rows, before, a, need);
      RunConsistent(cfg, rows, before);
      StepFairlySpent(cfg, Run(cfg, Start(cfg, rows), before), acts[|acts| - 1], Balance(rows, a), a, need);
    }
  }

  /** Movements that spend from one account cannot wait for each other. */
  lemma OneAccountMakesNoRing(moves: seq<Movement>, a: Account, need: Int64, members: set<nat>)
    requires AllSpend(moves, a, need)
    ensures !Ring(moves, members)
  {
  }

  lemma {:induction false} Times(need: int, x: int, y: int)
    requires need > 0
    ensures x < y ==> need * x + need <= need * y
  {
    if x < y {
      var d: nat := y - x - 1;
      assert need * (x + 1 + d) == need * x + need + need * d;
    }
  }

  lemma {:induction false} Quotient(opening: int, count: nat, need: int)
    requires need > 0 && 0 <= opening - count * need < need
    ensures count == opening / need
  {
    Times(need, opening / need, count);
    Times(need, count, opening / need);
  }

  lemma AllFinished(cfg: Config, s: State, a: Account, need: Int64)
    requires Consistent(cfg, s) && Quiet(cfg, s) && AllSpend(cfg.moves, a, need)
    ensures forall t :: 0 <= t < |s.phases| ==> s.phases[t].Committed? || s.phases[t].Aborted?
  {
    OneAccountMakesNoRing(cfg.moves, a, need, Writers(cfg, s));
    if Hung(cfg, s) {
      HungIsRing(cfg, s);
    }
    assert !Hung(cfg, s);
    assert forall t: nat :: t < |s.phases| ==> !Unfinished(s.phases[t]);
  }

  lemma {:induction false} FinishedCount(phases: seq<Phase>, opening: int, left: int, need: int)
    requires need > 0 && 0 <= left == opening - CommittedCount(phases) * need
    requires forall t :: 0 <= t < |phases| ==> phases[t].Committed? || phases[t].Aborted?
    requires (exists t :: 0 <= t < |phases| && phases[t].Aborted?) ==> left < need
    ensures CommittedCount(phases) == if |phases| * need <= opening then |phases| else opening / need
  {
    var count := CommittedCount(phases);
    CountAll(phases);
    Times(need, count, |phases|);
    if count < |phases| {
      Quotient(opening, count, need);
    }
  }

  /**
   However many movements race to spend the same amount, and however they interleave, exactly
   as many get through as the balance holds.
  */
  lemma {:induction false} ExactlyWhatFits(cfg: Config, rows: seq<Leg>, acts: seq<Action>, a: Account, need: Int64)
    requires AllSpend(cfg.moves, a, need) && need > 0 && Balance(rows, a) >= 0
    requires NoFailure(acts)
    requires Quiet(cfg, Run(cfg, Start(cfg, rows), acts))
    ensures var s := Run(cfg, Start(cfg, rows), acts);
            CommittedCount(s.phases) ==
            if |cfg.moves| * need <= Balance(rows, a) then |cfg.moves| else Balance(rows, a) / need
  {
    var s := Run(cfg, Start(cfg, rows), acts);
    RunConsistent(cfg, rows, acts);
    RunFairlySpent(cfg, rows, acts, a, need);
    NeverOverdrawn(cfg, rows, acts, a);
    AllFinished(cfg, s, a, need);
    hide Quiet, Run, Balance, AllSpend, CommittedCount;
    FinishedCount(s.phases, Balance(rows, a), Balance(s.rows, a), need);
  }

  lemma TapSpends(cardholder: Uuid, merchant: Uuid, amount: Amount, fee: Amount)
    requires PlanTap(cardholder, merchant, amount, fee).Ok?
    ensures var m, from := PlanTap(cardholder, merchant, amount, fee).value, Of(cardholder, Available, amount.currency);
            m.spend == Some(Spend(from, amount.minor)) && Balance(m.legs, from) + amount.minor == 0
  {
    var c := amount.currency;
    LegsTell(Leg(Of(cardholder, Available, c), Neg(amount).minor, "tap.debit"),
             Leg(Of(merchant, MerchantPayable, c), Sub(amount, fee).value.minor, "tap.merchant_owed"),
             FeeLeg(fee, System(Revenue, c), fee.minor, "tap.fee"), Of(cardholder, Available, c), c);
  }

  /** Taps of one amount on one balance, at any merchants: exactly as many as it holds are charged. */
  lemma {:induction false} TapsFitExactly(rs: seq<Request>, fkLocks: bool, cardholder: Uuid, amount: Amount,
                                          rows: seq<Leg>, acts: seq<Action>)
    requires forall i :: 0 <= i < |rs| ==> rs[i].Tap? && rs[i].cardholder == cardholder && rs[i].amount == amount
    requires amount.minor > 0 && Balance(rows, Of(cardholder, Available, amount.currency)) >= 0
    requires NoFailure(acts)
    requires var cfg := Config(Planned(rs), fkLocks); Quiet(cfg, Run(cfg, Start(cfg, rows), acts))
    ensures var cfg := Config(Planned(rs), fkLocks);
            var held := Balance(rows, Of(cardholder, Available, amount.currency));
            CommittedCount(Run(cfg, Start(cfg, rows), acts).phases) ==
            if |Planned(rs)| * amount.minor <= held then |Planned(rs)| else held / amount.minor
  {
    hide Quiet, Run;
    var cfg := Config(Planned(rs), fkLocks);
    var a := Of(cardholder, Available, amount.currency);
    forall t | 0 <= t < |cfg.moves|
      ensures cfg.moves[t].spend == Some(Spend(a, amount.minor)) && Balance(cfg.moves[t].legs, a) + amount.minor == 0
      ensures Posts(cfg.moves[t].legs)
    {
      var i := PlannedFrom(rs, t);
      TapSpends(cardholder, rs[i].merchant, amount, rs[i].fee);
      TapPosts(cardholder, rs[i].merchant, amount, rs[i].fee);
    }
    ExactlyWhatFits(cfg, rows, acts, a, amount.minor);
  }

  // ------------------------------------------------------------------ waiting

  lemma {:induction false} Highest(members: set<nat>, rank: nat -> int) returns (t: nat)
    requires members != {}
    ensures t in members && forall u :: u in members ==> rank(u) <= rank(t)
    decreases |members|
  {
    var first :| first in members;
    var rest := members - {first};
    t := first;
    if rest != {} {
      var u := Highest(rest, rank);
      if rank(t) < rank(u) {
        t := u;
      }
    }
    assert members == rest + {first};
  }

  /** Every movement writes only to its own account and to accounts ranked above it. */
  ghost predicate Climbs(m: Movement, rank: Account -> int) {
    m.spend.Some? ==> forall i :: 0 <= i < |m.legs| && m.legs[i].account != m.spend.value.account ==>
      rank(m.spend.value.account) < rank(m.legs[i].account)
  }

  /** The rank of the account a movement spends from. */
  function SpendRank(moves: seq<Movement>, rank: Account -> int, t: nat): int {
    if t < |moves| && moves[t].spend.Some? then rank(moves[t].spend.value.account) else 0
  }

  lemma HighestIsNotBlockable(moves: seq<Movement>, rank: Account -> int, members: set<nat>, t: nat)
    requires t < |moves| && moves[t].spend.Some? && Climbs(moves[t], rank)
    requires forall u :: u in members ==> SpendRank(moves, rank, u) <= SpendRank(moves, rank, t)
    requires forall u :: u in members && u != t && u < |moves| && moves[u].spend.Some? ==>
               moves[u].spend.value.account != moves[t].spend.value.account
    ensures !Blockable(moves, members, t, 0)
  {
  }

  /** When all movements climb one ranking of accounts, none of them form a ring. */
  lemma ClimbingMakesNoRing(moves: seq<Movement>, rank: Account -> int, members: set<nat>)
    requires forall t :: 0 <= t < |moves| ==> Climbs(moves[t], rank)
    ensures !Ring(moves, members)
  {
    if Ring(moves, members) {
      var t := Highest(members, (u: nat) => SpendRank(moves, rank, u));
      HighestIsNotBlockable(moves, rank, members, t);
    }
  }

  function Rank(k: Kind): int {
    match k
    case Treasury => 0
    case AgentFloat => 1
    case Escrow => 2
    case Available => 3
    case MerchantPayable => 4
    case Payable => 5
    case _ => 6
  }

  /** Requests whose money only goes forward: treasury, float, escrow, balance, merchant, payable, outside. */
  predicate GoesForward(r: Request) {
    !r.Convert? && !r.ReleaseAgentFloat? && !r.ReturnFloat? && !r.MerchantPayoutReturned?
  }

  lemma RouteGoesForward(r: Request)
    requires GoesForward(r) && Direct(r) && RouteOf(r).Ok? && RouteOf(r).value.locked
    ensures Rank(RouteOf(r).value.from.kind) < Rank(RouteOf(r).value.to.kind)
  {
    hide Carry;
  }

  lemma CarryClimbs(x: Route)
    requires x.locked ==> Rank(x.from.kind) < Rank(x.to.kind)
    ensures Climbs(Carry(x), (a: Account) => Rank(a.kind))
  {
  }

  lemma ForwardClimbs(r: Request)
    requires GoesForward(r) && Plan(r).Ok?
    ensures Climbs(Plan(r).value, (a: Account) => Rank(a.kind))
  {
    if Direct(r) {
      hide RouteOf, Climbs, Carry;
      var x := RouteOf(r).value;
      if x.locked {
        RouteGoesForward(r);
      }
      CarryClimbs(x);
    }
  }

  /** Money that only goes forward never waits in a circle: every schedule that ends has finished every movement. */
  lemma {:induction false} ForwardNeverHangs(rs: seq<Request>, fkLocks: bool)
    requires forall i :: 0 <= i < |rs| ==> GoesForward(rs[i])
    ensures !CanHang(Config(Planned(rs), fkLocks))
  {
    var cfg := Config(Planned(rs), fkLocks);
    var rank := (a: Account) => Rank(a.kind);
    forall t | 0 <= t < |cfg.moves|
      ensures Climbs(cfg.moves[t], rank)
    {
      var i := PlannedFrom(rs, t);
      ForwardClimbs(rs[i]);
      assert forall a :: rank(a) == Rank(a.kind);
    }
    forall members
      ensures !Ring(cfg.moves, members)
    {
      ClimbingMakesNoRing(cfg.moves, rank, members);
    }
    CanHangIff(cfg);
  }

  lemma PostedPassesGuard(legs: seq<Leg>)
    requires Posts(legs)
    ensures PassesGuard(legs)
  {
  }

  lemma SpendsInside(r: Request)
    requires Plan(r).Ok? && Plan(r).value.spend.Some?
    ensures Plan(r).value.spend.value.account.kind != External
  {
    if Direct(r) {
      LockedRouteIsInside(r);
      hide RouteOf;
    }
  }

  lemma LockedRouteIsInside(r: Request)
    requires Direct(r) && RouteOf(r).Ok? && RouteOf(r).value.locked
    ensures RouteOf(r).value.from.kind != External
  {
  }

  /** No request spends from the outside world, whose balance mirrors everything held inside. */
  lemma PlannedSpendInside(rs: seq<Request>)
    ensures Outside(Planned(rs), None, External)
  {
    forall t | 0 <= t < |Planned(rs)| && Planned(rs)[t].spend.Some?
      ensures Planned(rs)[t].spend.value.account.kind != External
    {
      var i := PlannedFrom(rs, t);
      SpendsInside(rs[i]);
    }
  }

  /**
   With share locks, requests whose movements form a ring hang from books of accepted postings
   in which only the outside world is in debt, by a schedule in which nothing fails.
  */
  lemma RequestsHang(rs: seq<Request>, members: set<nat>) returns (rows: seq<Leg>, acts: seq<Action>)
    requires Ring(Planned(rs), members)
    ensures Posted(rows) && InDebtOnly(rows, None, External) && NoFailure(acts)
    ensures var cfg := Config(Planned(rs), true);
            HungRing(cfg, Run(cfg, Start(cfg, rows), acts), members) && CanHang(cfg)
  {
    hide Ring, Posted, InDebtOnly, Run, Hung, NoFailure, Stuck, Outside;
    PlannedSpendInside(rs);
    rows, acts := RingHangs(Config(Planned(rs), true), members, None, External);
  }

  lemma LockAndReleaseRing(agent: Uuid, locked: Amount, released: Amount, reason: string)
    requires locked.minor > 0 && released.minor > 0 && reason != ""
    requires locked.currency == released.currency && !locked.currency.Unsupported?
    ensures Ring(Planned([LockAgentFloat(agent, locked), ReleaseAgentFloat(agent, released, reason)]), {0, 1})
  {
    var rs := [LockAgentFloat(agent, locked), ReleaseAgentFloat(agent, released, reason)];
    var lock, release := Plan(rs[0]).value, Plan(rs[1]).value;
    PlannedPosts(rs[0]);
    PlannedPosts(rs[1]);
    PostedPassesGuard(lock.legs);
    PostedPassesGuard(release.legs);
    hide Posts, PassesGuard;
    PlannedSnoc([], rs[0]);
    PlannedSnoc([rs[0]], rs[1]);
    assert [] + [rs[0]] == [rs[0]] && [rs[0]] + [rs[1]] == rs;
    assert lock.legs[1].account == release.spend.value.account;
    assert release.legs[1].account == lock.spend.value.account;
    var members: set<nat> := {0, 1};
    assert Blockable(Planned(rs), members, 0, 0) by { assert 1 in members; }
    assert Blockable(Planned(rs), members, 1, 0) by { assert 0 in members; }
  }

  /** Locking an agent's float and releasing it, at once, can wait for each other for ever. */
  lemma LockAndReleaseCanHang(agent: Uuid, locked: Amount, released: Amount, reason: string)
    requires locked.minor > 0 && released.minor > 0 && reason != ""
    requires locked.currency == released.currency && !locked.currency.Unsupported?
    ensures var rs := [LockAgentFloat(agent, locked), ReleaseAgentFloat(agent, released, reason)];
            CanHang(Config(Planned(rs), true)) && !CanHang(Config(Planned(rs), false))
  {
    var rs := [LockAgentFloat(agent, locked), ReleaseAgentFloat(agent, released, reason)];
    hide Ring, Planned, CanHang;
    LockAndReleaseRing(agent, locked, released, reason);
    CanHangIff(Config(Planned(rs), true));
    CanHangIff(Config(Planned(rs), false));
  }
}
