/**
 Who pays and who is paid: what every request does to every account, what it locks for that, and
 why it is refused, in terms of the request's own fields.
*/
module MovementEffects {
  import opened Base
  import opened Ledger
  import opened Movements

  /** What an account gains when x is put on one. */
  function Put(x: int, at: Account, a: Account): int {
    if a == at then x else 0
  }

  function Move(x: int, from: Account, to: Account, a: Account): int {
    Put(x, to, a) - Put(x, from, a)
  }

  function Mine(owner: Uuid, kind: Kind, c: Currency): Account {
    Account(Some(owner), kind, c)
  }

  function Ours(kind: Kind, c: Currency): Account {
    Account(None, kind, c)
  }

  /** What account a gains by the request, or loses if it is negative. */
  function Effect(r: Request, a: Account): int {
    match r
    case Deposit(user, x, _, _) => Move(x.minor, Ours(External, x.currency), Mine(user, Available, x.currency), a)
    case DepositReversed(user, x, _, _, _) =>
      Move(x.minor, Mine(user, Available, x.currency), Ours(External, x.currency), a)
    case Tap(cardholder, merchant, x, fee) =>
      Move(x.minor - fee.minor, Mine(cardholder, Available, x.currency),
           Mine(merchant, MerchantPayable, x.currency), a) +
      Move(fee.minor, Mine(cardholder, Available, x.currency), Ours(Revenue, x.currency), a)
    case TapReversal(cardholder, merchant, x, fee, _) =>
      Move(x.minor - fee.minor, Mine(merchant, MerchantPayable, x.currency),
           Mine(cardholder, Available, x.currency), a) +
      Move(fee.minor, Ours(Revenue, x.currency), Mine(cardholder, Available, x.currency), a)
    case Withdraw(user, x, fee) =>
      Move(x.minor - fee.minor, Mine(user, Available, x.currency), Ours(Payable, x.currency), a) +
      Move(fee.minor, Mine(user, Available, x.currency), Ours(Revenue, x.currency), a)
    case Convert(user, sold, bought, spread, _) =>
      Move(sold.minor, Mine(user, Available, sold.currency), Ours(FxPosition, sold.currency), a) +
      Move(bought.minor, Ours(FxPosition, bought.currency), Mine(user, Available, bought.currency), a) +
      Move(spread.minor, Ours(FxPosition, bought.currency), Ours(Revenue, bought.currency), a)
    case LockAgentFloat(agent, x) =>
      Move(x.minor, Mine(agent, AgentFloat, x.currency), Mine(agent, Escrow, x.currency), a)
    case ReleaseAgentFloat(agent, x, _) =>
      Move(x.minor, Mine(agent, Escrow, x.currency), Mine(agent, AgentFloat, x.currency), a)
    case SettleHandover(agent, trader, x) =>
      Move(x.minor, Mine(agent, Escrow, x.currency), Mine(trader, Available, x.currency), a)
    case FundTreasury(x, _) => Move(x.minor, Ours(External, x.currency), Ours(Treasury, x.currency), a)
    case AllocateFloat(agent, x, _) => Move(x.minor, Ours(Treasury, x.currency), Mine(agent, AgentFloat, x.currency), a)
    case ReturnFloat(agent, x, _) => Move(x.minor, Mine(agent, AgentFloat, x.currency), Ours(Treasury, x.currency), a)
    case Settled(x, _) => Move(x.minor, Ours(Payable, x.currency), Ours(External, x.currency), a)
    case Returned(user, x, _) => Move(x.minor, Ours(Payable, x.currency), Mine(user, Available, x.currency), a)
    case MerchantSettled(merchant, x) =>
      Move(x.minor, Mine(merchant, MerchantPayable, x.currency), Ours(Payable, x.currency), a)
    case MerchantPayoutReturned(merchant, x, _) =>
      Move(x.minor, Ours(Payable, x.currency), Mine(merchant, MerchantPayable, x.currency), a)
    case MerchantSettledOnChain(merchant, x) =>
      Move(x.minor, Mine(merchant, MerchantPayable, x.currency), Ours(External, x.currency), a)
    case MerchantSettlementRefunded(merchant, x, _) =>
      Move(x.minor, Ours(External, x.currency), Mine(merchant, MerchantPayable, x.currency), a)
    case MerchantSettledFromWallet(merchant, x) =>
      Move(x.minor, Mine(merchant, MerchantPayable, x.currency), Ours(External, x.currency), a)
    case MerchantWalletSettlementReturned(merchant, x, _) =>
      Move(x.minor, Ours(External, x.currency), Mine(merchant, MerchantPayable, x.currency), a)
    case RailFeesPaid(x) => Move(x.minor, Ours(Revenue, x.currency), Ours(External, x.currency), a)
    case GasSpent(x, _) => Move(x.minor, Ours(Revenue, x.currency), Ours(External, x.currency), a)
  }

  /** The account that is locked until the end, and what it has to hold. */
  function Lock(r: Request): Option<Spend> {
    match r
    case DepositReversed(user, x, _, _, _) => Some(Spend(Mine(user, Available, x.currency), x.minor))
    case Tap(cardholder, _, x, _) => Some(Spend(Mine(cardholder, Available, x.currency), x.minor))
    case Withdraw(user, x, _) => Some(Spend(Mine(user, Available, x.currency), x.minor))
    case Convert(user, sold, _, _, _) => Some(Spend(Mine(user, Available, sold.currency), sold.minor))
    case LockAgentFloat(agent, x) => Some(Spend(Mine(agent, AgentFloat, x.currency), x.minor))
    case ReleaseAgentFloat(agent, x, _) => Some(Spend(Mine(agent, Escrow, x.currency), x.minor))
    case SettleHandover(agent, _, x) => Some(Spend(Mine(agent, Escrow, x.currency), x.minor))
    case AllocateFloat(_, x, _) => Some(Spend(Ours(Treasury, x.currency), x.minor))
    case ReturnFloat(agent, x, _) => Some(Spend(Mine(agent, AgentFloat, x.currency), x.minor))
    case MerchantSettled(merchant, x) => Some(Spend(Mine(merchant, MerchantPayable, x.currency), x.minor))
    case MerchantPayoutReturned(_, x, _) => Some(Spend(Ours(Payable, x.currency), x.minor))
    case MerchantSettledOnChain(merchant, x) => Some(Spend(Mine(merchant, MerchantPayable, x.currency), x.minor))
    case MerchantSettledFromWallet(merchant, x) => Some(Spend(Mine(merchant, MerchantPayable, x.currency), x.minor))
    case _ => None
  }

  // ------------------------------------------------------------------ effects

  lemma DirectEffect(r: Request, a: Account)
    requires Direct(r) && RouteOf(r).Ok?
    ensures var x := RouteOf(r).value;
            && Effect(r, a) == Move(r.amount.minor, x.from, x.to, a)
            && (if x.locked then Lock(r) == Some(Spend(x.from, r.amount.minor)) else Lock(r) == None)
  {
    hide Move;
  }

  lemma DirectTells(r: Request, a: Account)
    requires Direct(r) && Plan(r).Ok? && Posts(Plan(r).value.legs)
    ensures Balance(Plan(r).value.legs, a) == Effect(r, a) && Plan(r).value.spend == Lock(r)
  {
    hide RouteOf, Effect, Lock, Move, Posts, Balance, WellRouted, Legs;
    DirectEffect(r, a);
    RouteIsWellRouted(r);
    CarryPostsIff(RouteOf(r).value);
    CarryMoves(RouteOf(r).value, a);
  }

  lemma CarryMoves(x: Route, a: Account)
    requires WellRouted(x) && x.amount.minor != -TWO_63
    ensures Balance(Carry(x).legs, a) == Move(x.amount.minor, x.from, x.to, a)
  {
    CarryBalance(x, a);
    hide Balance, Carry;
  }

  lemma TapTells(cardholder: Uuid, merchant: Uuid, amount: Amount, fee: Amount, a: Account)
    requires PlanTap(cardholder, merchant, amount, fee).Ok?
    ensures var m := PlanTap(cardholder, merchant, amount, fee).value;
            var r := Tap(cardholder, merchant, amount, fee);
            Balance(m.legs, a) == Effect(r, a) && m.spend == Lock(r)
  {
    var c := amount.currency;
    SubIsExactIff(amount, fee);
    LegsTell(Leg(Of(cardholder, Available, c), Neg(amount).minor, "tap.debit"),
             Leg(Of(merchant, MerchantPayable, c), Sub(amount, fee).value.minor, "tap.merchant_owed"),
             FeeLeg(fee, System(Revenue, c), fee.minor, "tap.fee"), a, NGN);
    hide Balance, Net, Legs;
  }

  lemma WithdrawTells(user: Uuid, amount: Amount, fee: Amount, a: Account)
    requires PlanWithdraw(user, amount, fee).Ok? && fee.minor >= 0
    ensures var m, r := PlanWithdraw(user, amount, fee).value, Withdraw(user, amount, fee);
            Balance(m.legs, a) == Effect(r, a) && m.spend == Lock(r)
  {
    var c := amount.currency;
    SubIsExactIff(amount, fee);
    LegsTell(Leg(Of(user, Available, c), Neg(amount).minor, "withdrawal.debited"),
             Leg(System(Payable, c), Sub(amount, fee).value.minor, "withdrawal.owed"),
             FeeLeg(fee, System(Revenue, c), fee.minor, "withdrawal.fee"), a, NGN);
    hide Balance, Net, Legs;
  }

  lemma ReversalTells(cardholder: Uuid, merchant: Uuid, amount: Amount, fee: Amount, reason: string, a: Account)
    requires PlanTapReversal(cardholder, merchant, amount, fee, reason).Ok?
    requires Sane(TapReversal(cardholder, merchant, amount, fee, reason))
    ensures var m := PlanTapReversal(cardholder, merchant, amount, fee, reason).value;
            var r := TapReversal(cardholder, merchant, amount, fee, reason);
            Balance(m.legs, a) == Effect(r, a) && m.spend == Lock(r)
  {
    var c := amount.currency;
    ReversalBalance(amount, fee, Of(merchant, MerchantPayable, c), Of(cardholder, Available, c), System(Revenue, c),
                    "tap.reversal.merchant_claim_withdrawn", "tap.reversal.refund:" + reason,
                    "tap.reversal.fee_returned", a);
    hide Balance, Legs, Sub;
  }

  lemma SoldTells(from: Account, to: Account, sold: Amount, out: string, into: string, a: Account)
    requires sold.minor > 0
    ensures Balance(Between(from, to, sold, out, into), a) == Move(sold.minor, from, to, a)
  {
    LegsTell(Leg(from, Neg(sold).minor, out), Leg(to, sold.minor, into), None, a, NGN);
    hide Balance, Net, Legs;
  }

  lemma BoughtTells(position: Account, user: Account, revenue: Account, bought: Amount, spread: Amount, out: string,
                    into: string, margin: string, a: Account)
    requires bought.currency == spread.currency && bought.minor > 0 && spread.minor >= 0 && Add(bought, spread).Ok?
    ensures Balance(Legs(Leg(position, Neg(Add(bought, spread).value).minor, out), Leg(user, bought.minor, into),
                         FeeLeg(spread, revenue, spread.minor, margin)), a) ==
            Move(bought.minor, position, user, a) + Move(spread.minor, position, revenue, a)
  {
    AddIsExactIff(bought, spread);
    var gross := Neg(Add(bought, spread).value).minor;
    assert gross == 0 - bought.minor - spread.minor;
    hide Add, Neg;
    LegsTell(Leg(position, gross, out), Leg(user, bought.minor, into), FeeLeg(spread, revenue, spread.minor, margin),
             a, NGN);
    hide Balance, Net, Legs;
  }

  lemma ConvertTells(user: Uuid, sold: Amount, bought: Amount, spread: Amount, quote: string, a: Account)
    requires PlanConvert(user, sold, bought, spread, quote).Ok?
    ensures var m := PlanConvert(user, sold, bought, spread, quote).value;
            var r := Convert(user, sold, bought, spread, quote);
            Balance(m.legs, a) == Effect(r, a) && m.spend == Lock(r)
  {
    hide Balance, Legs, Add, Neg, Between, Move, FeeLeg;
    var c := bought.currency;
    var from, position := Of(user, Available, sold.currency), System(FxPosition, sold.currency);
    var out := Leg(System(FxPosition, c), Neg(Add(bought, spread).value).minor, "fx.position_out");
    var received := Leg(Of(user, Available, c), bought.minor, "fx.bought");
    var margin := FeeLeg(spread, System(Revenue, c), spread.minor, "fx.spread");
    SoldTells(from, position, sold, "fx.sold", "fx.position_in", a);
    BoughtTells(System(FxPosition, c), Of(user, Available, c), System(Revenue, c), bought, spread,
                "fx.position_out", "fx.bought", "fx.spread", a);
    BalanceAppend(Between(from, position, sold, "fx.sold", "fx.position_in"), Legs(out, received, margin), a);
  }

  /**
   Every request that the ledger accepts does to every account exactly what it says, and locks
   exactly what it takes from when it locks at all.
  */
  lemma PlanTells(r: Request, a: Account)
    requires Plan(r).Ok? && Posts(Plan(r).value.legs)
    ensures Balance(Plan(r).value.legs, a) == Effect(r, a) && Plan(r).value.spend == Lock(r)
  {
    hide Balance, Effect, Lock, Posts;
    match r
    case Tap(cardholder, merchant, amount, fee) => TapTells(cardholder, merchant, amount, fee, a);
    case TapReversal(cardholder, merchant, amount, fee, reason) =>
      ReversalPostsIff(cardholder, merchant, amount, fee, reason);
      ReversalTells(cardholder, merchant, amount, fee, reason, a);
    case Withdraw(user, amount, fee) =>
      WithdrawPostsIff(user, amount, fee);
      WithdrawTells(user, amount, fee, a);
    case Convert(user, sold, bought, spread, quote) => ConvertTells(user, sold, bought, spread, quote, a);
    case _ => DirectTells(r, a);
  }

  /** A movement of one amount has two entries, and only value from outside is credited before it is debited. */
  lemma EntriesInOrder(r: Request)
    requires Direct(r) && Plan(r).Ok? && Posts(Plan(r).value.legs)
    ensures var legs := Plan(r).value.legs;
            && |legs| == 2 && legs[0].account != legs[1].account
            && legs[0].minor == Effect(r, legs[0].account) && legs[1].minor == Effect(r, legs[1].account)
            && (legs[0].minor == r.amount.minor <==> r.Deposit? || r.FundTreasury?)
            && (legs[1].minor == r.amount.minor <==> !(r.Deposit? || r.FundTreasury?))
  {
    var x := RouteOf(r).value;
    RouteIsWellRouted(r);
    DirectEffect(r, x.from);
    DirectEffect(r, x.to);
    CarryPostsIff(x);
    CreditedFirst(r);
    CarryInOrder(x);
    hide RouteOf, Effect, Posts, Carry, Legs, WellRouted, Lock;
  }

  lemma CarryInOrder(x: Route)
    requires x.amount.minor != -TWO_63
    ensures var legs, debit := Carry(x).legs, 0 - x.amount.minor;
            && |legs| == 2
            && (if x.creditFirst then legs[0].account == x.to && legs[0].minor == x.amount.minor
                else legs[0].account == x.from && legs[0].minor == debit)
            && (if x.creditFirst then legs[1].account == x.from && legs[1].minor == debit
                else legs[1].account == x.to && legs[1].minor == x.amount.minor)
  {
  }

  lemma CreditedFirst(r: Request)
    requires Direct(r) && RouteOf(r).Ok?
    ensures RouteOf(r).value.creditFirst <==> r.Deposit? || r.FundTreasury?
  {
  }

  // ------------------------------------------------------------------ refusals

  /** The reference that makes the request idempotent is there. */
  predicate HasReference(r: Request) {
    match r
    case Deposit(_, _, source, reference) => source != "" && reference != ""
    case DepositReversed(_, _, source, reference, _) => source != "" && reference != ""
    case FundTreasury(_, reference) => reference != ""
    case AllocateFloat(_, _, reference) => reference != ""
    case ReturnFloat(_, _, reference) => reference != ""
    case Settled(_, reference) => reference != ""
    case GasSpent(_, reference) => reference != ""
    case _ => true
  }

  /** What takes something back says why. */
  predicate HasReason(r: Request) {
    match r
    case DepositReversed(_, _, _, _, reason) => reason != ""
    case ReleaseAgentFloat(_, _, reason) => reason != ""
    case Returned(_, _, reason) => reason != ""
    case MerchantPayoutReturned(_, _, reason) => reason != ""
    case MerchantSettlementRefunded(_, _, reason) => reason != ""
    case MerchantWalletSettlementReturned(_, _, reason) => reason != ""
    case _ => true
  }

  /** Only a release and the two returns do not look at the sign of their amount. */
  predicate AmountFits(r: Request)
    requires Direct(r)
  {
    r.amount.minor > 0 || r.ReleaseAgentFloat? || r.Returned? || r.MerchantPayoutReturned?
  }

  /** Why a request that moves one amount is refused: amount, reference, reason, currency, in this order. */
  lemma DirectRefusals(r: Request)
    requires Direct(r)
    ensures Plan(r) == Err(NotPositive) <==> !AmountFits(r)
    ensures Plan(r) == Err(NoReference) <==> AmountFits(r) && !HasReference(r)
    ensures Plan(r) == Err(ReasonMissing) <==> AmountFits(r) && HasReference(r) && !HasReason(r)
    ensures Plan(r) == Err(UnknownCurrency) <==>
            AmountFits(r) && HasReference(r) && HasReason(r) && r.amount.currency.Unsupported?
    ensures Plan(r).Ok? <==> AmountFits(r) && HasReference(r) && HasReason(r) && !r.amount.currency.Unsupported?
  {
    RouteRefusals(r);
    hide Carry, RouteOf, AmountFits, HasReference, HasReason;
  }

  lemma RouteRefusals(r: Request)
    requires Direct(r)
    ensures RouteOf(r) == Err(NotPositive) <==> !AmountFits(r)
    ensures RouteOf(r) == Err(NoReference) <==> AmountFits(r) && !HasReference(r)
    ensures RouteOf(r) == Err(ReasonMissing) <==> AmountFits(r) && HasReference(r) && !HasReason(r)
    ensures RouteOf(r).Ok? <==> AmountFits(r) && HasReference(r) && HasReason(r)
    ensures RouteOf(r).Ok? ==> RouteOf(r).value.amount == r.amount
  {
  }

  /** When a subtraction fails, and what it gives otherwise; it takes the least int64 for its own negation. */
  lemma SubTells(x: Amount, y: Amount)
    ensures var same, d := x.currency == y.currency, x.minor - y.minor;
            var least := y.minor == -TWO_63;
            && (Sub(x, y) == Err(CurrencyMismatch) <==> !same)
            && (Sub(x, y) == Err(Overflow) <==>
                  same && if least then -TWO_63 < x.minor < 0 else d < -TWO_63 || d >= TWO_63)
            && (Sub(x, y).Err? ==> Sub(x, y) == Err(CurrencyMismatch) || Sub(x, y) == Err(Overflow))
            && (Sub(x, y).Ok? && !least ==> Sub(x, y).value.minor == d)
            && (Sub(x, y).Ok? && least && x.minor >= 0 ==> Sub(x, y).value.minor < 0)
  {
  }

  lemma TapRefusals(r: Request)
    requires r.Tap?
    ensures var x, fee, same := r.amount.minor, r.fee.minor, r.amount.currency == r.fee.currency;
            && (Plan(r) == Err(NotPositive) <==> x <= 0)
            && (Plan(r) == Err(CurrencyMismatch) <==> x > 0 && !same)
            && (Plan(r) == Err(NegativeFee) <==> x > 0 && same && fee < 0)
            && (Plan(r) == Err(NothingLeft) <==> x > 0 && same && fee >= 0 && x <= fee)
            && (Plan(r) == Err(UnknownCurrency) <==> same && 0 <= fee < x && r.amount.currency.Unsupported?)
            && (Plan(r).Ok? <==> same && 0 <= fee < x && !r.amount.currency.Unsupported?)
  {
    SubTells(r.amount, r.fee);
    hide Legs, Sub, FeeLeg;
  }

  /** A withdrawal does not look at the sign of its fee, only at what is left. */
  lemma WithdrawRefusals(r: Request)
    requires r.Withdraw?
    ensures var x, fee, same := r.amount.minor, r.fee.minor, r.amount.currency == r.fee.currency;
            && (Plan(r) == Err(NotPositive) <==> x <= 0)
            && (Plan(r) == Err(CurrencyMismatch) <==> x > 0 && !same)
            && (Plan(r) == Err(Overflow) <==> x > 0 && same && x - fee >= TWO_63 && fee != -TWO_63)
            && (Plan(r) == Err(NothingLeft) <==> x > 0 && same && (x <= fee || fee == -TWO_63))
            && (Plan(r) == Err(UnknownCurrency) <==>
                  x > 0 && same && 0 < x - fee < TWO_63 && r.amount.currency.Unsupported?)
            && (Plan(r).Ok? <==> x > 0 && same && 0 < x - fee < TWO_63 && !r.amount.currency.Unsupported?)
  {
    SubTells(r.amount, r.fee);
    hide Legs, Sub, FeeLeg;
  }

  /** A reversal only looks at its reason, and at a subtraction that does not overflow. */
  lemma ReversalRefusals(r: Request)
    requires r.TapReversal?
    ensures var x, fee, same := r.amount.minor, r.fee.minor, r.amount.currency == r.fee.currency;
            var fits := if fee == -TWO_63 then x >= 0 || x == -TWO_63 else -TWO_63 <= x - fee < TWO_63;
            && (Plan(r) == Err(ReasonMissing) <==> r.reason == "")
            && (Plan(r) == Err(CurrencyMismatch) <==> r.reason != "" && !same)
            && (Plan(r) == Err(Overflow) <==> r.reason != "" && same && !fits)
            && (Plan(r) == Err(UnknownCurrency) <==>
                  r.reason != "" && same && fits && r.amount.currency.Unsupported?)
            && (Plan(r).Ok? <==> r.reason != "" && same && fits && !r.amount.currency.Unsupported?)
  {
    SubTells(r.amount, r.fee);
    hide Legs, Sub, FeeLeg;
  }

  lemma ConvertRefusals(r: Request)
    requires r.Convert?
    ensures var positive, different := r.sold.minor > 0 && r.bought.minor > 0, r.sold.currency != r.bought.currency;
            var spreadFits := r.spread.currency == r.bought.currency && r.spread.minor >= 0;
            var known := !r.sold.currency.Unsupported? && !r.bought.currency.Unsupported?;
            && (Plan(r) == Err(NotPositive) <==> !positive)
            && (Plan(r) == Err(NotAConversion) <==> positive && !different)
            && (Plan(r) == Err(CurrencyMismatch) <==> positive && different && r.spread.currency != r.bought.currency)
            && (Plan(r) == Err(NegativeFee) <==>
                  positive && different && r.spread.currency == r.bought.currency && r.spread.minor < 0)
            && (Plan(r) == Err(NoReference) <==> positive && different && spreadFits && r.quote == "")
            && (Plan(r) == Err(UnknownCurrency) <==>
                  positive && different && spreadFits && r.quote != "" && !known)
            && (Plan(r) == Err(Overflow) <==>
                  positive && different && spreadFits && r.quote != "" && known &&
                  r.bought.minor + r.spread.minor >= TWO_63)
            && (Plan(r).Ok? <==>
                  positive && different && spreadFits && r.quote != "" && known &&
                  r.bought.minor + r.spread.minor < TWO_63)
  {
    hide Legs;
  }
}
