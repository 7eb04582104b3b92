/**
 The named movements: what each business operation does to the books. A request becomes legs
 on accounts and, when it spends, the one account it must lock and the amount it must cover.
*/
module Movements {
  import opened Base
  import opened Ledger

  datatype Kind =
    Available | Escrow | AgentFloat | MerchantPayable | Treasury | FxPosition | Revenue | Payable | External

  /** The unique key of an account row; system accounts have no owner. */
  datatype Account = Account(owner: Option<Uuid>, kind: Kind, currency: Currency)

  datatype Amount = Amount(minor: Int64, currency: Currency)

  datatype Leg = Leg(account: Account, minor: Int64, reason: string)

  /** What ensureFunds is asked to lock and compare. */
  datatype Spend = Spend(account: Account, need: Int64)

  datatype Movement = Movement(spend: Option<Spend>, legs: seq<Leg>)

  datatype MoveError =
    | NotPositive | CurrencyMismatch | NegativeFee | NothingLeft | Overflow
    | NotAConversion | NoReference | ReasonMissing | UnknownCurrency

  datatype Request =
    | Deposit(user: Uuid, amount: Amount, source: string, reference: string)
    | DepositReversed(user: Uuid, amount: Amount, source: string, reference: string, reason: string)
    | Tap(cardholder: Uuid, merchant: Uuid, amount: Amount, fee: Amount)
    | TapReversal(cardholder: Uuid, merchant: Uuid, amount: Amount, fee: Amount, reason: string)
    | Withdraw(user: Uuid, amount: Amount, fee: Amount)
    | Convert(user: Uuid, sold: Amount, bought: Amount, spread: Amount, quote: string)
    | LockAgentFloat(agent: Uuid, amount: Amount)
    | ReleaseAgentFloat(agent: Uuid, amount: Amount, reason: string)
    | SettleHandover(agent: Uuid, trader: Uuid, amount: Amount)
    | FundTreasury(amount: Amount, reference: string)
    | AllocateFloat(agent: Uuid, amount: Amount, reference: string)
    | ReturnFloat(agent: Uuid, amount: Amount, reference: string)
    | Settled(amount: Amount, reference: string)
    | Returned(user: Uuid, amount: Amount, reason: string)
    | MerchantSettled(merchant: Uuid, amount: Amount)
    | MerchantPayoutReturned(merchant: Uuid, amount: Amount, reason: string)
    | MerchantSettledOnChain(merchant: Uuid, amount: Amount)
    | MerchantSettlementRefunded(merchant: Uuid, amount: Amount, reason: string)
    | MerchantSettledFromWallet(merchant: Uuid, amount: Amount)
    | MerchantWalletSettlementReturned(merchant: Uuid, amount: Amount, reason: string)
    | RailFeesPaid(amount: Amount)
    | GasSpent(amount: Amount, reference: string)

  // ------------------------------------------------------------------ amounts

  function Neg(a: Amount): Amount {
    Amount(Wrap(0 - a.minor), a.currency)
  }

  /** Sums in int64 and looks at the sign of the result to notice an overflow. */
  function Add(a: Amount, b: Amount): Result<Amount, MoveError> {
    if a.currency != b.currency then Err(CurrencyMismatch)
    else
      var sum := Wrap(a.minor + b.minor);
      if (a.minor > 0 && b.minor > 0 && sum < 0) || (a.minor < 0 && b.minor < 0 && sum > 0) then Err(Overflow)
      else Ok(Amount(sum, a.currency))
  }

  function Sub(a: Amount, b: Amount): Result<Amount, MoveError> {
    Add(a, Neg(b))
  }

  predicate InRange(x: int) {
    -TWO_63 <= x < TWO_63
  }

  /** The overflow test misses one pair: the least int64 added to itself gives zero. */
  lemma AddIsExactIff(a: Amount, b: Amount)
    requires a.currency == b.currency
    ensures Add(a, b) == Ok(Amount(0, a.currency)) && a.minor + b.minor != 0 <==>
            a.minor == -TWO_63 && b.minor == -TWO_63
    ensures InRange(a.minor + b.minor) ==> Add(a, b) == Ok(Amount(a.minor + b.minor, a.currency))
    ensures !InRange(a.minor + b.minor) ==>
              (Add(a, b) == Err(Overflow) <==> !(a.minor == -TWO_63 && b.minor == -TWO_63))
  {
  }

  /** Subtraction adds the negation, which the least int64 does not have. */
  lemma SubIsExactIff(a: Amount, b: Amount)
    requires a.currency == b.currency
    ensures (Sub(a, b).Ok? && Sub(a, b).value.minor == a.minor - b.minor) <==>
            InRange(a.minor - b.minor) && (b.minor == -TWO_63 ==> a.minor == -TWO_63)
  {
  }

  // ------------------------------------------------------------------ what each request does

  function Of(owner: Uuid, kind: Kind, c: Currency): Account {
    Account(Some(owner), kind, c)
  }

  function System(kind: Kind, c: Currency): Account {
    Account(None, kind, c)
  }

  /** Two legs, and a third for a fee that is positive. */
  function Legs(x: Leg, y: Leg, z: Option<Leg>): seq<Leg> {
    if z.Some? then [x, y] + [z.value] else [x, y]
  }

  function FeeLeg(fee: Amount, account: Account, minor: Int64, reason: string): Option<Leg> {
    if fee.minor > 0 then Some(Leg(account, minor, reason)) else None
  }

  /** The two legs of value going from one account to another. */
  function Between(from: Account, to: Account, amount: Amount, out: string, into: string): seq<Leg> {
    Legs(Leg(from, Neg(amount).minor, out), Leg(to, amount.minor, into), None)
  }

  /** Resolving an account refuses a currency the system does not know. */
  function Resolved(c: Currency, m: Movement): Result<Movement, MoveError> {
    if c.Unsupported? then Err(UnknownCurrency) else Ok(m)
  }

  function PlanTap(cardholder: Uuid, merchant: Uuid, amount: Amount, fee: Amount): Result<Movement, MoveError> {
    var c := amount.currency;
    if amount.minor <= 0 then Err(NotPositive)
    else if c != fee.currency then Err(CurrencyMismatch)
    else if fee.minor < 0 then Err(NegativeFee)
    else
      match Sub(amount, fee)
      case Err(e) => Err(e)
      case Ok(net) =>
        if net.minor <= 0 then Err(NothingLeft)
        else
          var from := Of(cardholder, Available, c);
          Resolved(c, Movement(Some(Spend(from, amount.minor)),
                               Legs(Leg(from, Neg(amount).minor, "tap.debit"),
                                    Leg(Of(merchant, MerchantPayable, c), net.minor, "tap.merchant_owed"),
                                    FeeLeg(fee, System(Revenue, c), fee.minor, "tap.fee"))))
  }

  /** Returns a tap in full; it checks neither the amounts nor what the merchant still holds. */
  function PlanTapReversal(cardholder: Uuid, merchant: Uuid, amount: Amount, fee: Amount, reason: string):
    Result<Movement, MoveError>
  {
    var c := amount.currency;
    if reason == "" then Err(ReasonMissing)
    else
      match Sub(amount, fee)
      case Err(e) => Err(e)
      case Ok(net) =>
        var withdrawn := Leg(Of(merchant, MerchantPayable, c), Neg(net).minor, "tap.reversal.merchant_claim_withdrawn");
        Resolved(c, Movement(None,
                             Legs(withdrawn,
                                  Leg(Of(cardholder, Available, c), amount.minor, "tap.reversal.refund:" + reason),
                                  FeeLeg(fee, System(Revenue, c), Neg(fee).minor, "tap.reversal.fee_returned"))))
  }

  function PlanWithdraw(user: Uuid, amount: Amount, fee: Amount): Result<Movement, MoveError> {
    var c := amount.currency;
    if amount.minor <= 0 then Err(NotPositive)
    else
      match Sub(amount, fee)
      case Err(e) => Err(e)
      case Ok(net) =>
        if net.minor <= 0 then Err(NothingLeft)
        else
          var from := Of(user, Available, c);
          Resolved(c, Movement(Some(Spend(from, amount.minor)),
                               Legs(Leg(from, Neg(amount).minor, "withdrawal.debited"),
                                    Leg(System(Payable, c), net.minor, "withdrawal.owed"),
                                    FeeLeg(fee, System(Revenue, c), fee.minor, "withdrawal.fee"))))
  }

  function PlanConvert(user: Uuid, sold: Amount, bought: Amount, spread: Amount, quote: string):
    Result<Movement, MoveError>
  {
    if sold.minor <= 0 || bought.minor <= 0 then Err(NotPositive)
    else if sold.currency == bought.currency then Err(NotAConversion)
    else if spread.currency != bought.currency then Err(CurrencyMismatch)
    else if spread.minor < 0 then Err(NegativeFee)
    else if quote == "" then Err(NoReference)
    else if sold.currency.Unsupported? || bought.currency.Unsupported? then Err(UnknownCurrency)
    else
      match Add(bought, spread)
      case Err(e) => Err(e)
      case Ok(gross) =>
        var from := Of(user, Available, sold.currency);
        Ok(Movement(Some(Spend(from, sold.minor)),
                    Between(from, System(FxPosition, sold.currency), sold, "fx.sold", "fx.position_in") +
                    Legs(Leg(System(FxPosition, bought.currency), Neg(gross).minor, "fx.position_out"),
                         Leg(Of(user, Available, bought.currency), bought.minor, "fx.bought"),
                         FeeLeg(spread, System(Revenue, bought.currency), spread.minor, "fx.spread"))))
  }

  /** A movement of one amount from one account to another, and whether it locks and checks the first. */
  datatype Route = Route(
    locked: bool, from: Account, to: Account, amount: Amount, out: string, into: string, creditFirst: bool)

  function Spending(from: Account, to: Account, amount: Amount, out: string, into: string): Result<Route, MoveError> {
    Ok(Route(true, from, to, amount, out, into, false))
  }

  function Unchecked(from: Account, to: Account, amount: Amount, out: string, into: string): Result<Route, MoveError> {
    Ok(Route(false, from, to, amount, out, into, false))
  }

  /** Value brought in from outside; its credit is the first entry. */
  function Inward(to: Account, amount: Amount, into: string, out: string): Result<Route, MoveError> {
    Ok(Route(false, System(External, amount.currency), to, amount, out, into, true))
  }

  function Carry(x: Route): Movement {
    Movement(if x.locked then Some(Spend(x.from, x.amount.minor)) else None,
             if x.creditFirst
             then Legs(Leg(x.to, x.amount.minor, x.into), Leg(x.from, Neg(x.amount).minor, x.out), None)
             else Between(x.from, x.to, x.amount, x.out, x.into))
  }

  /** Requests that move one amount between two accounts. */
  predicate Direct(r: Request) {
    !r.Tap? && !r.TapReversal? && !r.Withdraw? && !r.Convert?
  }

  /** Direct requests that accept any amount. */
  predicate AnyAmount(r: Request) {
    r.ReleaseAgentFloat? || r.Returned? || r.MerchantPayoutReturned?
  }

  function RouteOf(r: Request): Result<Route, MoveError>
    requires Direct(r)
  {
    var amount, c := r.amount, r.amount.currency;
    if !AnyAmount(r) && amount.minor <= 0 then Err(NotPositive)
    else
      match r
      case Deposit(user, _, source, reference) =>
        if source == "" || reference == "" then Err(NoReference)
        else Inward(Of(user, Available, c), amount, "deposit.credited", "deposit.from_" + source)
      case DepositReversed(user, _, source, reference, reason) =>
        if source == "" || reference == "" then Err(NoReference)
        else if reason == "" then Err(ReasonMissing)
        else Spending(Of(user, Available, c), System(External, c), amount,
                      "deposit.reversed:" + reason, "deposit.returned_to_" + source)
      case LockAgentFloat(agent, _) =>
        Spending(Of(agent, AgentFloat, c), Of(agent, Escrow, c), amount, "handover.locked", "handover.escrowed")
      case ReleaseAgentFloat(agent, _, reason) =>
        if reason == "" then Err(ReasonMissing)
        else Spending(Of(agent, Escrow, c), Of(agent, AgentFloat, c), amount,
                      "handover.released:" + reason, "handover.float_restored")
      case SettleHandover(agent, trader, _) =>
        Spending(Of(agent, Escrow, c), Of(trader, Available, c), amount,
                 "handover.settled", "handover.credited_trader")
      case FundTreasury(_, reference) =>
        if reference == "" then Err(NoReference)
        else Inward(System(Treasury, c), amount, "treasury.funded", "treasury.capital_in")
      case AllocateFloat(agent, _, reference) =>
        if reference == "" then Err(NoReference)
        else Spending(System(Treasury, c), Of(agent, AgentFloat, c), amount, "agent.allocated_out", "agent.allocated")
      case ReturnFloat(agent, _, reference) =>
        if reference == "" then Err(NoReference)
        else Spending(Of(agent, AgentFloat, c), System(Treasury, c), amount, "agent.returned", "agent.returned_in")
      case Settled(_, reference) =>
        if reference == "" then Err(NoReference)
        else Unchecked(System(Payable, c), System(External, c), amount,
                       "settlement.delivered", "settlement.left_the_system")
      case Returned(user, _, reason) =>
        if reason == "" then Err(ReasonMissing)
        else Unchecked(System(Payable, c), Of(user, Available, c), amount,
                       "settlement.returned:" + reason, "settlement.refunded_sender")
      case MerchantSettled(merchant, _) =>
        Spending(Of(merchant, MerchantPayable, c), System(Payable, c), amount,
                 "merchant_payout.claim_settled", "merchant_payout.owed_to_bank")
      case MerchantPayoutReturned(merchant, _, reason) =>
        if reason == "" then Err(ReasonMissing)
        else Spending(System(Payable, c), Of(merchant, MerchantPayable, c), amount,
                      "merchant_payout.returned:" + reason, "merchant_payout.still_owed")
      case MerchantSettledOnChain(merchant, _) =>
        Spending(Of(merchant, MerchantPayable, c), System(External, c), amount,
                 "merchant.settled_onchain", "merchant.paid_by_provider")
      case MerchantSettlementRefunded(merchant, _, reason) =>
        if reason == "" then Err(ReasonMissing)
        else Unchecked(System(External, c), Of(merchant, MerchantPayable, c), amount,
                       "merchant.refunded_by_gateway:" + reason, "merchant.still_owed")
      case MerchantSettledFromWallet(merchant, _) =>
        Spending(Of(merchant, MerchantPayable, c), System(External, c), amount,
                 "merchant.settled_from_wallet", "merchant.paid_by_cardholder_wallet")
      case MerchantWalletSettlementReturned(merchant, _, reason) =>
        if reason == "" then Err(ReasonMissing)
        else Unchecked(System(External, c), Of(merchant, MerchantPayable, c), amount,
                       "merchant.wallet_refused:" + reason, "merchant.still_owed")
      case RailFeesPaid(_) =>
        Unchecked(System(Revenue, c), System(External, c), amount, "scheme_fee.rail_fees", "rail.fees_charged")
      case GasSpent(_, reference) =>
        if reference == "" then Err(NoReference)
        else Unchecked(System(Revenue, c), System(External, c), amount, "gas.spent", "gas.paid_to_network")
  }

  function Plan(r: Request): Result<Movement, MoveError> {
    match r
    case Tap(cardholder, merchant, amount, fee) => PlanTap(cardholder, merchant, amount, fee)
    case TapReversal(cardholder, merchant, amount, fee, reason) =>
      PlanTapReversal(cardholder, merchant, amount, fee, reason)
    case Withdraw(user, amount, fee) => PlanWithdraw(user, amount, fee)
    case Convert(user, sold, bought, spread, quote) => PlanConvert(user, sold, bought, spread, quote)
    case _ =>
      match RouteOf(r)
      case Err(e) => Err(e)
      case Ok(x) => Resolved(x.amount.currency, Carry(x))
  }

  // ------------------------------------------------------------------ balances

  /** What these legs add to an account. */
  function Balance(legs: seq<Leg>, a: Account): int {
    if legs == [] then 0
    else
      var l := legs[|legs| - 1];
      Balance(legs[..|legs| - 1], a) + (if l.account == a then l.minor else 0)
  }

  lemma {:induction false} BalanceAppend(x: seq<Leg>, y: seq<Leg>, a: Account)
    ensures Balance(x + y, a) == Balance(x, a) + Balance(y, a)
  {
    if y == [] {
      assert x + y == x;
    } else {
      assert (x + y)[..|x + y| - 1] == x + y[..|y| - 1];
      BalanceAppend(x, y[..|y| - 1], a);
    }
  }

  lemma BalanceSnoc(legs: seq<Leg>, l: Leg, a: Account)
    ensures Balance(legs + [l], a) == Balance(legs, a) + (if l.account == a then l.minor else 0)
  {
  }

  /** The ledger entries of some legs, each in its account's currency. */
  function Entries(legs: seq<Leg>, ids: Account -> Uuid): (es: seq<Entry>)
    ensures |es| == |legs|
    ensures forall i :: 0 <= i < |es| ==>
              es[i] == Entry(ids(legs[i].account), legs[i].account.currency, legs[i].minor, legs[i].reason)
  {
    seq(|legs|, i requires 0 <= i < |legs| =>
      Entry(ids(legs[i].account), legs[i].account.currency, legs[i].minor, legs[i].reason))
  }

  /** The sum of some legs in one currency. */
  function Net(legs: seq<Leg>, c: Currency): int {
    if legs == [] then 0
    else
      var l := legs[|legs| - 1];
      Net(legs[..|legs| - 1], c) + (if l.account.currency == c then l.minor else 0)
  }

  lemma NetSnoc(legs: seq<Leg>, l: Leg, c: Currency)
    ensures Net(legs + [l], c) == Net(legs, c) + (if l.account.currency == c then l.minor else 0)
  {
  }

  lemma {:induction false} EntriesSum(legs: seq<Leg>, ids: Account -> Uuid, c: Currency)
    ensures Sum(Entries(legs, ids), c) == Net(legs, c)
  {
    if legs != [] {
      var init := legs[..|legs| - 1];
      EntriesSum(init, ids, c);
      assert Entries(legs, ids)[..|legs| - 1] == Entries(init, ids);
    }
  }

  // ------------------------------------------------------------------ what every planned movement keeps

  predicate LegIsProper(l: Leg) {
    !l.account.currency.Unsupported? && l.minor != 0 && l.reason != ""
  }

  predicate LegsProper(legs: seq<Leg>) {
    |legs| >= 2 && forall i :: 0 <= i < |legs| ==> LegIsProper(legs[i])
  }

  predicate NetsToZero(legs: seq<Leg>) {
    Net(legs, NGN) == 0 && Net(legs, USD) == 0
  }

  /** What funds the movement is a positive amount on an account that can exist, as ensureFunds demands. */
  predicate Fundable(m: Movement) {
    m.spend.Some? ==> m.spend.value.need > 0 && !m.spend.value.account.currency.Unsupported?
  }

  /** Nothing in the movement takes more from a than what it locked a for. */
  predicate Covers(m: Movement, a: Account) {
    || !Fundable(m)
    || Balance(m.legs, a) >= 0
    || (m.spend.Some? && m.spend.value.account == a && m.spend.value.need + Balance(m.legs, a) >= 0)
  }

  /** What one leg adds to a currency, and to an account. */
  function Part(l: Leg, c: Currency): int {
    if l.account.currency == c then l.minor else 0
  }

  function Share(l: Leg, a: Account): int {
    if l.account == a then l.minor else 0
  }

  lemma LegsTell(x: Leg, y: Leg, z: Option<Leg>, a: Account, c: Currency)
    ensures Net(Legs(x, y, z), c) == Part(x, c) + Part(y, c) + (if z.Some? then Part(z.value, c) else 0)
    ensures Balance(Legs(x, y, z), a) == Share(x, a) + Share(y, a) + (if z.Some? then Share(z.value, a) else 0)
  {
    assert [x, y] == ([] + [x]) + [y];
    BalanceSnoc([], x, a);
    BalanceSnoc([] + [x], y, a);
    NetSnoc([], x, c);
    NetSnoc([] + [x], y, c);
    if z.Some? {
      BalanceSnoc([x, y], z.value, a);
      NetSnoc([x, y], z.value, c);
    }
  }

  lemma LegsNet(x: Leg, y: Leg, z: Option<Leg>, c: Currency)
    requires x.account.currency == y.account.currency == c && (z.Some? ==> z.value.account.currency == c)
    ensures NetsToZero(Legs(x, y, z)) <==>
            c.Unsupported? || x.minor + y.minor + (if z.Some? then z.value.minor else 0) == 0
  {
    LegsTell(x, y, z, x.account, NGN);
    LegsTell(x, y, z, x.account, USD);
  }

  /** Fees and amounts that nothing checks: a negative fee leaves the legs unbalanced, an amount may be zero. */
  predicate Sane(r: Request) {
    match r
    case Withdraw(_, _, fee) => fee.minor >= 0
    case TapReversal(_, _, amount, fee, _) =>
      fee.minor >= 0 && amount.minor != 0 && amount.minor != fee.minor && amount.minor - fee.minor != -TWO_63
    case Returned(_, amount, _) => amount.minor != 0 && amount.minor != -TWO_63
    case _ => true
  }

  predicate Posts(legs: seq<Leg>) {
    LegsProper(legs) && NetsToZero(legs)
  }

  /** What the int64 guard of Post lets through; Posts is what the trigger then accepts too. */
  predicate PassesGuard(legs: seq<Leg>) {
    LegsProper(legs) && Wrap(Net(legs, NGN)) == 0 && Wrap(Net(legs, USD)) == 0
  }

  lemma TransferPosts(from: Account, to: Account, amount: Amount, out: string, into: string)
    requires amount.minor > 0 && out != "" && into != ""
    requires from.currency == to.currency == amount.currency && !amount.currency.Unsupported?
    ensures Posts(Between(from, to, amount, out, into))
  {
    LegsNet(Leg(from, Neg(amount).minor, out), Leg(to, amount.minor, into), None, amount.currency);
  }

  lemma TapPosts(cardholder: Uuid, merchant: Uuid, amount: Amount, fee: Amount)
    requires PlanTap(cardholder, merchant, amount, fee).Ok?
    ensures Posts(PlanTap(cardholder, merchant, amount, fee).value.legs)
  {
    var c := amount.currency;
    SubIsExactIff(amount, fee);
    LegsNet(Leg(Of(cardholder, Available, c), Neg(amount).minor, "tap.debit"),
            Leg(Of(merchant, MerchantPayable, c), Sub(amount, fee).value.minor, "tap.merchant_owed"),
            FeeLeg(fee, System(Revenue, c), fee.minor, "tap.fee"), c);
  }

  lemma WithdrawSums(amount: Amount, fee: Amount)
    requires amount.minor > 0 && Sub(amount, fee).Ok? && Sub(amount, fee).value.minor > 0
    ensures Neg(amount).minor != 0
    ensures Neg(amount).minor + Sub(amount, fee).value.minor + (if fee.minor > 0 then fee.minor else 0) == 0 <==>
            fee.minor >= 0
  {
    SubIsExactIff(amount, fee);
  }

  lemma WithdrawPostsIff(user: Uuid, amount: Amount, fee: Amount)
    requires PlanWithdraw(user, amount, fee).Ok?
    ensures Posts(PlanWithdraw(user, amount, fee).value.legs) <==> fee.minor >= 0
  {
    var c := amount.currency;
    var net := Sub(amount, fee).value;
    var debit, owed := Leg(Of(user, Available, c), Neg(amount).minor, "withdrawal.debited"),
                       Leg(System(Payable, c), net.minor, "withdrawal.owed");
    var margin := FeeLeg(fee, System(Revenue, c), fee.minor, "withdrawal.fee");
    SubIsExactIff(amount, fee);
    WithdrawSums(amount, fee);
    LegsNet(debit, owed, margin, c);
    LegsProperIff(debit, owed, margin);
    hide LegsProper, NetsToZero, Legs, Sub, Add;
  }

  lemma ReversalSums(amount: Amount, fee: Amount)
    requires amount.currency == fee.currency && Sub(amount, fee).Ok?
    ensures var net := Sub(amount, fee).value;
            net.minor != 0 && amount.minor != 0 &&
            Neg(net).minor + amount.minor + (if fee.minor > 0 then Neg(fee).minor else 0) == 0
            <==>
            fee.minor >= 0 && amount.minor != 0 && amount.minor != fee.minor && amount.minor - fee.minor != -TWO_63
  {
    var net := Sub(amount, fee).value;
    SubIsExactIff(amount, fee);
    if fee.minor == -TWO_63 {
      assert net.minor == 0 || net.minor == amount.minor - TWO_63;
    } else {
      assert net.minor == amount.minor - fee.minor;
    }
    hide Sub, Add;
  }

  lemma LegsProperIff(x: Leg, y: Leg, z: Option<Leg>)
    ensures LegsProper(Legs(x, y, z)) <==> LegIsProper(x) && LegIsProper(y) && (z.Some? ==> LegIsProper(z.value))
  {
    var legs := Legs(x, y, z);
    assert legs[0] == x && legs[1] == y && (z.Some? ==> legs[2] == z.value);
  }

  lemma ReversalPostsIff(cardholder: Uuid, merchant: Uuid, amount: Amount, fee: Amount, reason: string)
    requires PlanTapReversal(cardholder, merchant, amount, fee, reason).Ok?
    ensures Posts(PlanTapReversal(cardholder, merchant, amount, fee, reason).value.legs) <==>
            Sane(TapReversal(cardholder, merchant, amount, fee, reason))
  {
    var c := amount.currency;
    var net := Sub(amount, fee).value;
    var withdrawn := Leg(Of(merchant, MerchantPayable, c), Neg(net).minor, "tap.reversal.merchant_claim_withdrawn");
    var refund := Leg(Of(cardholder, Available, c), amount.minor, "tap.reversal.refund:" + reason);
    var feeBack := FeeLeg(fee, System(Revenue, c), Neg(fee).minor, "tap.reversal.fee_returned");
    ReversalSums(amount, fee);
    LegsNet(withdrawn, refund, feeBack, c);
    LegsProperIff(withdrawn, refund, feeBack);
    hide LegsProper, NetsToZero, Legs, Sub, Add;
  }

  lemma NetAppend(x: seq<Leg>, y: seq<Leg>, c: Currency)
    ensures Net(x + y, c) == Net(x, c) + Net(y, c)
  {
    if y == [] {
      assert x + y == x;
    } else {
      assert (x + y)[..|x + y| - 1] == x + y[..|y| - 1];
      NetAppend(x, y[..|y| - 1], c);
    }
  }

  lemma PostsAppend(x: seq<Leg>, y: seq<Leg>)
    requires Posts(x) && Posts(y)
    ensures Posts(x + y)
  {
    NetAppend(x, y, NGN);
    NetAppend(x, y, USD);
  }

  lemma ThreeLegsPost(out: Leg, received: Leg, margin: Option<Leg>, c: Currency)
    requires out.account.currency == received.account.currency == c
    requires margin.Some? ==> margin.value.account.currency == c
    requires LegIsProper(out) && LegIsProper(received) && (margin.Some? ==> LegIsProper(margin.value))
    requires out.minor + received.minor + (if margin.Some? then margin.value.minor else 0) == 0
    ensures Posts(Legs(out, received, margin))
  {
    LegsNet(out, received, margin, c);
    LegsProperIff(out, received, margin);
  }

  lemma ConvertPosts(user: Uuid, sold: Amount, bought: Amount, spread: Amount, quote: string)
    requires PlanConvert(user, sold, bought, spread, quote).Ok?
    ensures Posts(PlanConvert(user, sold, bought, spread, quote).value.legs)
  {
    hide Posts, Legs;
    AddIsExactIff(bought, spread);
    var c := bought.currency;
    var from, position := Of(user, Available, sold.currency), System(FxPosition, sold.currency);
    var out := Leg(System(FxPosition, c), Neg(Add(bought, spread).value).minor, "fx.position_out");
    var received := Leg(Of(user, Available, c), bought.minor, "fx.bought");
    var margin := FeeLeg(spread, System(Revenue, c), spread.minor, "fx.spread");
    TransferPosts(from, position, sold, "fx.sold", "fx.position_in");
    ThreeLegsPost(out, received, margin, c);
    PostsAppend(Between(from, position, sold, "fx.sold", "fx.position_in"), Legs(out, received, margin));
  }

  predicate WellRouted(x: Route) {
    x.from.currency == x.to.currency == x.amount.currency && x.from != x.to && x.out != "" && x.into != ""
  }

  lemma RouteIsWellRouted(r: Request)
    requires Direct(r) && RouteOf(r).Ok?
    ensures WellRouted(RouteOf(r).value) && RouteOf(r).value.amount == r.amount
    ensures AnyAmount(r) || r.amount.minor > 0
    ensures AnyAmount(r) ==> (RouteOf(r).value.locked <==> !r.Returned?)
  {
    RouteTexts(r);
    RouteAccounts(r);
    hide RouteOf;
  }

  lemma RouteTexts(r: Request)
    requires Direct(r) && RouteOf(r).Ok?
    ensures RouteOf(r).value.out != "" && RouteOf(r).value.into != ""
  {
  }

  lemma RouteAccounts(r: Request)
    requires Direct(r) && RouteOf(r).Ok?
    ensures var x := RouteOf(r).value;
            && x.amount == r.amount && x.from.currency == x.to.currency == x.amount.currency && x.from != x.to
            && (AnyAmount(r) || r.amount.minor > 0) && (AnyAmount(r) ==> (x.locked <==> !r.Returned?))
  {
  }

  /** The least int64 has no negation, so its two legs do not cancel. */
  lemma CarryPostsIff(x: Route)
    requires WellRouted(x) && !x.amount.currency.Unsupported?
    ensures Posts(Carry(x).legs) <==> x.amount.minor != 0 && x.amount.minor != -TWO_63
  {
    var debit, credit := Leg(x.from, Neg(x.amount).minor, x.out), Leg(x.to, x.amount.minor, x.into);
    LegsNet(debit, credit, None, x.amount.currency);
    LegsNet(credit, debit, None, x.amount.currency);
    LegsProperIff(debit, credit, None);
    LegsProperIff(credit, debit, None);
  }

  lemma DirectPostsIff(r: Request)
    requires Direct(r) && Plan(r).Ok? && Fundable(Plan(r).value)
    ensures Posts(Plan(r).value.legs) <==> Sane(r)
  {
    hide Posts, Legs;
    RouteIsWellRouted(r);
    CarryPostsIff(RouteOf(r).value);
  }

  /** What the ledger accepts of some legs: proper entries that balance in every currency. */
  lemma EntriesPostIff(legs: seq<Leg>, ids: Account -> Uuid)
    ensures Passes(Entries(legs, ids)) && Balances(Entries(legs, ids)) <==> Posts(legs)
  {
    EntriesSum(legs, ids, NGN);
    EntriesSum(legs, ids, USD);
    var es := Entries(legs, ids);
    assert forall i :: 0 <= i < |legs| ==> (ProperLeg(es[i]) <==> LegIsProper(legs[i]));
  }

  lemma EntriesPassIff(legs: seq<Leg>, ids: Account -> Uuid)
    ensures Passes(Entries(legs, ids)) <==> PassesGuard(legs)
  {
    EntriesSum(legs, ids, NGN);
    EntriesSum(legs, ids, USD);
    var es := Entries(legs, ids);
    assert forall i :: 0 <= i < |legs| ==> (ProperLeg(es[i]) <==> LegIsProper(legs[i]));
  }

  lemma PlannedPosts(r: Request)
    requires Plan(r).Ok? && Fundable(Plan(r).value)
    ensures Posts(Plan(r).value.legs) <==> Sane(r)
  {
    hide Posts;
    match r
    case Tap(cardholder, merchant, amount, fee) => TapPosts(cardholder, merchant, amount, fee);
    case TapReversal(cardholder, merchant, amount, fee, reason) =>
      ReversalPostsIff(cardholder, merchant, amount, fee, reason);
    case Withdraw(user, amount, fee) => WithdrawPostsIff(user, amount, fee);
    case Convert(user, sold, bought, spread, quote) => ConvertPosts(user, sold, bought, spread, quote);
    case _ => DirectPostsIff(r);
  }

  /**
   The ledger accepts every planned movement that can be funded, in both its guard and its
   trigger, exactly when the fees and amounts that nothing checks are sane.
  */
  lemma PlannedIsAcceptedIff(r: Request, ids: Account -> Uuid)
    requires Plan(r).Ok? && Fundable(Plan(r).value)
    ensures var es := Entries(Plan(r).value.legs, ids);
            Passes(es) && Balances(es) <==> Sane(r)
  {
    PlannedPosts(r);
    EntriesPostIff(Plan(r).value.legs, ids);
  }

  // ------------------------------------------------------------------ books

  /** Legs that came in batches, each of which the ledger accepts. */
  ghost predicate Posted(legs: seq<Leg>)
    decreases |legs|
  {
    legs == [] || exists n :: 0 <= n < |legs| && Posted(legs[..n]) && Posts(legs[n..])
  }

  lemma PostedSnoc(legs: seq<Leg>, batch: seq<Leg>)
    requires Posted(legs) && Posts(batch)
    ensures Posted(legs + batch)
  {
    assert (legs + batch)[..|legs|] == legs && (legs + batch)[|legs|..] == batch;
  }

  lemma PostsNets(legs: seq<Leg>)
    requires Posts(legs)
    ensures NetsToZero(legs)
  {
  }

  lemma NettedJoin(x: seq<Leg>, y: seq<Leg>)
    requires NetsToZero(x) && NetsToZero(y)
    ensures NetsToZero(x + y)
  {
    NetAppend(x, y, NGN);
    NetAppend(x, y, USD);
  }

  /** Posted books balance in both currencies. */
  lemma {:induction false} PostedNets(legs: seq<Leg>)
    requires Posted(legs)
    ensures NetsToZero(legs)
    decreases |legs|
  {
    if legs != [] {
      var n :| 0 <= n < |legs| && Posted(legs[..n]) && Posts(legs[n..]);
      hide *;
      PostsNets(legs[n..]);
      PostedNets(legs[..n]);
      NettedJoin(legs[..n], legs[n..]);
      assert legs[..n] + legs[n..] == legs;
    }
  }

  /** The entries that a ledger holds, in order. */
  function EntriesOf(rows: seq<Row>): (es: seq<Entry>)
    ensures |es| == |rows| && forall i :: 0 <= i < |es| ==> es[i] == rows[i].entry
  {
    seq(|rows|, i requires 0 <= i < |rows| => rows[i].entry)
  }

  /** Posting one more accepted batch under a new number and without a key. */
  lemma BatchIsPosted(b: Book, id: TxId, batch: seq<Leg>, ids: Account -> Uuid)
    requires Posts(batch) && id !in b.transactions && AccountsFit(b, Entries(batch, ids))
    ensures var (err, b1) := Apply(b, Posting(id, "", Entries(batch, ids)));
            && err.None? && b1.accounts == b.accounts && b1.transactions.Keys == b.transactions.Keys + {id}
            && EntriesOf(b1.rows) == EntriesOf(b.rows) + Entries(batch, ids)
  {
    EntriesPostIff(batch, ids);
  }

  lemma EntriesSplit(b: Book, legs: seq<Leg>, n: nat, ids: Account -> Uuid)
    requires n <= |legs| && AccountsFit(b, Entries(legs, ids))
    ensures Entries(legs[..n], ids) + Entries(legs[n..], ids) == Entries(legs, ids)
    ensures AccountsFit(b, Entries(legs[..n], ids)) && AccountsFit(b, Entries(legs[n..], ids))
  {
    assert Entries(legs[..n], ids) == Entries(legs, ids)[..n] && Entries(legs[n..], ids) == Entries(legs, ids)[n..];
  }

  lemma PostSnoc(b: Book, ps: seq<Posting>, p: Posting)
    ensures PostAll(b, ps + [p]) == Apply(PostAll(b, ps), p).1
  {
    assert (ps + [p])[..|ps|] == ps;
  }

  /** The run ends with these entries, on these accounts and with numbered transactions. */
  ghost predicate Reaches(accounts: map<Uuid, Currency>, ps: seq<Posting>, es: seq<Entry>) {
    var b := PostAll(Book(accounts, map[], []), ps);
    EntriesOf(b.rows) == es && b.accounts == accounts && forall id :: id in b.transactions ==> id < |ps|
  }

  lemma OneMoreBatch(accounts: map<Uuid, Currency>, ps: seq<Posting>, es: seq<Entry>, batch: seq<Leg>,
                     ids: Account -> Uuid)
    requires Reaches(accounts, ps, es) && Posts(batch)
    requires AccountsFit(Book(accounts, map[], []), Entries(batch, ids))
    ensures Reaches(accounts, ps + [Posting(|ps|, "", Entries(batch, ids))], es + Entries(batch, ids))
  {
    hide Posts, PostAll, Apply;
    var empty := Book(accounts, map[], []);
    BatchIsPosted(PostAll(empty, ps), |ps|, batch, ids);
    PostSnoc(empty, ps, Posting(|ps|, "", Entries(batch, ids)));
  }

  /** Such books are reached by a run of postings on an empty ledger that has their accounts. */
  lemma {:induction false} PostedIsReached(legs: seq<Leg>, ids: Account -> Uuid, accounts: map<Uuid, Currency>)
    returns (ps: seq<Posting>)
    requires Posted(legs) && AccountsFit(Book(accounts, map[], []), Entries(legs, ids))
    ensures Reaches(accounts, ps, Entries(legs, ids))
    decreases |legs|
  {
    ps := [];
    if legs != [] {
      var n :| 0 <= n < |legs| && Posted(legs[..n]) && Posts(legs[n..]);
      hide Posts, Posted, Reaches, AccountsFit;
      EntriesSplit(Book(accounts, map[], []), legs, n, ids);
      ps := PostedIsReached(legs[..n], ids, accounts);
      OneMoreBatch(accounts, ps, Entries(legs[..n], ids), legs[n..], ids);
      ps := ps + [Posting(|ps|, "", Entries(legs[n..], ids))];
    }
  }

  // ------------------------------------------------------------------ which account pays

  /** The ledger accepts the movement, and it takes more from a than it locked a for. */
  predicate Uncovered(m: Movement, a: Account) {
    Posts(m.legs) && !Covers(m, a)
  }

  /** The request is accepted, and takes from a without having locked a for it. */
  predicate TakesUnchecked(r: Request, a: Account) {
    Plan(r).Ok? && Sane(r) &&
    match r
    case Tap(_, _, _, _) => false
    case Withdraw(_, _, _) => false
    case TapReversal(cardholder, merchant, amount, fee, _) =>
      || (a == Of(merchant, MerchantPayable, amount.currency) && amount.minor > fee.minor)
      || (a == Of(cardholder, Available, amount.currency) && amount.minor < 0)
      || (a == System(Revenue, amount.currency) && fee.minor > 0)
    case Convert(_, _, bought, _, _) => a == System(FxPosition, bought.currency)
    case _ =>
      var x := RouteOf(r).value;
      !x.locked && ((a == x.from && x.amount.minor > 0) || (a == x.to && x.amount.minor < 0))
  }

  /** Accounts that hold what belongs to a user, an agent or a merchant, and the capital behind them. */
  predicate HoldsFunds(k: Kind) {
    k.Available? || k.AgentFloat? || k.Escrow? || k.MerchantPayable? || k.Treasury?
  }

  /**
   A reversal or a return that the ledger accepts and that debits a: the merchant of a reversal
   if the amount exceeds the fee, the user of either if the amount is negative.
  */
  predicate TakesBack(r: Request, a: Account) {
    (r.TapReversal? || r.Returned?) && Plan(r).Ok? && Sane(r) &&
    var c := r.amount.currency;
    if r.Returned? then a == Of(r.user, Available, c) && r.amount.minor < 0
    else (a == Of(r.merchant, MerchantPayable, c) && r.amount.minor > r.fee.minor) ||
         (a == Of(r.cardholder, Available, c) && r.amount.minor < 0)
  }

  /** Among accounts that hold funds, only reversals and returns take unchecked. */
  lemma OnlyTakenBack(r: Request, a: Account)
    requires HoldsFunds(a.kind)
    ensures TakesUnchecked(r, a) <==> TakesBack(r, a)
  {
    if Direct(r) && RouteOf(r).Ok? {
      UncheckedRoutes(r);
      hide RouteOf, Carry;
    }
  }

  /** Requests that lock nothing draw on what belongs to nobody, and only returns credit any amount. */
  lemma UncheckedRoutes(r: Request)
    requires Direct(r) && RouteOf(r).Ok?
    ensures var x := RouteOf(r).value;
            && x.amount == r.amount && (r.amount.minor < 0 ==> AnyAmount(r))
            && (AnyAmount(r) ==> (x.locked <==> !r.Returned?))
            && (r.Returned? ==> x.to == Of(r.user, Available, r.amount.currency))
            && (!x.locked ==> x.from.kind == Payable || x.from.kind == Revenue || x.from.kind == External)
  {
  }

  lemma DebitFirstCovers(m: Movement, x: Leg, y: Leg, z: Option<Leg>, a: Account)
    requires m.legs == Legs(x, y, z)
    requires x.account == a ==>
               x.minor >= 0 || (m.spend.Some? && m.spend.value.account == a && x.minor + m.spend.value.need >= 0)
    requires (y.account == a ==> y.minor >= 0) && (z.Some? && z.value.account == a ==> z.value.minor >= 0)
    ensures Covers(m, a)
  {
    LegsTell(x, y, z, a, NGN);
  }

  lemma TransferCovers(from: Account, to: Account, amount: Amount, out: string, into: string, a: Account)
    ensures Covers(Movement(Some(Spend(from, amount.minor)), Between(from, to, amount, out, into)), a)
  {
    if amount.minor > 0 {
      DebitFirstCovers(Movement(Some(Spend(from, amount.minor)), Between(from, to, amount, out, into)),
                       Leg(from, Neg(amount).minor, out), Leg(to, amount.minor, into), None, a);
    }
  }

  lemma CarryBalance(x: Route, a: Account)
    requires WellRouted(x)
    ensures Balance(Carry(x).legs, a) ==
            if a == x.from then Neg(x.amount).minor else if a == x.to then x.amount.minor else 0
  {
    var debit, credit := Leg(x.from, Neg(x.amount).minor, x.out), Leg(x.to, x.amount.minor, x.into);
    LegsTell(debit, credit, None, a, NGN);
    LegsTell(credit, debit, None, a, NGN);
  }

  lemma CarryUncoveredIff(x: Route, a: Account)
    requires WellRouted(x) && !x.amount.currency.Unsupported?
    ensures Uncovered(Carry(x), a) <==>
            !x.locked && x.amount.minor != -TWO_63 &&
            ((a == x.from && x.amount.minor > 0) || (a == x.to && x.amount.minor < 0))
  {
    CarryPostsIff(x);
    CarryBalance(x, a);
    hide Posts, Balance, Legs;
  }

  lemma DirectUncoveredIff(r: Request, a: Account)
    requires Direct(r) && Plan(r).Ok?
    ensures Uncovered(Plan(r).value, a) <==> TakesUnchecked(r, a)
  {
    hide RouteOf, Carry, Uncovered, WellRouted;
    RouteIsWellRouted(r);
    CarryUncoveredIff(RouteOf(r).value, a);
  }

  lemma FeeMovesCover(cardholder: Uuid, merchant: Uuid, amount: Amount, fee: Amount, a: Account)
    ensures var m := PlanTap(cardholder, merchant, amount, fee); m.Ok? ==> Covers(m.value, a)
    ensures var m := PlanWithdraw(cardholder, amount, fee); m.Ok? ==> Covers(m.value, a)
  {
    var c := amount.currency;
    var tap, withdrawal := PlanTap(cardholder, merchant, amount, fee), PlanWithdraw(cardholder, amount, fee);
    if tap.Ok? {
      DebitFirstCovers(tap.value, Leg(Of(cardholder, Available, c), Neg(amount).minor, "tap.debit"),
                       Leg(Of(merchant, MerchantPayable, c), Sub(amount, fee).value.minor, "tap.merchant_owed"),
                       FeeLeg(fee, System(Revenue, c), fee.minor, "tap.fee"), a);
    }
    if withdrawal.Ok? {
      DebitFirstCovers(withdrawal.value, Leg(Of(cardholder, Available, c), Neg(amount).minor, "withdrawal.debited"),
                       Leg(System(Payable, c), Sub(amount, fee).value.minor, "withdrawal.owed"),
                       FeeLeg(fee, System(Revenue, c), fee.minor, "withdrawal.fee"), a);
    }
  }

  /** The bought half of a conversion only takes from the platform's position. */
  lemma BoughtBalance(out: Leg, received: Leg, margin: Option<Leg>, a: Account)
    requires out.minor < 0 && received.minor >= 0 && (margin.Some? ==> margin.value.minor >= 0)
    requires out.account != received.account && (margin.Some? ==> out.account != margin.value.account)
    ensures a == out.account ==> Balance(Legs(out, received, margin), a) == out.minor
    ensures a != out.account ==> Balance(Legs(out, received, margin), a) >= 0
  {
    LegsTell(out, received, margin, a, NGN);
  }

  lemma AddsKeepCover(spend: Option<Spend>, x: seq<Leg>, y: seq<Leg>, a: Account)
    requires Covers(Movement(spend, x), a) && Balance(y, a) >= 0
    ensures Covers(Movement(spend, x + y), a)
  {
    BalanceAppend(x, y, a);
  }

  lemma BetweenSkips(from: Account, to: Account, amount: Amount, out: string, into: string, a: Account)
    requires a != from && a != to
    ensures Balance(Between(from, to, amount, out, into), a) == 0
  {
    LegsTell(Leg(from, Neg(amount).minor, out), Leg(to, amount.minor, into), None, a, NGN);
  }

  lemma ConvertCoversIff(user: Uuid, sold: Amount, bought: Amount, spread: Amount, quote: string, a: Account)
    requires PlanConvert(user, sold, bought, spread, quote).Ok?
    ensures Covers(PlanConvert(user, sold, bought, spread, quote).value, a) <==>
            a != System(FxPosition, bought.currency)
  {
    AddIsExactIff(bought, spread);
    hide Balance, Legs, Add, Sub;
    var gross := Add(bought, spread).value;
    var from, position := Of(user, Available, sold.currency), System(FxPosition, sold.currency);
    var out := Leg(System(FxPosition, bought.currency), Neg(gross).minor, "fx.position_out");
    var received := Leg(Of(user, Available, bought.currency), bought.minor, "fx.bought");
    var margin := FeeLeg(spread, System(Revenue, bought.currency), spread.minor, "fx.spread");
    var x, y := Between(from, position, sold, "fx.sold", "fx.position_in"), Legs(out, received, margin);
    BoughtBalance(out, received, margin, a);
    if a == out.account {
      BetweenSkips(from, position, sold, "fx.sold", "fx.position_in", a);
      BalanceAppend(x, y, a);
    } else {
      TransferCovers(from, position, sold, "fx.sold", "fx.position_in", a);
      AddsKeepCover(Some(Spend(from, sold.minor)), x, y, a);
    }
  }

  lemma ReversalBalance(amount: Amount, fee: Amount, merchant: Account, cardholder: Account, revenue: Account,
                        out: string, into: string, back: string, a: Account)
    requires amount.currency == fee.currency && Sub(amount, fee).Ok? && fee.minor >= 0
    requires amount.minor - fee.minor != -TWO_63
    requires merchant.kind == MerchantPayable && cardholder.kind == Available && revenue.kind == Revenue
    ensures Balance(Legs(Leg(merchant, Neg(Sub(amount, fee).value).minor, out), Leg(cardholder, amount.minor, into),
                         FeeLeg(fee, revenue, Neg(fee).minor, back)), a) ==
            if a == merchant then fee.minor - amount.minor
            else if a == cardholder then amount.minor
            else if a == revenue then 0 - fee.minor else 0
  {
    SubIsExactIff(amount, fee);
    assert Neg(Sub(amount, fee).value).minor == fee.minor - amount.minor;
    assert Neg(fee).minor == 0 - fee.minor;
    hide Sub, Add, Neg;
    LegsTell(Leg(merchant, Neg(Sub(amount, fee).value).minor, out), Leg(cardholder, amount.minor, into),
             FeeLeg(fee, revenue, Neg(fee).minor, back), a, NGN);
    hide Balance, Net, Legs;
  }

  lemma ReversalUncoveredIff(cardholder: Uuid, merchant: Uuid, amount: Amount, fee: Amount, reason: string, a: Account)
    requires PlanTapReversal(cardholder, merchant, amount, fee, reason).Ok?
    ensures Uncovered(PlanTapReversal(cardholder, merchant, amount, fee, reason).value, a) <==>
            TakesUnchecked(TapReversal(cardholder, merchant, amount, fee, reason), a)
  {
    var c := amount.currency;
    ReversalPostsIff(cardholder, merchant, amount, fee, reason);
    if Sane(TapReversal(cardholder, merchant, amount, fee, reason)) {
      ReversalBalance(amount, fee, Of(merchant, MerchantPayable, c), Of(cardholder, Available, c), System(Revenue, c),
                      "tap.reversal.merchant_claim_withdrawn", "tap.reversal.refund:" + reason,
                      "tap.reversal.fee_returned", a);
      hide Balance, Legs, Sub, Posts;
    } else {
      hide Posts;
    }
  }

  /** For every request and every account: which movements take more than they locked the account for. */
  lemma PlannedUncoveredIff(r: Request, a: Account)
    requires Plan(r).Ok?
    ensures Uncovered(Plan(r).value, a) <==> TakesUnchecked(r, a)
  {
    hide Posts, Covers;
    match r
    case TapReversal(cardholder, merchant, amount, fee, reason) =>
      ReversalUncoveredIff(cardholder, merchant, amount, fee, reason, a);
    case Convert(user, sold, bought, spread, quote) =>
      ConvertPosts(user, sold, bought, spread, quote);
      ConvertCoversIff(user, sold, bought, spread, quote, a);
    case Tap(cardholder, merchant, amount, fee) => FeeMovesCover(cardholder, merchant, amount, fee, a);
    case Withdraw(user, amount, fee) => FeeMovesCover(user, user, amount, fee, a);
    case _ => DirectUncoveredIff(r, a);
  }

  // ------------------------------------------------------------------ inverses

  predicate Mirrors(l: Leg, m: Leg) {
    l.account == m.account && l.minor + m.minor == 0
  }

  lemma MirroredLegsCancel(x: Leg, y: Leg, z: Option<Leg>, y': Leg, x': Leg, z': Option<Leg>, a: Account)
    requires Mirrors(x, x') && Mirrors(y, y') && z.Some? == z'.Some? && (z.Some? ==> Mirrors(z.value, z'.value))
    ensures Balance(Legs(x, y, z) + Legs(y', x', z'), a) == 0
  {
    BalanceAppend(Legs(x, y, z), Legs(y', x', z'), a);
    LegsTell(x, y, z, a, NGN);
    LegsTell(y', x', z', a, NGN);
  }

  /** A reversal under a reason gives back exactly what its tap moved, on every account. */
  lemma ReversalUndoesTap(cardholder: Uuid, merchant: Uuid, amount: Amount, fee: Amount, reason: string, a: Account)
    requires Plan(Tap(cardholder, merchant, amount, fee)).Ok? && reason != ""
    ensures Plan(TapReversal(cardholder, merchant, amount, fee, reason)).Ok?
    ensures Balance(Plan(Tap(cardholder, merchant, amount, fee)).value.legs +
                    Plan(TapReversal(cardholder, merchant, amount, fee, reason)).value.legs, a) == 0
  {
    hide Balance, Legs, Add;
    var c := amount.currency;
    var net := Sub(amount, fee).value;
    MirroredLegsCancel(Leg(Of(cardholder, Available, c), Neg(amount).minor, "tap.debit"),
                       Leg(Of(merchant, MerchantPayable, c), net.minor, "tap.merchant_owed"),
                       FeeLeg(fee, System(Revenue, c), fee.minor, "tap.fee"),
                       Leg(Of(merchant, MerchantPayable, c), Neg(net).minor, "tap.reversal.merchant_claim_withdrawn"),
                       Leg(Of(cardholder, Available, c), amount.minor, "tap.reversal.refund:" + reason),
                       FeeLeg(fee, System(Revenue, c), Neg(fee).minor, "tap.reversal.fee_returned"), a);
  }

  /** The second request takes back the first, on the same parties and for the same amount. */
  predicate Undoes(undo: Request, r: Request) {
    match (undo, r)
    case (DepositReversed(user, x, source, reference, reason), Deposit(user', y, source', reference')) =>
      user == user' && x == y && source == source' && reference == reference' && reason != ""
    case (ReleaseAgentFloat(agent, x, reason), LockAgentFloat(agent', y)) => agent == agent' && x == y && reason != ""
    case (ReturnFloat(agent, x, reference), AllocateFloat(agent', y, _)) => agent == agent' && x == y && reference != ""
    case (MerchantPayoutReturned(merchant, x, reason), MerchantSettled(merchant', y)) =>
      merchant == merchant' && x == y && reason != ""
    case (MerchantSettlementRefunded(merchant, x, reason), MerchantSettledOnChain(merchant', y)) =>
      merchant == merchant' && x == y && reason != ""
    case (MerchantWalletSettlementReturned(merchant, x, reason), MerchantSettledFromWallet(merchant', y)) =>
      merchant == merchant' && x == y && reason != ""
    case _ => false
  }

  lemma UndoRunsBack(undo: Request, r: Request)
    requires Undoes(undo, r) && Plan(r).Ok?
    ensures Direct(undo) && Direct(r) && RouteOf(undo).Ok? && RouteOf(r).Ok? && undo.amount == r.amount
    ensures RouteOf(undo).value.from == RouteOf(r).value.to && RouteOf(undo).value.to == RouteOf(r).value.from
  {
    hide Carry;
  }

  lemma CarryCancels(x: Route, y: Route, a: Account)
    requires WellRouted(x) && WellRouted(y) && x.from == y.to && x.to == y.from && x.amount == y.amount
    requires x.amount.minor != -TWO_63
    ensures Balance(Carry(x).legs + Carry(y).legs, a) == 0
  {
    CarryBalance(x, a);
    CarryBalance(y, a);
    BalanceAppend(Carry(x).legs, Carry(y).legs, a);
    hide Balance, Carry;
  }

  /** Whatever undoes an accepted movement is accepted too, and leaves every account where it was. */
  lemma UndoCancels(undo: Request, r: Request, a: Account)
    requires Undoes(undo, r) && Plan(r).Ok?
    ensures Plan(undo).Ok? && Balance(Plan(r).value.legs + Plan(undo).value.legs, a) == 0
  {
    UndoRunsBack(undo, r);
    RouteIsWellRouted(r);
    RouteIsWellRouted(undo);
    hide RouteOf, Undoes, Carry, WellRouted;
    CarryCancels(RouteOf(r).value, RouteOf(undo).value, a);
  }
}
