/**
 What GetLockPaymentOrderStatus computes from the split orders of one gateway id: summed
 amounts, the settlements list, and the receipts sorted latest first. Decimals are reals
 and times are integers.
*/
module OrderStatus {
  import opened Base

  datatype LogStatus =
    | OrderInitiated | CryptoDeposited | OrderCreated | OrderProcessing | OrderFulfilled
    | OrderValidated | OrderSettled | OrderRefunded | GasPrefunded | GatewayApproved

  datatype Status = Pending | Processing | Cancelled | Fulfilled | Validated | Settled | Refunded

  datatype Transaction = Transaction(status: LogStatus, hash: string, time: int)

  datatype SplitOrder = SplitOrder(
    id: Uuid, amount: real, rate: real, percent: real, status: Status, transactions: seq<Transaction>)

  datatype Receipt = Receipt(status: Status, hash: string, time: int)

  datatype Settlement = Settlement(id: Uuid, amount: real, rate: real, percent: real)

  datatype Response = Response(
    amount: real, settlePercent: real, status: Status, txHash: string,
    settlements: seq<Settlement>, receipts: seq<Receipt>)

  /** Only created, settled and refunded transactions become receipts. */
  function ReceiptOf(t: Transaction): Option<Receipt> {
    match t.status
    case OrderCreated => Some(Receipt(Pending, t.hash, t.time))
    case OrderSettled => Some(Receipt(Settled, t.hash, t.time))
    case OrderRefunded => Some(Receipt(Refunded, t.hash, t.time))
    case _ => None
  }

  function Receipts(ts: seq<Transaction>): seq<Receipt> {
    if ts == [] then []
    else
      var before := Receipts(ts[..|ts| - 1]);
      var r := ReceiptOf(ts[|ts| - 1]);
      if r.Some? then before + [r.value] else before
  }

  /** The receipts of all orders, in scan order. */
  function Scanned(orders: seq<SplitOrder>): seq<Receipt> {
    if orders == [] then []
    else Scanned(orders[..|orders| - 1]) + Receipts(orders[|orders| - 1].transactions)
  }

  function SettlementOf(o: SplitOrder): Settlement {
    Settlement(o.id, o.amount, o.rate, o.percent)
  }

  function TotalAmount(ss: seq<Settlement>): real {
    if ss == [] then 0.0 else TotalAmount(ss[..|ss| - 1]) + ss[|ss| - 1].amount
  }

  function TotalPercent(ss: seq<Settlement>): real {
    if ss == [] then 0.0 else TotalPercent(ss[..|ss| - 1]) + ss[|ss| - 1].percent
  }

  // ------------------------------------------------------------------ the stable sort

  predicate LatestFirst(s: seq<Receipt>) {
    forall i, j :: 0 <= i < j < |s| ==> s[i].time >= s[j].time
  }

  /** The receipts of one moment, in order. */
  function At(s: seq<Receipt>, time: int): (r: seq<Receipt>)
    ensures |r| <= |s|
  {
    if s == [] then []
    else if s[0].time == time then [s[0]] + At(s[1..], time)
    else At(s[1..], time)
  }

  /** t is s sorted latest first, with receipts of the same moment left in their order. */
  ghost predicate StablySorted(s: seq<Receipt>, t: seq<Receipt>) {
    LatestFirst(t) && forall time :: At(t, time) == At(s, time)
  }

  /** Put r in front of everything that is not later than it. */
  function Insert(r: Receipt, s: seq<Receipt>): (t: seq<Receipt>)
    requires LatestFirst(s)
    ensures LatestFirst(t) && |t| == |s| + 1
    ensures forall i :: 0 <= i < |t| ==> t[i] == r || t[i] in s
  {
    if s == [] then [r]
    else if s[0].time <= r.time then [r] + s
    else [s[0]] + Insert(r, s[1..])
  }

  function SortStable(s: seq<Receipt>): (t: seq<Receipt>)
    ensures LatestFirst(t) && |t| == |s|
  {
    if s == [] then [] else Insert(s[0], SortStable(s[1..]))
  }

  lemma AtCons(x: Receipt, s: seq<Receipt>, time: int)
    ensures At([x] + s, time) == (if x.time == time then [x] else []) + At(s, time)
  {
    assert ([x] + s)[1..] == s;
    assert [] + At(s, time) == At(s, time);
  }

  lemma {:induction false} InsertIsStable(r: Receipt, s: seq<Receipt>, time: int)
    requires LatestFirst(s)
    ensures At(Insert(r, s), time) == (if r.time == time then [r] else []) + At(s, time)
  {
    if s == [] || s[0].time <= r.time {
      assert Insert(r, s) == [r] + s;
      AtCons(r, s, time);
    } else {
      InsertIsStable(r, s[1..], time);
      AtCons(s[0], Insert(r, s[1..]), time);
      AtCons(s[0], s[1..], time);
      assert s == [s[0]] + s[1..];
    }
  }

  lemma {:induction false} InsertPermutes(r: Receipt, s: seq<Receipt>)
    requires LatestFirst(s)
    ensures multiset(Insert(r, s)) == multiset(s) + multiset{r}
  {
    if s != [] && s[0].time > r.time {
      InsertPermutes(r, s[1..]);
      assert s == [s[0]] + s[1..];
    }
  }

  /** The result is a permutation, latest first, with ties in their original order. */
  lemma {:induction false} SortIsStable(s: seq<Receipt>)
    ensures StablySorted(s, SortStable(s)) && multiset(SortStable(s)) == multiset(s)
  {
    if s != [] {
      SortIsStable(s[1..]);
      assert s == [s[0]] + s[1..];
      InsertPermutes(s[0], SortStable(s[1..]));
      forall time
        ensures At(SortStable(s), time) == At(s, time)
      {
        InsertIsStable(s[0], SortStable(s[1..]), time);
      }
    }
  }

  lemma {:induction false} AtHead(s: seq<Receipt>, time: int)
    ensures forall x :: x in At(s, time) ==> x.time == time && x in s
    ensures At(s, time) == [] ==> forall x :: x in s ==> x.time != time
  {
    if s != [] {
      AtHead(s[1..], time);
    }
  }

  lemma HasMoment(s: seq<Receipt>)
    requires s != []
    ensures exists time :: At(s, time) != []
  {
    assert At(s, s[0].time) != [];
  }

  /** There is only one stable sort, so which algorithm the library uses does not matter. */
  lemma {:induction false} StableSortIsUnique(s: seq<Receipt>, t: seq<Receipt>, u: seq<Receipt>)
    requires StablySorted(s, t) && StablySorted(s, u)
    ensures t == u
    decreases |t|
  {
    if t == [] {
      if u != [] {
        HasMoment(u);
      }
    } else {
      SameHead(s, t, u);
      SameHead(s, u, t);
      assert t[0].time == u[0].time;
      assert At(t, t[0].time)[0] == t[0] && At(u, t[0].time)[0] == u[0];
      forall time
        ensures At(u[1..], time) == At(t[1..], time)
      {
        assert At(t, time) == At(u, time);
        if time == t[0].time {
          assert At(t, time) == [t[0]] + At(t[1..], time) && At(u, time) == [u[0]] + At(u[1..], time);
          assert At(t, time)[1..] == At(t[1..], time) && At(u, time)[1..] == At(u[1..], time);
        }
      }
      StableSortIsUnique(t[1..], t[1..], u[1..]);
    }
  }

  lemma SameHead(s: seq<Receipt>, t: seq<Receipt>, u: seq<Receipt>)
    requires StablySorted(s, t) && StablySorted(s, u) && t != []
    ensures u != [] && u[0].time >= t[0].time
  {
    var time := t[0].time;
    assert t[0] in At(t, time);
    assert At(u, time) == At(t, time);
    AtHead(u, time);
    assert t[0] in u;
  }

  // ------------------------------------------------------------------ the response

  /** The status of the first split order, with a cancelled one shown as processing. */
  function ShownStatus(s: Status): Status {
    if s == Cancelled then Processing else s
  }

  function FirstHash(rs: seq<Receipt>): string {
    if rs == [] then "" else rs[0].hash
  }

  function Settlements(orders: seq<SplitOrder>): seq<Settlement> {
    seq(|orders|, i requires 0 <= i < |orders| => SettlementOf(orders[i]))
  }

  /** The response: sums over the settlements, and the receipts sorted latest first. */
  function StatusOf(orders: seq<SplitOrder>): Response
    requires orders != []
  {
    var ss, rs := Settlements(orders), SortStable(Scanned(orders));
    Response(TotalAmount(ss), TotalPercent(ss), ShownStatus(orders[0].status), FirstHash(rs), ss, rs)
  }

  /** The loop both paths run over the transactions of one order. */
  method AppendReceipts(before: seq<Receipt>, transactions: seq<Transaction>) returns (receipts: seq<Receipt>)
    ensures receipts == before + Receipts(transactions)
  {
    receipts := before;
    for k := 0 to |transactions|
      invariant receipts == before + Receipts(transactions[..k])
    {
      var transaction := transactions[k];
      assert transactions[..k + 1][..k] == transactions[..k];
      if transaction.status in {OrderSettled, OrderCreated, OrderRefunded} {
        var status :=
          if transaction.status == OrderCreated then Pending
          else if transaction.status == OrderSettled then Settled
          else Refunded;
        receipts := receipts + [Receipt(status, transaction.hash, transaction.time)];
      }
    }
    assert transactions[..|transactions|] == transactions;
  }

  method GetLockPaymentOrderStatus(orders: seq<SplitOrder>) returns (response: Response)
    requires orders != []
    ensures response == StatusOf(orders)
  {
    var settlements: seq<Settlement> := [];
    var receipts: seq<Receipt> := [];
    var settlePercent, totalAmount := 0.0, 0.0;
    for i := 0 to |orders|
      invariant |settlements| == i
      invariant forall j :: 0 <= j < i ==> settlements[j] == SettlementOf(orders[j])
      invariant totalAmount == TotalAmount(settlements) && settlePercent == TotalPercent(settlements)
      invariant receipts == Scanned(orders[..i])
    {
      var order := orders[i];
      receipts := AppendReceipts(receipts, order.transactions);
      assert orders[..i + 1][..i] == orders[..i];
      var settlement := Settlement(order.id, order.amount, order.rate, order.percent);
      assert (settlements + [settlement])[..i] == settlements;
      settlements := settlements + [settlement];
      settlePercent := settlePercent + order.percent;
      totalAmount := totalAmount + order.amount;
    }
    assert orders[..|orders|] == orders;
    assert settlements == Settlements(orders);
    receipts := SortStable(receipts);
    var status := orders[0].status;
    if status == Cancelled {
      status := Processing;
    }
    var txHash := "";
    if |receipts| > 0 {
      txHash := receipts[0].hash;
    }
    response := Response(totalAmount, settlePercent, status, txHash, settlements, receipts);
  }

  /** Transaction i of order o, counted in scan order, was scanned at position k. */
  ghost predicate LatestAt(s: seq<Receipt>, k: nat) {
    && k < |s|
    && (forall j :: 0 <= j < |s| ==> s[j].time <= s[k].time)
    && (forall j :: 0 <= j < k ==> s[j].time < s[k].time)
  }

  /** The sorted list starts with the latest receipt, and on a tie with the earliest scanned of those. */
  lemma {:induction false} FirstIsLatest(s: seq<Receipt>, k: nat)
    requires LatestAt(s, k)
    ensures SortStable(s) != [] && SortStable(s)[0] == s[k]
  {
    var t := SortStable(s);
    SortIsStable(s);
    AtIndex(s, k);
    assert At(t, s[k].time) == At(s, s[k].time);
    AtHead(t, s[k].time);
    assert s[k] in At(s, s[k].time);
    assert s[k] in t;
    assert t[0] in multiset(t);
    assert t[0] in s;
    assert t[0].time == s[k].time;
    assert At(t, s[k].time)[0] == t[0];
  }

  lemma {:induction false} AtIndex(s: seq<Receipt>, k: nat)
    requires k < |s| && forall j :: 0 <= j < k ==> s[j].time != s[k].time
    ensures At(s, s[k].time) != [] && At(s, s[k].time)[0] == s[k]
  {
    if k > 0 {
      AtIndex(s[1..], k - 1);
    }
  }

  /** A receipt is listed exactly when some split order has the transaction it reports. */
  lemma {:induction false} ScannedMembers(orders: seq<SplitOrder>, r: Receipt)
    ensures r in Scanned(orders) <==>
            exists o, t :: o in orders && t in o.transactions && ReceiptOf(t) == Some(r)
  {
    if orders != [] {
      var before, last := orders[..|orders| - 1], orders[|orders| - 1];
      assert orders == before + [last];
      ScannedMembers(before, r);
      ReceiptsMembers(last.transactions, r);
    }
  }

  lemma {:induction false} ReceiptsMembers(ts: seq<Transaction>, r: Receipt)
    ensures r in Receipts(ts) <==> exists t :: t in ts && ReceiptOf(t) == Some(r)
  {
    if ts != [] {
      assert ts == ts[..|ts| - 1] + [ts[|ts| - 1]];
      ReceiptsMembers(ts[..|ts| - 1], r);
    }
  }

  lemma {:induction false} LatestExists(s: seq<Receipt>) returns (k: nat)
    requires s != []
    ensures LatestAt(s, k)
  {
    var last := |s| - 1;
    if last == 0 {
      k := 0;
    } else {
      k := LatestExists(s[..last]);
      assert forall j :: 0 <= j < last ==> s[j] == s[..last][j];
      if s[k].time < s[last].time {
        k := last;
      }
    }
  }

  /**
   The response reports the hash of the latest created, settled or refunded transaction, the
   earliest scanned of those on a tie, and an empty hash if no split order has one.
  */
  lemma {:induction false} ReportedHashIsLatest(orders: seq<SplitOrder>)
    requires orders != []
    ensures Scanned(orders) == [] <==> forall o, t :: o in orders && t in o.transactions ==> ReceiptOf(t).None?
    ensures if Scanned(orders) == [] then StatusOf(orders).txHash == ""
            else exists k: nat :: LatestAt(Scanned(orders), k) && StatusOf(orders).txHash == Scanned(orders)[k].hash
  {
    var s := Scanned(orders);
    if s != [] {
      ScannedMembers(orders, s[0]);
      var k := LatestExists(s);
      FirstIsLatest(s, k);
    } else {
      forall o, t | o in orders && t in o.transactions && ReceiptOf(t).Some?
        ensures false
      {
        ScannedMembers(orders, ReceiptOf(t).value);
      }
    }
  }

  // ------------------------------------------------------------------ the response, field by field

  function AllTransactions(orders: seq<SplitOrder>): seq<Transaction> {
    if orders == [] then [] else AllTransactions(orders[..|orders| - 1]) + orders[|orders| - 1].transactions
  }

  /** The transactions that are shown, in order. */
  function Shown(ts: seq<Transaction>): seq<Transaction> {
    if ts == [] then []
    else
      var t := ts[|ts| - 1];
      Shown(ts[..|ts| - 1]) + (if t.status in {OrderCreated, OrderSettled, OrderRefunded} then [t] else [])
  }

  /** The receipt shows the transaction, a creation as pending. */
  predicate Shows(r: Receipt, t: Transaction) {
    && r.hash == t.hash && r.time == t.time
    && ((t.status.OrderCreated? && r.status.Pending?) || (t.status.OrderSettled? && r.status.Settled?) ||
        (t.status.OrderRefunded? && r.status.Refunded?))
  }

  ghost predicate ShowsAll(rs: seq<Receipt>, ts: seq<Transaction>) {
    |rs| == |ts| && forall k :: 0 <= k < |rs| ==> Shows(rs[k], ts[k])
  }

  /** The receipts of some transactions show, one for one and in order, those that are shown. */
  lemma {:induction false} ReceiptsShow(ts: seq<Transaction>)
    ensures ShowsAll(Receipts(ts), Shown(ts))
  {
    if ts != [] {
      ReceiptsShow(ts[..|ts| - 1]);
    }
  }

  lemma {:induction false} ShownAppend(x: seq<Transaction>, y: seq<Transaction>)
    ensures Shown(x + y) == Shown(x) + Shown(y)
  {
    if y == [] {
      assert x + y == x;
    } else {
      assert (x + y)[..|x + y| - 1] == x + y[..|y| - 1];
      ShownAppend(x, y[..|y| - 1]);
    }
  }

  lemma {:induction false} ScannedShow(orders: seq<SplitOrder>)
    ensures ShowsAll(Scanned(orders), Shown(AllTransactions(orders)))
  {
    if orders != [] {
      ScannedShow(orders[..|orders| - 1]);
      ReceiptsShow(orders[|orders| - 1].transactions);
      ShownAppend(AllTransactions(orders[..|orders| - 1]), orders[|orders| - 1].transactions);
    }
  }

  /** One settlement per split order, in order; the status of the first, a cancelled one as processing. */
  lemma ResponseLists(orders: seq<SplitOrder>)
    requires orders != []
    ensures var r := StatusOf(orders);
            && |r.settlements| == |orders|
            && (forall i :: 0 <= i < |orders| ==>
                  r.settlements[i] == Settlement(orders[i].id, orders[i].amount, orders[i].rate, orders[i].percent))
            && (orders[0].status.Cancelled? ==> r.status.Processing?)
            && (!orders[0].status.Cancelled? ==> r.status == orders[0].status)
  {
  }

  /** The amount and the percent settled are those of a single order, and each further order adds its own. */
  lemma ResponseSums(orders: seq<SplitOrder>, o: SplitOrder)
    ensures StatusOf([o]).amount == o.amount && StatusOf([o]).settlePercent == o.percent
    ensures orders != [] ==>
              && StatusOf(orders + [o]).amount == StatusOf(orders).amount + o.amount
              && StatusOf(orders + [o]).settlePercent == StatusOf(orders).settlePercent + o.percent
  {
    var one := Settlements([o]);
    assert one[..|one| - 1] == [] && TotalAmount([]) == 0.0 && TotalPercent([]) == 0.0;
    assert TotalAmount(one) == 0.0 + o.amount && TotalPercent(one) == 0.0 + o.percent;
    assert Settlements(orders + [o])[..|orders|] == Settlements(orders);
  }

  /**
   The receipts are the shown transactions of all orders, latest first and otherwise as scanned,
   and the hash is that of the first of them.
  */
  lemma ResponseReceipts(orders: seq<SplitOrder>)
    requires orders != []
    ensures var r := StatusOf(orders);
            && (exists scanned :: ShowsAll(scanned, Shown(AllTransactions(orders))) &&
                                  StablySorted(scanned, r.receipts) && multiset(r.receipts) == multiset(scanned))
            && r.txHash == if r.receipts == [] then "" else r.receipts[0].hash
  {
    ScannedShow(orders);
    SortIsStable(Scanned(orders));
  }

  // ------------------------------------------------------------------ the fallback path

  /** Without split orders the receipts of the payment order are listed as scanned, unsorted. */
  method PaymentOrderReceipts(transactions: seq<Transaction>) returns (receipts: seq<Receipt>, txHash: string)
    ensures receipts == Receipts(transactions) && txHash == FirstHash(receipts)
  {
    receipts := AppendReceipts([], transactions);
    txHash := "";
    if |receipts| > 0 {
      txHash := receipts[0].hash;
    }
  }

  /** The two paths lead with the same receipt exactly when none is later than the first scanned. */
  lemma {:induction false} FallbackLeadsWithLatestIff(s: seq<Receipt>)
    requires s != []
    ensures SortStable(s)[0] == s[0] <==> forall j :: 0 <= j < |s| ==> s[j].time <= s[0].time
  {
    SortIsStable(s);
    if forall j :: 0 <= j < |s| ==> s[j].time <= s[0].time {
      FirstIsLatest(s, 0);
    } else {
      var j :| 0 <= j < |s| && s[j].time > s[0].time;
      var t := SortStable(s);
      assert s[j] in multiset(s);
      assert s[j] in multiset(t);
      assert s[j] in t;
    }
  }

  /** An order created and then settled reports the older hash on the fallback path. */
  lemma FallbackReportsOlderHash()
    ensures var s := Receipts([Transaction(OrderCreated, "old", 1), Transaction(OrderSettled, "new", 2)]);
            FirstHash(s) == "old" && FirstHash(SortStable(s)) == "new"
  {
  }
}
