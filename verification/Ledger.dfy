/**
 The ledger primitive: Post checks a set of entries, inserts it under an optional idempotency
 key, and commits only if the deferred trigger finds every currency balanced. Go sums in
 int64, which wraps; the trigger sums exactly.
*/
module Ledger {
  import opened Base

  const TWO_63: int := 0x8000_0000_0000_0000
  const TWO_64: int := 0x1_0000_0000_0000_0000

  type Int64 = x: int | -TWO_63 <= x < TWO_63

  /** Two's complement: what an int64 holds after arithmetic that gives x. */
  function Wrap(x: int): Int64 {
    (x + TWO_63) % TWO_64 - TWO_63
  }

  datatype Currency = NGN | USD | Unsupported(code: string)

  datatype Entry = Entry(account: Uuid, currency: Currency, minor: Int64, reason: string)

  datatype CheckError =
    | TooFewEntries
    | BadCurrency(index: nat)
    | ZeroAmount(index: nat)
    | NoReason(index: nat)
    | Unbalanced(currency: Currency)

  predicate ProperLeg(e: Entry) {
    !e.currency.Unsupported? && e.minor != 0 && e.reason != ""
  }

  /** The exact sum of the entries in one currency. */
  function Sum(entries: seq<Entry>, c: Currency): int {
    if entries == [] then 0
    else
      var e := entries[|entries| - 1];
      Sum(entries[..|entries| - 1], c) + (if e.currency == c then e.minor else 0)
  }

  lemma WrapAdds(a: int, b: int)
    ensures Wrap(Wrap(a) + b) == Wrap(a + b)
  {
  }

  /** A set of entries the int64 guard accepts. */
  predicate Passes(entries: seq<Entry>) {
    && |entries| >= 2 && (forall i :: 0 <= i < |entries| ==> ProperLeg(entries[i]))
    && Wrap(Sum(entries, NGN)) == 0 && Wrap(Sum(entries, USD)) == 0
  }

  predicate Balances(entries: seq<Entry>) {
    Sum(entries, NGN) == 0 && Sum(entries, USD) == 0
  }

  lemma {:induction false} NothingUnsupported(entries: seq<Entry>, c: Currency)
    requires c.Unsupported? && forall i :: 0 <= i < |entries| ==> ProperLeg(entries[i])
    ensures Sum(entries, c) == 0
  {
    if entries != [] {
      NothingUnsupported(entries[..|entries| - 1], c);
    }
  }

  function Held(sums: map<Currency, Int64>, c: Currency): Int64 {
    if c in sums then sums[c] else 0
  }

  /** The sums are those of the entries, as far as an int64 can hold them. */
  ghost predicate Tallied(sums: map<Currency, Int64>, entries: seq<Entry>) {
    forall c :: Held(sums, c) == Wrap(Sum(entries, c))
  }

  lemma TallyOneMore(sums: map<Currency, Int64>, entries: seq<Entry>, e: Entry)
    requires Tallied(sums, entries)
    ensures Tallied(sums[e.currency := Wrap(Held(sums, e.currency) + e.minor)], entries + [e])
  {
    var sums1 := sums[e.currency := Wrap(Held(sums, e.currency) + e.minor)];
    WrapAdds(Sum(entries, e.currency), e.minor);
    forall c
      ensures Held(sums1, c) == Wrap(Sum(entries + [e], c))
    {
      SumSnoc(entries, e, c);
      assert c != e.currency ==> Held(sums1, c) == Held(sums, c);
    }
  }

  /** The guard of Post before it touches the database; it sums in int64. */
  method Check(entries: seq<Entry>) returns (err: Option<CheckError>)
    ensures err.None? <==> Passes(entries)
    ensures err == Some(TooFewEntries) <==> |entries| < 2
    ensures err.Some? && err.value.Unbalanced? ==>
              Wrap(Sum(entries, err.value.currency)) != 0 && forall j :: 0 <= j < |entries| ==> ProperLeg(entries[j])
    ensures err.Some? && (err.value.BadCurrency? || err.value.ZeroAmount? || err.value.NoReason?) ==>
              var i := err.value.index;
              && i < |entries| && (forall j :: 0 <= j < i ==> ProperLeg(entries[j]))
              && (err.value.BadCurrency? <==> entries[i].currency.Unsupported?)
              && (err.value.ZeroAmount? ==> entries[i].minor == 0)
              && (err.value.NoReason? ==> entries[i].minor != 0 && entries[i].reason == "")
  {
    if |entries| < 2 {
      return Some(TooFewEntries);
    }
    var sums: map<Currency, Int64> := map[];
    for i := 0 to |entries|
      invariant forall j :: 0 <= j < i ==> ProperLeg(entries[j])
      invariant Tallied(sums, entries[..i])
    {
      var e := entries[i];
      assert entries[..i + 1] == entries[..i] + [e];
      if e.currency.Unsupported? {
        return Some(BadCurrency(i));
      }
      if e.minor == 0 {
        return Some(ZeroAmount(i));
      }
      if e.reason == "" {
        return Some(NoReason(i));
      }
      TallyOneMore(sums, entries[..i], e);
      sums := sums[e.currency := Wrap(Held(sums, e.currency) + e.minor)];
    }
    assert entries[..|entries|] == entries;
    var todo := sums.Keys;
    while todo != {}
      invariant todo <= sums.Keys
      invariant forall c :: c !in todo ==> Held(sums, c) == 0
      decreases |todo|
    {
      var c :| c in todo;
      if sums[c] != 0 {
        assert Held(sums, c) == Wrap(Sum(entries, c));
        if c.Unsupported? {
          NothingUnsupported(entries, c);
        }
        return Some(Unbalanced(c));
      }
      todo := todo - {c};
    }
    assert Held(sums, NGN) == 0 && Held(sums, USD) == 0;
    return None;
  }

  /**
   The int64 guard lets through exactly the proper sets whose sums are multiples of 2^64 in
   both currencies, so it never refuses what the trigger accepts, and accepts what the trigger
   refuses exactly when a sum reaches 2^64.
  */
  lemma GuardMatchesTriggerIff(entries: seq<Entry>)
    requires |entries| >= 2 && forall i :: 0 <= i < |entries| ==> ProperLeg(entries[i])
    ensures Balances(entries) ==> Passes(entries)
    ensures Passes(entries) && !Balances(entries) <==>
            Sum(entries, NGN) % TWO_64 == 0 && Sum(entries, USD) % TWO_64 == 0 &&
            (Sum(entries, NGN) >= TWO_64 || Sum(entries, NGN) <= -TWO_64 ||
             Sum(entries, USD) >= TWO_64 || Sum(entries, USD) <= -TWO_64)
  {
  }

  lemma FourTimes(e: Entry, c: Currency)
    ensures Sum([e, e, e, e], c) == if e.currency == c then 4 * e.minor else 0
  {
    var two := [e] + [e];
    SumSnoc([], e, c);
    assert [] + [e] == [e];
    SumSnoc([e], e, c);
    SumSnoc(two, e, c);
    SumSnoc(two + [e], e, c);
    assert two + [e] + [e] == [e, e, e, e];
  }

  /** Four credits of 2^62 kobo pass the guard; only the trigger stops them. */
  lemma FourCreditsPassTheGuard(account: Uuid)
    ensures var e := Entry(account, NGN, 0x4000_0000_0000_0000, "x");
            Passes([e, e, e, e]) && !Balances([e, e, e, e])
  {
    var e := Entry(account, NGN, 0x4000_0000_0000_0000, "x");
    FourTimes(e, NGN);
    FourTimes(e, USD);
    hide Sum;
  }

  lemma SumSnoc(entries: seq<Entry>, e: Entry, c: Currency)
    ensures Sum(entries + [e], c) == Sum(entries, c) + (if e.currency == c then e.minor else 0)
  {
  }

  // ------------------------------------------------------------------ the books

  type TxId = nat

  datatype Row = Row(tx: TxId, entry: Entry)

  /** The three ledger tables: accounts with their currency, transactions with their key, entries. */
  datatype Book = Book(accounts: map<Uuid, Currency>, transactions: map<TxId, Option<string>>, rows: seq<Row>)

  datatype Posting = Posting(id: TxId, idemKey: string, entries: seq<Entry>)

  /** An empty key is stored as null, which the unique index does not compare. */
  function Nullable(key: string): Option<string> {
    if key == "" then None else Some(key)
  }

  datatype PostError = Refused | Duplicate | IdTaken | WrongAccount | TriggerRefused

  predicate KeyUsed(b: Book, key: Option<string>) {
    key.Some? && exists id :: id in b.transactions && b.transactions[id] == key
  }

  /** The composite foreign key: an entry's account exists and is held in its currency. */
  predicate AccountsFit(b: Book, entries: seq<Entry>) {
    forall i :: 0 <= i < |entries| ==>
      entries[i].account in b.accounts && b.accounts[entries[i].account] == entries[i].currency
  }

  function RowsOf(id: TxId, entries: seq<Entry>): (rows: seq<Row>)
    ensures |rows| == |entries| && forall i :: 0 <= i < |rows| ==> rows[i] == Row(id, entries[i])
  {
    seq(|entries|, i requires 0 <= i < |entries| => Row(id, entries[i]))
  }

  /** Post on a pool: guard, insert, and commit with the trigger's verdict; a failure leaves no trace. */
  function Apply(b: Book, p: Posting): (r: (Option<PostError>, Book)) {
    if !Passes(p.entries) then (Some(Refused), b)
    else if p.id in b.transactions then (Some(IdTaken), b)
    else if KeyUsed(b, Nullable(p.idemKey)) then (Some(Duplicate), b)
    else if !AccountsFit(b, p.entries) then (Some(WrongAccount), b)
    else if !Balances(p.entries) then (Some(TriggerRefused), b)
    else (None, b.(transactions := b.transactions[p.id := Nullable(p.idemKey)],
                   rows := b.rows + RowsOf(p.id, p.entries)))
  }

  function PostAll(b: Book, ps: seq<Posting>): Book {
    if ps == [] then b else Apply(PostAll(b, ps[..|ps| - 1]), ps[|ps| - 1]).1
  }

  /** Apart from its key, the posting is one that the ledger takes. */
  ghost predicate Acceptable(b: Book, p: Posting) {
    && |p.entries| >= 2
    && (forall i :: 0 <= i < |p.entries| ==>
          var e := p.entries[i];
          && (e.currency == NGN || e.currency == USD) && e.minor != 0 && e.reason != ""
          && e.account in b.accounts && b.accounts[e.account] == e.currency)
    && Sum(p.entries, NGN) == 0 && Sum(p.entries, USD) == 0
    && p.id !in b.transactions
  }

  /** No transaction of the book carries the key; an empty key is none. */
  ghost predicate KeyIsFree(b: Book, key: string) {
    key == "" || forall id :: id in b.transactions ==> b.transactions[id] != Some(key)
  }

  lemma AcceptableIff(b: Book, p: Posting)
    ensures Acceptable(b, p) <==>
            Passes(p.entries) && Balances(p.entries) && AccountsFit(b, p.entries) && p.id !in b.transactions
  {
    if Passes(p.entries) && Balances(p.entries) && AccountsFit(b, p.entries) && p.id !in b.transactions {
      hide Sum;
      forall i | 0 <= i < |p.entries|
        ensures ProperLeg(p.entries[i]) && p.entries[i].account in b.accounts
      {
      }
    }
  }

  /** What a posting adds is its transaction with its key, and its entries in order. */
  lemma PostAdds(b: Book, p: Posting)
    ensures var (err, b1) := Apply(b, p);
            && (err.Some? ==> b1 == b)
            && (err.None? ==>
                  && b1.accounts == b.accounts
                  && b1.transactions == b.transactions[p.id := if p.idemKey == "" then None else Some(p.idemKey)]
                  && b.rows <= b1.rows && |b1.rows| == |b.rows| + |p.entries|
                  && forall i :: 0 <= i < |p.entries| ==> b1.rows[|b.rows| + i] == Row(p.id, p.entries[i]))
  {
    hide Passes, Balances, AccountsFit, KeyUsed;
  }

  /** A posting is taken if and only if it is acceptable and its key is free. */
  lemma PostedIff(b: Book, p: Posting)
    ensures Apply(b, p).0.None? <==> Acceptable(b, p) && KeyIsFree(b, p.idemKey)
  {
    AcceptableIff(b, p);
    if p.idemKey != "" {
      KeyFreeIff(b, p.idemKey);
    }
    hide Passes, Balances, AccountsFit, Acceptable;
  }

  /** A movement that went through is told apart from one that failed: a duplicate has its key in the book. */
  lemma DuplicateIff(b: Book, p: Posting)
    ensures Apply(b, p).0 == Some(Duplicate) ==> !KeyIsFree(b, p.idemKey)
    ensures Acceptable(b, p) && !KeyIsFree(b, p.idemKey) ==> Apply(b, p).0 == Some(Duplicate)
    ensures Apply(b, p).0 == Some(IdTaken) ==> p.id in b.transactions
    ensures Apply(b, p).0 == Some(WrongAccount) ==>
              exists i :: 0 <= i < |p.entries| &&
                (p.entries[i].account !in b.accounts || b.accounts[p.entries[i].account] != p.entries[i].currency)
    ensures Apply(b, p).0 == Some(TriggerRefused) ==> Sum(p.entries, NGN) != 0 || Sum(p.entries, USD) != 0
    ensures Apply(b, p).0 == Some(Refused) <==>
              || |p.entries| < 2
              || (exists i :: 0 <= i < |p.entries| &&
                    (p.entries[i].currency.Unsupported? || p.entries[i].minor == 0 || p.entries[i].reason == ""))
              || Sum(p.entries, NGN) % TWO_64 != 0 || Sum(p.entries, USD) % TWO_64 != 0
  {
    if |p.entries| >= 2 && Apply(b, p).0 == Some(Refused) &&
       Sum(p.entries, NGN) % TWO_64 == 0 && Sum(p.entries, USD) % TWO_64 == 0 {
      assert !forall i :: 0 <= i < |p.entries| ==> ProperLeg(p.entries[i]);
    }
  }

  class LedgerDb {
    var book: Book

    constructor (accounts: map<Uuid, Currency>)
      ensures book == Book(accounts, map[], [])
    {
      book := Book(accounts, map[], []);
    }

    method Post(p: Posting) returns (err: Option<PostError>)
      modifies this
      ensures (err, book) == Apply(old(book), p)
    {
      var checked := Check(p.entries);
      if checked.Some? {
        return Some(Refused);
      }
      if p.id in book.transactions {
        return Some(IdTaken);
      }
      if KeyUsed(book, Nullable(p.idemKey)) {
        return Some(Duplicate);
      }
      ghost var before := book;
      var rows: seq<Row> := [];
      for i := 0 to |p.entries|
        invariant book == before && rows == RowsOf(p.id, p.entries[..i])
        invariant AccountsFit(before, p.entries[..i])
      {
        var e := p.entries[i];
        assert p.entries[..i + 1][..i] == p.entries[..i];
        if e.account !in book.accounts || book.accounts[e.account] != e.currency {
          assert !AccountsFit(before, p.entries);
          return Some(WrongAccount);
        }
        rows := rows + [Row(p.id, e)];
        assert rows == RowsOf(p.id, p.entries[..i + 1]);
      }
      assert p.entries[..|p.entries|] == p.entries;
      if !Balances(p.entries) {
        return Some(TriggerRefused);
      }
      book := book.(transactions := book.transactions[p.id := Nullable(p.idemKey)], rows := book.rows + rows);
      return None;
    }
  }

  // ------------------------------------------------------------------ over every run

  /** The entries of all rows, and of the rows of one transaction. */
  function Total(rows: seq<Row>, c: Currency): int {
    if rows == [] then 0
    else
      var e := rows[|rows| - 1].entry;
      Total(rows[..|rows| - 1], c) + (if e.currency == c then e.minor else 0)
  }

  function TxTotal(rows: seq<Row>, tx: TxId, c: Currency): int {
    if rows == [] then 0
    else
      var r := rows[|rows| - 1];
      TxTotal(rows[..|rows| - 1], tx, c) + (if r.tx == tx && r.entry.currency == c then r.entry.minor else 0)
  }

  /** The audit: each transaction balances in each currency, and so does the whole. */
  ghost predicate Audited(rows: seq<Row>) {
    && (forall c :: c == NGN || c == USD ==> Total(rows, c) == 0)
    && (forall tx, c :: c == NGN || c == USD ==> TxTotal(rows, tx, c) == 0)
  }

  /** Every row belongs to a transaction, is a proper leg and is in its account's currency. */
  ghost predicate Referenced(b: Book) {
    forall i :: 0 <= i < |b.rows| ==>
      b.rows[i].tx in b.transactions && ProperLeg(b.rows[i].entry) && AccountsFit(b, [b.rows[i].entry])
  }

  ghost predicate KeysDistinct(transactions: map<TxId, Option<string>>) {
    forall x, y :: x in transactions && y in transactions && x != y && transactions[x].Some? ==>
      transactions[x] != transactions[y]
  }

  ghost predicate Sound(b: Book) {
    Audited(b.rows) && Referenced(b) && KeysDistinct(b.transactions)
  }

  lemma {:induction false} TotalGrows(rows: seq<Row>, id: TxId, entries: seq<Entry>, c: Currency)
    ensures Total(rows + RowsOf(id, entries), c) == Total(rows, c) + Sum(entries, c)
  {
    if entries == [] {
      assert rows + RowsOf(id, entries) == rows;
    } else {
      var init := entries[..|entries| - 1];
      TotalGrows(rows, id, init, c);
      assert (rows + RowsOf(id, entries))[..|rows| + |init|] == rows + RowsOf(id, init);
    }
  }

  lemma {:induction false} TxTotalGrows(rows: seq<Row>, id: TxId, entries: seq<Entry>, tx: TxId, c: Currency)
    ensures TxTotal(rows + RowsOf(id, entries), tx, c) ==
            TxTotal(rows, tx, c) + (if tx == id then Sum(entries, c) else 0)
  {
    if entries == [] {
      assert rows + RowsOf(id, entries) == rows;
    } else {
      var init := entries[..|entries| - 1];
      TxTotalGrows(rows, id, init, tx, c);
      assert (rows + RowsOf(id, entries))[..|rows| + |init|] == rows + RowsOf(id, init);
    }
  }

  lemma BalancedRowsAudit(rows: seq<Row>, id: TxId, entries: seq<Entry>)
    requires Audited(rows) && Balances(entries)
    ensures Audited(rows + RowsOf(id, entries))
  {
    forall c | c == NGN || c == USD
      ensures Total(rows + RowsOf(id, entries), c) == 0
    {
      TotalGrows(rows, id, entries, c);
    }
    forall tx, c | c == NGN || c == USD
      ensures TxTotal(rows + RowsOf(id, entries), tx, c) == 0
    {
      TxTotalGrows(rows, id, entries, tx, c);
    }
  }

  lemma PostKeepsReferenced(b: Book, p: Posting)
    requires Referenced(b)
    ensures Referenced(Apply(b, p).1)
  {
  }

  lemma PostKeepsSound(b: Book, p: Posting)
    requires Sound(b)
    ensures Sound(Apply(b, p).1)
  {
    hide Audited, Referenced;
    PostKeepsReferenced(b, p);
    if Apply(b, p).0.None? {
      BalancedRowsAudit(b.rows, p.id, p.entries);
    }
  }

  /**
   Whatever is posted, in whatever order: the books stay balanced per transaction and per
   currency, every entry is in its account's currency, and no key is held twice.
  */
  lemma {:induction false} EveryRunBalances(accounts: map<Uuid, Currency>, ps: seq<Posting>)
    ensures Sound(PostAll(Book(accounts, map[], []), ps))
  {
    if ps != [] {
      EveryRunBalances(accounts, ps[..|ps| - 1]);
      PostKeepsSound(PostAll(Book(accounts, map[], []), ps[..|ps| - 1]), ps[|ps| - 1]);
    }
  }

  /** How many postings of a run with this key were committed. */
  function Committed(b: Book, ps: seq<Posting>, key: string): nat {
    if ps == [] then 0
    else
      var p := ps[|ps| - 1];
      var before := ps[..|ps| - 1];
      Committed(b, before, key) +
      (if p.idemKey == key && Apply(PostAll(b, before), p).0.None? then 1 else 0)
  }

  /** A movement under a key happens at most once over any run, and never again once it has. */
  lemma {:induction false} KeyCommitsOnce(b: Book, ps: seq<Posting>, key: string)
    requires key != ""
    ensures Committed(b, ps, key) <= (if KeyUsed(b, Some(key)) then 0 else 1)
    ensures KeyUsed(PostAll(b, ps), Some(key)) <==> KeyUsed(b, Some(key)) || Committed(b, ps, key) == 1
  {
    if ps != [] {
      var before := ps[..|ps| - 1];
      var p := ps[|ps| - 1];
      KeyCommitsOnce(b, before, key);
      PostUsesKey(PostAll(b, before), p, key);
    }
  }

  /** It happens if and only if the key was free and some posting under it was acceptable at its turn. */
  lemma {:induction false} KeyCommitsIff(b: Book, ps: seq<Posting>, key: string)
    requires key != ""
    ensures Committed(b, ps, key) == 1 <==>
            KeyIsFree(b, key) &&
            exists k :: 0 <= k < |ps| && ps[k].idemKey == key && Acceptable(PostAll(b, ps[..k]), ps[k])
  {
    if ps != [] {
      var last := |ps| - 1;
      var before := ps[..last];
      KeyCommitsIff(b, before, key);
      KeyCommitsOnce(b, before, key);
      PostedIff(PostAll(b, before), ps[last]);
      hide Apply, Acceptable, KeyIsFree, PostAll, KeyUsed;
      KeyFreeIff(b, key);
      KeyFreeIff(PostAll(b, before), key);
      assert forall k :: 0 <= k < last ==> before[k] == ps[k] && before[..k] == ps[..k];
      assert Committed(b, ps, key) == Committed(b, before, key) +
             (if ps[last].idemKey == key && Apply(PostAll(b, before), ps[last]).0.None? then 1 else 0);
      hide Committed;
    }
  }

  lemma KeyFreeIff(b: Book, key: string)
    requires key != ""
    ensures KeyIsFree(b, key) <==> !KeyUsed(b, Some(key))
  {
  }

  lemma PostUsesKey(b: Book, p: Posting, key: string)
    requires key != ""
    ensures var (err, b1) := Apply(b, p);
            && (KeyUsed(b1, Some(key)) <==> KeyUsed(b, Some(key)) || (err.None? && p.idemKey == key))
            && (KeyUsed(b, Some(key)) && p.idemKey == key ==> err.Some? && b1 == b)
  {
    var (err, b1) := Apply(b, p);
    if err.None? {
      assert b1.transactions[p.id] == Nullable(p.idemKey);
      if x :| x in b.transactions && b.transactions[x] == Some(key) {
        assert b1.transactions[x] == Some(key);
      }
    }
  }
}
