/**
 The fiat payout webhook over any stream of callbacks: duplicated, reordered, malformed,
 non-terminal, or meant for another order. The UUID parser is a parameter.
*/
module PayoutWebhook {
  import opened Base

  datatype PayoutStatus = NoPayout | Pending | Success | Failed

  datatype Order = Order(
    reference: Option<string>,
    payout: PayoutStatus,
    session: Option<string>,
    error: Option<string>)

  /** One authentic, well-formed callback; the update it causes may fail in the database. */
  datatype Callback = Callback(reference: string, rawStatus: string, dbFails: bool)

  /** A started settlement, with the stored order as the launcher left it. */
  datatype Launch = Launch(id: Uuid, stored: Order)

  datatype State = State(orders: map<Uuid, Order>, launches: seq<Launch>)

  type Parse = string -> Option<Uuid>

  const ROUTE_B := "routeB-"
  const ROUTE_C := "routeC-"

  function TrimPrefix(s: string, prefix: string): string {
    if prefix <= s then s[|prefix|..] else s
  }

  /** Only references of routes B and C reach the payout handler. */
  predicate IsPayout(reference: string) {
    ROUTE_B <= reference || ROUTE_C <= reference
  }

  function OrderId(parse: Parse, reference: string): Option<Uuid> {
    parse(TrimPrefix(TrimPrefix(reference, ROUTE_B), ROUTE_C))
  }

  /** White space as Unicode has it. */
  predicate IsSpace(c: char) {
    || c in {' ', '\t', '\n', '\U{000B}', '\U{000C}', '\r', '\U{0085}', '\U{00A0}', '\U{1680}'}
    || '\U{2000}' <= c <= '\U{200A}'
    || c in {'\U{2028}', '\U{2029}', '\U{202F}', '\U{205F}', '\U{3000}'}
  }

  function TrimSpace(s: string): string {
    if s != "" && IsSpace(s[0]) then TrimSpace(s[1..])
    else if s != "" && IsSpace(s[|s| - 1]) then TrimSpace(s[..|s| - 1])
    else s
  }

  /**
   Lower-casing, as far as it can lead to a plain letter: two letters outside ASCII do. The others
   stay outside it, where no status word is.
  */
  function LowerChar(c: char): char {
    if 'A' <= c <= 'Z' then (c as int + 32) as char
    else if c == '\U{0130}' then 'i'
    else if c == '\U{212A}' then 'k'
    else c
  }

  function ToLower(s: string): string {
    seq(|s|, i requires 0 <= i < |s| => LowerChar(s[i]))
  }

  /** The terminal status a raw status stands for; None for the non-terminal ones. */
  function Classify(raw: string): (r: Option<PayoutStatus>)
    ensures r.Some? ==> r.value == Success || r.value == Failed
  {
    var s := ToLower(TrimSpace(raw));
    if s in {"success", "successful", "completed", "00", "approved"} then Some(Success)
    else if s in {"failed", "rejected", "cancelled", "canceled", "reversed", "declined", "error"} then Some(Failed)
    else None
  }

  /** What a callback asks for, once read: an update of one order, or nothing. */
  datatype Event = Ignored | Terminal(id: Uuid, reference: string, status: PayoutStatus)

  /**
   A callback is ignored if its route has no payout handler, its order id does not parse,
   its status is not terminal, or the database refuses the update.
  */
  function Read(parse: Parse, cb: Callback): (e: Event)
    ensures e.Terminal? <==>
            IsPayout(cb.reference) && OrderId(parse, cb.reference).Some? &&
            Classify(cb.rawStatus).Some? && !cb.dbFails
    ensures e.Terminal? ==> e.reference == cb.reference && (e.status == Success || e.status == Failed)
  {
    var id := OrderId(parse, cb.reference);
    var status := Classify(cb.rawStatus);
    if !IsPayout(cb.reference) || id.None? || status.None? || cb.dbFails then Ignored
    else Terminal(id.value, cb.reference, status.value)
  }

  function ReadAll(parse: Parse, cbs: seq<Callback>): (es: seq<Event>)
    ensures |es| == |cbs| && forall i :: 0 <= i < |cbs| ==> es[i] == Read(parse, cbs[i])
  {
    seq(|cbs|, i requires 0 <= i < |cbs| => Read(parse, cbs[i]))
  }

  /** The update of one order: the session goes, and on success the error too. */
  function Settle(o: Order, status: PayoutStatus): Order {
    var o1 := o.(payout := status, session := None);
    if status == Success then o1.(error := None) else o1
  }

  /** The event updates order id: it carries its id and its stored reference. */
  predicate Matches(orders: map<Uuid, Order>, e: Event, id: Uuid) {
    e.Terminal? && e.id == id && id in orders && orders[id].reference == Some(e.reference)
  }

  function Step(st: State, e: Event): State {
    if e.Terminal? && Matches(st.orders, e, e.id) then
      var stored := Settle(st.orders[e.id], e.status);
      State(st.orders[e.id := stored],
            if e.status == Success then st.launches + [Launch(e.id, stored)] else st.launches)
    else st
  }

  function Run(st: State, es: seq<Event>): State {
    if es == [] then st
    else Step(Run(st, es[..|es| - 1]), es[|es| - 1])
  }

  /** One callback from the outside: dispatch, read, update and launch. */
  function Receive(st: State, parse: Parse, cb: Callback): State {
    Step(st, Read(parse, cb))
  }

  datatype Response = Received

  /** The orders table and the settlements launched from it. */
  class PayoutStore {
    var orders: map<Uuid, Order>
    var launches: seq<Launch>

    constructor (orders: map<Uuid, Order>)
      ensures Current() == State(orders, [])
    {
      this.orders, launches := orders, [];
    }

    ghost function Current(): State
      reads this
    {
      State(orders, launches)
    }

    /** Dispatch by reference prefix; every well-formed event is acknowledged. */
    method BaaSWebhook(parse: Parse, cb: Callback) returns (r: Response)
      modifies this
      ensures Current() == Receive(old(Current()), parse, cb)
    {
      if "routeA-" <= cb.reference {
        assert cb.reference[5] == 'A';
      } else if IsPayout(cb.reference) {
        ApplyFiatPayoutWebhook(parse, cb);
      }
      r := Received;
    }

    method ApplyFiatPayoutWebhook(parse: Parse, cb: Callback)
      requires IsPayout(cb.reference)
      modifies this
      ensures Current() == Receive(old(Current()), parse, cb)
    {
      var id := OrderId(parse, cb.reference);
      if id.None? {
        return;
      }
      var status := Classify(cb.rawStatus);
      if status.None? || cb.dbFails {
        return;
      }
      var n := 0;
      if id.value in orders && orders[id.value].reference == Some(cb.reference) {
        orders := orders[id.value := orders[id.value].(payout := status.value, session := None)];
        if status.value == Success {
          orders := orders[id.value := orders[id.value].(error := None)];
        }
        n := 1;
      }
      if n > 0 && status.value == Success {
        launches := launches + [Launch(id.value, orders[id.value])];
      }
    }

    /** A whole stream, one callback after another. */
    method Drain(parse: Parse, cbs: seq<Callback>)
      modifies this
      ensures Current() == Run(old(Current()), ReadAll(parse, cbs))
    {
      ghost var es := ReadAll(parse, cbs);
      for i := 0 to |cbs|
        invariant Current() == Run(old(Current()), es[..i])
      {
        var _ := BaaSWebhook(parse, cbs[i]);
        assert es[..i + 1][..i] == es[..i];
      }
      assert es[..|cbs|] == es;
    }
  }

  // ------------------------------------------------------------------ what one callback does

  predicate Blank(s: string) {
    forall k :: 0 <= k < |s| ==> IsSpace(s[k])
  }

  /** c is the letter l, or a capital of it. */
  predicate Letter(c: char, l: char) {
    || c == l
    || ('a' <= l <= 'z' && c as int + 32 == l as int)
    || (c == '\U{0130}' && l == 'i') || (c == '\U{212A}' && l == 'k')
  }

  predicate Spells(s: string, word: string) {
    |s| == |word| && forall k :: 0 <= k < |s| ==> Letter(s[k], word[k])
  }

  /** The raw text is one of the words, in any case and with any white space around it. */
  ghost predicate Says(raw: string, words: set<string>) {
    exists before, word, after, w ::
      raw == before + word + after && Blank(before) && Blank(after) && w in words && Spells(word, w)
  }

  /** The words are of small letters and digits. */
  predicate Plain(w: string) {
    w != "" && forall k :: 0 <= k < |w| ==> 'a' <= w[k] <= 'z' || '0' <= w[k] <= '9'
  }

  lemma LowerIffSpells(s: string, w: string)
    requires Plain(w)
    ensures ToLower(s) == w <==> Spells(s, w)
  {
    if Spells(s, w) {
      forall k | 0 <= k < |s|
        ensures LowerChar(s[k]) == w[k]
      {
      }
    }
  }

  /** Trimming leaves white space on both sides, and none at the ends of what it keeps. */
  lemma {:induction false} TrimSplits(s: string) returns (before: string, after: string)
    ensures s == before + TrimSpace(s) + after && Blank(before) && Blank(after)
  {
    before, after := "", "";
    if s != "" && IsSpace(s[0]) {
      before, after := TrimSplits(s[1..]);
      before := [s[0]] + before;
    } else if s != "" && IsSpace(s[|s| - 1]) {
      before, after := TrimSplits(s[..|s| - 1]);
      after := after + [s[|s| - 1]];
      assert s == s[..|s| - 1] + [s[|s| - 1]];
    }
  }

  lemma {:induction false} TrimFinds(before: string, word: string, after: string)
    requires Blank(before) && Blank(after) && word != "" && !IsSpace(word[0]) && !IsSpace(word[|word| - 1])
    ensures TrimSpace(before + word + after) == word
    decreases |before| + |after|
  {
    var s := before + word + after;
    if before != "" {
      assert s[1..] == before[1..] + word + after;
      TrimFinds(before[1..], word, after);
    } else if after != "" {
      assert s[..|s| - 1] == before + word + after[..|after| - 1];
      TrimFinds(before, word, after[..|after| - 1]);
    } else {
      assert s == word;
    }
  }

  lemma SpelledHasNoSpace(s: string, w: string)
    requires Plain(w) && Spells(s, w)
    ensures s != "" && !IsSpace(s[0]) && !IsSpace(s[|s| - 1])
  {
    assert Letter(s[0], w[0]) && Letter(s[|s| - 1], w[|s| - 1]);
  }

  lemma {:induction false} SaysIff(raw: string, words: set<string>)
    requires forall w :: w in words ==> Plain(w)
    ensures ToLower(TrimSpace(raw)) in words <==> Says(raw, words)
  {
    hide Plain, Letter, LowerChar, IsSpace;
    var w0 := ToLower(TrimSpace(raw));
    if w0 in words {
      var before, after := TrimSplits(raw);
      LowerIffSpells(TrimSpace(raw), w0);
    }
    if before, word, after, w :|
      raw == before + word + after && Blank(before) && Blank(after) && w in words && Spells(word, w)
    {
      SpelledHasNoSpace(word, w);
      TrimFinds(before, word, after);
      LowerIffSpells(word, w);
    }
  }

  lemma WordsArePlain()
    ensures forall w :: w in {"success", "successful", "completed", "00", "approved"} ==> Plain(w)
    ensures forall w :: w in {"failed", "rejected", "cancelled", "canceled", "reversed", "declined", "error"} ==>
              Plain(w)
  {
  }

  predicate Addresses(reference: string, text: string) {
    || reference == "routeC-" + text || reference == "routeB-routeC-" + text
    || (reference == "routeB-" + text && !("routeC-" <= text))
  }

  lemma WordsDecide(raw: string)
    ensures Classify(raw) ==
            if Says(raw, {"success", "successful", "completed", "00", "approved"}) then Some(Success)
            else if Says(raw, {"failed", "rejected", "cancelled", "canceled", "reversed", "declined", "error"}) then
              Some(Failed)
            else None
  {
    WordsArePlain();
    SaysIff(raw, {"success", "successful", "completed", "00", "approved"});
    SaysIff(raw, {"failed", "rejected", "cancelled", "canceled", "reversed", "declined", "error"});
    hide Says, Plain, ToLower, TrimSpace;
  }

  /** The reference is a route and the text of the order's id. */
  ghost predicate Names(parse: Parse, reference: string, id: Uuid) {
    exists text :: parse(text) == Some(id) && Addresses(reference, text)
  }

  /**
   What a callback does to a stored order and its settlements. If it names the order, carries its
   stored reference and the database takes it: one of the success words stores a success without
   session or error and launches one settlement of it; one of the failure words stores a failure
   without session and launches nothing. Any other text, and any other callback, does neither.
  */
  lemma CallbackTells(st: State, parse: Parse, cb: Callback, id: Uuid)
    requires id in st.orders
    ensures var st1, o := Receive(st, parse, cb), st.orders[id];
            var reaches := Names(parse, cb.reference, id) && o.reference == Some(cb.reference) && !cb.dbFails;
            if reaches && Says(cb.rawStatus, {"success", "successful", "completed", "00", "approved"}) then
              var paid := Order(o.reference, Success, None, None);
              st1 == State(st.orders[id := paid], st.launches + [Launch(id, paid)])
            else if reaches && Says(cb.rawStatus, {"failed", "rejected", "cancelled", "canceled", "reversed",
                                                   "declined", "error"}) then
              st1 == State(st.orders[id := Order(o.reference, Failed, None, o.error)], st.launches)
            else
              id in st1.orders && st1.orders[id] == o && LaunchesOf(st1.launches, id) == LaunchesOf(st.launches, id)
  {
    WordsDecide(cb.rawStatus);
    NamesIff(parse, cb.reference, id);
    hide Says, Names, OrderId, IsPayout, Classify;
    StepFor(st, Read(parse, cb), id);
  }

  /** Which callbacks of a stream are the matching successes and failures of an order. */
  lemma MatchTells(orders: map<Uuid, Order>, parse: Parse, cb: Callback, id: Uuid)
    ensures var e := Read(parse, cb);
            var reaches := id in orders && Names(parse, cb.reference, id) &&
                           orders[id].reference == Some(cb.reference) && !cb.dbFails;
            var success := Says(cb.rawStatus, {"success", "successful", "completed", "00", "approved"});
            var failure := Says(cb.rawStatus, {"failed", "rejected", "cancelled", "canceled", "reversed", "declined",
                                               "error"});
            && (Matches(orders, e, id) && Reports(e, Success) <==> reaches && success)
            && (Matches(orders, e, id) && Reports(e, Failed) <==> reaches && !success && failure)
            && (Matches(orders, e, id) ==> Reports(e, Success) || Reports(e, Failed))
  {
    WordsDecide(cb.rawStatus);
    NamesIff(parse, cb.reference, id);
    hide Says, Names, OrderId, IsPayout, Classify;
  }

  lemma NamesIff(parse: Parse, reference: string, id: Uuid)
    ensures IsPayout(reference) && OrderId(parse, reference) == Some(id) <==> Names(parse, reference, id)
  {
    var rest := TrimPrefix(reference, ROUTE_B);
    var text := TrimPrefix(rest, ROUTE_C);
    if IsPayout(reference) && OrderId(parse, reference) == Some(id) {
      assert ROUTE_B <= reference ==> reference == "routeB-" + rest;
      assert ROUTE_C <= rest ==> rest == "routeC-" + text;
      assert ROUTE_B <= reference && ROUTE_C <= rest ==> reference == "routeB-routeC-" + text;
      assert ROUTE_C <= reference ==> reference[5] == 'C';
    }
    if text' :| parse(text') == Some(id) && Addresses(reference, text') {
      assert reference == "routeC-" + text' ==> reference[5] == 'C' && reference[7..] == text';
      assert reference == "routeB-" + text' ==> reference[7..] == text';
      assert reference == "routeB-routeC-" + text' ==>
               reference[7..] == "routeC-" + text' && reference[7..][7..] == text';
    }
  }

  /** A callback that reaches no stored order changes nothing at all. */
  lemma UnreachedIsIgnored(st: State, parse: Parse, cb: Callback)
    requires forall id :: id in st.orders && st.orders[id].reference == Some(cb.reference) ==>
               !Names(parse, cb.reference, id)
    ensures Receive(st, parse, cb) == st
  {
    hide Names;
    var e := Read(parse, cb);
    if e.Terminal? {
      NamesIff(parse, cb.reference, e.id);
    }
  }

  // ------------------------------------------------------------------ over every stream

  /** The orders there are and their references never change. */
  ghost predicate SameKeys(a: map<Uuid, Order>, z: map<Uuid, Order>) {
    a.Keys == z.Keys && forall id :: id in a ==> z[id].reference == a[id].reference
  }

  lemma {:induction false} RunKeepsKeys(st: State, es: seq<Event>)
    ensures SameKeys(st.orders, Run(st, es).orders)
  {
    if es != [] {
      RunKeepsKeys(st, es[..|es| - 1]);
    }
  }

  /** The events of a stream that match order id, in order. */
  function Mine(orders: map<Uuid, Order>, es: seq<Event>, id: Uuid): seq<Event> {
    if es == [] then []
    else
      var e := es[|es| - 1];
      var before := Mine(orders, es[..|es| - 1], id);
      if Matches(orders, e, id) then before + [e] else before
  }

  function LaunchesOf(launches: seq<Launch>, id: Uuid): seq<Launch> {
    if launches == [] then []
    else
      var l := launches[|launches| - 1];
      LaunchesOf(launches[..|launches| - 1], id) + (if l.id == id then [l] else [])
  }

  predicate Reports(e: Event, status: PayoutStatus) {
    e.Terminal? && e.status == status
  }

  /** How many of the events report success. */
  function Successes(es: seq<Event>): nat {
    if es == [] then 0
    else Successes(es[..|es| - 1]) + (if Reports(es[|es| - 1], Success) then 1 else 0)
  }

  lemma SuccessesSnoc(es: seq<Event>, e: Event)
    ensures Successes(es + [e]) == Successes(es) + (if Reports(e, Success) then 1 else 0)
  {
  }

  lemma RunSnoc(st: State, es: seq<Event>, e: Event)
    ensures Run(st, es + [e]) == Step(Run(st, es), e)
  {
  }

  /** What one event does to one order and its launches. */
  lemma StepFor(st: State, e: Event, id: Uuid)
    ensures var st1 := Step(st, e);
            if Matches(st.orders, e, id) then
              var stored := Settle(st.orders[id], e.status);
              st1.orders == st.orders[id := stored] &&
              LaunchesOf(st1.launches, id) ==
                LaunchesOf(st.launches, id) + (if e.status == Success then [Launch(id, stored)] else [])
            else
              (id in st1.orders <==> id in st.orders) &&
              (id in st.orders ==> st1.orders[id] == st.orders[id]) &&
              LaunchesOf(st1.launches, id) == LaunchesOf(st.launches, id)
  {
  }

  /** An order's reference, its route and the text of its id, leads back to the order. */
  lemma ReferenceNamesItsOrder(parse: Parse, text: string, id: Uuid)
    requires parse(text) == Some(id) && !(ROUTE_C <= text)
    ensures IsPayout(ROUTE_B + text) && OrderId(parse, ROUTE_B + text) == Some(id)
    ensures IsPayout(ROUTE_C + text) && OrderId(parse, ROUTE_C + text) == Some(id)
  {
    assert (ROUTE_B + text)[|ROUTE_B|..] == text && (ROUTE_C + text)[|ROUTE_C|..] == text;
    assert (ROUTE_C + text)[5] == 'C';
  }

  /**
   A callback carrying the stored reference of its order, which is a route and the text of the
   order's id, gives it the terminal status it says and clears its session, and on a success the
   error; every other order, and every order if it says neither or the database refuses, stays
   as it was.
  */
  lemma CallbackUpdatesItsOrder(st: State, parse: Parse, text: string, id: Uuid, cb: Callback, other: Uuid)
    requires parse(text) == Some(id) && !(ROUTE_C <= text)
    requires cb.reference in {ROUTE_B + text, ROUTE_C + text}
    requires id in st.orders && st.orders[id].reference == Some(cb.reference) && other in st.orders
    ensures var orders, o := Receive(st, parse, cb).orders, st.orders[id];
            && id in orders && other in orders && (other != id ==> orders[other] == st.orders[other])
            && orders[id] ==
               (if cb.dbFails then o
                else if Says(cb.rawStatus, {"success", "successful", "completed", "00", "approved"}) then
                  Order(o.reference, Success, None, None)
                else if Says(cb.rawStatus, {"failed", "rejected", "cancelled", "canceled", "reversed", "declined",
                                            "error"}) then
                  Order(o.reference, Failed, None, o.error)
                else o)
  {
    assert Addresses(cb.reference, text);
    CallbackTells(st, parse, cb, id);
    hide Says, Addresses;
  }

  /** A callback whose reference is not the one an order has stored never touches that order or launches it. */
  lemma ForeignReferenceIsIgnored(st: State, parse: Parse, cb: Callback, id: Uuid)
    requires id in st.orders && st.orders[id].reference != Some(cb.reference)
    ensures var st1 := Step(st, Read(parse, cb));
            && id in st1.orders && st1.orders[id] == st.orders[id]
            && LaunchesOf(st1.launches, id) == LaunchesOf(st.launches, id)
  {
    StepFor(st, Read(parse, cb), id);
  }

  /**
   After any stream, an order's payout status is that of its last matching event, or what
   it was before if there is none; any match clears the session, and a success the error.
  */
  lemma {:induction false} StatusIsLastMatch(st: State, es: seq<Event>, id: Uuid)
    requires id in st.orders
    ensures var o := Run(st, es).orders;
            var mine := Mine(st.orders, es, id);
            id in o &&
            if mine == [] then o[id] == st.orders[id]
            else
              && Reports(mine[|mine| - 1], o[id].payout)
              && o[id].session == None
              && o[id].error == (if Successes(mine) > 0 then None else st.orders[id].error)
  {
    RunKeepsKeys(st, es);
    if es != [] {
      var before := es[..|es| - 1];
      var e := es[|es| - 1];
      RunKeepsKeys(st, before);
      StatusIsLastMatch(st, before, id);
      SuccessesSnoc(Mine(st.orders, before, id), e);
      StepFor(Run(st, before), e, id);
    }
  }

  /**
   The settlements launched for an order are, one for one, its matching success events,
   and each was launched from a stored success with neither session nor error left.
  */
  lemma {:induction false} LaunchesMatchSuccesses(st: State, es: seq<Event>, id: Uuid)
    requires st.launches == []
    ensures var mine := LaunchesOf(Run(st, es).launches, id);
            && |mine| == Successes(Mine(st.orders, es, id))
            && forall l :: l in mine ==>
                 l.id == id && l.stored.payout == Success && l.stored.session == None && l.stored.error == None
  {
    if es != [] {
      var before := es[..|es| - 1];
      var e := es[|es| - 1];
      LaunchesMatchSuccesses(st, before, id);
      RunKeepsKeys(st, before);
      SuccessesSnoc(Mine(st.orders, before, id), e);
      StepFor(Run(st, before), e, id);
    }
  }

  /** Dropping everything that does not match an order changes nothing for it. */
  lemma {:induction false} OnlyOwnEventsMatter(st: State, es: seq<Event>, id: Uuid)
    requires id in st.orders
    ensures var all := Run(st, es);
            var own := Run(st, Mine(st.orders, es, id));
            && id in all.orders && id in own.orders && all.orders[id] == own.orders[id]
            && LaunchesOf(all.launches, id) == LaunchesOf(own.launches, id)
  {
    RunKeepsKeys(st, es);
    RunKeepsKeys(st, Mine(st.orders, es, id));
    if es != [] {
      var before := es[..|es| - 1];
      var e := es[|es| - 1];
      var mine := Mine(st.orders, before, id);
      OnlyOwnEventsMatter(st, before, id);
      RunKeepsKeys(st, before);
      RunKeepsKeys(st, mine);
      StepFor(Run(st, before), e, id);
      if Matches(st.orders, e, id) {
        RunSnoc(st, mine, e);
        StepFor(Run(st, mine), e, id);
      }
    }
  }

  /** Events of different orders commute: the stored orders come out the same. */
  lemma DifferentOrdersCommute(st: State, a: Event, b: Event)
    requires a.Terminal? && b.Terminal? ==> a.id != b.id
    ensures Step(Step(st, a), b).orders == Step(Step(st, b), a).orders
  {
  }

  /** And so do every order's launches. */
  lemma {:induction false} LaunchesCommute(st: State, a: Event, b: Event, id: Uuid)
    requires a.Terminal? && b.Terminal? ==> a.id != b.id
    ensures LaunchesOf(Step(Step(st, a), b).launches, id) == LaunchesOf(Step(Step(st, b), a).launches, id)
  {
    hide Settle;
    StepFor(st, a, id);
    StepFor(st, b, id);
    StepFor(Step(st, a), b, id);
    StepFor(Step(st, b), a, id);
  }

  /** A repeated event leaves the stored orders as the first delivery left them. */
  lemma RepeatChangesNothing(st: State, e: Event)
    ensures Step(Step(st, e), e).orders == Step(st, e).orders
  {
  }

  /**
   Storing is idempotent but launching is not, and a late failure undoes a stored success:
   the status an order ends with is success exactly when its last matching event is one.
  */
  lemma SuccessSticksIff(st: State, es: seq<Event>, id: Uuid)
    requires id in st.orders && st.orders[id].payout == Success
    ensures var mine := Mine(st.orders, es, id);
            var o := Run(st, es).orders;
            id in o && (o[id].payout == Success <==> mine == [] || Reports(mine[|mine| - 1], Success))
  {
    StatusIsLastMatch(st, es, id);
  }

  lemma ReplayLaunchesAgainAndFailureWins()
    ensures var st := State(map[1 := Order(Some("r"), Pending, Some("s"), None)], []);
            var paid, failed := Terminal(1, "r", Success), Terminal(1, "r", Failed);
            var z := Run(st, [paid, paid, failed]);
            |z.launches| == 2 && 1 in z.orders && z.orders[1].payout == Failed
  {
    var st := State(map[1 := Order(Some("r"), Pending, Some("s"), None)], []);
    var paid, failed := Terminal(1, "r", Success), Terminal(1, "r", Failed);
    RunSnoc(st, [], paid);
    RunSnoc(st, [paid], paid);
    RunSnoc(st, [paid, paid], failed);
    assert [] + [paid] == [paid] && [paid] + [paid] == [paid, paid];
    assert [paid, paid] + [failed] == [paid, paid, failed];
  }
}
