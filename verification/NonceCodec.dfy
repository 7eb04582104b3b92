/**
 How a CardServerNonce reaches the table and comes back: defaults, check and createSpec on
 the way out, scanValues and assignValues on the way in. Times are integers, the table
 keeps each value as it was sent, and a column that was not sent is NULL.
*/
module NonceCodec {
  import opened Base

  type Bytes = seq<bv8>

  datatype Column =
    | Id | CreatedAt | UpdatedAt | Nonce | Tier | Amount | Currency | ExpiresAt | ConsumedAt | StepUpGrantedAt
    | SenderProfileKey | CardKey
    | Other(name: string)

  datatype DbValue =
    Null | UuidValue(id: Uuid) | TimeValue(time: int) | BytesValue(bytes: Bytes) | TextValue(text: string)

  /** What a CardServerNonceMutation sets. */
  datatype Mutation = Mutation(
    id: Option<Uuid>,
    createdAt: Option<int>,
    updatedAt: Option<int>,
    nonce: Option<Bytes>,
    tier: Option<string>,
    amount: Option<string>,
    currency: Option<string>,
    expiresAt: Option<int>,
    consumedAt: Option<int>,
    stepUpGrantedAt: Option<int>,
    card: Option<Uuid>,
    senderProfile: Option<Uuid>)

  const ZERO_TIME: int := 0

  /** A node's fields; `extra` holds the values of columns the entity does not know. */
  datatype Entity = Entity(
    id: Uuid,
    createdAt: int,
    updatedAt: int,
    nonce: Option<Bytes>,
    tier: string,
    amount: string,
    currency: string,
    expiresAt: int,
    consumedAt: Option<int>,
    stepUpGrantedAt: Option<int>,
    senderProfileKey: Option<Uuid>,
    cardKey: Option<Uuid>,
    extra: map<string, DbValue>)

  const EMPTY := Entity(ZERO_UUID, ZERO_TIME, ZERO_TIME, None, "", "", "", ZERO_TIME, None, None, None, None, map[])

  datatype Error =
    | MissingField(field: string)
    | ValidatorFailed(failed: string)
    | MissingEdge(edge: string)
    | UnexpectedType(column: Column)
    | TooFewValues
    | ScanFailed(index: nat)

  // ------------------------------------------------------------------ on the way out

  const TIERS := {"none", "pin", "step_up"}

  /** The row the spec inserts, column by column. */
  function Sent(m: Mutation, c: Column): Option<DbValue> {
    match c
    case Id => if m.id.Some? then Some(UuidValue(m.id.value)) else None
    case CreatedAt => TimeOf(m.createdAt)
    case UpdatedAt => TimeOf(m.updatedAt)
    case Nonce => if m.nonce.Some? then Some(BytesValue(m.nonce.value)) else None
    case Tier => TextOf(m.tier)
    case Amount => TextOf(m.amount)
    case Currency => TextOf(m.currency)
    case ExpiresAt => TimeOf(m.expiresAt)
    case ConsumedAt => TimeOf(m.consumedAt)
    case StepUpGrantedAt => TimeOf(m.stepUpGrantedAt)
    case SenderProfileKey => if m.senderProfile.Some? then Some(UuidValue(m.senderProfile.value)) else None
    case CardKey => if m.card.Some? then Some(UuidValue(m.card.value)) else None
    case Other(_) => None
  }

  function TimeOf(t: Option<int>): Option<DbValue> {
    if t.Some? then Some(TimeValue(t.value)) else None
  }

  function TextOf(t: Option<string>): Option<DbValue> {
    if t.Some? then Some(TextValue(t.value)) else None
  }

  /** The builder of one nonce. */
  class CardServerNonceCreate {
    var mutation: Mutation

    constructor (m: Mutation)
      ensures mutation == m
    {
      mutation := m;
    }

    /** Fill what has a default and was not set. */
    method Defaults(createdAt: int, updatedAt: int, id: Uuid)
      modifies this
      ensures mutation == WithDefaults(old(mutation), createdAt, updatedAt, id)
    {
      if mutation.createdAt.None? {
        mutation := mutation.(createdAt := Some(createdAt));
      }
      if mutation.updatedAt.None? {
        mutation := mutation.(updatedAt := Some(updatedAt));
      }
      if mutation.currency.None? {
        mutation := mutation.(currency := Some(DEFAULT_CURRENCY));
      }
      if mutation.id.None? {
        mutation := mutation.(id := Some(id));
      }
    }

    /** The node and the columns to send, built up field by field. */
    method CreateSpec() returns (node: Entity, spec: map<Column, DbValue>)
      ensures Sends(spec, ALL_COLUMNS)
      ensures node == NodeOf(mutation)
    {
      node, spec := EMPTY, map[];
      node, spec := PutTimes(node, spec);
      node, spec := PutNonceAndTier(node, spec);
      node, spec := PutMoney(node, spec);
      node, spec := PutOptional(node, spec);
      node, spec := PutEdges(node, spec);
    }

    /** The spec holds exactly the set fields among the given columns. */
    ghost predicate Sends(spec: map<Column, DbValue>, columns: set<Column>)
      reads this
    {
      && (forall c: Column :: c in spec <==> c in columns && Sent(mutation, c).Some?)
      && (forall c: Column :: c in spec ==> Some(spec[c]) == Sent(mutation, c))
    }

    method PutTimes(node0: Entity, spec0: map<Column, DbValue>) returns (node: Entity, spec: map<Column, DbValue>)
      requires node0 == EMPTY && spec0 == map[]
      ensures Sends(spec, {Id, CreatedAt, UpdatedAt, ExpiresAt})
      ensures var full := NodeOf(mutation);
              node == EMPTY.(id := full.id, createdAt := full.createdAt, updatedAt := full.updatedAt,
                             expiresAt := full.expiresAt)
    {
      node, spec := node0, spec0;
      if mutation.id.Some? {
        spec := spec[Id := UuidValue(mutation.id.value)];
        node := node.(id := mutation.id.value);
      }
      if mutation.createdAt.Some? {
        spec := spec[CreatedAt := TimeValue(mutation.createdAt.value)];
        node := node.(createdAt := mutation.createdAt.value);
      }
      if mutation.updatedAt.Some? {
        spec := spec[UpdatedAt := TimeValue(mutation.updatedAt.value)];
        node := node.(updatedAt := mutation.updatedAt.value);
      }
      if mutation.expiresAt.Some? {
        spec := spec[ExpiresAt := TimeValue(mutation.expiresAt.value)];
        node := node.(expiresAt := mutation.expiresAt.value);
      }
    }

    method PutNonceAndTier(node0: Entity, spec0: map<Column, DbValue>)
      returns (node: Entity, spec: map<Column, DbValue>)
      requires Sends(spec0, {Id, CreatedAt, UpdatedAt, ExpiresAt})
      requires node0.tier == "" && node0.nonce == None
      ensures Sends(spec, {Id, CreatedAt, UpdatedAt, ExpiresAt, Nonce, Tier})
      ensures node == node0.(nonce := mutation.nonce, tier := OrElse(mutation.tier, ""))
    {
      node, spec := node0, spec0;
      if mutation.nonce.Some? {
        spec := spec[Nonce := BytesValue(mutation.nonce.value)];
        node := node.(nonce := mutation.nonce);
      }
      if mutation.tier.Some? {
        spec := spec[Tier := TextValue(mutation.tier.value)];
        node := node.(tier := mutation.tier.value);
      }
    }

    method PutMoney(node0: Entity, spec0: map<Column, DbValue>) returns (node: Entity, spec: map<Column, DbValue>)
      requires Sends(spec0, {Id, CreatedAt, UpdatedAt, ExpiresAt, Nonce, Tier})
      requires node0.amount == "" && node0.currency == ""
      ensures Sends(spec, ALL_COLUMNS - {ConsumedAt, StepUpGrantedAt, CardKey, SenderProfileKey})
      ensures node == node0.(amount := OrElse(mutation.amount, ""), currency := OrElse(mutation.currency, ""))
    {
      node, spec := node0, spec0;
      if mutation.amount.Some? {
        spec := spec[Amount := TextValue(mutation.amount.value)];
        node := node.(amount := mutation.amount.value);
      }
      if mutation.currency.Some? {
        spec := spec[Currency := TextValue(mutation.currency.value)];
        node := node.(currency := mutation.currency.value);
      }
    }

    method PutOptional(node0: Entity, spec0: map<Column, DbValue>) returns (node: Entity, spec: map<Column, DbValue>)
      requires Sends(spec0, ALL_COLUMNS - {ConsumedAt, StepUpGrantedAt, CardKey, SenderProfileKey})
      requires node0.consumedAt == None && node0.stepUpGrantedAt == None
      ensures Sends(spec, ALL_COLUMNS - {CardKey, SenderProfileKey})
      ensures node == node0.(consumedAt := mutation.consumedAt, stepUpGrantedAt := mutation.stepUpGrantedAt)
    {
      node, spec := node0, spec0;
      if mutation.consumedAt.Some? {
        spec := spec[ConsumedAt := TimeValue(mutation.consumedAt.value)];
        node := node.(consumedAt := mutation.consumedAt);
      }
      if mutation.stepUpGrantedAt.Some? {
        spec := spec[StepUpGrantedAt := TimeValue(mutation.stepUpGrantedAt.value)];
        node := node.(stepUpGrantedAt := mutation.stepUpGrantedAt);
      }
    }

    method PutEdges(node0: Entity, spec0: map<Column, DbValue>) returns (node: Entity, spec: map<Column, DbValue>)
      requires Sends(spec0, ALL_COLUMNS - {CardKey, SenderProfileKey})
      requires node0.cardKey == None && node0.senderProfileKey == None
      ensures Sends(spec, ALL_COLUMNS)
      ensures node == node0.(cardKey := mutation.card, senderProfileKey := mutation.senderProfile)
    {
      node, spec := node0, spec0;
      if mutation.card.Some? {
        spec := spec[CardKey := UuidValue(mutation.card.value)];
        node := node.(cardKey := mutation.card);
      }
      if mutation.senderProfile.Some? {
        spec := spec[SenderProfileKey := UuidValue(mutation.senderProfile.value)];
        node := node.(senderProfileKey := mutation.senderProfile);
      }
    }
  }

  const ALL_COLUMNS: set<Column> :=
    {Id, CreatedAt, UpdatedAt, ExpiresAt, Nonce, Tier, Amount, Currency,
     ConsumedAt, StepUpGrantedAt, CardKey, SenderProfileKey}

  const DEFAULT_CURRENCY := "NGN"

  function OrElse<T>(o: Option<T>, d: T): T {
    if o.Some? then o.value else d
  }

  function WithDefaults(m: Mutation, createdAt: int, updatedAt: int, id: Uuid): Mutation {
    m.(createdAt := Some(OrElse(m.createdAt, createdAt)),
       updatedAt := Some(OrElse(m.updatedAt, updatedAt)),
       currency := Some(OrElse(m.currency, DEFAULT_CURRENCY)),
       id := Some(OrElse(m.id, id)))
  }

  function NodeOf(m: Mutation): Entity {
    Entity(OrElse(m.id, ZERO_UUID), OrElse(m.createdAt, ZERO_TIME), OrElse(m.updatedAt, ZERO_TIME), m.nonce,
           OrElse(m.tier, ""), OrElse(m.amount, ""), OrElse(m.currency, ""), OrElse(m.expiresAt, ZERO_TIME),
           m.consumedAt, m.stepUpGrantedAt, m.senderProfile, m.card, map[])
  }

  /** The builder's checks, in order: the first one that fails is reported. */
  function Check(m: Mutation): Option<Error> {
    if m.createdAt.None? then Some(MissingField("created_at"))
    else if m.updatedAt.None? then Some(MissingField("updated_at"))
    else if m.nonce.None? then Some(MissingField("nonce"))
    else if |m.nonce.value| > 32 then Some(ValidatorFailed("nonce"))
    else if m.tier.None? then Some(MissingField("tier"))
    else if m.tier.value !in TIERS then Some(ValidatorFailed("tier"))
    else if m.amount.None? then Some(MissingField("amount"))
    else if m.amount.value == "" then Some(ValidatorFailed("amount"))
    else if m.currency.None? then Some(MissingField("currency"))
    else if |m.currency.value| > 3 then Some(ValidatorFailed("currency"))
    else if m.expiresAt.None? then Some(MissingField("expires_at"))
    else if m.card.None? then Some(MissingEdge("card"))
    else if m.senderProfile.None? then Some(MissingEdge("sender_profile"))
    else None
  }

  // ------------------------------------------------------------------ on the way in

  /** A scan destination; an invalid nullable one holds None. */
  datatype Cell =
    | UuidCell(id: Uuid)
    | BytesCell(bytes: Option<Bytes>)
    | TextCell(text: Option<string>)
    | TimeCell(time: Option<int>)
    | KeyCell(key: Option<Uuid>)
    | UnknownCell(value: DbValue)

  /** The empty destination that scanValues allocates for a column. */
  function Destination(c: Column): Cell {
    match c
    case Nonce => BytesCell(None)
    case Tier => TextCell(None)
    case Amount => TextCell(None)
    case Currency => TextCell(None)
    case CreatedAt => TimeCell(None)
    case UpdatedAt => TimeCell(None)
    case ExpiresAt => TimeCell(None)
    case ConsumedAt => TimeCell(None)
    case StepUpGrantedAt => TimeCell(None)
    case Id => UuidCell(ZERO_UUID)
    case SenderProfileKey => KeyCell(None)
    case CardKey => KeyCell(None)
    case Other(_) => UnknownCell(Null)
  }

  method ScanValues(columns: seq<Column>) returns (values: array<Cell>)
    ensures fresh(values) && values.Length == |columns|
    ensures forall i :: 0 <= i < |columns| ==> values[i] == Destination(columns[i]) && Assignable(columns[i], values[i])
  {
    values := new Cell[|columns|](_ => UnknownCell(Null));
    for i := 0 to |columns|
      invariant forall k :: 0 <= k < i ==> values[k] == Destination(columns[k])
    {
      match columns[i]
      case Nonce => values[i] := BytesCell(None);
      case Tier => values[i] := TextCell(None);
      case Amount => values[i] := TextCell(None);
      case Currency => values[i] := TextCell(None);
      case CreatedAt => values[i] := TimeCell(None);
      case UpdatedAt => values[i] := TimeCell(None);
      case ExpiresAt => values[i] := TimeCell(None);
      case ConsumedAt => values[i] := TimeCell(None);
      case StepUpGrantedAt => values[i] := TimeCell(None);
      case Id => values[i] := UuidCell(ZERO_UUID);
      case SenderProfileKey => values[i] := KeyCell(None);
      case CardKey => values[i] := KeyCell(None);
      case Other(_) => values[i] := UnknownCell(Null);
    }
    hide Assignable, Destination;
    forall i | 0 <= i < |columns|
      ensures Assignable(columns[i], values[i])
    {
      DestinationIsAssignable(columns[i]);
    }
  }

  /** The driver's Scan of one value into one destination; None if the types do not fit. */
  function Fill(cell: Cell, v: DbValue): Option<Cell> {
    match cell
    case UuidCell(_) => if v.UuidValue? then Some(UuidCell(v.id)) else if v.Null? then Some(cell) else None
    case BytesCell(_) =>
      if v.BytesValue? then Some(BytesCell(Some(v.bytes))) else if v.Null? then Some(BytesCell(None)) else None
    case TextCell(_) =>
      if v.TextValue? then Some(TextCell(Some(v.text))) else if v.Null? then Some(TextCell(None)) else None
    case TimeCell(_) =>
      if v.TimeValue? then Some(TimeCell(Some(v.time))) else if v.Null? then Some(TimeCell(None)) else None
    case KeyCell(_) =>
      if v.UuidValue? then Some(KeyCell(Some(v.id))) else if v.Null? then Some(KeyCell(None)) else None
    case UnknownCell(_) => Some(UnknownCell(v))
  }

  /** One case of assignValues: the type assertion, then the field if the value is valid. */
  function Assign(e: Entity, c: Column, v: Cell): Result<Entity, Error> {
    match c
    case Id => if v.UuidCell? then Ok(e.(id := v.id)) else Err(UnexpectedType(c))
    case CreatedAt => if v.TimeCell? then Ok(e.(createdAt := OrElse(v.time, e.createdAt))) else Err(UnexpectedType(c))
    case UpdatedAt => if v.TimeCell? then Ok(e.(updatedAt := OrElse(v.time, e.updatedAt))) else Err(UnexpectedType(c))
    case Nonce => if v.BytesCell? then Ok(e.(nonce := v.bytes)) else Err(UnexpectedType(c))
    case Tier => if v.TextCell? then Ok(e.(tier := OrElse(v.text, e.tier))) else Err(UnexpectedType(c))
    case Amount => if v.TextCell? then Ok(e.(amount := OrElse(v.text, e.amount))) else Err(UnexpectedType(c))
    case Currency => if v.TextCell? then Ok(e.(currency := OrElse(v.text, e.currency))) else Err(UnexpectedType(c))
    case ExpiresAt => if v.TimeCell? then Ok(e.(expiresAt := OrElse(v.time, e.expiresAt))) else Err(UnexpectedType(c))
    case ConsumedAt =>
      if v.TimeCell? then Ok(if v.time.Some? then e.(consumedAt := v.time) else e) else Err(UnexpectedType(c))
    case StepUpGrantedAt =>
      if v.TimeCell? then Ok(if v.time.Some? then e.(stepUpGrantedAt := v.time) else e) else Err(UnexpectedType(c))
    case SenderProfileKey =>
      if v.KeyCell? then Ok(if v.key.Some? then e.(senderProfileKey := v.key) else e) else Err(UnexpectedType(c))
    case CardKey =>
      if v.KeyCell? then Ok(if v.key.Some? then e.(cardKey := v.key) else e) else Err(UnexpectedType(c))
    case Other(name) =>
      Ok(e.(extra := e.extra[name := if v.UnknownCell? then v.value else Null]))
  }

  /** Whatever the driver scans into the destination, assignValues finds the type it asserts. */
  ghost predicate Assignable(c: Column, destination: Cell) {
    forall v, e :: Fill(destination, v).Some? ==> Assign(e, c, Fill(destination, v).value).Ok?
  }

  lemma DestinationIsAssignable(c: Column)
    ensures Assignable(c, Destination(c))
  {
  }

  /** The fields after the first n columns, or the first mismatch. */
  function AssignAll(e: Entity, columns: seq<Column>, values: seq<Cell>, n: nat): Result<Entity, Error>
    requires n <= |columns| <= |values|
  {
    if n == 0 then Ok(e)
    else
      var before := AssignAll(e, columns, values, n - 1);
      if before.Err? then before else Assign(before.value, columns[n - 1], values[n - 1])
  }

  class CardServerNonce {
    var fields: Entity

    constructor ()
      ensures fields == EMPTY
    {
      fields := EMPTY;
    }

    /** assignValues stops at the first value of the wrong type; the fields before it stay assigned. */
    method AssignValues(columns: seq<Column>, values: array<Cell>) returns (err: Option<Error>)
      modifies this
      ensures values.Length < |columns| ==> err == Some(TooFewValues) && fields == old(fields)
      ensures values.Length >= |columns| && err.None? ==>
                AssignAll(old(fields), columns, values[..], |columns|) == Ok(fields)
      ensures values.Length >= |columns| && err.Some? ==>
                AssignAll(old(fields), columns, values[..], |columns|) == Err(err.value)
    {
      if values.Length < |columns| {
        return Some(TooFewValues);
      }
      for i := 0 to |columns|
        invariant AssignAll(old(fields), columns, values[..], i) == Ok(fields)
      {
        var r := Assign(fields, columns[i], values[i]);
        if r.Err? {
          ErrorSticks(old(fields), columns, values[..], i + 1, |columns|);
          return Some(r.error);
        }
        fields := r.value;
      }
      return None;
    }
  }

  lemma {:induction false} ErrorSticks(e: Entity, columns: seq<Column>, values: seq<Cell>, n: nat, m: nat)
    requires n <= m <= |columns| <= |values| && AssignAll(e, columns, values, n).Err?
    ensures AssignAll(e, columns, values, m) == AssignAll(e, columns, values, n)
  {
    if n < m {
      ErrorSticks(e, columns, values, n, m - 1);
    }
  }

  /** The value a row of the table holds in a column; other columns hold what the query computed. */
  function Stored(m: Mutation, computed: map<string, DbValue>, c: Column): DbValue {
    if c.Other? then (if c.name in computed then computed[c.name] else Null)
    else OrElse(Sent(m, c), Null)
  }

  /** scanValues, the driver's scan of one row, and assignValues. */
  function Decode(columns: seq<Column>, row: Column -> DbValue): Result<Entity, Error> {
    if exists i :: 0 <= i < |columns| && Fill(Destination(columns[i]), row(columns[i])).None? then
      Err(ScanFailed(0))
    else
      var values := Filled(columns, row);
      AssignAll(EMPTY, columns, values, |columns|)
  }

  function Filled(columns: seq<Column>, row: Column -> DbValue): (r: seq<Cell>)
    requires forall i :: 0 <= i < |columns| ==> Fill(Destination(columns[i]), row(columns[i])).Some?
    ensures |r| == |columns|
    ensures forall i :: 0 <= i < |columns| ==> Some(r[i]) == Fill(Destination(columns[i]), row(columns[i]))
  {
    seq(|columns|, i requires 0 <= i < |columns| => Fill(Destination(columns[i]), row(columns[i])).value)
  }

  // ------------------------------------------------------------------ out and back again

  /** What a node keeps of a full one when only some columns are selected. */
  function Restrict(full: Entity, columns: set<Column>, extra: map<string, DbValue>): Entity {
    Entity(if Id in columns then full.id else EMPTY.id,
           if CreatedAt in columns then full.createdAt else EMPTY.createdAt,
           if UpdatedAt in columns then full.updatedAt else EMPTY.updatedAt,
           if Nonce in columns then full.nonce else EMPTY.nonce,
           if Tier in columns then full.tier else EMPTY.tier,
           if Amount in columns then full.amount else EMPTY.amount,
           if Currency in columns then full.currency else EMPTY.currency,
           if ExpiresAt in columns then full.expiresAt else EMPTY.expiresAt,
           if ConsumedAt in columns then full.consumedAt else EMPTY.consumedAt,
           if StepUpGrantedAt in columns then full.stepUpGrantedAt else EMPTY.stepUpGrantedAt,
           if SenderProfileKey in columns then full.senderProfileKey else EMPTY.senderProfileKey,
           if CardKey in columns then full.cardKey else EMPTY.cardKey,
           extra)
  }

  function ToSet(columns: seq<Column>): set<Column> {
    set c | c in columns
  }

  /** The values of the columns the entity does not know, by name. */
  function Extras(columns: seq<Column>, row: Column -> DbValue): map<string, DbValue> {
    if columns == [] then map[]
    else
      var c := columns[|columns| - 1];
      var before := Extras(columns[..|columns| - 1], row);
      if c.Other? then before[c.name := row(c)] else before
  }

  function RowOf(m: Mutation, computed: map<string, DbValue>): Column -> DbValue {
    c => Stored(m, computed, c)
  }

  lemma NeverAMismatch(m: Mutation, computed: map<string, DbValue>, c: Column)
    ensures Fill(Destination(c), RowOf(m, computed)(c)).Some?
  {
  }

  /** Reading one more column adds that column and nothing else. */
  lemma AssignOne(m: Mutation, computed: map<string, DbValue>, c: Column, done: set<Column>,
                  extra: map<string, DbValue>)
    ensures Adds(m, computed, c, done, extra)
  {
    match c
    case Other(_) => AssignOther(m, computed, c, done, extra);
    case CreatedAt => AssignTime(m, computed, c, done, extra);
    case UpdatedAt => AssignTime(m, computed, c, done, extra);
    case ExpiresAt => AssignTime(m, computed, c, done, extra);
    case ConsumedAt => AssignOptionalTime(m, computed, c, done, extra);
    case StepUpGrantedAt => AssignOptionalTime(m, computed, c, done, extra);
    case SenderProfileKey => AssignKey(m, computed, c, done, extra);
    case CardKey => AssignKey(m, computed, c, done, extra);
    case Id => AssignKey(m, computed, c, done, extra);
    case Nonce => AssignText(m, computed, c, done, extra);
    case Tier => AssignText(m, computed, c, done, extra);
    case Amount => AssignText(m, computed, c, done, extra);
    case Currency => AssignText(m, computed, c, done, extra);
  }

  ghost predicate Adds(m: Mutation, computed: map<string, DbValue>, c: Column, done: set<Column>,
                       extra: map<string, DbValue>)
  {
    var v := Fill(Destination(c), Stored(m, computed, c));
    v.Some? &&
    Assign(Restrict(NodeOf(m), done, extra), c, v.value) ==
    Ok(Restrict(NodeOf(m), done + {c}, if c.Other? then extra[c.name := Stored(m, computed, c)] else extra))
  }

  lemma AssignTime(m: Mutation, computed: map<string, DbValue>, c: Column, done: set<Column>,
                   extra: map<string, DbValue>)
    requires c in {CreatedAt, UpdatedAt, ExpiresAt}
    ensures Adds(m, computed, c, done, extra)
  {
  }

  lemma AssignOptionalTime(m: Mutation, computed: map<string, DbValue>, c: Column, done: set<Column>,
                           extra: map<string, DbValue>)
    requires c in {ConsumedAt, StepUpGrantedAt}
    ensures Adds(m, computed, c, done, extra)
  {
  }

  lemma AssignKey(m: Mutation, computed: map<string, DbValue>, c: Column, done: set<Column>,
                  extra: map<string, DbValue>)
    requires c in {Id, SenderProfileKey, CardKey}
    ensures Adds(m, computed, c, done, extra)
  {
  }

  lemma AssignText(m: Mutation, computed: map<string, DbValue>, c: Column, done: set<Column>,
                   extra: map<string, DbValue>)
    requires c in {Nonce, Tier, Amount, Currency}
    ensures Adds(m, computed, c, done, extra)
  {
  }

  lemma AssignOther(m: Mutation, computed: map<string, DbValue>, c: Column, done: set<Column>,
                    extra: map<string, DbValue>)
    requires c.Other?
    ensures Adds(m, computed, c, done, extra)
  {
  }

  /** The fields after n columns of a stored row. */
  function ReadSoFar(m: Mutation, computed: map<string, DbValue>, columns: seq<Column>, n: nat): Entity
    requires n <= |columns|
  {
    Restrict(NodeOf(m), ToSet(columns[..n]), Extras(columns[..n], RowOf(m, computed)))
  }

  /** Assigning column n - 1 leads from the fields after n - 1 columns to those after n. */
  lemma AssignColumn(m: Mutation, computed: map<string, DbValue>, columns: seq<Column>, n: nat, v: Cell)
    requires 0 < n <= |columns|
    requires Some(v) == Fill(Destination(columns[n - 1]), RowOf(m, computed)(columns[n - 1]))
    ensures Assign(ReadSoFar(m, computed, columns, n - 1), columns[n - 1], v) == Ok(ReadSoFar(m, computed, columns, n))
  {
    var row := RowOf(m, computed);
    hide Restrict, NodeOf, Assign, Fill, Stored, Destination;
    AssignOne(m, computed, columns[n - 1], ToSet(columns[..n - 1]), Extras(columns[..n - 1], row));
    OneMore(columns, n, row);
  }

  lemma NothingRead(m: Mutation, extra: map<string, DbValue>)
    requires extra == map[]
    ensures Restrict(NodeOf(m), {}, extra) == EMPTY
  {
  }

  lemma {:induction false} AssignPrefix(m: Mutation, computed: map<string, DbValue>, columns: seq<Column>, n: nat)
    requires n <= |columns|
    requires forall c :: c in columns ==> Fill(Destination(c), RowOf(m, computed)(c)).Some?
    ensures AssignAll(EMPTY, columns, Filled(columns, RowOf(m, computed)), n) == Ok(ReadSoFar(m, computed, columns, n))
  {
    hide Assign, Fill, Destination, RowOf, Restrict, NodeOf;
    if n == 0 {
      assert ToSet(columns[..0]) == {};
      NothingRead(m, Extras(columns[..0], RowOf(m, computed)));
    } else {
      hide ReadSoFar;
      AssignPrefix(m, computed, columns, n - 1);
      AssignColumn(m, computed, columns, n, Filled(columns, RowOf(m, computed))[n - 1]);
    }
  }

  lemma OneMore(columns: seq<Column>, n: nat, row: Column -> DbValue)
    requires 0 < n <= |columns|
    ensures var c := columns[n - 1];
            && ToSet(columns[..n]) == ToSet(columns[..n - 1]) + {c}
            && Extras(columns[..n], row) ==
               (if c.Other? then Extras(columns[..n - 1], row)[c.name := row(c)] else Extras(columns[..n - 1], row))
  {
    assert columns[..n] == columns[..n - 1] + [columns[n - 1]];
    assert columns[..n][..n - 1] == columns[..n - 1];
  }

  /**
   Whatever columns a query selects, in any order and with repetitions, reading a stored row
   never meets a value of the wrong type and yields the node of createSpec cut down to the
   columns that were read.
  */
  lemma ReadBackSelected(m: Mutation, computed: map<string, DbValue>, columns: seq<Column>)
    ensures var row := RowOf(m, computed);
            Decode(columns, row) == Ok(Restrict(NodeOf(m), ToSet(columns), Extras(columns, row)))
  {
    var row := RowOf(m, computed);
    forall c | c in columns
      ensures Fill(Destination(c), row(c)).Some?
    {
      NeverAMismatch(m, computed, c);
    }
    AssignPrefix(m, computed, columns, |columns|);
    assert columns[..|columns|] == columns;
  }

  /** Read in full, a stored row is the node that Save returned. */
  lemma RoundTrip(m: Mutation, columns: seq<Column>)
    requires ToSet(columns) == ALL_COLUMNS
    ensures Decode(columns, RowOf(m, map[])) == Ok(NodeOf(m))
  {
    hide NodeOf, Restrict, Decode, ToSet;
    ReadBackSelected(m, map[], columns);
    NoExtrasInAll(columns, RowOf(m, map[]));
    RestrictToAll(m);
  }

  lemma NoExtrasInAll(columns: seq<Column>, row: Column -> DbValue)
    requires ToSet(columns) == ALL_COLUMNS
    ensures Extras(columns, row) == map[]
  {
    forall c | c in columns
      ensures !c.Other?
    {
      assert c in ToSet(columns);
      assert c in ALL_COLUMNS;
    }
    NoExtras(columns, row);
  }

  lemma RestrictToAll(m: Mutation)
    ensures Restrict(NodeOf(m), ALL_COLUMNS, map[]) == NodeOf(m)
  {
  }

  lemma {:induction false} NoExtras(columns: seq<Column>, row: Column -> DbValue)
    requires forall c :: c in columns ==> !c.Other?
    ensures Extras(columns, row) == map[]
  {
    if columns != [] {
      NoExtras(columns[..|columns| - 1], row);
    }
  }

  /** Distinct nodes come from distinct rows: the row determines the mutation up to zero values. */
  lemma {:induction false} RowDeterminesNode(m: Mutation, m': Mutation)
    requires forall c :: c in ALL_COLUMNS ==> RowOf(m, map[])(c) == RowOf(m', map[])(c)
    ensures NodeOf(m) == NodeOf(m')
  {
    var columns := [Id, CreatedAt, UpdatedAt, ExpiresAt, Nonce, Tier, Amount, Currency,
                    ConsumedAt, StepUpGrantedAt, CardKey, SenderProfileKey];
    RoundTrip(m, columns);
    RoundTrip(m', columns);
    SameRowSameNode(columns, RowOf(m, map[]), RowOf(m', map[]));
  }

  lemma SameRowSameNode(columns: seq<Column>, row: Column -> DbValue, row': Column -> DbValue)
    requires forall c :: c in columns ==> row(c) == row'(c)
    ensures Decode(columns, row) == Decode(columns, row')
  {
    if forall i :: 0 <= i < |columns| ==> Fill(Destination(columns[i]), row(columns[i])).Some? {
      assert Filled(columns, row) == Filled(columns, row');
    }
  }

  /** The check passes exactly when everything required is there and valid; defaults settle three of the fields. */
  lemma CheckAfterDefaults(m: Mutation, createdAt: int, updatedAt: int, id: Uuid)
    ensures Check(WithDefaults(m, createdAt, updatedAt, id)).None? <==>
            && m.nonce.Some? && |m.nonce.value| <= 32
            && m.tier.Some? && m.tier.value in {"none", "pin", "step_up"}
            && m.amount.Some? && m.amount.value != ""
            && (m.currency.Some? ==> |m.currency.value| <= 3)
            && m.expiresAt.Some? && m.card.Some? && m.senderProfile.Some?
  {
  }

  /** A field is sent as it was set, in its own column, or not at all. */
  lemma SentColumns(m: Mutation)
    ensures m.id.Some? ==> Sent(m, Id) == Some(UuidValue(m.id.value))
    ensures m.createdAt.Some? ==> Sent(m, CreatedAt) == Some(TimeValue(m.createdAt.value))
    ensures m.updatedAt.Some? ==> Sent(m, UpdatedAt) == Some(TimeValue(m.updatedAt.value))
    ensures m.expiresAt.Some? ==> Sent(m, ExpiresAt) == Some(TimeValue(m.expiresAt.value))
    ensures m.consumedAt.Some? ==> Sent(m, ConsumedAt) == Some(TimeValue(m.consumedAt.value))
    ensures m.stepUpGrantedAt.Some? ==> Sent(m, StepUpGrantedAt) == Some(TimeValue(m.stepUpGrantedAt.value))
    ensures m.nonce.Some? ==> Sent(m, Nonce) == Some(BytesValue(m.nonce.value))
    ensures m.tier.Some? ==> Sent(m, Tier) == Some(TextValue(m.tier.value))
    ensures m.amount.Some? ==> Sent(m, Amount) == Some(TextValue(m.amount.value))
    ensures m.currency.Some? ==> Sent(m, Currency) == Some(TextValue(m.currency.value))
    ensures m.card.Some? ==> Sent(m, CardKey) == Some(UuidValue(m.card.value))
    ensures m.senderProfile.Some? ==> Sent(m, SenderProfileKey) == Some(UuidValue(m.senderProfile.value))
    ensures forall c :: Sent(m, c).Some? ==>
              || (c.Id? && m.id.Some?) || (c.CreatedAt? && m.createdAt.Some?) || (c.UpdatedAt? && m.updatedAt.Some?)
              || (c.ExpiresAt? && m.expiresAt.Some?) || (c.ConsumedAt? && m.consumedAt.Some?)
              || (c.StepUpGrantedAt? && m.stepUpGrantedAt.Some?) || (c.Nonce? && m.nonce.Some?)
              || (c.Tier? && m.tier.Some?) || (c.Amount? && m.amount.Some?) || (c.Currency? && m.currency.Some?)
              || (c.CardKey? && m.card.Some?) || (c.SenderProfileKey? && m.senderProfile.Some?)
  {
  }

  predicate BadNonce(m: Mutation) {
    m.nonce.None? || |m.nonce.value| > 32
  }

  predicate BadTier(m: Mutation) {
    m.tier.None? || !(m.tier.value == "none" || m.tier.value == "pin" || m.tier.value == "step_up")
  }

  predicate BadAmount(m: Mutation) {
    m.amount.None? || m.amount.value == ""
  }

  predicate BadCurrency(m: Mutation) {
    m.currency.Some? && |m.currency.value| > 3
  }

  /**
   After the defaults, what is reported is the first thing missing or invalid among nonce, tier,
   amount, currency, expiry, card and sender profile; a field or edge that is missing is told
   from one that is invalid.
  */
  lemma CheckReports(m: Mutation, createdAt: int, updatedAt: int, id: Uuid)
    ensures var e := Check(WithDefaults(m, createdAt, updatedAt, id));
            && (BadNonce(m) ==> e == Some(if m.nonce.None? then MissingField("nonce") else ValidatorFailed("nonce")))
            && (!BadNonce(m) && BadTier(m) ==>
                  e == Some(if m.tier.None? then MissingField("tier") else ValidatorFailed("tier")))
            && (!BadNonce(m) && !BadTier(m) && BadAmount(m) ==>
                  e == Some(if m.amount.None? then MissingField("amount") else ValidatorFailed("amount")))
            && (!BadNonce(m) && !BadTier(m) && !BadAmount(m) ==>
                  && (e == Some(ValidatorFailed("currency")) <==> BadCurrency(m))
                  && (e == Some(MissingField("expires_at")) <==> !BadCurrency(m) && m.expiresAt.None?)
                  && (e == Some(MissingEdge("card")) <==> !BadCurrency(m) && m.expiresAt.Some? && m.card.None?)
                  && (e == Some(MissingEdge("sender_profile")) <==>
                        !BadCurrency(m) && m.expiresAt.Some? && m.card.Some? && m.senderProfile.None?))
  {
  }

  /** A node that passed the check reads back with both keys, every required field, and times as set. */
  lemma CheckedRowReadsBack(m: Mutation, createdAt: int, updatedAt: int, id: Uuid, columns: seq<Column>)
    requires ToSet(columns) == ALL_COLUMNS
    requires Check(WithDefaults(m, createdAt, updatedAt, id)).None?
    ensures var r := Decode(columns, RowOf(WithDefaults(m, createdAt, updatedAt, id), map[]));
            && r.Ok?
            && r.value.id == (if m.id.Some? then m.id.value else id)
            && r.value.createdAt == (if m.createdAt.Some? then m.createdAt.value else createdAt)
            && r.value.updatedAt == (if m.updatedAt.Some? then m.updatedAt.value else updatedAt)
            && r.value.currency == (if m.currency.Some? then m.currency.value else "NGN")
            && Some(r.value.expiresAt) == m.expiresAt
            && r.value.nonce == m.nonce && Some(r.value.tier) == m.tier && Some(r.value.amount) == m.amount
            && r.value.cardKey == m.card && r.value.cardKey.Some?
            && r.value.senderProfileKey == m.senderProfile && r.value.senderProfileKey.Some?
            && r.value.consumedAt == m.consumedAt && r.value.stepUpGrantedAt == m.stepUpGrantedAt
            && r.value.extra == map[]
  {
    hide Decode, RowOf;
    RoundTrip(WithDefaults(m, createdAt, updatedAt, id), columns);
  }
}
