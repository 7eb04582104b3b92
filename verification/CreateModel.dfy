/**
 The vocabulary of the APIKey create builders: mutations, the rows and nodes built
 from them, hooks, the database, and what a hook can observe of all of it.
*/
module CreateModel {
  import opened Base

  /** What a mutation sets. A to-one edge holds at most one id, so it is an Option. */
  datatype Fields = Fields(
    id: Option<Uuid>,
    secret: Option<string>,
    senderProfile: Option<Uuid>,
    providerProfile: Option<string>,
    paymentOrders: set<Uuid>)

  datatype Mutation = Mutation(fields: Fields, done: bool)

  /** A Go *APIKeyMutation: an index into the store of mutation objects. */
  type Ref = nat

  /** Conflict options, kept as opaque tokens. */
  type Conflict = seq<string>

  datatype Spec = Spec(
    id: Option<Uuid>,
    secret: Option<string>,
    senderProfile: Option<Uuid>,
    providerProfile: Option<string>,
    paymentOrders: set<Uuid>,
    conflict: Conflict)

  datatype Node = Node(id: Uuid, secret: string, senderProfile: Option<Uuid>, providerProfile: Option<string>)

  datatype DbError = ConstraintViolation | OtherDbError(code: nat)

  datatype Error =
    | BuilderError(code: nat)
    | MissingField(name: string)
    | ValidatorFailed(name: string)
    | UnexpectedMutationType
    | UnexpectedNodeType
    | ConstraintError
    | DriverError(code: nat)
    | NilSpec
    | HookError(code: nat)

  /** A hook may return any value; only a node survives the type assertion of withHooks. */
  datatype Value = ANode(node: Node) | NotANode

  datatype Resp = Done(value: Value) | Failed(error: Error)

  /** The mutation handed to a mutator: one of ours, or a value of another type. */
  datatype Arg = Own(ref: Ref) | Foreign

  datatype Event =
    | Enter(builder: nat, hook: nat)
    | Leave(builder: nat, hook: nat)
    | Write(batch: seq<Option<Spec>>, refs: seq<Ref>, snapshot: seq<Mutation>, accepted: bool)

  /** Everything outside the local arrays of Save. A hook sees all of it, history included. */
  datatype World = World(
    store: seq<Mutation>,
    current: seq<Ref>,
    rows: seq<Spec>,
    log: seq<Event>)

  datatype Action =
    | Edit(ref: Ref, change: Fields -> Fields)
    | Next(arg: Arg)

  /**
   An arbitrary terminating hook. On entry it fixes how many actions it will take;
   before each one it looks at its argument, the number of actions left, the last
   response of `next` and the whole world; at the end it returns what it likes. It can
   skip next, repeat it, pass another mutation, edit any mutation and swallow or invent
   errors. Since the world records every earlier event, a hook may also behave
   differently each time it is called.
  */
  datatype Hook = Hook(
    budget: (Arg, World) -> nat,
    act: (Arg, nat, Option<Resp>, World) -> Action,
    finish: (Arg, Option<Resp>, World) -> Resp)

  /** The database either refuses a whole batch or inserts all of it. */
  type Driver = (seq<Spec>, seq<Spec>, Conflict) -> Option<DbError>

  function WithDefaults(m: Mutation, newIds: Uuid): Mutation {
    if m.fields.id.None? then m.(fields := m.fields.(id := Some(newIds))) else m
  }

  /** The secret is required and its validator refuses the empty string. */
  function Check(f: Fields): Option<Error> {
    if f.secret.None? then Some(MissingField("secret"))
    else if f.secret.value == "" then Some(ValidatorFailed("secret"))
    else None
  }

  function SpecOf(f: Fields, conflict: Conflict): Spec {
    Spec(f.id, f.secret, f.senderProfile, f.providerProfile, f.paymentOrders, conflict)
  }

  function NodeOf(f: Fields): Node {
    Node(if f.id.Some? then f.id.value else ZERO_UUID,
         if f.secret.Some? then f.secret.value else "",
         f.senderProfile, f.providerProfile)
  }

  /** The row a spec inserts would pass the check it was supposed to have passed. */
  predicate ValidRow(s: Spec) {
    s.secret.Some? && s.secret.value != ""
  }

  function Translate(e: DbError): Error {
    match e
    case ConstraintViolation => ConstraintError
    case OtherDbError(code) => DriverError(code)
  }

  predicate AllFilled(specs: seq<Option<Spec>>) {
    forall j :: 0 <= j < |specs| ==> specs[j].Some?
  }

  function Values(specs: seq<Option<Spec>>): (r: seq<Spec>)
    requires AllFilled(specs)
    ensures |r| == |specs| && forall j :: 0 <= j < |r| ==> Some(r[j]) == specs[j]
  {
    seq(|specs|, j requires 0 <= j < |specs| => specs[j].value)
  }

  /** The insert issued for a list of specs; a nil spec would fault before any row is written. */
  function Insert(driver: Driver, conflict: Conflict, specs: seq<Option<Spec>>, w: World): (r: (Option<Error>, World))
    ensures r.1.store == w.store && r.1.current == w.current
    ensures |r.1.log| == |w.log| + 1 && r.1.log[..|w.log|] == w.log && r.1.log[|w.log|].Write?
    ensures r.1.log[|w.log|].batch == specs && r.1.log[|w.log|].refs == w.current
    ensures r.1.log[|w.log|].snapshot == w.store
    ensures r.1.log[|w.log|].accepted <==> r.0.None?
    ensures r.0.Some? ==> r.1.rows == w.rows
    ensures r.0.None? ==> AllFilled(specs) && r.1.rows == w.rows + Values(specs)
  {
    if !AllFilled(specs) then
      (Some(NilSpec), w.(log := w.log + [Write(specs, w.current, w.store, false)]))
    else
      match driver(w.rows, Values(specs), conflict)
      case Some(e) =>
        (Some(Translate(e)), w.(log := w.log + [Write(specs, w.current, w.store, false)]))
      case None =>
        (None, w.(rows := w.rows + Values(specs), log := w.log + [Write(specs, w.current, w.store, true)]))
  }

  function Saved(m: Mutation, id: Uuid): Mutation {
    Mutation(m.fields.(id := Some(id)), true)
  }

  function ApplyEdit(w: World, ref: Ref, change: Fields -> Fields): World {
    if ref < |w.store| then
      w.(store := w.store[ref := w.store[ref].(fields := change(w.store[ref].fields))])
    else w
  }

  function Record(w: World, e: Event): World {
    w.(log := w.log + [e])
  }
}
