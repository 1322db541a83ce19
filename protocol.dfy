/**
 * The gateway envelope `{op, s, t, d}`, its payload union, the dispatch body and the
 * user record; decoding from and encoding to JSON values with the behaviour of the
 * derived serde implementations; `dispatched`; and the heartbeat and identify frames.
 */
module Protocol {
  import opened Base
  import opened Json
  import Subscription

  /** The bot account: every field is required when a user is present. */
  datatype User = User(id: string, username: string, bot: bool)

  /** The structured payload; every field falls back to its type's zero value when absent. */
  datatype OperationDispatch = OperationDispatch(
    token: string,
    intents: u32,
    shard: seq<u32>,
    heartbeatInterval: u32,
    version: i64,
    sessionId: string,
    user: User)

  /** The untagged payload union, tried in this order when decoding. */
  datatype OperationUnion =
    | Dispatch(body: OperationDispatch)
    | Boolean(flag: bool)
    | Integer(n: i32)

  /** The envelope of every gateway frame. */
  datatype Operation = Operation(op: u32, s: u32, t: string, d: OperationUnion)

  /** Why a JSON value does not decode, in serde's terms. */
  datatype DecodeError =
    | InvalidType
    | InvalidValue
    | InvalidLength
    | MissingField(name: string)
    | NoVariantMatched

  // ---------------------------------------------------------------- defaults

  /** The derived `Default` of `User`. */
  function DefaultUser(): User
  {
    User("", "", false)
  }

  /** The hand-written `Default` of the dispatch body: the only place 40000 comes from. */
  function DefaultDispatch(): OperationDispatch
  {
    OperationDispatch("", 0, [], 40000, 0, "", DefaultUser())
  }

  /** The `Default` of the payload union. */
  function DefaultUnion(): OperationUnion
  {
    Dispatch(DefaultDispatch())
  }

  // ---------------------------------------------------------------- primitive decoders

  function StringFrom(v: Value): Result<string, DecodeError>
  {
    if v.String? then Ok(v.s) else Err(InvalidType)
  }

  function BoolFrom(v: Value): Result<bool, DecodeError>
  {
    if v.Bool? then Ok(v.b) else Err(InvalidType)
  }

  function U32From(v: Value): Result<u32, DecodeError>
  {
    if !v.Number? then Err(InvalidType)
    else if 0 <= v.n < 0x1_0000_0000 then Ok(v.n)
    else Err(InvalidValue)
  }

  function I32From(v: Value): Result<i32, DecodeError>
  {
    if !v.Number? then Err(InvalidType)
    else if -0x8000_0000 <= v.n < 0x8000_0000 then Ok(v.n)
    else Err(InvalidValue)
  }

  function I64From(v: Value): Result<i64, DecodeError>
  {
    if !v.Number? then Err(InvalidType)
    else if -0x8000_0000_0000_0000 <= v.n < 0x8000_0000_0000_0000 then Ok(v.n)
    else Err(InvalidValue)
  }

  /** A `Vec<u32>`: an array whose elements are all `u32`. */
  function U32SeqFrom(v: Value): Result<seq<u32>, DecodeError>
  {
    if v.Array? then U32Items(v.items) else Err(InvalidType)
  }

  function U32Items(items: seq<Value>): Result<seq<u32>, DecodeError>
    decreases |items|
  {
    if items == [] then Ok([])
    else
      var x :- U32From(items[0]);
      var rest :- U32Items(items[1..]);
      Ok([x] + rest)
  }

  // ---------------------------------------------------------------- struct fields

  /**
   * Where a struct field is read from. A derived struct accepts a JSON object, read
   * by key (unknown keys are ignored), and also a JSON array, read by position.
   */
  function FieldOf(v: Value, name: string, index: nat): Option<Value>
  {
    match v
    case Object(m) => if name in m then Some(m[name]) else None
    case Array(items) => if index < |items| then Some(items[index]) else None
    case _ => None
  }

  /** A field without a default, decoded if present; its absence is reported by `Require` afterwards. */
  function Present<T>(v: Value, name: string, index: nat, decode: Value -> Result<T, DecodeError>): Result<Option<T>, DecodeError>
  {
    match FieldOf(v, name, index)
    case Some(f) => var x :- decode(f); Ok(Some(x))
    case None => Ok(None)
  }

  /** A required field that was absent: a missing field of an object, a short array. */
  function Require<T>(v: Value, name: string, field: Option<T>): Result<T, DecodeError>
  {
    match field
    case Some(x) => Ok(x)
    case None => Err(if v.Array? then InvalidLength else MissingField(name))
  }

  /** A `#[serde(default)]` field: absent gives the field type's zero value. */
  function Defaulted<T>(v: Value, name: string, index: nat, decode: Value -> Result<T, DecodeError>, zero: T): Result<T, DecodeError>
  {
    match FieldOf(v, name, index)
    case Some(f) => decode(f)
    case None => Ok(zero)
  }

  /** Only an object or an array can hold a struct. */
  function StructShape(v: Value): Result<(), DecodeError>
  {
    if v.Object? || v.Array? then Ok(()) else Err(InvalidType)
  }

  /** An array holding more elements than the struct has fields is refused once the fields are read. */
  function NoTrailing(v: Value, arity: nat): Result<(), DecodeError>
  {
    if v.Array? && |v.items| > arity then Err(InvalidLength) else Ok(())
  }

  // ---------------------------------------------------------------- decoding

  function DecodeUser(v: Value): Result<User, DecodeError>
  {
    var _ :- StructShape(v);
    var id :- Present(v, "id", 0, StringFrom);
    var username :- Present(v, "username", 1, StringFrom);
    var bot :- Present(v, "bot", 2, BoolFrom);
    var _ :- NoTrailing(v, 3);
    var id :- Require(v, "id", id);
    var username :- Require(v, "username", username);
    var bot :- Require(v, "bot", bot);
    Ok(User(id, username, bot))
  }

  function DecodeDispatch(v: Value): Result<OperationDispatch, DecodeError>
  {
    var _ :- StructShape(v);
    var token :- Defaulted(v, "token", 0, StringFrom, "");
    var intents :- Defaulted(v, "intents", 1, U32From, 0);
    var shard :- Defaulted(v, "shard", 2, U32SeqFrom, []);
    var heartbeatInterval :- Defaulted(v, "heartbeat_interval", 3, U32From, 0);
    var version :- Defaulted(v, "version", 4, I64From, 0);
    var sessionId :- Defaulted(v, "session_id", 5, StringFrom, "");
    var user :- Defaulted(v, "user", 6, DecodeUser, DefaultUser());
    var _ :- NoTrailing(v, 7);
    Ok(OperationDispatch(token, intents, shard, heartbeatInterval, version, sessionId, user))
  }

  /** Untagged: the first of Dispatch, Boolean, Integer that accepts the value. */
  function DecodeUnion(v: Value): Result<OperationUnion, DecodeError>
  {
    match DecodeDispatch(v)
    case Ok(body) => Ok(Dispatch(body))
    case Err(_) =>
      match BoolFrom(v)
      case Ok(flag) => Ok(Boolean(flag))
      case Err(_) =>
        match I32From(v)
        case Ok(n) => Ok(Integer(n))
        case Err(_) => Err(NoVariantMatched)
  }

  /** `op` and `d` are required; `s` and `t` default to 0 and "". */
  function DecodeOperation(v: Value): Result<Operation, DecodeError>
  {
    var _ :- StructShape(v);
    var op :- Present(v, "op", 0, U32From);
    var s :- Defaulted(v, "s", 1, U32From, 0);
    var t :- Defaulted(v, "t", 2, StringFrom, "");
    var d :- Present(v, "d", 3, DecodeUnion);
    var _ :- NoTrailing(v, 4);
    var op :- Require(v, "op", op);
    var d :- Require(v, "d", d);
    Ok(Operation(op, s, t, d))
  }

  // ---------------------------------------------------------------- encoding

  function EncodeUser(u: User): Value
  {
    Object(map["id" := String(u.id), "username" := String(u.username), "bot" := Bool(u.bot)])
  }

  function EncodeU32Items(xs: seq<u32>): seq<Value>
    decreases |xs|
  {
    if xs == [] then [] else [Number(xs[0])] + EncodeU32Items(xs[1..])
  }

  function EncodeDispatch(b: OperationDispatch): Value
  {
    Object(map[
      "token" := String(b.token),
      "intents" := Number(b.intents),
      "shard" := Array(EncodeU32Items(b.shard)),
      "heartbeat_interval" := Number(b.heartbeatInterval),
      "version" := Number(b.version),
      "session_id" := String(b.sessionId),
      "user" := EncodeUser(b.user)])
  }

  /** Untagged: a variant is written as its content alone. */
  function EncodeUnion(d: OperationUnion): Value
  {
    match d
    case Dispatch(body) => EncodeDispatch(body)
    case Boolean(flag) => Bool(flag)
    case Integer(n) => Number(n)
  }

  /** Every field is written, `s` and `t` included. */
  function EncodeOperation(o: Operation): Value
  {
    Object(map["op" := Number(o.op), "s" := Number(o.s), "t" := String(o.t), "d" := EncodeUnion(o.d)])
  }

  // ---------------------------------------------------------------- dispatched and frames

  /**
   * The dispatch body of an envelope, or the `Default` body for a Boolean payload.
   * The source has no arm for an Integer payload; it gets the Boolean arm's default here.
   */
  function Dispatched(o: Operation): OperationDispatch
  {
    match o.d
    case Dispatch(body) => body
    case Boolean(_) => DefaultDispatch()
    case Integer(_) => DefaultDispatch()
  }

  /** The intents literal that identify advertises, with Rust's precedence (`<<` before `|`). */
  const IdentifyIntents: u32 := (((1 as bv32) << 9) | ((1 as bv32) << 10) | ((1 as bv32) << 26) | ((1 as bv32) << 30)) as int

  /** The categories identify subscribes to. */
  const IdentifyCategories: set<Subscription.Category> :=
    {Subscription.GuildMessages, Subscription.GuildMessageReactions,
     Subscription.Interaction, Subscription.PublicGuildMessages}

  /** The heartbeat frame: opcode 1 with the integer 100 as payload. */
  function HeartbeatFrame(): Operation
  {
    Operation(1, 0, "", Integer(100))
  }

  /** The identify frame: opcode 2 with the token, the intents and shard 0 of 1, the rest from `Default`. */
  function IdentifyFrame(token: string): Operation
  {
    Operation(2, 0, "", Dispatch(DefaultDispatch().(token := token, intents := IdentifyIntents, shard := [0, 1])))
  }

  // ---------------------------------------------------------------- round trip

  lemma {:induction false} U32ItemsRoundTrip(xs: seq<u32>)
    ensures U32Items(EncodeU32Items(xs)) == Ok(xs)
    decreases |xs|
  {
    if xs != [] {
      U32ItemsRoundTrip(xs[1..]);
      var e := EncodeU32Items(xs);
      assert e[0] == Number(xs[0]) && e[1..] == EncodeU32Items(xs[1..]);
      assert [xs[0]] + xs[1..] == xs;
    }
  }

  lemma UserRoundTrip(u: User)
    ensures DecodeUser(EncodeUser(u)) == Ok(u)
  {
  }

  lemma DispatchRoundTrip(b: OperationDispatch)
    ensures DecodeDispatch(EncodeDispatch(b)) == Ok(b)
  {
    U32ItemsRoundTrip(b.shard);
    UserRoundTrip(b.user);
  }

  lemma UnionRoundTrip(d: OperationUnion)
    ensures DecodeUnion(EncodeUnion(d)) == Ok(d)
  {
    if d.Dispatch? {
      DispatchRoundTrip(d.body);
    }
  }

  /** Every envelope decodes back from its encoding. */
  lemma RoundTrip(o: Operation)
    ensures DecodeOperation(EncodeOperation(o)) == Ok(o)
  {
    UnionRoundTrip(o.d);
  }

  /** Decoding is canonical: re-encoding a decoded envelope and decoding again changes nothing. */
  lemma DecodeEncodeDecode(v: Value)
    ensures DecodeOperation(v).Ok? ==>
      DecodeOperation(EncodeOperation(DecodeOperation(v).value)) == DecodeOperation(v)
  {
    if DecodeOperation(v).Ok? {
      RoundTrip(DecodeOperation(v).value);
    }
  }

  // ---------------------------------------------------------------- the payload union

  /**
   * The ordered attempt: a value the dispatch body accepts is Dispatch; otherwise a
   * boolean is Boolean, an integer in i32 range is Integer, and anything else is an error.
   */
  lemma DecodeUnionOrder(v: Value)
    ensures DecodeDispatch(v).Ok? ==> DecodeUnion(v) == Ok(Dispatch(DecodeDispatch(v).value))
    ensures DecodeDispatch(v).Ok? ==> v.Object? || v.Array?
    ensures v.Bool? ==> DecodeUnion(v) == Ok(Boolean(v.b))
    ensures v.Number? && -0x8000_0000 <= v.n < 0x8000_0000 ==> DecodeUnion(v) == Ok(Integer(v.n))
    ensures v.Number? && !(-0x8000_0000 <= v.n < 0x8000_0000) ==> DecodeUnion(v) == Err(NoVariantMatched)
    ensures v.Null? || v.String? ==> DecodeUnion(v) == Err(NoVariantMatched)
    ensures (v.Object? || v.Array?) && DecodeDispatch(v).Err? ==> DecodeUnion(v) == Err(NoVariantMatched)
  {
  }

  predicate IsString(v: Value) { v.String? }
  predicate IsBool(v: Value) { v.Bool? }
  predicate IsU32(v: Value) { v.Number? && 0 <= v.n < 0x1_0000_0000 }
  predicate IsI64(v: Value) { v.Number? && -0x8000_0000_0000_0000 <= v.n < 0x8000_0000_0000_0000 }
  predicate IsU32Array(v: Value) { v.Array? && forall i :: 0 <= i < |v.items| ==> IsU32(v.items[i]) }

  /**
   * A user: an object holding all three fields well-typed (other keys ignored), or an
   * array of exactly those three values in declaration order.
   */
  predicate IsUser(v: Value)
  {
    match v
    case Object(m) =>
      && "id" in m && IsString(m["id"])
      && "username" in m && IsString(m["username"])
      && "bot" in m && IsBool(m["bot"])
    case Array(items) =>
      |items| == 3 && IsString(items[0]) && IsString(items[1]) && IsBool(items[2])
    case _ => false
  }

  /** The dispatch-body fields that an object holds all have their field's type. */
  predicate DispatchFieldsTyped(m: map<string, Value>)
  {
    && ("token" in m ==> IsString(m["token"]))
    && ("intents" in m ==> IsU32(m["intents"]))
    && ("shard" in m ==> IsU32Array(m["shard"]))
    && ("heartbeat_interval" in m ==> IsU32(m["heartbeat_interval"]))
    && ("version" in m ==> IsI64(m["version"]))
    && ("session_id" in m ==> IsString(m["session_id"]))
    && ("user" in m ==> IsUser(m["user"]))
  }

  lemma {:induction false} U32ItemsAccepts(items: seq<Value>)
    ensures U32Items(items).Ok? <==> forall i :: 0 <= i < |items| ==> IsU32(items[i])
    ensures U32Items(items).Ok? ==>
      |U32Items(items).value| == |items| &&
      forall i :: 0 <= i < |items| ==> U32Items(items).value[i] == items[i].n
    decreases |items|
  {
    if items != [] {
      U32ItemsAccepts(items[1..]);
      assert forall i :: 1 <= i < |items| ==> items[i] == items[1..][i - 1];
    }
  }

  /** A user decodes iff it has the shape `IsUser` describes, to the values it holds. */
  lemma UserAccepts(v: Value)
    ensures DecodeUser(v).Ok? <==> IsUser(v)
    ensures v.Object? && IsUser(v) ==>
      DecodeUser(v) == Ok(User(v.fields["id"].s, v.fields["username"].s, v.fields["bot"].b))
    ensures v.Array? && IsUser(v) ==>
      DecodeUser(v) == Ok(User(v.items[0].s, v.items[1].s, v.items[2].b))
  {
  }

  /** Any object whose present dispatch fields are well-typed, `{}` included, is a dispatch body, and no other object is. */
  lemma DispatchAccepts(m: map<string, Value>)
    ensures DecodeDispatch(Object(m)).Ok? <==> DispatchFieldsTyped(m)
  {
    if "shard" in m && m["shard"].Array? {
      U32ItemsAccepts(m["shard"].items);
    }
    if "user" in m {
      UserAccepts(m["user"]);
    }
  }

  /** Each field of a decoded dispatch body is the object's value, or its type's zero value when absent. */
  lemma DispatchFromObject(m: map<string, Value>)
    requires DispatchFieldsTyped(m)
    ensures DecodeDispatch(Object(m)).Ok?
    ensures
      var b := DecodeDispatch(Object(m)).value;
      && b.token == (if "token" in m then m["token"].s else "")
      && b.intents == (if "intents" in m then m["intents"].n else 0)
      && |b.shard| == (if "shard" in m then |m["shard"].items| else 0)
      && (forall i :: 0 <= i < |b.shard| ==> b.shard[i] == m["shard"].items[i].n)
      && b.heartbeatInterval == (if "heartbeat_interval" in m then m["heartbeat_interval"].n else 0)
      && b.version == (if "version" in m then m["version"].n else 0)
      && b.sessionId == (if "session_id" in m then m["session_id"].s else "")
      && b.user == (if "user" in m then DecodeUser(m["user"]).value else DefaultUser())
  {
    DispatchAccepts(m);
    if "shard" in m {
      U32ItemsAccepts(m["shard"].items);
    }
  }

  /** An object without any dispatch field gets heartbeat 0, not the 40000 of `Default`. */
  lemma EmptyObjectIsNotDefault()
    ensures DecodeUnion(Object(map[])) == Ok(Dispatch(DefaultDispatch().(heartbeatInterval := 0)))
    ensures DefaultDispatch().heartbeatInterval == 40000
  {
  }

  // ---------------------------------------------------------------- the envelope

  /** `op` and `d` are required, `s` defaults to 0 and `t` to "". */
  lemma EnvelopeFromObject(m: map<string, Value>)
    ensures DecodeOperation(Object(m)).Ok? <==>
      && "op" in m && IsU32(m["op"])
      && ("s" in m ==> IsU32(m["s"]))
      && ("t" in m ==> IsString(m["t"]))
      && "d" in m && DecodeUnion(m["d"]).Ok?
    ensures DecodeOperation(Object(m)).Ok? ==>
      DecodeOperation(Object(m)).value == Operation(
        m["op"].n,
        if "s" in m then m["s"].n else 0,
        if "t" in m then m["t"].s else "",
        DecodeUnion(m["d"]).value)
    ensures EnvelopeFieldsTyped(m) && "op" !in m ==> DecodeOperation(Object(m)) == Err(MissingField("op"))
    ensures EnvelopeFieldsTyped(m) && "op" in m && "d" !in m ==> DecodeOperation(Object(m)) == Err(MissingField("d"))
  {
  }

  /** The envelope fields that an object holds all have their field's type. */
  predicate EnvelopeFieldsTyped(m: map<string, Value>)
  {
    && ("op" in m ==> IsU32(m["op"]))
    && ("s" in m ==> IsU32(m["s"]))
    && ("t" in m ==> IsString(m["t"]))
    && ("d" in m ==> DecodeUnion(m["d"]).Ok?)
  }

  // ---------------------------------------------------------------- dispatched and frames

  /** The interval `dispatched` yields: the body's own, or 40000 for a payload that is not a body. */
  lemma DispatchedInterval(o: Operation)
    ensures Dispatched(o).heartbeatInterval == if o.d.Dispatch? then o.d.body.heartbeatInterval else 40000
    ensures !o.d.Dispatch? ==> Dispatched(o) == Dispatched(o.(d := DefaultUnion()))
  {
  }

  /** The heartbeat frame on the wire is `{"op":1,"s":0,"t":"","d":100}`, and reads back as itself. */
  lemma HeartbeatWire()
    ensures EncodeOperation(HeartbeatFrame()) ==
      Object(map["op" := Number(1), "s" := Number(0), "t" := String(""), "d" := Number(100)])
    ensures DecodeOperation(EncodeOperation(HeartbeatFrame())) == Ok(HeartbeatFrame())
  {
    RoundTrip(HeartbeatFrame());
  }

  /** The identify frame carries the token, the mask of the four subscribed categories, shard [0, 1], and the `Default` rest. */
  lemma IdentifyContents(token: string)
    ensures IdentifyFrame(token).op == 2 && IdentifyFrame(token).s == 0 && IdentifyFrame(token).t == ""
    ensures IdentifyFrame(token).d.Dispatch?
    ensures IdentifyFrame(token).d.body == OperationDispatch(
      token, Subscription.Bits(Subscription.FromSet(IdentifyCategories)), [0, 1], 40000, 0, "", DefaultUser())
    ensures IdentifyFrame(token).d.body.intents == 0x4400_0600
    ensures DecodeOperation(EncodeOperation(IdentifyFrame(token))) == Ok(IdentifyFrame(token))
  {
    Subscription.IdentifySelection();
    RoundTrip(IdentifyFrame(token));
  }

  /** Three frames of the gateway: a hello with an interval, a heartbeat, a heartbeat acknowledgement. */
  lemma GatewayExamples()
    ensures DecodeOperation(Object(map["op" := Number(10), "d" := Object(map["heartbeat_interval" := Number(45000)])]))
      == Ok(Operation(10, 0, "", Dispatch(DefaultDispatch().(heartbeatInterval := 45000))))
    ensures DecodeOperation(Object(map["op" := Number(1), "d" := Number(100)])) == Ok(Operation(1, 0, "", Integer(100)))
    ensures DecodeOperation(Object(map["op" := Number(11), "d" := Bool(true)])) == Ok(Operation(11, 0, "", Boolean(true)))
  {
  }
}
