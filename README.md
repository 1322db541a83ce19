# QQ bot gateway client: envelope codec, frame handler and subscription intents

This project models the core of the QQ bot gateway client in Dafny and proves properties of that model:

- **The gateway envelope `{op, s, t, d}`.** The payload `d` is an untagged union of a dispatch body, a boolean and an integer.
- **The envelope's JSON codec.** Decoding and encoding follow the derived serde implementations.
- **`dispatched`.** It gives the dispatch body of an envelope.
- **The two outbound frames.** These are the heartbeat frame and the identify frame.
- **The connection's frame handler `next_event`.** It updates the `closed` flag and the heartbeat interval.
- **The `Subscription` bit-flag table.** The identify frame advertises intents drawn from it.

Modules:

- `Base` (base.dfy): the Rust integer widths `u32`, `i32` and `i64` as subset types of `int`, plus `Option` and `Result`.
- `Json` (json.dfy): JSON values as a tree. The codec works on these trees rather than on text.
- `Subscription` (subscription.dfy): the ten categories and the bit position of each. It also holds:
  - the `bv32` flag of each category;
  - bit-flag `contains`;
  - the mask of a set of categories, as a fold of `|` over the category table.
- `Protocol` (protocol.dfy):
  - the data types `User`, `OperationDispatch`, `OperationUnion` and `Operation`;
  - the `Default` values;
  - decoding and encoding;
  - `Dispatched`;
  - `HeartbeatFrame` and `IdentifyFrame`.
- `Session` (session.dfy): the class `Websocket`, with the fields `closed` and `heartbeatInterval`.
  - Its constructor `Link` gives the fields after a successful link.
  - Its method `NextEvent` handles one abstract frame: a JSON text, a text that is not JSON, close, another frame kind, a transport error, or the end of the stream.
  - The pure functions `Next` and `EventOutcome` specify that method. `Run` folds `Next` over a sequence of frames.

Decoding follows the derived serde code, not only the wire shape:

- **Untagged union.** The payload union tries Dispatch, then Boolean, then Integer (`i32` range).
- **Field defaults.** A field marked `#[serde(default)]` that is absent takes its type's zero value. So a dispatch body without `heartbeat_interval` has interval 0. The value 40000 comes only from the hand-written `Default` of the dispatch body.
- **Unknown keys** are ignored.
- **Required fields.** `op` and `d` are required, and so are all three fields of `User`.
- **Positional arrays.** A derived struct also accepts a JSON array of its fields in declaration order. Missing trailing elements take the field default. A required element that is missing, or an extra element, is an error.
- **Error order.** Type errors of the fields that are present are reported before missing fields.

## Behaviour worth noting

- **Hello without an interval.** A hello whose body omits `heartbeat_interval` sets the interval to 0, not 40000 (`HelloDefaults`).
- **Intents value.** The identify literal `1 << 9 | 1 << 10 | 1 << 26 | 1 << 30` is 0x44000600 (`IdentifySelection`, `IdentifyContents`).
- **Payload shapes.** Besides an object, a boolean or an integer, the dispatch body also accepts serde's positional array form.
- **No handshake state.** There is no authentication state, no stored identity and no heartbeat scheduler, and identify is not sent in reply to hello. Opcodes 0 and 9 only log, and nothing reads `closed` before handling a frame (`RunIgnoresClosed`).
- **`dispatched` and Integer payloads.** `dispatched` has no arm for an Integer payload in the source. The model gives it the same `Default` body as a Boolean payload, so a hello carrying an integer sets the interval to 40000.
- **Unexpected frame kinds.** A binary, ping or pong frame reaches `unreachable!` in the source. The model returns the error `UnexpectedFrame` instead and leaves the fields unchanged.

## Model

| member | source | states |
|---|---|---|
| Subscription.FlagIsOneBit | projects/ackerman-qqbot/src/wss/subscription_mask.rs:14-52 | each flag has exactly one bit set, at the category's table position (0, 1, 9, 10, 12, 26, 27, 28, 29, 30), always below 31 |
| Subscription.FlagsDisjoint | projects/ackerman-qqbot/src/wss/subscription_mask.rs:14-52 | flags of distinct categories share no bit |
| Subscription.FromListContains | projects/ackerman-qqbot/src/wss/subscription_mask.rs:5-52 | the folded mask contains a category's flag iff the category is both selected and listed |
| Subscription.FromSetContains | projects/ackerman-qqbot/src/wss/subscription_mask.rs:5-52 | the mask built from a set S contains category c iff c ∈ S |
| Subscription.FromListWithinTable | projects/ackerman-qqbot/src/wss/subscription_mask.rs:14-52 | a folded mask sets no bit outside the ten flags |
| Subscription.FromSetWithinTable | projects/ackerman-qqbot/src/wss/subscription_mask.rs:7-52 | every mask lies within 0x7C001603, never sets bit 31, and its u32 value is below 2^31 |
| Subscription.FromSetExpanded | projects/ackerman-qqbot/src/wss/subscription_mask.rs:14-52 | the mask of S is the OR over the table of `1 << position` for exactly the members of S |
| Subscription.FromListUnion | projects/ackerman-qqbot/src/wss/subscription_mask.rs:5-7 | folding over S ∪ T gives the OR of the folds over S and over T |
| Subscription.FromSetUnion | projects/ackerman-qqbot/src/wss/subscription_mask.rs:5-7 | mask(S ∪ T) is mask(S) OR mask(T) |
| Subscription.UnionLaws | projects/ackerman-qqbot/src/wss/subscription_mask.rs:5-7 | union of masks is commutative, associative and idempotent |
| Subscription.FromSetInjective | projects/ackerman-qqbot/src/wss/subscription_mask.rs:14-52 | two selections give the same mask iff they are the same set |
| Subscription.IdentifySelection | projects/ackerman-qqbot/src/wss/mod.rs:181 | the mask of {GUILD_MESSAGES, GUILD_MESSAGE_REACTIONS, INTERACTION, PUBLIC_GUILD_MESSAGES} equals the identify literal `1 << 9 OR 1 << 10 OR 1 << 26 OR 1 << 30`, which is 0x44000600 |
| Subscription.AllSelection | projects/ackerman-qqbot/src/wss/subscription_mask.rs:14-52 | the union of all ten flags is 0x7C001603 |
| Protocol.U32ItemsRoundTrip | projects/ackerman-qqbot/src/wss/mod.rs:83 | the encoded `shard` array decodes back to the same `Vec<u32>` |
| Protocol.U32ItemsAccepts | projects/ackerman-qqbot/src/wss/mod.rs:83 | an array decodes as `Vec<u32>` iff every element is an integer in u32 range, element by element |
| Protocol.UserRoundTrip | projects/ackerman-qqbot/src/wss/mod.rs:52-57 | every user decodes back from its encoding |
| Protocol.UserAccepts | projects/ackerman-qqbot/src/wss/mod.rs:52-57 | a user decodes iff all three fields are present with the right types (as an object or as a 3-element array); it decodes to exactly those values |
| Protocol.DispatchRoundTrip | projects/ackerman-qqbot/src/wss/mod.rs:76-92 | every dispatch body decodes back from its encoding |
| Protocol.DispatchAccepts | projects/ackerman-qqbot/src/wss/mod.rs:76-92 | an object is a dispatch body iff each dispatch field it holds has its field's type; extra keys are ignored and `{}` is accepted |
| Protocol.DispatchFromObject | projects/ackerman-qqbot/src/wss/mod.rs:76-92 | each decoded field is the object's value, or the field type's zero value (heartbeat 0, empty shard, default user) when absent |
| Protocol.EmptyObjectIsNotDefault | projects/ackerman-qqbot/src/wss/mod.rs:78-111 | `{}` decodes to the Default body with heartbeat 0, while the `Default` body has heartbeat 40000 |
| Protocol.UnionRoundTrip | projects/ackerman-qqbot/src/wss/mod.rs:68-74 | every payload, of any of the three variants, decodes back from its encoding |
| Protocol.DecodeUnionOrder | projects/ackerman-qqbot/src/wss/mod.rs:68-74 | ordered attempt: what the dispatch body accepts is Dispatch; else a boolean is Boolean; an integer in i32 range is Integer; null, a string, an out-of-range integer or a rejected object/array is an error |
| Protocol.EnvelopeFromObject | projects/ackerman-qqbot/src/wss/mod.rs:42-50 | an envelope object decodes iff `op` (u32) and `d` are present and valid and any `s`/`t` are well-typed; `s` defaults to 0 and `t` to ""; a missing `op` or `d` is reported as that missing field |
| Protocol.RoundTrip | projects/ackerman-qqbot/src/wss/mod.rs:42-50 | decode(encode(x)) == x for every envelope |
| Protocol.DecodeEncodeDecode | projects/ackerman-qqbot/src/wss/mod.rs:42-50 | re-encoding a decoded envelope and decoding it again gives the same envelope |
| Protocol.DispatchedInterval | projects/ackerman-qqbot/src/wss/mod.rs:59-66 | `dispatched` yields the body's own interval for a Dispatch payload, and the `Default` body (interval 40000) for a Boolean or Integer payload |
| Protocol.HeartbeatWire | projects/ackerman-qqbot/src/wss/mod.rs:174 | the heartbeat frame encodes to the JSON value with op 1, s 0, t "" and d 100 (all four keys, key order not modelled), and it reads back as itself |
| Protocol.IdentifyContents | projects/ackerman-qqbot/src/wss/mod.rs:181-191 | the identify frame is op 2, s 0, t "", with a dispatch body holding the token, intents = mask of the four subscribed categories = 0x44000600, shard [0, 1] and the `Default` rest (heartbeat 40000, version 0, empty session id, default user); it round-trips |
| Protocol.GatewayExamples | projects/ackerman-qqbot/src/wss/mod.rs:42-92 | `{"op":10,"d":{"heartbeat_interval":45000}}` gives a Dispatch with 45000; `{"op":1,"d":100}` gives Integer(100); `{"op":11,"d":true}` gives Boolean(true) |
| Session.Websocket.Link | projects/ackerman-qqbot/src/wss/mod.rs:133 | a freshly linked connection has `closed = false` and heartbeat interval 40000 |
| Session.Websocket.NextEvent | projects/ackerman-qqbot/src/wss/mod.rs:135-171 | the result is `EventOutcome(frame)` and the new fields are `Next(old fields, frame)`: `closed` becomes old `closed` or "frame is Close"; the interval becomes the interval a decodable opcode-10 frame announces, and otherwise stays the same |
| Session.CloseFrame | projects/ackerman-qqbot/src/wss/mod.rs:141-145 | a close frame sets `closed`, returns Ok and keeps the heartbeat interval |
| Session.ClosedMonotone | projects/ackerman-qqbot/src/wss/mod.rs:136-150 | `closed` is only ever written to true, and only by a close frame |
| Session.IntervalOnlyOnHello | projects/ackerman-qqbot/src/wss/mod.rs:159-161 | the interval changes only on a decodable opcode-10 envelope, and then becomes `dispatched().heartbeat_interval` |
| Session.HelloDefaults | projects/ackerman-qqbot/src/wss/mod.rs:159-161 | a hello whose body omits the interval sets it to 0; a hello with a boolean payload sets it to 40000 |
| Session.AnyOpcodeTolerated | projects/ackerman-qqbot/src/wss/mod.rs:152-170 | every decodable envelope returns Ok, whatever its opcode, and an opcode other than 10 (0, 9, 11, unknown) changes no field |
| Session.FailureChangesNothing | projects/ackerman-qqbot/src/wss/mod.rs:136-150 | a frame that returns an error (undecodable JSON or text, transport error, unexpected kind) changes no field; the end of the stream returns Ok and changes nothing |
| Session.RunSnoc | projects/ackerman-qqbot/src/wss/mod.rs:135-171 | handling frames one after another: a run extended by one frame is one more step |
| Session.RunClosed | projects/ackerman-qqbot/src/wss/mod.rs:141-145 | after any sequence of frames, `closed` holds iff it held before or one of the frames was a close frame |
| Session.RunInterval | projects/ackerman-qqbot/src/wss/mod.rs:159-161 | after any sequence of frames, the interval is the one announced by the last hello, or the initial one if no hello came |
| Session.StepIgnoresClosed | projects/ackerman-qqbot/src/wss/mod.rs:135-171 | handling one frame never reads `closed`: on a closed connection the new state is the one from an open connection, with `closed` still true |
| Session.RunIgnoresClosed | projects/ackerman-qqbot/src/wss/mod.rs:135-171 | nothing checks `closed`: a run of frames from a closed connection ends in the same state as from an open one, except that `closed` is true |
| Session.HandshakeScenario | projects/ackerman-qqbot/src/wss/mod.rs:135-171 | from a fresh link, a hello announcing 30000 followed by the READY dispatch both return Ok, leave the connection open with interval 30000, and the READY body names the user "bot1" |

## Left out

- `link`: the HTTP lookup of the gateway URL and the socket connect are network I/O. Only the resulting fields are modelled (`Websocket.Link`). `QQBotConnected` and `SessionStartLimit` are read only from that HTTP response, so they are left out too.
- The socket and message framing: `wss.next()`, `wss.send()` and the websocket message type become the abstract `Frame` and its outcomes.
- Sending in `send_heartbeat` and `send_identify`: the write to the socket is I/O, so only the frames they build are modelled (`HeartbeatFrame`, `IdentifyFrame`). The bot token is an opaque string parameter, because the credential provider is external.
- Text handling: JSON text parsing and printing are not modelled. A text message that is not JSON is the frame `Unparsable`.
- JSON numbers: numbers are integers only, so a frame containing a non-integer number is not represented. serde accepts such a number under an ignored key (for example `{"op":10,"d":{"heartbeat_interval":41250,"x":0.5}}` decodes and sets the interval to 41250). Integer fields reject it.
- JSON objects: objects are maps, so key order is not modelled (serde writes fields in declaration order) and duplicate keys cannot occur.
- Protocol.DecodeOperation: when a value has several faults, serde reports the first one in text order. The model checks fields in declaration order, so in that case it may name a different error. Whether decoding succeeds, and the value it gives, are exact.
- Protocol.DecodeOperation: an integer too large for 64 bits is a float to serde, so serde reports an invalid type. The model reports `InvalidValue`. Both are errors.
- Protocol.DecodeOperation: for an array longer than its struct, the model reports `InvalidLength`. serde's message for this case differs (trailing data), but it is also an error.
- Console output: logging and timestamps in `next_event` and the send functions are console output only.
- The `Debug` implementation of the connection does socket address lookups, so it is left out.
- The REST wrappers `send_message.rs` and `get_guild.rs` end in `todo!()`. Their only logic is a URL chosen by build mode.
