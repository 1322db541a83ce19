/**
 * The gateway connection's frame handler: the `closed` flag and the heartbeat interval,
 * and how one inbound frame updates them.
 */
module Session {
  import opened Base
  import opened Json
  import opened Protocol

  /** What the stream yields next, with the transport below it left abstract. */
  datatype Frame =
    | Text(body: Value)   // a text message holding a JSON document
    | Unparsable          // a text message that is not JSON
    | Close               // a close message
    | Other               // a binary, ping, pong or raw frame
    | Broken              // the stream reported an error
    | EndOfStream         // the stream has ended

  /** The error cases of the handler's result. */
  datatype Error =
    | TransportError
    | SyntaxError
    | DataError(cause: DecodeError)
    | UnexpectedFrame

  /** The handler's result: `Ok(())` or an error. */
  datatype Outcome = Pass | Fail(error: Error)

  /** The fields of the connection that the handler reads and writes. */
  datatype State = State(closed: bool, heartbeatInterval: u32)

  /** The fields of a freshly linked connection. */
  const Linked: State := State(false, 40000)

  /** The opcode table: only opcode 10 (hello) changes a field; 0, 9, 11 and all others only log. */
  function Handle(st: State, o: Operation): State
  {
    match o.op
    case 0 => st
    case 9 => st
    case 10 => st.(heartbeatInterval := Dispatched(o).heartbeatInterval)
    case 11 => st
    case _ => st
  }

  /** The fields after one frame has been handled. */
  function Next(st: State, f: Frame): State
  {
    match f
    case Text(body) =>
      (match DecodeOperation(body)
       case Ok(o) => Handle(st, o)
       case Err(_) => st)
    case Close => st.(closed := true)
    case _ => st
  }

  /** The handler's result for one frame; it never depends on the fields. */
  function EventOutcome(f: Frame): Outcome
  {
    match f
    case Text(body) => if DecodeOperation(body).Ok? then Pass else Fail(DataError(DecodeOperation(body).error))
    case Unparsable => Fail(SyntaxError)
    case Close => Pass
    case Other => Fail(UnexpectedFrame)
    case Broken => Fail(TransportError)
    case EndOfStream => Pass
  }

  /** The interval a frame announces: that of a decodable opcode-10 envelope, else none. */
  function HelloInterval(f: Frame): Option<u32>
  {
    if f.Text? && DecodeOperation(f.body).Ok? && DecodeOperation(f.body).value.op == 10
    then Some(Dispatched(DecodeOperation(f.body).value).heartbeatInterval)
    else None
  }

  class Websocket {
    var closed: bool
    var heartbeatInterval: u32

    /** The fields as the handler's state. */
    function Current(): State
      reads this
    {
      State(closed, heartbeatInterval)
    }

    /** The fields a successful link leaves; the HTTP lookup and the socket are not modelled. */
    constructor Link()
      ensures Current() == Linked
      ensures !closed && heartbeatInterval == 40000
    {
      closed := false;
      heartbeatInterval := 40000;
    }

    /** Reads one frame and handles it. */
    method NextEvent(frame: Frame) returns (r: Outcome)
      modifies this
      ensures r == EventOutcome(frame)
      ensures Current() == Next(old(Current()), frame)
      ensures closed == (old(closed) || frame.Close?)
      ensures heartbeatInterval == match HelloInterval(frame)
                                   case Some(h) => h
                                   case None => old(heartbeatInterval)
    {
      var op: Operation;
      match frame {
        case Text(body) =>
          var decoded := DecodeOperation(body);
          if decoded.Err? {
            return Fail(DataError(decoded.error));
          }
          op := decoded.value;
        case Unparsable =>
          return Fail(SyntaxError);
        case Close =>
          closed := true;
          return Pass;
        case Other =>
          return Fail(UnexpectedFrame);
        case Broken =>
          return Fail(TransportError);
        case EndOfStream =>
          return Pass;
      }
      match op.op {
        case 0 =>
        case 9 =>
        case 10 =>
          heartbeatInterval := Dispatched(op).heartbeatInterval;
        case 11 =>
        case _ =>
      }
      return Pass;
    }
  }

  // ---------------------------------------------------------------- one frame

  /** A close frame sets `closed`, succeeds and keeps the interval. */
  lemma CloseFrame(st: State)
    ensures Next(st, Close) == State(true, st.heartbeatInterval)
    ensures EventOutcome(Close) == Pass
  {
  }

  /** `closed` is only ever set, and only by a close frame. */
  lemma ClosedMonotone(st: State, f: Frame)
    ensures Next(st, f).closed == (st.closed || f.Close?)
  {
  }

  /** The interval changes only on a hello, and becomes the interval it announces. */
  lemma IntervalOnlyOnHello(st: State, f: Frame)
    ensures Next(st, f).heartbeatInterval == match HelloInterval(f) case Some(h) => h case None => st.heartbeatInterval
  {
  }

  /** A hello whose body omits the interval sets it to 0; a hello with a boolean payload sets 40000. */
  lemma HelloDefaults(st: State)
    ensures Next(st, Text(Object(map["op" := Number(10), "d" := Object(map[])]))).heartbeatInterval == 0
    ensures Next(st, Text(Object(map["op" := Number(10), "d" := Bool(true)]))).heartbeatInterval == 40000
  {
  }

  /** Every decodable envelope succeeds, whatever its opcode, and any opcode but 10 changes nothing. */
  lemma AnyOpcodeTolerated(st: State, v: Value)
    requires DecodeOperation(v).Ok?
    ensures EventOutcome(Text(v)) == Pass
    ensures DecodeOperation(v).value.op != 10 ==> Next(st, Text(v)) == st
  {
  }

  /** A frame that yields an error leaves both fields as they were; so does the end of the stream. */
  lemma FailureChangesNothing(st: State, f: Frame)
    ensures EventOutcome(f).Fail? ==> Next(st, f) == st
    ensures f.EndOfStream? ==> Next(st, f) == st && EventOutcome(f) == Pass
  {
  }

  // ---------------------------------------------------------------- many frames

  /** The fields after handling the frames in order. */
  function Run(st: State, fs: seq<Frame>): State
    decreases |fs|
  {
    if fs == [] then st else Run(Next(st, fs[0]), fs[1..])
  }

  /** The interval announced by the last hello among the frames, or `initial` if there is none. */
  function LastHello(initial: u32, fs: seq<Frame>): u32
    decreases |fs|
  {
    if fs == [] then initial
    else match HelloInterval(fs[|fs| - 1])
      case Some(h) => h
      case None => LastHello(initial, fs[..|fs| - 1])
  }

  /** Handling one more frame after a run. */
  lemma {:induction false} RunSnoc(st: State, fs: seq<Frame>, f: Frame)
    ensures Run(st, fs + [f]) == Next(Run(st, fs), f)
    decreases |fs|
  {
    if fs != [] {
      assert (fs + [f])[1..] == fs[1..] + [f];
      RunSnoc(Next(st, fs[0]), fs[1..], f);
    }
  }

  /** After a run, `closed` holds iff it held before or some frame was a close frame. */
  lemma {:induction false} RunClosed(st: State, fs: seq<Frame>)
    ensures Run(st, fs).closed <==> st.closed || exists i :: 0 <= i < |fs| && fs[i].Close?
    decreases |fs|
  {
    if fs != [] {
      RunClosed(Next(st, fs[0]), fs[1..]);
      assert forall i :: 1 <= i < |fs| ==> fs[i] == fs[1..][i - 1];
      assert forall i :: 0 <= i < |fs| - 1 ==> fs[1..][i] == fs[i + 1];
    }
  }

  /** After a run, the interval is the one the last hello announced, or the initial one. */
  lemma {:induction false} RunInterval(st: State, fs: seq<Frame>)
    ensures Run(st, fs).heartbeatInterval == LastHello(st.heartbeatInterval, fs)
    decreases |fs|
  {
    if fs != [] {
      var init, last := fs[..|fs| - 1], fs[|fs| - 1];
      assert fs == init + [last];
      RunSnoc(st, init, last);
      RunInterval(st, init);
      IntervalOnlyOnHello(Run(st, init), last);
    }
  }

  /** A step does not read `closed`: on a closed connection it does what it does on an open one. */
  lemma StepIgnoresClosed(st: State, f: Frame)
    ensures Next(st.(closed := true), f) == Next(st, f).(closed := true)
  {
  }

  /** Nothing checks `closed`: frames after a close are handled exactly as before it. */
  lemma {:induction false} RunIgnoresClosed(st: State, fs: seq<Frame>)
    ensures Run(st.(closed := true), fs) == Run(st, fs).(closed := true)
    decreases |fs|
  {
    if fs != [] {
      StepIgnoresClosed(st, fs[0]);
      RunIgnoresClosed(Next(st, fs[0]), fs[1..]);
    }
  }

  /** A hello frame announcing a heartbeat interval of 30000. */
  const HelloExample: Frame :=
    Text(Object(map["op" := Number(10), "d" := Object(map["heartbeat_interval" := Number(30000)])]))

  /** The READY dispatch that acknowledges identify, for the account "bot1". */
  const ReadyExample: Frame :=
    Text(Object(map[
      "op" := Number(0), "s" := Number(1), "t" := String("READY"),
      "d" := Object(map[
        "version" := Number(1), "session_id" := String("s1"),
        "user" := Object(map["id" := String("1"), "username" := String("bot1"), "bot" := Bool(true)])])]))

  lemma HelloExampleDecodes()
    ensures DecodeOperation(HelloExample.body) == Ok(Operation(10, 0, "", Dispatch(DefaultDispatch().(heartbeatInterval := 30000))))
  {
  }

  lemma ReadyExampleDecodes()
    ensures DecodeOperation(ReadyExample.body) == Ok(Operation(0, 1, "READY", Dispatch(
      DefaultDispatch().(heartbeatInterval := 0, version := 1, sessionId := "s1", user := User("1", "bot1", true)))))
  {
    var ready := ReadyExample.body.fields;
    var body := ready["d"].fields;
    UserAccepts(body["user"]);
    DispatchFromObject(body);
    EnvelopeFromObject(ready);
  }

  /** A hello announcing 30000 and then the READY dispatch: both succeed, the link stays open with interval 30000. */
  lemma HandshakeScenario()
    ensures Run(Linked, [HelloExample, ReadyExample]) == State(false, 30000)
    ensures EventOutcome(HelloExample) == Pass && EventOutcome(ReadyExample) == Pass
    ensures Dispatched(DecodeOperation(ReadyExample.body).value).user.username == "bot1"
  {
    HelloExampleDecodes();
    ReadyExampleDecodes();
    var afterHello := Next(Linked, HelloExample);
    assert afterHello == State(false, 30000);
    assert Next(afterHello, ReadyExample) == afterHello;
    var frames := [HelloExample, ReadyExample];
    assert frames[1..] == [ReadyExample] && frames[1..][1..] == [];
    assert Run(Linked, frames) == Run(afterHello, [ReadyExample]);
    assert Run(afterHello, [ReadyExample]) == Run(afterHello, []);
  }
}
