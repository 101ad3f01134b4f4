/**
 * The connector to the MetaTrader 5 Expert Advisor: a socket client that sends
 * one null-terminated JSON message per command and reads the reply back chunk
 * by chunk until a chunk ends with a zero byte or the peer stops sending.
 *
 * The network is a script handed to the connector: whether the n-th connection
 * attempt is accepted, and what the n-th exchange does (a failing send, the
 * chunks `recv` returns, a failure once those run out).
 */
module Mt5 {
  import opened Wrappers
  import opened Values

  const DefaultHost: string := "127.0.0.1"
  const DefaultPort: int := 5555
  const DefaultTimeout: int := 10
  /** The buffer size of each `recv`. */
  const ChunkSize: nat := 4096

  /** A `socket.timeout`, or any other exception with its `str(e)`. */
  datatype Failure = Timeout | Raised(text: string)

  /** One request and its reply as the socket sees them. */
  datatype Exchange = Exchange(sendFault: Option<Failure>, chunks: seq<seq<byte>>, recvFault: Option<Failure>)

  /** What the peer does: which connection attempts it accepts, and each exchange in turn. */
  datatype Network = Network(accepts: nat -> bool, exchange: nat -> Exchange)

  /**
   * Laws of `json.dumps` and of UTF-8 that framing relies on: the JSON text of a
   * value is never empty and holds no raw NUL (control characters are escaped),
   * only NUL encodes to a zero byte, only the empty text encodes to no bytes,
   * and encoding is a homomorphism.
   */
  ghost predicate FramingLaws(rt: Builtins) {
    && (forall v :: rt.jsonDumps(v) != [])
    && (forall v :: '\0' !in rt.jsonDumps(v))
    && (forall s :: '\0' !in s ==> 0 !in rt.utf8Encode(s))
    && (forall s, t :: rt.utf8Encode(s + t) == rt.utf8Encode(s) + rt.utf8Encode(t))
    && rt.utf8Encode("\0") == [0]
    && (forall s :: rt.utf8Encode(s) == [] ==> s == [])
  }

  /** Every float inside `v` is a value a Python float can hold. */
  ghost predicate FloatsRepresentable(v: Value, rt: Builtins)
    decreases v
  {
    match v
    case Float(x) => Representable(rt, x)
    case List(items) => forall i :: 0 <= i < |items| ==> FloatsRepresentable(items[i], rt)
    case Dict(entries) => forall k :: k in entries ==> FloatsRepresentable(entries[k], rt)
    case _ => true
  }

  /**
   * The framing laws, and decoding reads back what was encoded: UTF-8 for every
   * text, `json.loads` for every value whose floats a float can hold.
   */
  ghost predicate WireFaithful(rt: Builtins) {
    && FramingLaws(rt)
    && (forall s :: rt.utf8Decode(rt.utf8Encode(s)) == Ok(s))
    && (forall v :: FloatsRepresentable(v, rt) ==> rt.jsonLoads(rt.jsonDumps(v)) == Some(v))
  }

  /** A JSON text of `{}`, and an encoding that keeps only whether a character is NUL: they meet the framing laws. */
  function MarkerBuiltins(): Builtins {
    Builtins(
      s => None, s => None, (x: real) => "", v => "",
      v => "{}", s => None, t => "",
      (s: string) => seq(|s|, i requires 0 <= i < |s| => if s[i] == '\0' then 0 else 1),
      b => Ok(""))
  }

  lemma FramingSatisfiable()
    ensures FramingLaws(MarkerBuiltins())
  {
    var rt := MarkerBuiltins();
    forall s, t ensures rt.utf8Encode(s + t) == rt.utf8Encode(s) + rt.utf8Encode(t) {
      assert forall i :: 0 <= i < |s + t| ==> rt.utf8Encode(s + t)[i] == (rt.utf8Encode(s) + rt.utf8Encode(t))[i];
    }
    forall s | '\0' !in s ensures 0 !in rt.utf8Encode(s) {
      assert forall i :: 0 <= i < |s| ==> rt.utf8Encode(s)[i] == 1;
    }
    assert rt.utf8Encode("\0") == [0];
  }

  // ---------------------------------------------------------------------------
  // Framing

  /** The message of `send_command`: the command, its parameters (`params or {}`) and the ISO time stamp. */
  function Message(command: string, params: Option<map<string, Value>>, stamp: string): (m: Value)
    ensures m.Dict? && m.entries.Keys == {"command", "params", "timestamp"}
    ensures m.entries["command"] == Str(command) && m.entries["timestamp"] == Str(stamp)
    ensures m.entries["params"] == Dict(if params.Some? then params.value else map[])
  {
    Dict(map["command" := Str(command), "params" := Dict(params.GetOr(map[])), "timestamp" := Str(stamp)])
  }

  /** The bytes that carry a value: its JSON text in UTF-8. */
  function Payload(v: Value, rt: Builtins): seq<byte> {
    rt.utf8Encode(rt.jsonDumps(v))
  }

  /** `(json.dumps(message) + "\0").encode('utf-8')` */
  function Frame(v: Value, rt: Builtins): seq<byte> {
    rt.utf8Encode(rt.jsonDumps(v) + "\0")
  }

  /** A frame is the payload followed by exactly one zero byte, and the payload holds none. */
  lemma FrameShape(v: Value, rt: Builtins)
    requires FramingLaws(rt)
    ensures Frame(v, rt) == Payload(v, rt) + [0]
    ensures 0 !in Payload(v, rt) && Payload(v, rt) != []
  {
    assert rt.utf8Encode(rt.jsonDumps(v) + "\0") == rt.utf8Encode(rt.jsonDumps(v)) + rt.utf8Encode("\0");
  }

  // ---------------------------------------------------------------------------
  // Reassembly

  /** `b''.join(chunks)` */
  function Concat(chunks: seq<seq<byte>>): seq<byte>
    decreases |chunks|
  {
    if chunks == [] then [] else chunks[0] + Concat(chunks[1..])
  }

  /** Some read stops the loop: an empty chunk (the peer closed) or one whose last byte is zero. */
  predicate Terminated(chunks: seq<seq<byte>>)
    decreases |chunks|
  {
    chunks != [] && (chunks[0] == [] || chunks[0][|chunks[0]| - 1] == 0 || Terminated(chunks[1..]))
  }

  /**
   * The text `_receive_response` assembles when `recv` returns `chunks` and then
   * an empty read: chunks in order up to the first empty one or the first one
   * ending with a zero byte, that one without its last byte.
   */
  function Reassemble(chunks: seq<seq<byte>>): seq<byte>
    decreases |chunks|
  {
    if chunks == [] || chunks[0] == [] then []
    else if chunks[0][|chunks[0]| - 1] == 0 then chunks[0][..|chunks[0]| - 1]
    else chunks[0] + Reassemble(chunks[1..])
  }

  /** What `_receive_response` gives: the reassembled bytes, or the failure of a read beyond the chunks. */
  function Response(ex: Exchange): Result<seq<byte>, Failure> {
    if Terminated(ex.chunks) || ex.recvFault.None? then Ok(Reassemble(ex.chunks)) else Err(ex.recvFault.value)
  }

  /** Without a terminating read, every byte of every chunk is kept, zero bytes inside chunks too. */
  lemma {:induction false} UnterminatedKeepsAll(chunks: seq<seq<byte>>)
    requires !Terminated(chunks)
    ensures Reassemble(chunks) == Concat(chunks)
    decreases |chunks|
  {
    if chunks != [] {
      UnterminatedKeepsAll(chunks[1..]);
    }
  }

  /** Nothing after the first terminating chunk is read. */
  lemma {:induction false} StopsAtTerminator(chunks: seq<seq<byte>>, rest: seq<seq<byte>>)
    requires Terminated(chunks)
    ensures Terminated(chunks + rest)
    ensures Reassemble(chunks + rest) == Reassemble(chunks)
    decreases |chunks|
  {
    assert (chunks + rest)[0] == chunks[0];
    if chunks[0] != [] && chunks[0][|chunks[0]| - 1] != 0 {
      assert (chunks + rest)[1..] == chunks[1..] + rest;
      StopsAtTerminator(chunks[1..], rest);
    }
  }

  /**
   * However a frame is cut into non-empty chunks, the reply reassembles to its
   * payload: only the last chunk ends with the zero byte, which is dropped.
   */
  lemma {:induction false} ChunkedFrameReassembles(chunks: seq<seq<byte>>, payload: seq<byte>)
    requires forall i :: 0 <= i < |chunks| ==> chunks[i] != []
    requires 0 !in payload
    requires Concat(chunks) == payload + [0]
    ensures Terminated(chunks)
    ensures Reassemble(chunks) == payload
    decreases |chunks|
  {
    var c := chunks[0];
    assert Concat(chunks) == c + Concat(chunks[1..]);
    if c[|c| - 1] == 0 {
      if |c| < |payload| + 1 {
        PrefixByteIn(c, payload, Concat(chunks[1..]));
        assert false;
      }
      assert |Concat(chunks[1..])| == 0;
      assert c[..|c| - 1] == (payload + [0])[..|c| - 1];
    } else {
      var whole := payload + [0];
      var tail := payload[|c|..];
      assert whole[..|c|] == c && whole[|c|..] == Concat(chunks[1..]);
      assert whole[..|c|] == payload[..|c|] && whole[|c|..] == tail + [0];
      forall b | b in tail
        ensures b != 0
      {
        assert b in payload;
      }
      ChunkedFrameReassembles(chunks[1..], tail);
    }
  }

  /** A chunk no longer than the payload it starts ends with a byte of that payload. */
  lemma PrefixByteIn(c: seq<byte>, payload: seq<byte>, rest: seq<byte>)
    requires c + rest == payload + [0] && 0 < |c| <= |payload|
    ensures c[|c| - 1] in payload
  {
    assert c[|c| - 1] == (c + rest)[|c| - 1] == payload[|c| - 1];
  }

  /** `self.socket.recv(4096)`: the next scripted chunk, then an empty read or the scripted failure. */
  method Recv(ex: Exchange, k: nat) returns (r: Result<seq<byte>, Failure>)
    ensures k < |ex.chunks| ==> r == Ok(ex.chunks[k])
    ensures k >= |ex.chunks| ==> r == if ex.recvFault.Some? then Err(ex.recvFault.value) else Ok([])
  {
    if k < |ex.chunks| {
      r := Ok(ex.chunks[k]);
    } else if ex.recvFault.Some? {
      r := Err(ex.recvFault.value);
    } else {
      r := Ok([]);
    }
  }

  lemma ConcatSnoc(chunks: seq<seq<byte>>, c: seq<byte>)
    ensures Concat(chunks + [c]) == Concat(chunks) + c
    decreases |chunks|
  {
    if chunks == [] {
      assert [] + [c] == [c];
    } else {
      assert (chunks + [c])[1..] == chunks[1..] + [c];
      ConcatSnoc(chunks[1..], c);
    }
  }

  /** One more chunk that does not stop the loop. */
  lemma {:induction false} ReassembleStep(chunks: seq<seq<byte>>, k: nat)
    requires k < |chunks| && !Terminated(chunks[..k])
    requires chunks[k] != [] && chunks[k][|chunks[k]| - 1] != 0
    ensures !Terminated(chunks[..k + 1])
    ensures Reassemble(chunks[k..]) == chunks[k] + Reassemble(chunks[k + 1..])
    decreases k
  {
    if k > 0 {
      assert chunks[..k + 1][1..] == chunks[1..][..k];
      assert chunks[..k][1..] == chunks[1..][..k - 1];
      ReassembleStep(chunks[1..], k - 1);
    }
    assert chunks[k..][1..] == chunks[k + 1..];
  }

  /** A chunk that stops the loop makes the whole sequence terminated. */
  lemma {:induction false} TerminatedAt(chunks: seq<seq<byte>>, k: nat)
    requires k < |chunks| && (chunks[k] == [] || chunks[k][|chunks[k]| - 1] == 0)
    ensures Terminated(chunks)
    decreases k
  {
    if k > 0 {
      TerminatedAt(chunks[1..], k - 1);
    }
  }

  /** The text `_receive_response` returns: the reassembled bytes decoded as UTF-8; a decoding error raises. */
  function ResponseText(ex: Exchange, rt: Builtins): Result<string, Failure> {
    match Response(ex)
    case Err(f) => Err(f)
    case Ok(bytes) =>
      match rt.utf8Decode(bytes)
      case Ok(text) => Ok(text)
      case Err(e) => Err(Raised(e))
  }

  /** A read that stops the loop: its chunk ends the reassembled text, and the response is that text. */
  lemma ReadStops(ex: Exchange, k: nat, c: seq<byte>)
    requires k <= |ex.chunks| && !Terminated(ex.chunks[..k])
    requires if k < |ex.chunks| then ex.chunks[k] == c else c == [] && ex.recvFault.None?
    requires c == [] || c[|c| - 1] == 0
    ensures Response(ex) == Ok(Reassemble(ex.chunks))
    ensures Reassemble(ex.chunks[k..]) == if c == [] then [] else c[..|c| - 1]
  {
    if k < |ex.chunks| {
      TerminatedAt(ex.chunks, k);
      assert ex.chunks[k..][0] == c;
    } else {
      assert ex.chunks[k..] == [];
    }
  }

  /** A read past the chunks that raises: the response is that failure. */
  lemma ReadFails(ex: Exchange, k: nat)
    requires k == |ex.chunks| && !Terminated(ex.chunks[..k]) && ex.recvFault.Some?
    ensures Response(ex) == Err(ex.recvFault.value)
  {
    assert ex.chunks[..k] == ex.chunks;
  }

  /** `_receive_response`: reads until a chunk ends with a zero byte or the peer stops, then decodes. */
  method ReceiveResponse(ex: Exchange, rt: Builtins) returns (r: Result<string, Failure>)
    ensures r == ResponseText(ex, rt)
  {
    var chunks: seq<seq<byte>> := [];
    var k := 0;
    while true
      invariant k <= |ex.chunks|
      invariant !Terminated(ex.chunks[..k])
      invariant Concat(chunks) + Reassemble(ex.chunks[k..]) == Reassemble(ex.chunks)
      decreases |ex.chunks| - k
    {
      var chunk := Recv(ex, k);
      if chunk.Err? {
        ReadFails(ex, k);
        return Err(chunk.error);
      }
      var c := chunk.value;
      if c == [] {
        ReadStops(ex, k, c);
        assert Concat(chunks) + [] == Concat(chunks);
        break;
      }
      if c[|c| - 1] == 0 {
        ReadStops(ex, k, c);
        ConcatSnoc(chunks, c[..|c| - 1]);
        chunks := chunks + [c[..|c| - 1]];
        break;
      }
      ReassembleStep(ex.chunks, k);
      ConcatSnoc(chunks, c);
      chunks := chunks + [c];
      k := k + 1;
    }
    var text := rt.utf8Decode(Concat(chunks));
    if text.Err? {
      return Err(Raised(text.error));
    }
    r := Ok(text.value);
  }

  // ---------------------------------------------------------------------------
  // Replies

  /** `{"error": text}` */
  function ErrorReply(text: string): Value {
    Dict(map["error" := Str(text)])
  }

  /** The reply to an exchange that raised. */
  function FailureReply(f: Failure): Value {
    match f
    case Timeout => ErrorReply("Connection timeout")
    case Raised(text) => ErrorReply(text)
  }

  /**
   * The reply of a `send_command` whose frame went to a connected socket, and
   * whether the connection survives it: a raised send, read or decode
   * disconnects; an empty reply and one `json.loads` rejects are error
   * dictionaries that keep the connection.
   */
  function Exchanged(ex: Exchange, rt: Builtins): (Value, bool) {
    if ex.sendFault.Some? then (FailureReply(ex.sendFault.value), false)
    else
      match ResponseText(ex, rt)
      case Err(f) => (FailureReply(f), false)
      case Ok(text) =>
        if text == [] then (ErrorReply("Empty response from MT5"), true)
        else
          match rt.jsonLoads(text)
          case None => (Dict(map["error" := Str("Invalid response format"), "response" := Str(text)]), true)
          case Some(v) => (v, true)
  }

  /** An exchange drops the connection exactly when it raised, and then the reply is an error dictionary. */
  lemma FailureDisconnects(ex: Exchange, rt: Builtins)
    ensures !Exchanged(ex, rt).1 <==> ex.sendFault.Some? || ResponseText(ex, rt).Err?
    ensures !Exchanged(ex, rt).1 ==> Exchanged(ex, rt).0.Dict? && "error" in Exchanged(ex, rt).0.entries
    ensures ex.sendFault == Some(Timeout) ==> Exchanged(ex, rt).0 == ErrorReply("Connection timeout")
  {
  }

  /** A reply that is no JSON carries the raw text; an empty one is an error of its own. */
  lemma UndecodableReply(ex: Exchange, rt: Builtins)
    requires ex.sendFault.None? && ResponseText(ex, rt).Ok?
    ensures ResponseText(ex, rt).value == [] ==> Exchanged(ex, rt) == (ErrorReply("Empty response from MT5"), true)
    ensures ResponseText(ex, rt).value != [] && rt.jsonLoads(ResponseText(ex, rt).value).None? ==>
              && Exchanged(ex, rt).0.Dict?
              && Lookup(Exchanged(ex, rt).0.entries, "response") == Some(Str(ResponseText(ex, rt).value))
              && Lookup(Exchanged(ex, rt).0.entries, "error") == Some(Str("Invalid response format"))
  {
  }

  /**
   * When the Expert Advisor answers with the frame of `v`, cut into any
   * non-empty chunks, `send_command` returns `v` and stays connected (for a
   * `v` whose floats a float can hold).
   */
  lemma ReplyRoundTrip(v: Value, chunks: seq<seq<byte>>, recvFault: Option<Failure>, rt: Builtins)
    requires WireFaithful(rt) && FloatsRepresentable(v, rt)
    requires forall i :: 0 <= i < |chunks| ==> chunks[i] != []
    requires Concat(chunks) == Frame(v, rt)
    ensures Exchanged(Exchange(None, chunks, recvFault), rt) == (v, true)
  {
    FrameShape(v, rt);
    ChunkedFrameReassembles(chunks, Payload(v, rt));
    var ex := Exchange(None, chunks, recvFault);
    assert Response(ex) == Ok(Payload(v, rt));
    assert rt.utf8Decode(Payload(v, rt)) == Ok(rt.jsonDumps(v));
  }

  // ---------------------------------------------------------------------------
  // The connector object

  /** `MT5Connector` */
  class Connector {
    const host: string
    const port: int
    const timeout: int
    const net: Network
    const rt: Builtins
    var connected: bool
    /** `self.socket`: the attempt whose socket object it holds, if any. */
    var socket: Option<nat>
    /** The sockets closed so far. */
    var closed: set<nat>
    /** Connection attempts and exchanges so far; they index the network's script. */
    var attempts: nat
    var exchanges: nat
    /** The frames handed to `sendall`, oldest first. */
    var sent: seq<seq<byte>>

    /** A connected connector holds a socket. */
    ghost predicate Valid()
      reads this
    {
      connected ==> socket.Some?
    }

    /** `__init__`: not connected and without a socket. */
    constructor(host: string, port: int, timeout: int, net: Network, rt: Builtins)
      ensures Valid()
      ensures this.host == host && this.port == port && this.timeout == timeout && this.net == net && this.rt == rt
      ensures !connected && socket.None? && closed == {} && attempts == 0 && exchanges == 0 && sent == []
    {
      this.host := host;
      this.port := port;
      this.timeout := timeout;
      this.net := net;
      this.rt := rt;
      connected := false;
      socket := None;
      closed := {};
      attempts := 0;
      exchanges := 0;
      sent := [];
    }

    /** `connect`: a new socket each time; connected exactly when the peer accepts it. */
    method Connect() returns (ok: bool)
      modifies this`connected, this`socket, this`attempts
      ensures Valid()
      ensures ok == net.accepts(old(attempts)) && connected == ok
      ensures socket == Some(old(attempts)) && attempts == old(attempts) + 1
    {
      var n := attempts;
      attempts := attempts + 1;
      socket := Some(n);
      ok := net.accepts(n);
      connected := ok;
    }

    /** `disconnect`: closes the socket if there is one (a failing close is ignored) and is never connected after. */
    method Disconnect()
      modifies this`connected, this`closed
      ensures Valid() && !connected
      ensures closed == if socket.Some? then old(closed) + {socket.value} else old(closed)
    {
      if socket.Some? {
        closed := closed + {socket.value};
      }
      connected := false;
    }

    /**
     * What one `send_command` did: it connected first when it was not
     * connected; without a connection it sent nothing and answered
     * "Not connected to MT5"; otherwise it sent exactly the frame of its
     * message and answered as the exchange dictates, closing the socket when
     * the exchange raised.
     */
    twostate predicate Commanded(command: string, params: Option<map<string, Value>>, stamp: string, reply: Value)
      reads this
    {
      var reached := old(connected) || net.accepts(old(attempts));
      && attempts == old(attempts) + (if old(connected) then 0 else 1)
      && socket == (if old(connected) then old(socket) else Some(old(attempts)))
      && (!reached ==>
            && reply == ErrorReply("Not connected to MT5") && !connected
            && sent == old(sent) && exchanges == old(exchanges) && closed == old(closed))
      && (reached ==>
            && sent == old(sent) + [Frame(Message(command, params, stamp), rt)]
            && exchanges == old(exchanges) + 1
            && (reply, connected) == Exchanged(net.exchange(old(exchanges)), rt)
            && closed == (if connected || socket.None? then old(closed) else old(closed) + {socket.value}))
    }

    /** `send_command(command, params)` with `stamp` for `datetime.now().isoformat()`. */
    method SendCommand(command: string, params: Option<map<string, Value>>, stamp: string) returns (reply: Value)
      requires Valid()
      modifies this`connected, this`socket, this`attempts, this`closed, this`exchanges, this`sent
      ensures Valid()
      ensures Commanded(command, params, stamp, reply)
    {
      if !connected {
        var ok := Connect();
        if !ok {
          return ErrorReply("Not connected to MT5");
        }
      }
      var ex := net.exchange(exchanges);
      exchanges := exchanges + 1;
      sent := sent + [Frame(Message(command, params, stamp), rt)];
      if ex.sendFault.Some? {
        Disconnect();
        return FailureReply(ex.sendFault.value);
      }
      var response := ReceiveResponse(ex, rt);
      if response.Err? {
        Disconnect();
        return FailureReply(response.error);
      }
      if response.value != [] {
        var decoded := rt.jsonLoads(response.value);
        if decoded.Some? {
          reply := decoded.value;
        } else {
          reply := Dict(map["error" := Str("Invalid response format"), "response" := Str(response.value)]);
        }
      } else {
        reply := ErrorReply("Empty response from MT5");
      }
    }

    /** `get_signals` */
    method GetSignals(stamp: string) returns (reply: Value)
      requires Valid()
      modifies this`connected, this`socket, this`attempts, this`closed, this`exchanges, this`sent
      ensures Valid() && Commanded("GET_SIGNALS", None, stamp, reply)
    {
      reply := SendCommand("GET_SIGNALS", None, stamp);
    }

    /** `get_status` */
    method GetStatus(stamp: string) returns (reply: Value)
      requires Valid()
      modifies this`connected, this`socket, this`attempts, this`closed, this`exchanges, this`sent
      ensures Valid() && Commanded("GET_STATUS", None, stamp, reply)
    {
      reply := SendCommand("GET_STATUS", None, stamp);
    }

    /** `update_settings(settings)` */
    method UpdateSettings(settings: map<string, Value>, stamp: string) returns (reply: Value)
      requires Valid()
      modifies this`connected, this`socket, this`attempts, this`closed, this`exchanges, this`sent
      ensures Valid() && Commanded("SET_SETTINGS", Some(settings), stamp, reply)
    {
      reply := SendCommand("SET_SETTINGS", Some(settings), stamp);
    }

    /** `load_preset(preset_name)` */
    method LoadPreset(presetName: string, stamp: string) returns (reply: Value)
      requires Valid()
      modifies this`connected, this`socket, this`attempts, this`closed, this`exchanges, this`sent
      ensures Valid() && Commanded("LOAD_PRESET", Some(map["preset" := Str(presetName)]), stamp, reply)
    {
      reply := SendCommand("LOAD_PRESET", Some(map["preset" := Str(presetName)]), stamp);
    }

    /** `test_connection`: whether a connection attempt succeeds; never connected afterwards. */
    method TestConnection() returns (ok: bool)
      modifies this`connected, this`socket, this`attempts, this`closed
      ensures Valid() && !connected
      ensures ok == net.accepts(old(attempts)) && attempts == old(attempts) + 1 && socket == Some(old(attempts))
      ensures closed == if ok then old(closed) + {old(attempts)} else old(closed)
    {
      ok := Connect();
      if ok {
        Disconnect();
      }
    }
  }

  /** The module-level `_mt5_connector` behind `get_connector`. */
  class Registry {
    const net: Network
    const rt: Builtins
    var instance: Option<Connector>

    constructor(net: Network, rt: Builtins)
      ensures this.net == net && this.rt == rt && instance.None?
    {
      this.net := net;
      this.rt := rt;
      instance := None;
    }

    /** `get_connector`: the first call creates the connector with the default address, later calls return it. */
    method GetConnector() returns (c: Connector)
      modifies this`instance
      ensures instance == Some(c)
      ensures old(instance).Some? ==> c == old(instance).value
      ensures old(instance).None? ==>
                && fresh(c) && c.Valid() && !c.connected && c.sent == [] && c.attempts == 0
                && c.host == DefaultHost && c.port == DefaultPort && c.timeout == DefaultTimeout
                && c.net == net && c.rt == rt
    {
      if instance.None? {
        var created := new Connector(DefaultHost, DefaultPort, DefaultTimeout, net, rt);
        instance := Some(created);
      }
      c := instance.value;
    }
  }

  /** Two calls of `get_connector` give the same object. */
  method SameConnector(registry: Registry) returns (first: Connector, second: Connector)
    modifies registry`instance
    ensures first == second && registry.instance == Some(first)
  {
    first := registry.GetConnector();
    second := registry.GetConnector();
  }
}
