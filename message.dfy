/** The message envelope of the peer protocol and the two stream exchanges
    built on it (internal/p2p/message.go): answering an inbound stream and
    sending one request and awaiting its reply. JSON encoding and the byte
    stream are abstract: a `Codec` bundles the encoders and decoders the code
    calls, and a `Stream` has fixed read and write outcomes. */
module P2pMessage {
  import opened Base

  /** The seven message kinds the protocol names. */
  datatype Kind = Chat | Complete | Register | Ping | Pong | Error | Announce

  /** The wire tag of each kind. */
  function Tag(k: Kind): string {
    match k
    case Chat => "chat"
    case Complete => "complete"
    case Register => "register"
    case Ping => "ping"
    case Pong => "pong"
    case Error => "error"
    case Announce => "announce"
  }

  /** The kind a wire tag names, if any; every other tag is carried unchanged
      and is dispatched to no handler. */
  function KindOf(tag: string): (k: Option<Kind>)
    ensures k.Some? ==> Tag(k.value) == tag
    ensures k.None? ==> forall kind :: Tag(kind) != tag
  {
    if tag == "chat" then Some(Chat)
    else if tag == "complete" then Some(Complete)
    else if tag == "register" then Some(Register)
    else if tag == "ping" then Some(Ping)
    else if tag == "pong" then Some(Pong)
    else if tag == "error" then Some(Error)
    else if tag == "announce" then Some(Announce)
    else None
  }

  /** The seven tags are pairwise distinct, so a tag names at most one kind. */
  lemma TagsDistinct(a: Kind, b: Kind)
    requires Tag(a) == Tag(b)
    ensures a == b
  {
    assert KindOf(Tag(a)) == Some(a);
  }

  /** The envelope. `msgType` is the tag as it travels; `to` and `requestId`
      are empty when absent; the payload is raw JSON interpreted per type. */
  datatype Message = Message(msgType: string, from: string, to: string, requestId: string, payload: Bytes)

  datatype RegisterPayload = RegisterPayload(agentName: string, endpoint: string, models: seq<string>)

  datatype AnnouncePayload = AnnouncePayload(kind: string, name: string, url: string, description: string, tags: seq<string>)

  datatype ChatMessage = ChatMessage(role: string, content: string)

  datatype ChatRequest = ChatRequest(model: string, messages: seq<ChatMessage>)

  datatype ChatChoice = ChatChoice(index: int, message: ChatMessage)

  datatype ChatResponse = ChatResponse(id: string, objectType: string, created: int, model: string, choices: seq<ChatChoice>)

  /** The JSON marshal and unmarshal calls the core makes. Marshalling an
      envelope can fail (its raw payload must be valid JSON); the payload
      encoders' errors are discarded by the code, so they are total here. */
  datatype Codec = Codec(
    encode: Message -> Option<Bytes>,
    decode: Bytes -> Option<Message>,
    encodeRegister: RegisterPayload -> Bytes,
    decodeRegister: Bytes -> Option<RegisterPayload>,
    encodeAnnounce: AnnouncePayload -> Bytes,
    decodeAnnounce: Bytes -> Option<AnnouncePayload>,
    encodeChatRequest: ChatRequest -> Bytes,
    decodeChatRequest: Bytes -> Option<ChatRequest>,
    encodeChatResponse: ChatResponse -> Bytes,
    decodeChatResponse: Bytes -> Option<ChatResponse>,
    encodeErrorText: string -> Bytes)

  /** A codec whose payload decoders invert its payload encoders. */
  ghost predicate PayloadsRoundTrip(c: Codec) {
    && (forall p :: c.decodeRegister(c.encodeRegister(p)) == Some(p))
    && (forall p :: c.decodeAnnounce(c.encodeAnnounce(p)) == Some(p))
    && (forall p :: c.decodeChatRequest(c.encodeChatRequest(p)) == Some(p))
    && (forall p :: c.decodeChatResponse(c.encodeChatResponse(p)) == Some(p))
  }

  /** What a message handler returns: a reply to write back, nothing, or an
      error (the code's `(*Message, error)` pair, which is never both). */
  datatype Outcome = Reply(msg: Message) | NoReply | Failed(reason: string)

  /** What this side does to a stream, in the order it does it. */
  datatype StreamOp = Wrote(data: Bytes) | HalfClosed | ReadToEnd | Closed

  /** One stream, seen from this side. The transport fixes what reading the
      stream to its end yields (`None`: the read fails) and whether writes
      succeed; `ops` logs every operation this side performs, in order. */
  class Stream {
    const remote: PeerId
    const incoming: Option<Bytes>
    const writable: bool
    var ops: seq<StreamOp>

    constructor (remote: PeerId, incoming: Option<Bytes>, writable: bool)
      ensures this.remote == remote && this.incoming == incoming && this.writable == writable
      ensures ops == []
    {
      this.remote := remote;
      this.incoming := incoming;
      this.writable := writable;
      ops := [];
    }

    /** Write the bytes; `ok` is the transport's verdict. */
    method Write(data: Bytes) returns (ok: bool)
      modifies this
      ensures ok == writable
      ensures ops == old(ops) + [Wrote(data)]
    {
      ops := ops + [Wrote(data)];
      ok := writable;
    }

    /** Half-close: no more data from this side, replies may still be read. */
    method CloseWrite()
      modifies this
      ensures ops == old(ops) + [HalfClosed]
    {
      ops := ops + [HalfClosed];
    }

    /** Read everything until the other side closes. */
    method ReadAll() returns (data: Option<Bytes>)
      modifies this
      ensures data == incoming
      ensures ops == old(ops) + [ReadToEnd]
    {
      ops := ops + [ReadToEnd];
      data := incoming;
    }

    method Close()
      modifies this
      ensures ops == old(ops) + [Closed]
    {
      ops := ops + [Closed];
    }
  }

  /** Serve one inbound stream: read the request to its end, decode it, pass
      it to the handler (applied to the remote peer), and write the encoded
      reply back when there is one. Each failure ends the exchange without a
      reply. The request is read in full before anything is written, the
      write side is never half-closed, and the stream is closed last. */
  method HandleStream(s: Stream, handler: Option<(PeerId, Message) -> Outcome>, codec: Codec)
    modifies s
    ensures s.incoming.None? || codec.decode(s.incoming.value).None? || handler.None? ==>
      s.ops == old(s.ops) + [ReadToEnd, Closed]
    ensures s.incoming.Some? && codec.decode(s.incoming.value).Some? && handler.Some? ==>
      var reply := handler.value(s.remote, codec.decode(s.incoming.value).value);
      s.ops == old(s.ops) + [ReadToEnd] +
        (if reply.Reply? && codec.encode(reply.msg).Some? then [Wrote(codec.encode(reply.msg).value)] else []) +
        [Closed]
  {
    var data := s.ReadAll();
    if data.None? {
      s.Close();
      return;
    }
    var msg := codec.decode(data.value);
    if msg.None? {
      s.Close();
      return;
    }
    if handler.None? {
      s.Close();
      return;
    }
    var response := handler.value(s.remote, msg.value);
    if response.Failed? || response.NoReply? {
      s.Close();
      return;
    }
    var respData := codec.encode(response.msg);
    if respData.None? {
      s.Close();
      return;
    }
    var _ := s.Write(respData.value);
    s.Close();
  }

  /** How a directed send can fail, with the text the code prefixes to the
      underlying error. */
  datatype SendError = OpenFailed | MarshalFailed | WriteFailed | ReadFailed | UnmarshalFailed {
    function Text(): string {
      match this
      case OpenFailed => "failed to open stream"
      case MarshalFailed => "failed to marshal message"
      case WriteFailed => "failed to write message"
      case ReadFailed => "failed to read response"
      case UnmarshalFailed => "failed to unmarshal response"
    }
  }

  /** Send one request and await at most one reply. `s` is the fresh stream
      the transport opened to the peer, or null when opening failed. The
      request is written and the write side half-closed before the reply is
      read; a failed write reads nothing. An empty reply body means "no
      reply", which is not an error. The stream is closed last. */
  method SendMessage(s: Stream?, msg: Message, codec: Codec) returns (resp: Option<Message>, err: Option<SendError>)
    requires s != null ==> s.ops == []
    modifies s
    ensures resp.Some? ==> err.None?
    ensures s == null ==> resp.None? && err == Some(OpenFailed)
    ensures s != null && codec.encode(msg).None? ==>
      resp.None? && err == Some(MarshalFailed) && s.ops == [Closed]
    ensures s != null && codec.encode(msg).Some? && !s.writable ==>
      resp.None? && err == Some(WriteFailed) && s.ops == [Wrote(codec.encode(msg).value), Closed]
    ensures s != null && codec.encode(msg).Some? && s.writable ==>
      s.ops == [Wrote(codec.encode(msg).value), HalfClosed, ReadToEnd, Closed] &&
      match s.incoming
      case None => resp.None? && err == Some(ReadFailed)
      case Some(body) =>
        if body == [] then resp.None? && err.None?
        else if codec.decode(body).None? then resp.None? && err == Some(UnmarshalFailed)
        else resp == codec.decode(body) && err.None?
  {
    if s == null {
      return None, Some(OpenFailed);
    }
    var data := codec.encode(msg);
    if data.None? {
      s.Close();
      return None, Some(MarshalFailed);
    }
    var ok := s.Write(data.value);
    if !ok {
      s.Close();
      return None, Some(WriteFailed);
    }
    s.CloseWrite();
    var respData := s.ReadAll();
    if respData.None? {
      s.Close();
      return None, Some(ReadFailed);
    }
    if |respData.value| == 0 {
      s.Close();
      return None, None;
    }
    var response := codec.decode(respData.value);
    if response.None? {
      s.Close();
      return None, Some(UnmarshalFailed);
    }
    s.Close();
    return response, None;
  }
}
