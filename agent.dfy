/** The agent coordination layer (internal/agent/agent.go): the handler the
    node installs for inbound messages, the agent registry it keeps beside
    the host's name table, the agent listing of the HTTP gateway, and the
    messages the agent sends. The handler's effect on state is given by pure
    functions (`RegisterStep`, `Dispatch`); the `Agent` class performs them in
    place, and `Step`/`Run` compose them with the connection notifications
    into one state machine of a node. */
module AgentCore {
  import opened Base
  import opened P2pMessage
  import opened P2pHost

  /** What a remote agent advertised when it registered. */
  datatype AgentRecord = AgentRecord(peerId: PeerId, name: string, endpoint: string, models: seq<string>)

  /** Peer identity -> the agent record that peer registered last. */
  type Registry = map<PeerId, AgentRecord>

  /** Every record is filed under its sender, and the name it carries is
      claimed by that sender in the name table. */
  ghost predicate Consistent(registry: Registry, names: NameTable) {
    forall p :: p in registry ==>
      registry[p].peerId == p && registry[p].name in names && names[registry[p].name] == p
  }

  /** The state the message handlers read and write. */
  datatype Coordination = Coordination(names: NameTable, registry: Registry)

  /** A handler's reply and the state it leaves behind. */
  datatype Handled = Handled(outcome: Outcome, state: Coordination)

  /** The acknowledgement every successful register, ping and announce gets. */
  function PongFrom(local: PeerId): Message {
    Message(Tag(Pong), local, "", "", [])
  }

  /** The reply to a refused registration: an error-typed message whose
      payload is the JSON object {"error": text}. */
  function ErrorReply(local: PeerId, text: string, codec: Codec): Message {
    Message(Tag(Error), local, "", "", codec.encodeErrorText(text))
  }

  const UndecodablePayload: string := "payload does not decode"

  /** A register message: its payload claims a name for the sender. Only a
      successful claim writes the sender's record; a refused claim is
      answered with an error reply, which is not a handler error. */
  function RegisterStep(st: Coordination, local: PeerId, from: PeerId, msg: Message, codec: Codec): (r: Handled)
    ensures codec.decodeRegister(msg.payload).None? ==> r == Handled(Failed(UndecodablePayload), st)
    ensures codec.decodeRegister(msg.payload).Some? ==>
      var p := codec.decodeRegister(msg.payload).value;
      var claim := ClaimName(st.names, p.agentName, from);
      && r.state.names == claim.names
      && (claim.err.None? ==>
            r.outcome == Reply(PongFrom(local)) &&
            r.state.registry == st.registry[from := AgentRecord(from, p.agentName, p.endpoint, p.models)])
      && (claim.err.Some? ==>
            r.outcome == Reply(ErrorReply(local, claim.err.value, codec)) && r.state == st)
    ensures forall q :: q != from ==>
      (q in r.state.registry <==> q in st.registry) &&
      (q in st.registry ==> r.state.registry[q] == st.registry[q])
    ensures forall n :: n in st.names ==> n in r.state.names && r.state.names[n] == st.names[n]
    ensures Consistent(st.registry, st.names) ==> Consistent(r.state.registry, r.state.names)
  {
    match codec.decodeRegister(msg.payload)
    case None => Handled(Failed(UndecodablePayload), st)
    case Some(p) =>
      var claim := ClaimName(st.names, p.agentName, from);
      if claim.err.Some? then
        Handled(Reply(ErrorReply(local, claim.err.value, codec)), st)
      else
        Handled(Reply(PongFrom(local)),
                Coordination(claim.names, st.registry[from := AgentRecord(from, p.agentName, p.endpoint, p.models)]))
  }

  /** A ping is always acknowledged with a bare pong: no recipient, no
      correlation token and an empty payload. */
  function PingStep(local: PeerId): (o: Outcome)
    ensures o.Reply? && o.msg.msgType == "pong" && o.msg.from == local
    ensures o.msg.to == "" && o.msg.requestId == "" && o.msg.payload == []
  {
    Reply(PongFrom(local))
  }

  /** An announcement is acknowledged once its payload decodes. */
  function AnnounceStep(local: PeerId, msg: Message, codec: Codec): (o: Outcome)
    ensures codec.decodeAnnounce(msg.payload).None? ==> o == Failed(UndecodablePayload)
    ensures codec.decodeAnnounce(msg.payload).Some? ==> o == Reply(PongFrom(local))
  {
    if codec.decodeAnnounce(msg.payload).None? then Failed(UndecodablePayload) else Reply(PongFrom(local))
  }

  /** A chat request is forwarded to the model backend (`forward`, which
      stands for the HTTP call); its answer comes back complete-typed and
      carries the request's correlation token. */
  function ChatStep(local: PeerId, msg: Message, codec: Codec, forward: ChatRequest -> Result<ChatResponse, string>): (o: Outcome)
    ensures codec.decodeChatRequest(msg.payload).None? ==> o == Failed(UndecodablePayload)
    ensures codec.decodeChatRequest(msg.payload).Some? ==>
      match forward(codec.decodeChatRequest(msg.payload).value)
      case Failure(e) => o == Failed(e)
      case Success(resp) =>
        o.Reply? && o.msg.msgType == "complete" && o.msg.from == local && o.msg.to == "" &&
        o.msg.requestId == msg.requestId && o.msg.payload == codec.encodeChatResponse(resp)
  {
    match codec.decodeChatRequest(msg.payload)
    case None => Failed(UndecodablePayload)
    case Some(req) =>
      match forward(req)
      case Failure(e) => Failed(e)
      case Success(resp) => Reply(Message(Tag(Complete), local, "", msg.requestId, codec.encodeChatResponse(resp)))
  }

  /** The installed message handler: register, chat, ping and announce go to
      their handlers; every other type, known or not, gets no reply and no
      error. Only a register can change state. */
  function Dispatch(st: Coordination, local: PeerId, from: PeerId, msg: Message, codec: Codec,
                    forward: ChatRequest -> Result<ChatResponse, string>): (r: Handled)
    ensures KindOf(msg.msgType) == Some(Register) ==> r == RegisterStep(st, local, from, msg, codec)
    ensures KindOf(msg.msgType) == Some(Chat) ==> r == Handled(ChatStep(local, msg, codec, forward), st)
    ensures KindOf(msg.msgType) == Some(Ping) ==> r == Handled(PingStep(local), st)
    ensures KindOf(msg.msgType) == Some(Announce) ==> r == Handled(AnnounceStep(local, msg, codec), st)
    ensures KindOf(msg.msgType) !in {Some(Register), Some(Chat), Some(Ping), Some(Announce)} ==> r == Handled(NoReply, st)
    ensures r.outcome.Reply? ==> r.outcome.msg.from == local
    ensures r.outcome.Reply? ==> r.outcome.msg.msgType in {"pong", "error", "complete"}
    ensures forall n :: n in st.names ==> n in r.state.names && r.state.names[n] == st.names[n]
    ensures Consistent(st.registry, st.names) ==> Consistent(r.state.registry, r.state.names)
  {
    match KindOf(msg.msgType)
    case Some(Register) => RegisterStep(st, local, from, msg, codec)
    case Some(Chat) => Handled(ChatStep(local, msg, codec, forward), st)
    case Some(Ping) => Handled(PingStep(local), st)
    case Some(Announce) => Handled(AnnounceStep(local, msg, codec), st)
    case _ => Handled(NoReply, st)
  }

  /** A message whose type tag is unknown decodes like any other and is
      ignored: no reply, no error, no change. */
  lemma UnknownTypeIgnored(st: Coordination, local: PeerId, from: PeerId, msg: Message, codec: Codec,
                           forward: ChatRequest -> Result<ChatResponse, string>)
    requires KindOf(msg.msgType).None?
    ensures Dispatch(st, local, from, msg, codec, forward) == Handled(NoReply, st)
  {
  }

  /** The payload the agent advertises about itself at start-up. */
  function RegistrationPayload(agentName: string, httpPort: int): RegisterPayload {
    RegisterPayload(agentName, "http://localhost:" + IntToDecimal(httpPort), ["gpt-4", "gpt-3.5-turbo"])
  }

  /** The advertised endpoint names the configured port: the digits after
      "http://localhost:" read back as that port. */
  lemma RegistrationEndpointPort(agentName: string, httpPort: nat)
    ensures var e := RegistrationPayload(agentName, httpPort).endpoint;
      HasPrefix(e, "http://localhost:") && IsDigits(e[17..]) && DecimalValue(e[17..]) == httpPort
  {
    NatToDecimalRoundTrip(httpPort);
    var e := RegistrationPayload(agentName, httpPort).endpoint;
    assert e[17..] == NatToDecimal(httpPort);
  }

  function RegistrationMessage(local: PeerId, agentName: string, httpPort: int, codec: Codec): Message {
    Message(Tag(Register), local, "", "", codec.encodeRegister(RegistrationPayload(agentName, httpPort)))
  }

  /** The resource advertisement the gateway's announce request turns into. */
  datatype AnnounceRequest = AnnounceRequest(kind: string, name: string, url: string, description: string, tags: seq<string>)

  function AnnounceMessage(local: PeerId, req: AnnounceRequest, codec: Codec): Message {
    Message(Tag(Announce), local, "", "",
            codec.encodeAnnounce(AnnouncePayload(req.kind, req.name, req.url, req.description, req.tags)))
  }

  /** A chat request addressed to one agent, with a fresh correlation token. */
  function ChatMessageTo(local: PeerId, agentId: string, requestId: string, req: ChatRequest, codec: Codec): Message {
    Message(Tag(Chat), local, agentId, requestId, codec.encodeChatRequest(req))
  }

  /** Our registration, received by another node, claims our configured
      name for us there when it is free and records where we can be reached. */
  lemma RegistrationReceived(st: Coordination, remote: PeerId, local: PeerId, agentName: string, httpPort: int,
                             codec: Codec, forward: ChatRequest -> Result<ChatResponse, string>)
    requires PayloadsRoundTrip(codec)
    requires agentName !in st.names
    ensures var r := Dispatch(st, remote, local, RegistrationMessage(local, agentName, httpPort, codec), codec, forward);
      && r.outcome == Reply(PongFrom(remote))
      && r.state.names == st.names[agentName := local]
      && r.state.registry == st.registry[local := AgentRecord(local, agentName, "http://localhost:" + IntToDecimal(httpPort), ["gpt-4", "gpt-3.5-turbo"])]
  {
    assert codec.decodeRegister(codec.encodeRegister(RegistrationPayload(agentName, httpPort))) == Some(RegistrationPayload(agentName, httpPort));
  }

  /** Our announcement, received by another node, is acknowledged and
      changes nothing there. */
  lemma AnnouncementReceived(st: Coordination, remote: PeerId, local: PeerId, req: AnnounceRequest,
                             codec: Codec, forward: ChatRequest -> Result<ChatResponse, string>)
    requires PayloadsRoundTrip(codec)
    ensures Dispatch(st, remote, local, AnnounceMessage(local, req, codec), codec, forward) == Handled(Reply(PongFrom(remote)), st)
  {
    var p := AnnouncePayload(req.kind, req.name, req.url, req.description, req.tags);
    assert codec.decodeAnnounce(codec.encodeAnnounce(p)) == Some(p);
  }

  /** A chat request we address to another node is answered with a
      completion that echoes our correlation token, when its backend answers. */
  lemma ChatReceived(st: Coordination, remote: PeerId, local: PeerId, agentId: string, requestId: string,
                     req: ChatRequest, codec: Codec, forward: ChatRequest -> Result<ChatResponse, string>)
    requires PayloadsRoundTrip(codec)
    requires forward(req).Success?
    ensures var r := Dispatch(st, remote, local, ChatMessageTo(local, agentId, requestId, req, codec), codec, forward);
      && r.state == st
      && r.outcome.Reply? && r.outcome.msg.msgType == "complete"
      && r.outcome.msg.requestId == requestId
      && codec.decodeChatResponse(r.outcome.msg.payload) == Some(forward(req).value)
  {
    assert codec.decodeChatRequest(codec.encodeChatRequest(req)) == Some(req);
    assert codec.decodeChatResponse(codec.encodeChatResponse(forward(req).value)) == Some(forward(req).value);
  }

  /** One row of the gateway's agent listing. */
  datatype AgentInfo = AgentInfo(id: PeerId, name: string, peerId: PeerId, endpoint: string, models: seq<string>, connected: bool)

  /** A listing row describes the known peer `id`: its identity and
      connection flag, and its registered name, endpoint and models when it
      has a record (empty otherwise). */
  ghost predicate Describes(row: AgentInfo, id: PeerId, peers: PeerTable, registry: Registry) {
    && id in peers && row.id == id && row.peerId == id && row.connected == peers[id].connected
    && (id in registry ==> row.name == registry[id].name && row.endpoint == registry[id].endpoint && row.models == registry[id].models)
    && (id !in registry ==> row.name == "" && row.endpoint == "" && row.models == [])
  }

  datatype AgentsResponse = AgentsResponse(objectType: string, data: seq<AgentInfo>)

  datatype Model = Model(id: string, objectType: string, created: int, ownedBy: string)

  datatype ModelsResponse = ModelsResponse(objectType: string, data: seq<Model>)

  /** The two models the gateway lists, stamped with the current time `now`. */
  function ListModels(now: int): (r: ModelsResponse)
    ensures r.objectType == "list" && |r.data| == 2
    ensures r.data[0].id == "gpt-4" && r.data[1].id == "gpt-3.5-turbo"
    ensures forall i :: 0 <= i < |r.data| ==> r.data[i].created == now && r.data[i].ownedBy == "openai" && r.data[i].objectType == "model"
  {
    ModelsResponse("list", [Model("gpt-4", "model", now, "openai"), Model("gpt-3.5-turbo", "model", now, "openai")])
  }

  /** The node's state as one value: the host's peer table beside the
      coordination state. */
  datatype Node = Node(peers: PeerTable, coord: Coordination)

  /** What can happen to a node: a connection comes up or goes down, or a
      decoded message arrives on an inbound stream. The `from` of an inbound
      message is the remote peer of the stream it came on, which
      `HandleStream` hands to the handler. */
  datatype Event = PeerUp(id: PeerId) | PeerDown(id: PeerId) | Inbound(from: PeerId, msg: Message)

  ghost predicate NodeInvariant(n: Node) {
    WellKeyed(n.peers) && Consistent(n.coord.registry, n.coord.names)
  }

  function Step(n: Node, local: PeerId, e: Event, codec: Codec, forward: ChatRequest -> Result<ChatResponse, string>): Node {
    match e
    case PeerUp(id) => Node(Connect(n.peers, id), n.coord)
    case PeerDown(id) => Node(Disconnect(n.peers, id), n.coord)
    case Inbound(from, msg) => Node(n.peers, Dispatch(n.coord, local, from, msg, codec, forward).state)
  }

  function Run(n: Node, local: PeerId, events: seq<Event>, codec: Codec, forward: ChatRequest -> Result<ChatResponse, string>): Node
    decreases |events|
  {
    if events == [] then n
    else Step(Run(n, local, events[..|events| - 1], codec, forward), local, events[|events| - 1], codec, forward)
  }

  /** Every run keeps the peer table well keyed and the registry consistent
      with the name table. */
  lemma {:induction false} RunPreservesInvariant(n: Node, local: PeerId, events: seq<Event>, codec: Codec,
                                                 forward: ChatRequest -> Result<ChatResponse, string>)
    requires NodeInvariant(n)
    ensures NodeInvariant(Run(n, local, events, codec, forward))
    decreases |events|
  {
    if events != [] {
      RunPreservesInvariant(n, local, events[..|events| - 1], codec, forward);
    }
  }

  /** First claim wins for good: once a name is claimed, every later state
      still has it claimed by the same peer, whatever connects, disconnects
      or registers in between. */
  lemma {:induction false} RunKeepsClaims(n: Node, local: PeerId, events: seq<Event>, codec: Codec,
                                          forward: ChatRequest -> Result<ChatResponse, string>, name: string)
    requires name in n.coord.names
    ensures name in Run(n, local, events, codec, forward).coord.names
    ensures Run(n, local, events, codec, forward).coord.names[name] == n.coord.names[name]
    decreases |events|
  {
    if events != [] {
      RunKeepsClaims(n, local, events[..|events| - 1], codec, forward, name);
    }
  }

  /** Peers are never forgotten: every known identity stays in the table. */
  lemma {:induction false} RunKeepsPeers(n: Node, local: PeerId, events: seq<Event>, codec: Codec,
                                         forward: ChatRequest -> Result<ChatResponse, string>)
    ensures n.peers.Keys <= Run(n, local, events, codec, forward).peers.Keys
    decreases |events|
  {
    if events != [] {
      RunKeepsPeers(n, local, events[..|events| - 1], codec, forward);
    }
  }

  /** A peer that registers a name and then disconnects stays behind as a
      tombstone that still owns the name, so another peer's claim on it is
      refused. */
  lemma TombstoneKeepsName(n: Node, local: PeerId, p1: PeerId, p2: PeerId, name: string, endpoint: string,
                           models: seq<string>, codec: Codec, forward: ChatRequest -> Result<ChatResponse, string>)
    requires PayloadsRoundTrip(codec)
    requires name !in n.coord.names && p1 != p2
    ensures var msg := Message(Tag(Register), p1, "", "", codec.encodeRegister(RegisterPayload(name, endpoint, models)));
      var after := Run(n, local, [PeerUp(p1), Inbound(p1, msg), PeerDown(p1)], codec, forward);
      && p1 in after.peers && !after.peers[p1].connected
      && name in after.coord.names && after.coord.names[name] == p1
      && ClaimName(after.coord.names, name, p2).err.Some?
  {
    var msg := Message(Tag(Register), p1, "", "", codec.encodeRegister(RegisterPayload(name, endpoint, models)));
    var events := [PeerUp(p1), Inbound(p1, msg), PeerDown(p1)];
    assert events[..2][..1] == [PeerUp(p1)];
    assert events[..2] == [PeerUp(p1), Inbound(p1, msg)];
    assert codec.decodeRegister(msg.payload) == Some(RegisterPayload(name, endpoint, models));
    var up := Run(n, local, events[..2][..1], codec, forward);
    assert up == Step(Run(n, local, [], codec, forward), local, PeerUp(p1), codec, forward);
    var registered := Run(n, local, events[..2], codec, forward);
    assert registered.coord.names == n.coord.names[name := p1];
  }

  /** The prefix a directed send's transport error is reported under. */
  const SendFailed: string := "failed to send to agent: "

  /** The agent: its handle on the host and its registry of remote agents. */
  class Agent {
    const host: Host
    const codec: Codec
    const agentName: string
    const httpPort: int
    var registry: Registry

    ghost predicate Valid()
      reads this, host
    {
      host.Valid() && Consistent(registry, host.agentNames)
    }

    ghost function State(): Coordination
      reads this, host
    {
      Coordination(host.agentNames, registry)
    }

    constructor (host: Host, codec: Codec, agentName: string, httpPort: int)
      requires host.Valid()
      ensures Valid()
      ensures this.host == host && this.codec == codec && this.agentName == agentName && this.httpPort == httpPort
      ensures registry == map[]
    {
      this.host := host;
      this.codec := codec;
      this.agentName := agentName;
      this.httpPort := httpPort;
      registry := map[];
    }

    method HandleRegister(from: PeerId, msg: Message) returns (out: Outcome)
      requires Valid()
      modifies this, host
      ensures Valid()
      ensures Handled(out, State()) == RegisterStep(old(State()), host.localId, from, msg, codec)
      ensures host.peers == old(host.peers)
    {
      var payload := codec.decodeRegister(msg.payload);
      if payload.None? {
        return Failed(UndecodablePayload);
      }
      var p := payload.value;
      var err := host.RegisterAgentName(p.agentName, from);
      if err.Some? {
        return Reply(ErrorReply(host.localId, err.value, codec));
      }
      registry := registry[from := AgentRecord(from, p.agentName, p.endpoint, p.models)];
      return Reply(PongFrom(host.localId));
    }

    /** The handler installed on the host for every inbound message. */
    method HandleP2PMessage(from: PeerId, msg: Message, forward: ChatRequest -> Result<ChatResponse, string>)
      returns (out: Outcome)
      requires Valid()
      modifies this, host
      ensures Valid()
      ensures Handled(out, State()) == Dispatch(old(State()), host.localId, from, msg, codec, forward)
      ensures host.peers == old(host.peers)
    {
      match KindOf(msg.msgType)
      case Some(Register) =>
        out := HandleRegister(from, msg);
      case Some(Chat) =>
        out := ChatStep(host.localId, msg, codec, forward);
      case Some(Ping) =>
        out := PingStep(host.localId);
      case Some(Announce) =>
        out := AnnounceStep(host.localId, msg, codec);
      case _ =>
        out := NoReply;
    }

    /** The gateway's agent listing: one row per known peer, connected or
        not, with the registered name, endpoint and models when that peer
        has a record. */
    method HandleListAgents() returns (resp: AgentsResponse)
      requires host.Valid()
      ensures resp.objectType == "list"
      ensures |resp.data| == |host.peers|
      ensures forall i :: 0 <= i < |resp.data| ==> Describes(resp.data[i], resp.data[i].id, host.peers, registry)
      ensures forall id :: id in host.peers ==> exists i :: 0 <= i < |resp.data| && resp.data[i].id == id
      ensures forall i, j :: 0 <= i < j < |resp.data| ==> resp.data[i].id != resp.data[j].id
    {
      var peers := host.GetPeers();
      var agents := Rows(peers);
      resp := AgentsResponse("list", agents);
      forall id | id in host.peers
        ensures exists i :: 0 <= i < |agents| && agents[i].id == id
      {
        var i :| 0 <= i < |peers| && peers[i].id == id;
        assert agents[i].id == id;
      }
    }

    /** The listing rows for a snapshot of known peers, in snapshot order. */
    method Rows(peers: seq<PeerInfo>) returns (agents: seq<AgentInfo>)
      requires forall k :: 0 <= k < |peers| ==> peers[k].id in host.peers && host.peers[peers[k].id] == peers[k]
      ensures |agents| == |peers|
      ensures forall k :: 0 <= k < |peers| ==> agents[k].id == peers[k].id
      ensures forall k :: 0 <= k < |peers| ==> Describes(agents[k], peers[k].id, host.peers, registry)
    {
      agents := [];
      for i := 0 to |peers|
        invariant |agents| == i
        invariant forall k :: 0 <= k < i ==> agents[k].id == peers[k].id
        invariant forall k :: 0 <= k < i ==> Describes(agents[k], peers[k].id, host.peers, registry)
      {
        var p := peers[i];
        var info := AgentInfo(p.id, "", p.id, "", [], p.connected);
        if p.id in registry {
          var record := registry[p.id];
          info := info.(name := record.name, endpoint := record.endpoint, models := record.models);
        }
        agents := agents + [info];
      }
    }

    /** Advertise this agent's name, endpoint and models to every connected
        peer; the result of the broadcast is discarded. */
    method BroadcastRegistration(failing: set<PeerId>) returns (sends: seq<Send>)
      ensures forall id :: id in Recipients(sends) <==> id in host.peers && host.peers[id].connected
      ensures Distinct(Recipients(sends))
      ensures forall i :: 0 <= i < |sends| ==>
        sends[i].msg == RegistrationMessage(host.localId, agentName, httpPort, codec) && (sends[i].delivered <==> sends[i].to !in failing)
    {
      var msg := RegistrationMessage(host.localId, agentName, httpPort, codec);
      var ignored;
      sends, ignored := host.Broadcast(msg, failing);
    }

    /** Turn the gateway's announce request into an announce message for
        every connected peer; the broadcast never reports an error. */
    method HandleAnnounce(req: AnnounceRequest, failing: set<PeerId>) returns (sends: seq<Send>, err: Option<string>)
      ensures err.None?
      ensures forall id :: id in Recipients(sends) <==> id in host.peers && host.peers[id].connected
      ensures Distinct(Recipients(sends))
      ensures forall i :: 0 <= i < |sends| ==>
        sends[i].msg == AnnounceMessage(host.localId, req, codec) && (sends[i].delivered <==> sends[i].to !in failing)
    {
      var msg := AnnounceMessage(host.localId, req, codec);
      sends, err := host.Broadcast(msg, failing);
    }

    /** Send a chat request to one agent and return its completion. `peer`
        is the decoding of `agentId` as an identity (None: not an identity),
        `requestId` the fresh correlation token and `s` the stream the
        transport opens (null: it could not). */
    method HandleSendToAgent(agentId: string, peer: Option<PeerId>, requestId: string, req: ChatRequest, s: Stream?)
      returns (r: Result<ChatResponse, string>)
      requires s != null ==> s.ops == []
      requires s != null && peer.Some? ==> s.remote == peer.value
      modifies s
      ensures peer.None? ==> r == Failure("invalid agent ID") && (s != null ==> s.ops == [])
      ensures peer.Some? && s == null ==> r == Failure(SendFailed + OpenFailed.Text())
      ensures peer.Some? && s != null ==>
        var sent := codec.encode(ChatMessageTo(host.localId, agentId, requestId, req, codec));
        if sent.None? then
          r == Failure(SendFailed + MarshalFailed.Text()) && s.ops == [Closed]
        else if !s.writable then
          r == Failure(SendFailed + WriteFailed.Text()) && s.ops == [Wrote(sent.value), Closed]
        else
          s.ops == [Wrote(sent.value), HalfClosed, ReadToEnd, Closed] &&
          match s.incoming
          case None => r == Failure(SendFailed + ReadFailed.Text())
          case Some(body) =>
            if body == [] then r == Failure("no response from agent")
            else match codec.decode(body)
              case None => r == Failure(SendFailed + UnmarshalFailed.Text())
              case Some(reply) =>
                match codec.decodeChatResponse(reply.payload)
                case None => r == Failure("failed to parse agent response")
                case Some(answer) => r == Success(answer)
      ensures r.Success? ==> exists reply: Message ::
        s != null && s.incoming.Some? && codec.decode(s.incoming.value) == Some(reply) &&
        codec.decodeChatResponse(reply.payload) == Some(r.value)
    {
      if peer.None? {
        return Failure("invalid agent ID");
      }
      var msg := ChatMessageTo(host.localId, agentId, requestId, req, codec);
      var resp, err := SendMessage(s, msg, codec);
      if err.Some? {
        return Failure(SendFailed + err.value.Text());
      }
      if resp.None? {
        return Failure("no response from agent");
      }
      var chatResp := codec.decodeChatResponse(resp.value.payload);
      if chatResp.None? {
        return Failure("failed to parse agent response");
      }
      return Success(chatResp.value);
    }
  }
}
