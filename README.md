# agents-p2p-network, modelled in Dafny

A Dafny model of the core of a peer-to-peer network of AI agents. Each node
runs a libp2p host that tracks connected peers and arbitrates agent names
(first claim wins). It exchanges one-request-one-reply JSON envelopes over
streams, keeps a registry of the agents that registered with it, and fronts
all of this with an OpenAI-style HTTP gateway guarded by an API key. Around
the node sit the configuration validator and the key handling of the
`config` command.

The modules follow the Go files:

| module | file | Go source |
|---|---|---|
| `Base` | base.dfy | shared vocabulary: Option/Result, bytes, peer identities, Go's `len`, `%d`, `strings.Join` |
| `P2pMessage` | message.dfy | internal/p2p/message.go: envelope, message kinds, `handleStream`, `SendMessage` |
| `P2pHost` | host.dfy | internal/p2p/host.go, plus `Broadcast` from message.go |
| `AgentCore` | agent.dfy | internal/agent/agent.go |
| `ConfigValidation` | validation.dfy | internal/config/validation.go |
| `ApiServer` | server.dfy | internal/api/server.go |
| `CliConfig` | cliconfig.dfy | internal/cli/config.go |

How the model is built:

- The host is a class with its two tables as `map` fields: peers, with
  tombstones for disconnected peers, and agent names. The three methods that
  change the tables are tied to pure functions: `RegisterAgentName` to
  `ClaimName`, `OnPeerConnected` to `Connect` and `OnPeerDisconnected` to
  `Disconnect`. The properties of the tables are proved about those
  functions. The read-only methods (`MultiAddrs`, `IsNameTaken`, `GetPeers`,
  `ConnectedPeers`) and `Broadcast` state their results directly.
- The agent's message handler is the pure function `Dispatch` over the pair
  (name table, registry). `Agent.HandleP2PMessage` performs it in place on
  the agent and its host. `Step` and `Run` compose it with the connect and
  disconnect notifications into a node state machine. The invariants are
  proved by induction over any sequence of events.
- JSON is abstract. A `Codec` holds the marshal and unmarshal functions the
  code calls, and `PayloadsRoundTrip` names the assumption that payload
  decoding inverts encoding.
- A `Stream` has fixed read and write outcomes and logs, in order, what this
  side does to it: write, half-close, read to the end, close. The exchanges
  state the exact log on every path.
- Inputs that come from outside the process are parameters:
  - `forward` stands for the OpenAI backend;
  - `free` stands for the port probe;
  - `now` stands for the clock;
  - `failing` is the set of peers a broadcast cannot reach;
  - `peer` is the result of decoding an agent identity;
  - `line` and `saved` are the terminal read and the config-file write.

## Model

| member | source | states |
|---|---|---|
| P2pMessage.KindOf | internal/p2p/message.go:15-25 | A tag names a kind exactly when it is one of the seven wire strings, and then it names that kind. Any other tag names none. |
| P2pMessage.TagsDistinct | internal/p2p/message.go:17-25 | The seven tags are pairwise distinct. |
| P2pMessage.HandleStream | internal/p2p/message.go:70-105 | The request is read to its end first and the stream is closed last; the write side is never half-closed. A read failure, an undecodable request, a missing handler, a handler error, no reply, or a reply that cannot be marshalled all write nothing, so the log is read then close. Otherwise the handler is applied to the stream's remote peer and the decoded request, and exactly its marshalled reply is written once, between the read and the close. |
| P2pMessage.SendMessage | internal/p2p/message.go:107-141 | The failure chain in order: open, marshal, write, read, unmarshal. A failed marshal only closes the stream. A failed write is followed only by the close: nothing is read and the write side is not half-closed. A successful write is followed by exactly a half-close, one read to the end and the close, in that order. An empty reply body is "no reply" and no error. Otherwise the reply is the decoded body. |
| P2pHost.ClaimName | internal/p2p/host.go:126-138 | First claim wins. A free name goes to the claimant. A re-claim by the owner succeeds unchanged. A claim on another peer's name fails with a conflict text naming the owner's first 12 characters. Success holds iff the claimant owns the name afterwards. Existing claims are never removed or reassigned. |
| P2pHost.ClaimIdempotent | internal/p2p/host.go:126-138 | Repeating a successful claim succeeds and changes nothing. |
| P2pHost.Host.RegisterAgentName | internal/p2p/host.go:126-138 | The atomic check-and-set performs `ClaimName` on the name table and leaves the peer table untouched. |
| P2pHost.Host.IsNameTaken | internal/p2p/host.go:140-148 | Taken iff the name is claimed, together with its owner, or "" when the name is free. |
| P2pHost.Connect | internal/p2p/host.go:231-245 | Afterwards the peer is present and connected. An unknown peer gets a bare entry. A known entry keeps its other fields. Other peers are unchanged. The connected set grows by exactly this peer. |
| P2pHost.Disconnect | internal/p2p/host.go:247-256 | The key set is unchanged, so peers become tombstones rather than being removed. A known peer is marked disconnected. An unknown peer is ignored. The connected set shrinks by exactly this peer. |
| P2pHost.ConnectIdempotent | internal/p2p/host.go:231-245 | A repeated connect notification changes nothing more. |
| P2pHost.DisconnectIdempotent | internal/p2p/host.go:247-256 | A repeated disconnect notification changes nothing more. |
| P2pHost.Host.OnPeerConnected | internal/p2p/host.go:231-245 | Performs `Connect` on the peer table in place and leaves names untouched. |
| P2pHost.Host.OnPeerDisconnected | internal/p2p/host.go:247-256 | Performs `Disconnect` on the peer table in place and leaves names untouched. |
| P2pHost.Host.MultiAddrs | internal/p2p/host.go:109-116 | One result per listen address, in order: each is the address followed by "/p2p/" and the local identity. |
| P2pHost.Host.GetPeers | internal/p2p/host.go:212-221 | The snapshot holds every entry, including tombstones, exactly once, each equal to the table's entry. |
| P2pHost.Host.ConnectedPeers | internal/p2p/message.go:144-151 | The broadcast targets are exactly the connected peers, each once. |
| P2pHost.Host.Broadcast | internal/p2p/message.go:143-162 | Exactly one send per connected peer, all carrying the message. A failed send affects nothing else. The result is always "no error". |
| AgentCore.RegisterStep | internal/agent/agent.go:114-148 | An undecodable payload is a handler error and changes nothing. A name conflict is answered with an error-typed reply from the local node, carrying the conflict text, and leaves the registry unchanged. A successful claim files the sender's record under the sender and is answered with a pong. Other records are untouched, claims persist, and registry/name consistency is preserved. |
| AgentCore.PingStep | internal/agent/agent.go:170-175 | A ping is always answered with a bare pong from the local node: no recipient, no request id, an empty payload. |
| AgentCore.AnnounceStep | internal/agent/agent.go:177-194 | An announce is answered with a pong once its payload decodes, and is a handler error otherwise. |
| AgentCore.ChatStep | internal/agent/agent.go:150-168 | An undecodable request or a backend error is a handler error. Otherwise the reply is complete-typed, comes from the local node, has no recipient, echoes the request id, and carries the encoded completion. |
| AgentCore.Dispatch | internal/agent/agent.go:98-112 | Register, chat, ping and announce go to their handlers. Any other tag gets no reply and changes nothing. Every reply comes from the local node and is typed pong, error or complete. Claims persist and consistency is preserved. |
| AgentCore.UnknownTypeIgnored | internal/agent/agent.go:108-111 | A message with an unknown tag produces no reply, no error and no change. |
| AgentCore.RegistrationReceived | internal/agent/agent.go:196-211 | Our start-up registration, received by a node where our name is free, claims the name for us there. It records "http://localhost:<port>" and the two advertised models, and is answered with a pong. |
| AgentCore.RegistrationEndpointPort | internal/agent/agent.go:199 | The advertised endpoint is "http://localhost:" followed by decimal digits that read back as the configured HTTP port. |
| AgentCore.AnnouncementReceived | internal/agent/agent.go:316-338 | Our announcement, received by another node, is acknowledged and changes nothing there. |
| AgentCore.ChatReceived | internal/agent/agent.go:284-297 | A chat request we address to a node whose backend answers comes back complete-typed with our request id and the backend's response. |
| AgentCore.ListModels | internal/agent/agent.go:247-255 | The model list is "gpt-4" and then "gpt-3.5-turbo", each of object "model", owned by "openai", stamped with the current time. |
| AgentCore.RunPreservesInvariant | internal/agent/agent.go:135-140 | Over any sequence of connects, disconnects and inbound messages, the peer table stays well keyed. Every registry record stays filed under its sender, and that sender owns the record's name. |
| AgentCore.RunKeepsClaims | internal/p2p/host.go:126-138 | Once a name is claimed, every later state still has it, owned by the same peer. |
| AgentCore.RunKeepsPeers | internal/p2p/host.go:247-256 | No known identity ever leaves the peer table. |
| AgentCore.TombstoneKeepsName | internal/p2p/host.go:247-256 | A peer that registers a name and then disconnects remains in the table, disconnected, still owning the name, so another peer's claim on that name is refused. |
| AgentCore.Agent.HandleRegister | internal/agent/agent.go:114-148 | Performs `RegisterStep` in place on the agent and its host, keeps the agent's invariant, and leaves the peer table untouched. |
| AgentCore.Agent.HandleP2PMessage | internal/agent/agent.go:98-112 | Performs `Dispatch` in place on the agent and its host, keeps the agent's invariant, and leaves the peer table untouched. |
| AgentCore.Agent.HandleListAgents | internal/agent/agent.go:257-282 | One row per known peer, connected or not, each exactly once. Each row carries the peer's identity and connection flag. When the peer registered, the row also carries its registered name, endpoint and models; otherwise those fields are empty. |
| AgentCore.Agent.BroadcastRegistration | internal/agent/agent.go:196-211 | The registration message goes to exactly the connected peers, each once, and is delivered exactly to those the transport can reach. |
| AgentCore.Agent.HandleAnnounce | internal/agent/agent.go:316-338 | The announce message goes to exactly the connected peers, each once, and is delivered exactly to those the transport can reach. The result is always "no error". |
| AgentCore.Agent.HandleSendToAgent | internal/agent/agent.go:284-314 | An undecodable identity fails as "invalid agent ID" without touching the stream: its log stays empty. Otherwise the stream sees exactly what `SendMessage` does to it: the marshalled chat message is written, then the stream is half-closed, read to its end and closed, and a failed marshal or write cuts that sequence short before any read. Each transport failure (open, marshal, write, read, unmarshal) fails as "failed to send to agent: " with that step's text. An empty reply is "no response from agent". A reply payload that does not decode is "failed to parse agent response". Otherwise the result is a success carrying the decoded completion, and every success is one. |
| ConfigValidation.IsValidNameChar | internal/config/validation.go:138-143 | Accepted characters are single-byte (ASCII). |
| ConfigValidation.ValidateAPIKey | internal/config/validation.go:75-100 | Accepted iff the key starts with "sk-" and is at least 40 bytes long. Otherwise the first failing rule (empty, then prefix, then length) is reported on api_key with its message. |
| ConfigValidation.ValidateAgentName | internal/config/validation.go:102-136 | Accepted iff every character is valid and the name has 2 to 32 characters. Otherwise the first failing rule (empty, then characters, then short, then long) is reported on agent_name. |
| ConfigValidation.ApiKeyLengthInBytes | internal/config/validation.go:92 | The length rule counts bytes: a key with the "sk-" prefix and 39 characters, one of them beyond ASCII, is accepted. |
| ConfigValidation.AcceptedNameIsAscii | internal/config/validation.go:110-133 | An accepted name is ASCII, so the byte length the code checks equals its character count. |
| ConfigValidation.ValidatePort | internal/config/validation.go:145-161 | Accepted iff 1024 <= port <= 65535. Outside 1..65535 the range error is reported; for 1..1023 the privilege error. |
| ConfigValidation.CheckPortAvailable | internal/config/validation.go:163-174 | Fails iff the port cannot be bound, with "Port <n> is already in use". |
| ConfigValidation.Validate | internal/config/validation.go:35-73 | The collected list is the ordered concatenation of each check's at most one error. |
| ConfigValidation.StaticReportOrdered | internal/config/validation.go:35-62 | The static checks give at most five errors, in the strict field order api_key, agent_name, http_port, p2p_port, ports. |
| ConfigValidation.ReportEmptyIff | internal/config/validation.go:35-73 | No error iff all of these hold: the key starts with "sk-" and has at least 40 bytes; the name is 2 to 32 valid characters; both ports lie in 1024..65535; the ports differ; both ports can be bound. |
| ConfigValidation.EqualPortsReported | internal/config/validation.go:56-62 | Equal ports always produce the ports error, even when both ports are also invalid. |
| ConfigValidation.Render | internal/config/validation.go:14-16 | An error renders as its field, ": ", then its message. |
| ConfigValidation.ErrorText | internal/config/validation.go:20-29 | "" for no errors. Otherwise every error rendered, in order, joined by "; ". |
| ConfigValidation.ErrorTextStartsWithFirst | internal/config/validation.go:20-29 | The error text opens with the first error's rendering. |
| ConfigValidation.HasErrors | internal/config/validation.go:31-33 | True exactly for a non-empty list. |
| ConfigValidation.HasErrorsIffRejected | internal/config/validation.go:31-73 | A configuration has no errors iff every validator and both probes accept it and the ports differ. |
| ApiServer.TrimPrefix | internal/api/server.go:77 | At most one leading prefix is removed. A string without the prefix is returned unchanged. |
| ApiServer.Authorize | internal/api/server.go:63-91 | An empty header is refused as "Missing Authorization header", and any other refusal says "Invalid API key". A header is accepted iff it is non-empty and either is "Bearer " followed by the key, or lacks that prefix and equals the key. |
| ApiServer.BareKeyAccepted | internal/api/server.go:77-78 | The bare key sent without "Bearer " is accepted. |
| ApiServer.DoubledPrefixRefused | internal/api/server.go:77-78 | "Bearer Bearer <key>" is refused, because only one prefix is removed. |
| ApiServer.AgentChatId | internal/api/server.go:59 | The `:agent_id` parameter is one non-empty segment, and the path is rebuilt from it exactly. |
| ApiServer.AgentChatIdRoundTrip | internal/api/server.go:59 | Every non-empty segment is matched as the agent identity. |
| ApiServer.RegisteredRoutes | internal/api/server.go:54-59 | The four /v1 routes the code registers are reachable: GET /v1/models, POST /v1/chat/completions, GET /v1/agents, and POST /v1/agents/<id>/chat/completions for every non-empty, slash-free id. |
| ApiServer.MatchRouteAsWritten | internal/api/server.go:49-61 | The only route outside /v1/ is the health check, and no announce route exists. That the four /v1 routes are registered is stated by `RegisteredRoutes`. |
| ApiServer.AnnounceUnroutedAsWritten | internal/cli/announce.go:69-71 | The request the announce command sends, POST /v1/announce, matches no route. |
| ApiServer.MatchRoute | internal/api/server.go:49-61 | The table with the announce route added, and identical to the registered table everywhere else. |
| ApiServer.ApiError | internal/api/server.go:152-159 | The handler error shape: the given status and message, with type "api_error". |
| ApiServer.Serve | internal/api/server.go:49-150 | For either route table: an unmatched request gets 404. The health check is answered without the gate. Every success passed the gate. A matched /v1 request the gate refuses gets exactly 401 with the gate's message and type "invalid_request_error", and every 401 is such a refusal. Other errors are of type "api_error". For a matched, accepted /v1 route: a binding route with an undecodable body gets 400 "Invalid request body"; otherwise a handler success is 200 with exactly the handler's output, and a handler failure is 500 with exactly its error text. |
| ApiServer.RejectedIndependentOfHandler | internal/api/server.go:63-91 | A refused request never reaches a handler: its response is the same for every handler. |
| ApiServer.HealthUnguarded | internal/api/server.go:50 | /health answers whatever Authorization header is sent. |
| ApiServer.AnnounceNotFoundAsWritten | internal/api/server.go:49-61 | The gateway as written answers the announce command's correctly authorized POST /v1/announce with 404. |
| ApiServer.AnnounceServed | internal/cli/announce.go:69-79 | With the route added, the announce command's request, carrying the right key, reaches the announce handler with its body. |
| CliConfig.TrimSpace | internal/cli/config.go:47 | The result starts and ends with non-space characters, and is empty iff the input is all white space. |
| CliConfig.TrimSpaceIsSlice | internal/cli/config.go:47 | The result is a slice of the input, with only white space cut away at either end. |
| CliConfig.TrimSpaceIdempotent | internal/cli/config.go:47 | Trimming twice is trimming once. |
| CliConfig.SetKey | internal/cli/config.go:38-67 | A failed read, a key empty after trimming, and a failed save each fail with their message. Otherwise the call succeeds: the stored key is the trimmed, non-empty input, warned about iff it lacks "sk-", and stored either way. |
| CliConfig.MaskKey | internal/cli/config.go:75 | For a key of at least 7 characters, the mask has length 14: the first seven characters, "...", then the last four. |
| CliConfig.ShortKeyRevealed | internal/cli/config.go:75 | A key of 7 to 11 characters can be read back in full from its mask. |
| CliConfig.ShowKeyAsWritten | internal/cli/config.go:73-79 | An empty key shows "(not set)". A non-empty key shorter than 7 characters slices out of range. A longer key shows its mask. |
| CliConfig.ShowKey | internal/cli/config.go:73-79 | Agrees with the code wherever the code does not panic. Shows "..." for a key that is too short to mask. |
| CliConfig.StoredKeyPanicsShow | internal/cli/config.go:47-75 | `set-key` stores "abc" with only a warning, and `show` then slices out of range on it. |
| CliConfig.StoredKeyShown | internal/cli/config.go:47-79 | With the length check, every key `set-key` stores is shown: either as "..." or as its mask. |

## Left out

- Networking, which stays outside the model:
  - libp2p host creation, listening, mDNS and DHT discovery, bootstrap dialling, and `Close` (internal/p2p/host.go:48-100, 150-210, 223-229, 258-269). They are I/O against libp2p.
  - The peer notifications arrive as the events `PeerUp` and `PeerDown`.
- `forwardToOpenAI` and `HandleChatCompletion` (internal/agent/agent.go:213-245) are an HTTPS call. They become the `forward` parameter.
- JSON encoding and decoding are abstract (`Codec`). Structural JSON facts are not modelled, for example that a raw payload must itself be valid JSON.
- Logging throughout, including the `from.String()[:12]` slice in the announce log. `PeerId` guarantees at least 12 characters, so that slice cannot fail in the model.
- `PeerId`'s 12-character guarantee is also what keeps the `existingPeer.String()[:12]` slice of the conflict text (internal/p2p/host.go:132) in range in `ConflictText` and `RegisterAgentName`.
- ListModels: the code reads the clock once per model entry (internal/agent/agent.go:251-252), so the two `created` stamps can differ by a second. The model reads it once, as `now`, for both entries.
- Concurrency:
  - The read/write lock is modelled only as the atomicity of each `Host` method.
  - The goroutines of `Broadcast` are modelled as one send per target, in snapshot order. Their interleaving is not modelled. Go's map iteration order is unspecified, and so is the model's: `GetPeers` and `ConnectedPeers` pick each next entry with `:|`, and their contracts fix the set of entries, not the order.
- The agent registry has no lock in the code (internal/agent/agent.go:135, 262): `HandleRegister`, `HandleP2PMessage` and `HandleListAgents` are modelled as atomic, so their interleaving, and the runtime crash Go's concurrent map writes can cause, are not modelled.
- SetKey: the missing-"sk-" warning is printed before the configuration is saved (internal/cli/config.go:52-63), so a key whose save then fails was also warned about. The model records the warning only in the `Success` result; `Failure(SaveFailed)` does not carry it.
- UndecodablePayload: the text "payload does not decode" is a placeholder for the raw `json.Unmarshal` error the handlers return (internal/agent/agent.go:117, 153, 180); it is only logged.
- Pointer aliasing: `GetPeers` returns pointers to the live entries. The model returns copies, so later changes to a returned entry are not modelled.
- Stream timeouts and partial writes. The `Write` result in `handleStream` is ignored by the code and also by the model.
- The gateway's chat request and response types are defined in a file that is not part of this model. They are represented by the chat types of the peer protocol.
- The gin server start and stop, the gin recovery middleware and gin's trailing-slash handling (internal/api/server.go:29-47, 161-172).
- `Serve` lumps the four request handlers (and the announce one) into one `handler` value.
- The command wiring in internal/cli/announce.go, start.go, root.go and peers.go: cobra, viper, stdin, the config file, signal handling.
- The `fmt.Errorf` texts keep only the prefix the code adds, and drop the wrapped error detail (`: %w`).
- ShowKeyAsWritten and MaskKey: Go slices the key by bytes and the model by characters. The two agree on ASCII keys, which is what OpenAI keys are. For a non-ASCII key, Go can cut inside a character.
- IntToDecimal: ports and time stamps are 64-bit in Go and unbounded here. No value used reaches the bound.
- Validate: the port probe is the oracle `free`. Opening and closing a real listener is not modelled.
- IsValidNameChar: the contract states the consequence the length check relies on (valid characters are ASCII). The exact character set is the definition itself.

## Findings

| source | as written | input that shows it | evidently intended | confidence | as-written member | corrected member |
|---|---|---|---|---|---|---|
| internal/api/server.go:49-61 | The route table has no announce route. Yet the announce command posts to /v1/announce (internal/cli/announce.go:69), and the agent implements `HandleAnnounce` (internal/agent/agent.go:316-338). | POST /v1/announce with a valid "Bearer <key>" header gets 404 | A POST /v1/announce route behind the gate that calls the announce handler | high (not executed) | ApiServer.AnnounceNotFoundAsWritten | ApiServer.AnnounceServed |
| internal/cli/config.go:74-75 | `show` masks any non-empty key with `apiKey[:7]`. `set-key` accepts any non-empty key, warning only about the prefix (internal/cli/config.go:47-56). | `set-key` with input "abc", then `show`: the slice is out of range | Keys too short to mask are hidden instead of sliced | high (not executed) | CliConfig.StoredKeyPanicsShow | CliConfig.StoredKeyShown |
