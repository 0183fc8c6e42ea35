/** The peer registry and name arbiter of a node (internal/p2p/host.go), and
    the target selection of broadcast (internal/p2p/message.go). One lock
    guards both tables in the code, so every operation here is one atomic
    step on the `Host` object. */
module P2pHost {
  import opened Base
  import opened P2pMessage

  /** The stream protocol identifier and the discovery service name. Stream
      setup and discovery are not modelled, so nothing here uses them; they
      are kept as the identifiers the code fixes. */
  const ProtocolId: string := "/p2p-agent/1.0.0"
  const AgentServiceName: string := "p2p-agent-network"

  /** One known network identity. Entries are never removed: a disconnected
      peer stays as a tombstone with `connected` false. */
  datatype PeerInfo = PeerInfo(id: PeerId, name: string, addrs: seq<string>, connected: bool)

  type PeerTable = map<PeerId, PeerInfo>

  /** Agent display name -> the peer that claimed it first. */
  type NameTable = map<string, PeerId>

  /** Every entry is filed under its own identity. */
  ghost predicate WellKeyed(peers: PeerTable) {
    forall id :: id in peers ==> peers[id].id == id
  }

  /** The identities whose entry is marked connected. */
  ghost function ConnectedSet(peers: PeerTable): set<PeerId> {
    set id | id in peers && peers[id].connected
  }

  /** The error text of a refused claim: the name, and the owner's identity
      cut to its first 12 characters. */
  function ConflictText(name: string, owner: PeerId): string {
    "agent name '" + name + "' is already taken by peer " + owner[..12]
  }

  /** The name table after a claim, and the claim's error, if any. */
  datatype Claim = Claim(names: NameTable, err: Option<string>)

  /** First claim wins: a free name goes to the claimant, a name the claimant
      already holds is claimed again without change, and a name another peer
      holds is refused, naming that owner. */
  function ClaimName(names: NameTable, name: string, claimant: PeerId): (r: Claim)
    ensures name !in names ==> r == Claim(names[name := claimant], None)
    ensures name in names && names[name] == claimant ==> r == Claim(names, None)
    ensures name in names && names[name] != claimant ==>
      r == Claim(names, Some(ConflictText(name, names[name])))
    ensures r.err.None? <==> name in r.names && r.names[name] == claimant
    ensures forall n :: n in names ==> n in r.names && r.names[n] == names[n]
    ensures r.names.Keys <= names.Keys + {name}
  {
    if name in names && names[name] != claimant then
      Claim(names, Some(ConflictText(name, names[name])))
    else
      Claim(names[name := claimant], None)
  }

  /** Claiming twice is claiming once: the repeat succeeds and changes nothing. */
  lemma ClaimIdempotent(names: NameTable, name: string, claimant: PeerId)
    requires ClaimName(names, name, claimant).err.None?
    ensures var once := ClaimName(names, name, claimant).names;
      ClaimName(once, name, claimant) == Claim(once, None)
  {
  }

  /** A connect notification: the peer is present and connected afterwards;
      a known entry keeps its other fields, an unknown one is created bare. */
  function Connect(peers: PeerTable, id: PeerId): (r: PeerTable)
    ensures id in r && r[id].connected
    ensures r.Keys == peers.Keys + {id}
    ensures id in peers ==> r[id] == peers[id].(connected := true)
    ensures id !in peers ==> r[id] == PeerInfo(id, "", [], true)
    ensures forall q :: q in peers && q != id ==> r[q] == peers[q]
    ensures WellKeyed(peers) ==> WellKeyed(r)
    ensures ConnectedSet(r) == ConnectedSet(peers) + {id}
  {
    if id !in peers then peers[id := PeerInfo(id, "", [], true)]
    else peers[id := peers[id].(connected := true)]
  }

  /** A disconnect notification: a known peer is marked disconnected and kept;
      an unknown peer is ignored, and no entry is created for it. */
  function Disconnect(peers: PeerTable, id: PeerId): (r: PeerTable)
    ensures r.Keys == peers.Keys
    ensures id in peers ==> r[id] == peers[id].(connected := false)
    ensures id !in peers ==> r == peers
    ensures forall q :: q in peers && q != id ==> r[q] == peers[q]
    ensures WellKeyed(peers) ==> WellKeyed(r)
    ensures ConnectedSet(r) == ConnectedSet(peers) - {id}
  {
    if id in peers then peers[id := peers[id].(connected := false)] else peers
  }

  /** A repeated notification changes nothing more. */
  lemma ConnectIdempotent(peers: PeerTable, id: PeerId)
    ensures Connect(Connect(peers, id), id) == Connect(peers, id)
  {
  }

  lemma DisconnectIdempotent(peers: PeerTable, id: PeerId)
    ensures Disconnect(Disconnect(peers, id), id) == Disconnect(peers, id)
  {
  }

  /** One send of a broadcast: its target, the message, and whether the
      transport delivered it. */
  datatype Send = Send(to: PeerId, msg: Message, delivered: bool)

  function Recipients(sends: seq<Send>): (r: seq<PeerId>)
    ensures |r| == |sends| && forall i :: 0 <= i < |sends| ==> r[i] == sends[i].to
  {
    if sends == [] then [] else Recipients(sends[..|sends| - 1]) + [sends[|sends| - 1].to]
  }

  class Host {
    /** This node's identity and the listen addresses the transport reports. */
    const localId: PeerId
    const listenAddrs: seq<string>
    var peers: PeerTable
    var agentNames: NameTable

    ghost predicate Valid()
      reads this
    {
      WellKeyed(peers)
    }

    constructor (localId: PeerId, listenAddrs: seq<string>)
      ensures Valid()
      ensures this.localId == localId && this.listenAddrs == listenAddrs
      ensures peers == map[] && agentNames == map[]
    {
      this.localId := localId;
      this.listenAddrs := listenAddrs;
      peers := map[];
      agentNames := map[];
    }

    /** Each listen address followed by "/p2p/" and this node's identity. */
    method MultiAddrs() returns (result: seq<string>)
      ensures |result| == |listenAddrs|
      ensures forall i :: 0 <= i < |result| ==>
        HasPrefix(result[i], listenAddrs[i]) &&
        result[i][|listenAddrs[i]|..] == "/p2p/" + localId
    {
      result := [];
      for i := 0 to |listenAddrs|
        invariant |result| == i
        invariant forall j :: 0 <= j < i ==> result[j] == listenAddrs[j] + "/p2p/" + localId
      {
        result := result + [listenAddrs[i] + "/p2p/" + localId];
      }
    }

    /** The atomic check-and-set of the name arbiter. */
    method RegisterAgentName(name: string, peerId: PeerId) returns (err: Option<string>)
      requires Valid()
      modifies this
      ensures Valid()
      ensures agentNames == ClaimName(old(agentNames), name, peerId).names
      ensures err == ClaimName(old(agentNames), name, peerId).err
      ensures peers == old(peers)
    {
      if name in agentNames {
        var existingPeer := agentNames[name];
        if existingPeer != peerId {
          return Some(ConflictText(name, existingPeer));
        }
      }
      agentNames := agentNames[name := peerId];
      return None;
    }

    /** Whether a name is claimed, and by whom ("" when it is free). */
    method IsNameTaken(name: string) returns (taken: bool, owner: string)
      ensures taken <==> name in agentNames
      ensures taken ==> owner == agentNames[name]
      ensures !taken ==> owner == ""
    {
      if name in agentNames {
        return true, agentNames[name];
      }
      return false, "";
    }

    method OnPeerConnected(peerId: PeerId)
      requires Valid()
      modifies this
      ensures Valid()
      ensures peers == Connect(old(peers), peerId)
      ensures agentNames == old(agentNames)
    {
      if peerId !in peers {
        peers := peers[peerId := PeerInfo(peerId, "", [], true)];
      } else {
        peers := peers[peerId := peers[peerId].(connected := true)];
      }
    }

    method OnPeerDisconnected(peerId: PeerId)
      requires Valid()
      modifies this
      ensures Valid()
      ensures peers == Disconnect(old(peers), peerId)
      ensures agentNames == old(agentNames)
    {
      if peerId in peers {
        peers := peers[peerId := peers[peerId].(connected := false)];
      }
    }

    /** A snapshot of every entry, connected or not, each exactly once, in
        the table's (unspecified) iteration order. */
    method GetPeers() returns (snapshot: seq<PeerInfo>)
      requires Valid()
      ensures |snapshot| == |peers|
      ensures forall i :: 0 <= i < |snapshot| ==> snapshot[i].id in peers && peers[snapshot[i].id] == snapshot[i]
      ensures forall id :: id in peers ==> exists i :: 0 <= i < |snapshot| && snapshot[i].id == id
      ensures forall i, j :: 0 <= i < j < |snapshot| ==> snapshot[i].id != snapshot[j].id
    {
      snapshot := [];
      var remaining := peers.Keys;
      while remaining != {}
        invariant remaining <= peers.Keys
        invariant |snapshot| + |remaining| == |peers.Keys|
        invariant forall i :: 0 <= i < |snapshot| ==>
          snapshot[i].id in peers && snapshot[i].id !in remaining && peers[snapshot[i].id] == snapshot[i]
        invariant forall id :: id in peers && id !in remaining ==>
          exists i :: 0 <= i < |snapshot| && snapshot[i].id == id
        invariant forall i, j :: 0 <= i < j < |snapshot| ==> snapshot[i].id != snapshot[j].id
        decreases |remaining|
      {
        var id :| id in remaining;
        ghost var before := snapshot;
        snapshot := snapshot + [peers[id]];
        remaining := remaining - {id};
        forall q | q in peers && q !in remaining
          ensures exists i :: 0 <= i < |snapshot| && snapshot[i].id == q
        {
          if q == id {
            assert snapshot[|before|].id == q;
          } else {
            var i :| 0 <= i < |before| && before[i].id == q;
            assert snapshot[i].id == q;
          }
        }
      }
    }

    /** The target snapshot of a broadcast: exactly the peers marked
        connected, each once; tombstones are left out. */
    method ConnectedPeers() returns (targets: seq<PeerId>)
      ensures forall id :: id in targets <==> id in peers && peers[id].connected
      ensures Distinct(targets)
    {
      targets := [];
      var remaining := peers.Keys;
      while remaining != {}
        invariant remaining <= peers.Keys
        invariant forall id :: id in targets <==> id in peers && id !in remaining && peers[id].connected
        invariant Distinct(targets)
        decreases |remaining|
      {
        var id :| id in remaining;
        if peers[id].connected {
          targets := targets + [id];
        }
        remaining := remaining - {id};
      }
    }

    /** Send `msg` to every connected peer, one send each; the sends to the
        peers in `failing` fail, which affects neither the other sends nor
        the result, which is always "no error". */
    method Broadcast(msg: Message, failing: set<PeerId>) returns (sends: seq<Send>, err: Option<string>)
      ensures err.None?
      ensures forall id :: id in Recipients(sends) <==> id in peers && peers[id].connected
      ensures Distinct(Recipients(sends))
      ensures forall i :: 0 <= i < |sends| ==> sends[i].msg == msg && (sends[i].delivered <==> sends[i].to !in failing)
    {
      var targets := ConnectedPeers();
      sends := [];
      for i := 0 to |targets|
        invariant Recipients(sends) == targets[..i]
        invariant forall k :: 0 <= k < |sends| ==> sends[k].msg == msg && (sends[k].delivered <==> sends[k].to !in failing)
      {
        sends := sends + [Send(targets[i], msg, targets[i] !in failing)];
        assert targets[..i + 1] == targets[..i] + [targets[i]];
      }
      assert targets[..|targets|] == targets;
      return sends, None;
    }
  }
}
