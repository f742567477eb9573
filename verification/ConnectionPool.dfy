/** A node's connections: who is connected, and what was handed to the connections for sending. */
module Transport {
  import opened Common
  import opened Gossip
  import opened Network

  /** A message object, changed in place while it is processed. */
  class P2PMessage {
    const id: Id
    const kind: Kind
    const sender: Peer
    const topic: Topic
    var ttl: int
    var routingPath: seq<Peer>

    constructor (m: Message)
      ensures Value() == m
    {
      id, kind, sender, topic, ttl, routingPath := m.id, m.kind, m.sender, m.topic, m.ttl, m.routingPath;
    }

    function Value(): Message
      reads this
    {
      Message(id, kind, sender, topic, ttl, routingPath)
    }
  }

  /** The members of a set as a list. */
  method Listed(from: set<Peer>) returns (ids: seq<Peer>)
    ensures NoDup(ids) && Set(ids) == from
  {
    ids := [];
    var todo := from;
    while todo != {}
      invariant todo <= from && NoDup(ids) && Set(ids) == from - todo
    {
      var p :| p in todo;
      todo := todo - {p};
      SetSnoc(ids, p);
      ids := ids + [p];
    }
  }

  lemma SetSnoc(ids: seq<Peer>, p: Peer)
    ensures Set(ids + [p]) == Set(ids) + {p}
    ensures NoDup(ids) && p !in ids ==> NoDup(ids + [p])
  {
  }

  lemma OneMoreSent(peers: set<Peer>, self: Peer, targets: set<Peer>, m: Message, trail: seq<Peer>, p: Peer)
    requires p !in peers
    ensures multiset(OneWay(peers + {p}, self, targets, m, trail)) ==
            multiset(OneWay(peers, self, targets, m, trail)) + if p in targets then multiset{Copy(self, p, m, trail)} else multiset{}
  {
    var before, after := OneWay(peers, self, targets, m, trail), OneWay(peers + {p}, self, targets, m, trail);
    if p in targets {
      assert after == before + {Copy(self, p, m, trail)};
    } else {
      assert after == before;
    }
  }

  lemma TargetsWithinPeers(pool: Pool, self: Peer, targets: set<Peer>, wider: set<Peer>, m: Message, trail: seq<Peer>)
    requires targets * (pool.outbound + pool.inbound) == wider * (pool.outbound + pool.inbound)
    ensures Copies(pool, self, targets, m, trail) == Copies(pool, self, wider, m, trail)
  {
    var all := pool.outbound + pool.inbound;
    assert targets * pool.outbound == targets * all * pool.outbound == wider * all * pool.outbound == wider * pool.outbound;
    assert targets * pool.inbound == targets * all * pool.inbound == wider * all * pool.inbound == wider * pool.inbound;
  }

  lemma NoTargets(pool: Pool, self: Peer, m: Message, trail: seq<Peer>)
    ensures Copies(pool, self, {}, m, trail) == multiset{}
  {
  }

  /** Among connected targets, everyone gets exactly one transmission if and only if nobody is connected both
      ways. */
  lemma OneCopyEachIff(pool: Pool, self: Peer, targets: set<Peer>, m: Message, trail: seq<Peer>)
    requires targets <= pool.outbound + pool.inbound
    ensures (forall p :: p in targets ==> Copies(pool, self, targets, m, trail)[Copy(self, p, m, trail)] == 1)
            <==> targets * pool.outbound * pool.inbound == {}
  {
    forall p | p in targets
      ensures Copies(pool, self, targets, m, trail)[Copy(self, p, m, trail)] ==
              (if p in pool.outbound then 1 else 0) + if p in pool.inbound then 1 else 0
    {
      CopiesCount(pool, self, targets, m, trail, Copy(self, p, m, trail));
    }
    if p :| p in targets * pool.outbound * pool.inbound {
      assert p in targets && Copies(pool, self, targets, m, trail)[Copy(self, p, m, trail)] == 2;
    } else {
      forall p | p in targets ensures !(p in pool.outbound && p in pool.inbound) {
        assert p !in targets * pool.outbound * pool.inbound;
      }
    }
  }

  /** Sending to a set of targets puts one copy on each connection to one of them, and nothing else on any. */
  lemma CopiesCount(pool: Pool, self: Peer, targets: set<Peer>, m: Message, trail: seq<Peer>, c: Copy)
    ensures Copies(pool, self, targets, m, trail)[c] ==
            if c == Copy(self, c.to, m, trail) && c.to in targets
            then (if c.to in pool.outbound then 1 else 0) + (if c.to in pool.inbound then 1 else 0) else 0
  {
    assert c in OneWay(pool.outbound, self, targets, m, trail) <==>
           c == Copy(self, c.to, m, trail) && c.to in targets && c.to in pool.outbound;
    assert c in OneWay(pool.inbound, self, targets, m, trail) <==>
           c == Copy(self, c.to, m, trail) && c.to in targets && c.to in pool.inbound;
  }

  /** A concrete case: two nodes that connected to each other. */
  lemma ConnectedBothWays(m: Message)
    ensures Copies(Pool({"b"}, {"b"}), "a", {"b"}, m, ["a"])[Copy("a", "b", m, ["a"])] == 2
  {
    CopiesCount(Pool({"b"}, {"b"}), "a", {"b"}, m, ["a"], Copy("a", "b", m, ["a"]));
  }

  class ConnectionPool {
    const localPeerId: Peer
    var outboundConnections: set<Peer>
    var inboundConnections: set<Peer>
    var sent: multiset<Copy>
    /** Acknowledgements of sync batches, sent to single peers. */
    var replies: seq<(Peer, Id)>

    constructor (localPeerId: Peer, outbound: set<Peer>, inbound: set<Peer>)
      ensures this.localPeerId == localPeerId && Connections() == Pool(outbound, inbound) && sent == multiset{} && replies == []
    {
      this.localPeerId := localPeerId;
      outboundConnections, inboundConnections, sent, replies := outbound, inbound, multiset{}, [];
    }

    function Connections(): Pool
      reads this
    {
      Pool(outboundConnections, inboundConnections)
    }

    function Peers(): set<Peer>
      reads this
    {
      outboundConnections + inboundConnections
    }

    /** Every connected peer once, also one that is connected both ways. */
    method GetAllPeerIds() returns (ids: seq<Peer>)
      ensures NoDup(ids) && Set(ids) == Peers()
    {
      ids := Listed(outboundConnections + inboundConnections);
    }

    /** One reply over one connection; to a peer that is not connected nothing is sent. */
    method SendReply(peerId: Peer, batchId: Id)
      modifies this`replies
      ensures replies == old(replies) + if peerId in Peers() then [(peerId, batchId)] else []
    {
      if peerId in outboundConnections {
        replies := replies + [(peerId, batchId)];
        return;
      }
      if peerId in inboundConnections {
        replies := replies + [(peerId, batchId)];
      }
    }

    /** One transmission over every connection to a peer that is not excluded. */
    method Broadcast(message: P2PMessage, excludePeerIds: seq<Peer>, trail: seq<Peer>)
      modifies this`sent
      ensures sent == old(sent) + Copies(Connections(), localPeerId, Peers() - Set(excludePeerIds), message.Value(), trail)
      ensures forall c :: sent[c] == old(sent[c])
                + if c == Copy(localPeerId, c.to, message.Value(), trail) && c.to !in excludePeerIds
                  then (if c.to in outboundConnections then 1 else 0) + (if c.to in inboundConnections then 1 else 0) else 0
    {
      forall c { CopiesCount(Connections(), localPeerId, Peers() - Set(excludePeerIds), message.Value(), trail, c); }
      var excludeSet := Set(excludePeerIds);
      SendAll(outboundConnections, message, excludeSet, trail);
      SendAll(inboundConnections, message, excludeSet, trail);
    }

    method SendAll(peers: set<Peer>, message: P2PMessage, excludeSet: set<Peer>, trail: seq<Peer>)
      requires peers <= Peers()
      modifies this`sent
      ensures sent == old(sent) + multiset(OneWay(peers, localPeerId, Peers() - excludeSet, message.Value(), trail))
    {
      ghost var targets := Peers() - excludeSet;
      var todo := peers;
      assert peers - todo == {};
      while todo != {}
        invariant todo <= peers
        invariant sent == old(sent) + multiset(OneWay(peers - todo, localPeerId, targets, message.Value(), trail))
        decreases todo
      {
        var p :| p in todo;
        OneMoreSent(peers - todo, localPeerId, targets, message.Value(), trail, p);
        assert peers - (todo - {p}) == (peers - todo) + {p};
        todo := todo - {p};
        if p !in excludeSet {
          sent := sent + multiset{Copy(localPeerId, p, message.Value(), trail)};
        }
      }
      assert peers - todo == peers;
    }
  }
}
