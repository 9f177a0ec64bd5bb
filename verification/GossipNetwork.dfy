/** The whole network, with messages that may be lost, repeated and reordered. */
module GossipNetwork {
  import opened Base
  import opened GossipNode

  /** Node `src` asks `dst` for what changed since `since`, introducing itself as `me`. */
  datatype Request = Request(src: Pubkey, dst: Pubkey, since: nat, me: NodeInfo)

  /**
   * The answer: `src`'s table in full as it stood, with its stamps; only what changed since `since`
   * is actually carried.
   */
  datatype Reply = Reply(
    src: Pubkey, dst: Pubkey, ups: nat, since: nat, full: seq<NodeInfo>, stamps: Stamps, live: seq<(Pubkey, nat)>)

  function Carried(r: Reply): seq<NodeInfo> {
    ChangedSince(r.stamps, r.since, r.full)
  }

  /** Everything ever sent stays deliverable, so any message may arrive late, twice or never. */
  datatype Net = Net(nodes: map<Pubkey, Node>, requests: set<Request>, replies: set<Reply>)

  datatype NetStep =
    | Change(at: Pubkey, v: NodeInfo)                                    // any local insertion
    | Vote(at: Pubkey, vote: VoteMsg)                                    // a vote seen in an entry
    | Ask(src: Pubkey, dst: Pubkey)
    | Collect(req: Request, full: seq<NodeInfo>, live: seq<(Pubkey, nat)>) // the answer, under a read lock
    | Hear(req: Request, addr: nat)                                      // noting the asker, under a later write lock
    | Accept(reply: Reply)

  /** `full` walks the node's table once, leaving out the default key. */
  ghost predicate Walks(full: seq<NodeInfo>, n: Node) {
    forall v :: v in full <==> v.id != DEFAULT_PUBKEY && v.id in n.table && n.table[v.id] == v
  }

  ghost predicate Enabled(net: Net, step: NetStep) {
    match step
    case Change(at, _) => at in net.nodes
    case Vote(at, _) => at in net.nodes
    case Ask(src, dst) => src in net.nodes && dst in net.nodes && src in net.nodes[src].table
    case Collect(req, full, _) => req in net.requests && req.dst in net.nodes && Walks(full, net.nodes[req.dst])
    case Hear(req, _) => req in net.requests && req.dst in net.nodes
    case Accept(reply) => reply in net.replies && reply.dst in net.nodes
  }

  ghost function Do(net: Net, step: NetStep, now: nat): Net
    requires Enabled(net, step)
  {
    match step
    case Change(at, v) => net.(nodes := net.nodes[at := Insert(net.nodes[at], v, now)])
    case Vote(at, v) =>
      net.(nodes := net.nodes[at := InsertVote(net.nodes[at], v.key, v.version, v.contactVersion, v.lastId, now)])
    case Ask(src, dst) =>
      var n := net.nodes[src];
      net.(requests := net.requests + {Request(src, dst, Remote(n, dst), n.table[src])})
    case Collect(req, full, live) =>
      var n := net.nodes[req.dst];
      var reply := Reply(req.dst, req.src, n.updateIndex, req.since, full, n.local, live);
      if req.me.id == req.dst || Carried(reply) == [] then net else net.(replies := net.replies + {reply})
    case Hear(req, addr) =>
      if req.me.id == req.dst then net else
      net.(nodes := net.nodes[req.dst := HearFrom(net.nodes[req.dst], req.me, addr, now)])
    case Accept(reply) =>
      var n := net.nodes[reply.dst];
      net.(nodes := net.nodes[reply.dst := ApplyUpdates(n, reply.src, reply.ups, Carried(reply), reply.live, now)])
  }

  // ---- What catching up means --------------------------------------------------------------------------

  /** The node knows this entry, at this version or a later one. */
  predicate Knows(n: Node, v: NodeInfo) {
    v.id in n.table && n.table[v.id].version >= v.version
  }

  /** Node `b` knows everything in `a`'s table that was stamped at or before `upto`. */
  ghost predicate KnowsUpTo(b: Node, a: Node, upto: nat) {
    forall k :: k in a.table && k in a.local && k != DEFAULT_PUBKEY && a.local[k] <= upto ==> Knows(b, a.table[k])
  }

  /** What the reply leaves out, its receiver already knows; what it was stamped with, it lists. */
  ghost predicate ReplyInvariant(b: Node, a: Node, r: Reply) {
    && r.ups <= a.updateIndex
    && (forall v :: v in r.full ==> v in Carried(r) || Knows(b, v))
    && (forall k :: k in a.table && k in a.local && k != DEFAULT_PUBKEY && a.local[k] <= r.ups ==> a.table[k] in r.full)
  }

  ghost predicate NetInv(net: Net) {
    && (forall a :: a in net.nodes ==> NodeInv(net.nodes[a]) && net.nodes[a].id == a)
    && (forall a, b :: a in net.nodes && b in net.nodes ==>
          Remote(net.nodes[b], a) <= net.nodes[a].updateIndex &&
          KnowsUpTo(net.nodes[b], net.nodes[a], Remote(net.nodes[b], a)))
    && (forall q :: q in net.requests ==>
          q.src in net.nodes && q.dst in net.nodes && q.since <= net.nodes[q.dst].updateIndex &&
          KnowsUpTo(net.nodes[q.src], net.nodes[q.dst], q.since))
    && (forall r :: r in net.replies ==>
          r.src in net.nodes && r.dst in net.nodes && ReplyInvariant(net.nodes[r.dst], net.nodes[r.src], r))
  }

  /** A node only ever gains: new entries are stamped past everything before, old ones keep their stamps. */
  ghost predicate Grew(n: Node, n': Node) {
    && n'.updateIndex >= n.updateIndex
    && (forall v :: Knows(n, v) ==> Knows(n', v))
    && (forall k :: k in n'.table && k in n'.local && n'.local[k] <= n.updateIndex ==>
          k in n.table && k in n.local && n'.table[k] == n.table[k] && n'.local[k] == n.local[k])
  }

  lemma InsertGrows(n: Node, v: NodeInfo, now: nat)
    ensures Grew(n, Insert(n, v, now)) && Knows(Insert(n, v, now), v)
  {
  }

  lemma InsertVoteGrows(n: Node, key: Pubkey, version: nat, contactVersion: nat, lastId: Hash, now: nat)
    requires NodeInv(n)
    ensures var n' := InsertVote(n, key, version, contactVersion, lastId, now);
      Grew(n, n') && n'.remote == n.remote && n'.id == n.id
  {
    hide Grew; hide StampsInvariant; hide RumoursInvariant;
    GrewSelf(n);
    if key in n.table {
      var touched := Touch(n, key, now);
      SameTableGrew(n, touched);
      var data := n.table[key].(version := version, lastId := lastId);
      InsertGrows(touched, data, now);
      GrewTransitive(n, touched, Insert(touched, data, now));
    }
  }

  lemma GrewTransitive(a: Node, b: Node, c: Node)
    requires Grew(a, b) && Grew(b, c)
    ensures Grew(a, c)
  {
  }

  lemma {:induction false} InsertAllGrows(n: Node, vs: seq<NodeInfo>, now: nat)
    ensures Grew(n, InsertAll(n, vs, now))
    ensures forall v :: v in vs ==> Knows(InsertAll(n, vs, now), v)
  {
    hide Insert; hide Knows;
    if vs == [] {
      GrewSelf(n);
    } else {
      var m := |vs| - 1;
      var mid := InsertAll(n, vs[..m], now);
      InsertAllGrows(n, vs[..m], now);
      InsertGrows(mid, vs[m], now);
      GrewTransitive(n, mid, InsertAll(n, vs, now));
      forall v | v in vs ensures Knows(InsertAll(n, vs, now), v) {
        assert v in vs[..m] || v == vs[m];
      }
    }
  }

  lemma GrewSelf(n: Node)
    ensures Grew(n, n)
  {
  }

  lemma SameTableGrew(n: Node, n': Node)
    requires n'.table == n.table && n'.local == n.local && n'.updateIndex == n.updateIndex
    ensures Grew(n, n')
  {
  }

  lemma HearFromGrows(n: Node, from: NodeInfo, addr: nat, now: nat)
    ensures Grew(n, HearFrom(n, from, addr, now)) && HearFrom(n, from, addr, now).remote == n.remote
  {
    var seen := if from.ncp == UNSPECIFIED then from.(ncp := addr) else from;
    InsertGrows(n, seen, now);
    SameTableGrew(Insert(n, seen, now), HearFrom(n, from, addr, now));
    GrewTransitive(n, Insert(n, seen, now), HearFrom(n, from, addr, now));
  }

  lemma {:induction false} RumoursSameTable(n: Node, from: Pubkey, live: seq<(Pubkey, nat)>)
    ensures var n' := Rumours(n, from, live);
      n'.table == n.table && n'.local == n.local && n'.updateIndex == n.updateIndex && n'.remote == n.remote && n'.id == n.id
  {
    if live != [] {
      RumoursSameTable(n, from, live[..|live| - 1]);
    }
  }

  lemma {:induction false} InsertAllRemote(n: Node, vs: seq<NodeInfo>, now: nat)
    ensures InsertAll(n, vs, now).remote == n.remote && InsertAll(n, vs, now).id == n.id
  {
    if vs != [] {
      InsertAllRemote(n, vs[..|vs| - 1], now);
    }
  }

  lemma ApplyUpdatesGrows(n: Node, from: Pubkey, ix: nat, data: seq<NodeInfo>, live: seq<(Pubkey, nat)>, now: nat)
    ensures var n' := ApplyUpdates(n, from, ix, data, live, now);
      Grew(n, n') && n'.remote == n.remote[from := ix] && n'.id == n.id && forall v :: v in data ==> Knows(n', v)
  {
    hide InsertAll; hide Rumours; hide Grew;
    var mid := InsertAll(n, data, now);
    var n' := ApplyUpdates(n, from, ix, data, live, now);
    InsertAllGrows(n, data, now);
    InsertAllRemote(n, data, now);
    RumoursSameTable(mid, from, live);
    SameTableGrew(mid, n');
    GrewTransitive(n, mid, n');
  }

  /** What `b` knew of `a`'s older entries survives both of them growing. */
  lemma KnowsUpToSurvives(b: Node, b': Node, a: Node, a': Node, upto: nat)
    requires KnowsUpTo(b, a, upto) && Grew(b, b') && Grew(a, a') && upto <= a.updateIndex
    ensures KnowsUpTo(b', a', upto)
  {
  }

  lemma ReplyInvariantSurvives(b: Node, b': Node, a: Node, a': Node, r: Reply)
    requires ReplyInvariant(b, a, r) && Grew(b, b') && Grew(a, a')
    ensures ReplyInvariant(b', a', r)
  {
    hide Carried;
  }

  /** After a reply has been applied, its receiver knows the sender's whole table as of the reply. */
  lemma ReplyCatchesUp(b: Node, b': Node, a: Node, r: Reply)
    requires ReplyInvariant(b, a, r) && Grew(b, b') && forall v :: v in Carried(r) ==> Knows(b', v)
    ensures (forall v :: v in r.full ==> Knows(b', v)) && KnowsUpTo(b', a, r.ups)
  {
    hide Carried; hide Knows;
    forall v | v in r.full ensures Knows(b', v) {
      if v !in Carried(r) {
        assert Knows(b, v);
      }
    }
  }

  /** Changing one node, which only grows and notes no more of a peer than it knows. */
  lemma NodeGrowsKeeps(net: Net, at: Pubkey, n': Node)
    requires NetInv(net) && at in net.nodes && NodeInv(n') && n'.id == at && Grew(net.nodes[at], n')
    requires forall a :: a in net.nodes ==>
      Remote(n', a) <= net.nodes[a].updateIndex && KnowsUpTo(n', net.nodes[a], Remote(n', a))
    ensures NetInv(net.(nodes := net.nodes[at := n']))
  {
    hide NodeInv; hide Grew; hide KnowsUpTo; hide ReplyInvariant; hide Remote;
    var nodes' := net.nodes[at := n'];
    forall a | a in net.nodes ensures Grew(net.nodes[a], nodes'[a]) && net.nodes[a].updateIndex <= nodes'[a].updateIndex {
      GrewSelf(net.nodes[a]);
      GrewIndex(net.nodes[a], nodes'[a]);
    }
    forall a, b | a in nodes' && b in nodes'
      ensures Remote(nodes'[b], a) <= nodes'[a].updateIndex && KnowsUpTo(nodes'[b], nodes'[a], Remote(nodes'[b], a))
    {
      GrewSelf(nodes'[b]);
      KnowsUpToSurvives(nodes'[b], nodes'[b], net.nodes[a], nodes'[a], Remote(nodes'[b], a));
    }
    forall q | q in net.requests
      ensures q.since <= nodes'[q.dst].updateIndex && KnowsUpTo(nodes'[q.src], nodes'[q.dst], q.since)
    {
      KnowsUpToSurvives(net.nodes[q.src], nodes'[q.src], net.nodes[q.dst], nodes'[q.dst], q.since);
    }
    forall r | r in net.replies ensures ReplyInvariant(nodes'[r.dst], nodes'[r.src], r) {
      ReplyInvariantSurvives(net.nodes[r.dst], nodes'[r.dst], net.nodes[r.src], nodes'[r.src], r);
    }
  }

  /** A node that grows without noting anything new still knows what it has noted. */
  lemma NotesSurvive(net: Net, at: Pubkey, n': Node)
    requires NetInv(net) && at in net.nodes && Grew(net.nodes[at], n')
    ensures forall a :: a in net.nodes ==>
      Remote(net.nodes[at], a) <= net.nodes[a].updateIndex && KnowsUpTo(n', net.nodes[a], Remote(net.nodes[at], a))
  {
    hide NodeInv; hide Grew; hide KnowsUpTo; hide ReplyInvariant; hide Remote;
    forall a | a in net.nodes ensures KnowsUpTo(n', net.nodes[a], Remote(net.nodes[at], a)) {
      GrewSelf(net.nodes[a]);
      KnowsUpToSurvives(net.nodes[at], n', net.nodes[a], net.nodes[a], Remote(net.nodes[at], a));
    }
  }

  lemma GrewIndex(n: Node, n': Node)
    requires Grew(n, n')
    ensures n.updateIndex <= n'.updateIndex
  {
  }

  lemma {:induction false} CarriedOrOld(r: Reply, vs: seq<NodeInfo>, v: NodeInfo)
    requires v in vs
    ensures v in ChangedSince(r.stamps, r.since, vs) || !(v.id in r.stamps && r.stamps[v.id] > r.since)
  {
    var m := |vs| - 1;
    if v != vs[m] {
      assert v in vs[..m];
      CarriedOrOld(r, vs[..m], v);
    }
  }

  /** A fresh answer leaves out only what the asker's own claim covers. */
  lemma AnswerInvariant(net: Net, req: Request, full: seq<NodeInfo>, live: seq<(Pubkey, nat)>)
    requires NetInv(net) && req in net.requests && Walks(full, net.nodes[req.dst])
    ensures
      var n := net.nodes[req.dst];
      ReplyInvariant(net.nodes[req.src], n, Reply(req.dst, req.src, n.updateIndex, req.since, full, n.local, live))
  {
    var n, b := net.nodes[req.dst], net.nodes[req.src];
    var r := Reply(req.dst, req.src, n.updateIndex, req.since, full, n.local, live);
    assert NodeInv(n) && KnowsUpTo(b, n, req.since);
    forall v | v in r.full ensures v in Carried(r) || Knows(b, v) {
      CarriedOrOld(r, full, v);
    }
  }

  lemma ChangeKeeps(net: Net, at: Pubkey, n': Node)
    requires NetInv(net) && at in net.nodes && NodeInv(n') && n'.id == at
    requires Grew(net.nodes[at], n') && n'.remote == net.nodes[at].remote
    ensures NetInv(net.(nodes := net.nodes[at := n']))
  {
    hide NodeInv; hide Grew; hide KnowsUpTo; hide ReplyInvariant;
    NotesSurvive(net, at, n');
    NodeGrowsKeeps(net, at, n');
  }

  lemma AskKeeps(net: Net, src: Pubkey, dst: Pubkey, me: NodeInfo)
    requires NetInv(net) && src in net.nodes && dst in net.nodes
    ensures NetInv(net.(requests := net.requests + {Request(src, dst, Remote(net.nodes[src], dst), me)}))
  {
    hide NodeInv; hide KnowsUpTo; hide ReplyInvariant; hide Remote;
  }

  lemma SendKeeps(net: Net, reply: Reply)
    requires NetInv(net) && reply.src in net.nodes && reply.dst in net.nodes
    requires ReplyInvariant(net.nodes[reply.dst], net.nodes[reply.src], reply)
    ensures NetInv(net.(replies := net.replies + {reply}))
  {
    hide NodeInv; hide KnowsUpTo; hide ReplyInvariant; hide Remote;
  }

  lemma CollectKeeps(net: Net, req: Request, full: seq<NodeInfo>, live: seq<(Pubkey, nat)>, now: nat)
    requires NetInv(net) && Enabled(net, Collect(req, full, live))
    ensures NetInv(Do(net, Collect(req, full, live), now))
  {
    hide Carried; hide ReplyInvariant; hide KnowsUpTo; hide NodeInv; hide Remote;
    var n := net.nodes[req.dst];
    AnswerInvariant(net, req, full, live);
    SendKeeps(net, Reply(req.dst, req.src, n.updateIndex, req.since, full, n.local, live));
  }

  lemma HearKeeps(net: Net, req: Request, addr: nat, now: nat)
    requires NetInv(net) && Enabled(net, Hear(req, addr))
    ensures NetInv(Do(net, Hear(req, addr), now))
  {
    hide HearFrom; hide Grew; hide ReplyInvariant; hide KnowsUpTo; hide NodeInv; hide Remote;
    var n := net.nodes[req.dst];
    HearFromKeeps(n, req.me, addr, now);
    HearFromGrows(n, req.me, addr, now);
    HearFromKeepsId(n, req.me, addr, now);
    ChangeKeeps(net, req.dst, HearFrom(n, req.me, addr, now));
  }

  lemma HearFromKeepsId(n: Node, from: NodeInfo, addr: nat, now: nat)
    ensures HearFrom(n, from, addr, now).id == n.id
  {
  }

  lemma AcceptKeeps(net: Net, reply: Reply, now: nat)
    requires NetInv(net) && Enabled(net, Accept(reply))
    ensures NetInv(Do(net, Accept(reply), now))
  {
    hide ApplyUpdates; hide Grew; hide Carried; hide KnowsUpTo; hide NodeInv; hide ReplyInvariant;
    var n, a := net.nodes[reply.dst], net.nodes[reply.src];
    var n' := ApplyUpdates(n, reply.src, reply.ups, Carried(reply), reply.live, now);
    ApplyUpdatesKeeps(n, reply.src, reply.ups, Carried(reply), reply.live, now);
    ApplyUpdatesGrows(n, reply.src, reply.ups, Carried(reply), reply.live, now);
    NotesSurvive(net, reply.dst, n');
    ReplyCatchesUp(n, n', a, reply);
    ReplyUps(n, a, reply);
    NodeGrowsKeeps(net, reply.dst, n');
  }

  lemma ReplyUps(b: Node, a: Node, r: Reply)
    requires ReplyInvariant(b, a, r)
    ensures r.ups <= a.updateIndex
  {
  }

  lemma StepKeeps(net: Net, step: NetStep, now: nat)
    requires NetInv(net) && Enabled(net, step)
    ensures NetInv(Do(net, step, now))
  {
    hide Insert; hide InsertVote; hide Grew; hide NetInv; hide NodeInv;
    match step
    case Change(at, v) =>
      var n := net.nodes[at];
      NodesAreSound(net, at);
      InsertKeeps(n, v, now);
      InsertGrows(n, v, now);
      ChangeKeeps(net, at, Insert(n, v, now));
    case Vote(at, v) =>
      var n := net.nodes[at];
      NodesAreSound(net, at);
      InsertVoteKeeps(n, v.key, v.version, v.contactVersion, v.lastId, now);
      InsertVoteGrows(n, v.key, v.version, v.contactVersion, v.lastId, now);
      ChangeKeeps(net, at, InsertVote(n, v.key, v.version, v.contactVersion, v.lastId, now));
    case Ask(src, dst) => AskKeeps(net, src, dst, net.nodes[src].table[src]);
    case Collect(req, full, live) => CollectKeeps(net, req, full, live, now);
    case Hear(req, addr) => HearKeeps(net, req, addr, now);
    case Accept(reply) => AcceptKeeps(net, reply, now);
  }

  lemma NodesAreSound(net: Net, a: Pubkey)
    requires NetInv(net) && a in net.nodes
    ensures NodeInv(net.nodes[a]) && net.nodes[a].id == a
  {
  }

  /** What a reply carries is news: stamped after the index the asker had noted when it asked. */
  lemma ReplyIsNews(
    net: Net, src: Pubkey, dst: Pubkey, net': Net, q: Request, full: seq<NodeInfo>, live: seq<(Pubkey, nat)>, now: nat, reply: Reply)
    requires Enabled(net, Ask(src, dst)) && q in Do(net, Ask(src, dst), now).requests && q !in net.requests
    requires Enabled(net', Collect(q, full, live))
    requires reply in Do(net', Collect(q, full, live), now).replies && reply !in net'.replies
    ensures reply.src == dst && reply.dst == src && reply.ups == net'.nodes[dst].updateIndex
    ensures forall v :: v in Carried(reply) ==>
      v.id in net'.nodes[dst].local && net'.nodes[dst].local[v.id] > Remote(net.nodes[src], dst) && v in full
  {
    forall v | v in Carried(reply)
      ensures v.id in net'.nodes[dst].local && net'.nodes[dst].local[v.id] > Remote(net.nodes[src], dst) && v in full
    {
      CarriedAreChanged(reply.stamps, reply.since, reply.full, v);
    }
  }

  // ---- Runs --------------------------------------------------------------------------------------------

  ghost function RunNet(net: Net, steps: seq<(NetStep, nat)>): Option<Net> {
    if steps == [] then Some(net) else
    var m := |steps| - 1;
    match RunNet(net, steps[..m])
    case None => None
    case Some(mid) => if Enabled(mid, steps[m].0) then Some(Do(mid, steps[m].0, steps[m].1)) else None
  }

  /** A network of newly made nodes and no messages. */
  ghost predicate Initial(net: Net) {
    net.requests == {} && net.replies == {} &&
    forall a :: a in net.nodes ==>
      NodeInv(net.nodes[a]) && net.nodes[a].id == a && net.nodes[a].remote == map[]
  }

  /**
   * Delta gossip, over every purge-free run with messages lost, repeated and reordered at will:
   * a node knows, at least at the peer's version, every entry the peer had stamped by the update
   * index the node has noted for that peer.
   */
  lemma {:induction false} EveryRunKeepsNotes(net: Net, steps: seq<(NetStep, nat)>)
    requires Initial(net) && RunNet(net, steps).Some?
    ensures NetInv(RunNet(net, steps).value)
  {
    hide Do; hide Enabled;
    if steps == [] {
      hide NodeInv;
    } else {
      var m := |steps| - 1;
      EveryRunKeepsNotes(net, steps[..m]);
      StepKeeps(RunNet(net, steps[..m]).value, steps[m].0, steps[m].1);
    }
  }

  // ---- Nothing is made up --------------------------------------------------------------------------------

  type Steps = seq<(NetStep, nat)>

  /** An entry some node started with, or one inserted during the run. */
  ghost predicate Origin(net: Net, steps: Steps, u: NodeInfo) {
    (exists a :: a in net.nodes && u.id in net.nodes[a].table && net.nodes[a].table[u.id] == u) ||
    (exists i :: 0 <= i < |steps| && steps[i].0.Change? && steps[i].0.v == u)
  }

  ghost predicate Voted(steps: Steps, v: NodeInfo) {
    exists i :: 0 <= i < |steps| && steps[i].0.Vote? && steps[i].0.vote.key == v.id &&
      steps[i].0.vote.version == v.version && steps[i].0.vote.lastId == v.lastId
  }

  /** `v` is `u`, but for an address filled in where `u` gave none, and a version and last id that some vote brought. */
  ghost predicate Derived(steps: Steps, u: NodeInfo, v: NodeInfo) {
    v.id == u.id && v.contactVersion == u.contactVersion && v.leaderId == u.leaderId &&
    (v.ncp == u.ncp || u.ncp == UNSPECIFIED) &&
    ((v.version == u.version && v.lastId == u.lastId) || Voted(steps, v))
  }

  ghost predicate Sourced(net: Net, steps: Steps, v: NodeInfo) {
    exists u :: Origin(net, steps, u) && Derived(steps, u, v)
  }

  ghost predicate NodeSourced(net: Net, steps: Steps, n: Node) {
    forall k :: k in n.table ==> Sourced(net, steps, n.table[k])
  }

  ghost predicate AllSourced(net: Net, steps: Steps, now: Net) {
    (forall a :: a in now.nodes ==> NodeSourced(net, steps, now.nodes[a])) &&
    (forall q :: q in now.requests ==> Sourced(net, steps, q.me)) &&
    (forall r, v :: r in now.replies && v in r.full ==> Sourced(net, steps, v))
  }

  lemma {:induction false} SourcedLater(net: Net, steps: Steps, step: (NetStep, nat), v: NodeInfo)
    requires Sourced(net, steps, v)
    ensures Sourced(net, steps + [step], v)
  {
    var all := steps + [step];
    var u :| Origin(net, steps, u) && Derived(steps, u, v);
    assert Origin(net, all, u) by {
      if i :| 0 <= i < |steps| && steps[i].0.Change? && steps[i].0.v == u {
        assert all[i] == steps[i];
      }
    }
    assert Derived(all, u, v) by {
      if Voted(steps, v) {
        var i :| 0 <= i < |steps| && steps[i].0.Vote? && steps[i].0.vote.key == v.id &&
          steps[i].0.vote.version == v.version && steps[i].0.vote.lastId == v.lastId;
        assert all[i] == steps[i];
      }
    }
  }

  lemma {:induction false} AllSourcedLater(net: Net, steps: Steps, step: (NetStep, nat), now: Net)
    requires AllSourced(net, steps, now)
    ensures AllSourced(net, steps + [step], now)
  {
    hide Sourced;
    forall v | Sourced(net, steps, v) ensures Sourced(net, steps + [step], v) {
      SourcedLater(net, steps, step, v);
    }
  }

  lemma InsertSourced(net: Net, steps: Steps, n: Node, v: NodeInfo, now: nat)
    requires NodeSourced(net, steps, n) && Sourced(net, steps, v)
    ensures NodeSourced(net, steps, Insert(n, v, now))
  {
    hide Sourced;
  }

  lemma {:induction false} InsertAllSourced(net: Net, steps: Steps, n: Node, vs: seq<NodeInfo>, now: nat)
    requires NodeSourced(net, steps, n) && forall v :: v in vs ==> Sourced(net, steps, v)
    ensures NodeSourced(net, steps, InsertAll(n, vs, now))
  {
    hide Sourced; hide Insert; hide NodeSourced;
    if vs != [] {
      InsertAllSourced(net, steps, n, vs[..|vs| - 1], now);
      InsertSourced(net, steps, InsertAll(n, vs[..|vs| - 1], now), vs[|vs| - 1], now);
    }
  }

  lemma HearSourced(net: Net, steps: Steps, n: Node, from: NodeInfo, addr: nat, now: nat)
    requires NodeSourced(net, steps, n) && Sourced(net, steps, from)
    ensures NodeSourced(net, steps, HearFrom(n, from, addr, now))
  {
    hide Origin; hide Voted;
    var seen := if from.ncp == UNSPECIFIED then from.(ncp := addr) else from;
    var u :| Origin(net, steps, u) && Derived(steps, u, from);
    assert Derived(steps, u, seen) by {
      SameVote(steps, from, seen);
    }
    InsertSourced(net, steps, n, seen, now);
  }

  lemma SameVote(steps: Steps, v: NodeInfo, v': NodeInfo)
    requires v.id == v'.id && v.version == v'.version && v.lastId == v'.lastId
    ensures Voted(steps, v) ==> Voted(steps, v')
  {
  }

  lemma VoteSourced(net: Net, steps: Steps, n: Node, at: Pubkey, v: VoteMsg, now: nat, i: nat)
    requires NodeSourced(net, steps, n) && NodeInv(n) && i < |steps| && steps[i].0 == NetStep.Vote(at, v)
    ensures NodeSourced(net, steps, InsertVote(n, v.key, v.version, v.contactVersion, v.lastId, now))
  {
    hide Origin;
    if v.key in n.table {
      var old' := n.table[v.key];
      var data := old'.(version := v.version, lastId := v.lastId);
      var u :| Origin(net, steps, u) && Derived(steps, u, old');
      assert Voted(steps, data);
      assert Derived(steps, u, data);
    }
  }

  lemma ApplySourced(net: Net, steps: Steps, n: Node, from: Pubkey, ix: nat, data: seq<NodeInfo>, live: seq<(Pubkey, nat)>, now: nat)
    requires NodeSourced(net, steps, n) && forall v :: v in data ==> Sourced(net, steps, v)
    ensures NodeSourced(net, steps, ApplyUpdates(n, from, ix, data, live, now))
  {
    hide Sourced; hide InsertAll; hide Rumours;
    InsertAllSourced(net, steps, n, data, now);
    RumoursSameTable(InsertAll(n, data, now), from, live);
  }

  lemma NodeChangeSourced(net: Net, steps: Steps, now: Net, at: Pubkey, n': Node)
    requires AllSourced(net, steps, now) && NodeSourced(net, steps, n')
    ensures AllSourced(net, steps, now.(nodes := now.nodes[at := n']))
  {
    hide NodeSourced; hide Sourced;
  }

  lemma HeldAreSourced(net: Net, steps: Steps, now: Net)
    requires AllSourced(net, steps, now)
    ensures forall a :: a in now.nodes ==> NodeSourced(net, steps, now.nodes[a])
    ensures forall q :: q in now.requests ==> Sourced(net, steps, q.me)
    ensures forall r, v :: r in now.replies && v in r.full ==> Sourced(net, steps, v)
  {
    hide NodeSourced; hide Sourced;
  }

  lemma MessageSourced(net: Net, steps: Steps, now: Net, step: NetStep, t: nat)
    requires AllSourced(net, steps, now) && Enabled(now, step) && (step.Ask? || step.Collect?)
    ensures AllSourced(net, steps, Do(now, step, t))
  {
    hide Sourced;
    if step.Collect? {
      forall v | v in step.full ensures Sourced(net, steps, v) {
        assert NodeSourced(net, steps, now.nodes[step.req.dst]);
      }
    }
  }

  lemma {:induction false} StepSourced(net: Net, steps: Steps, now: Net, step: NetStep, t: nat)
    requires AllSourced(net, steps, now) && NetInv(now) && Enabled(now, step)
    ensures AllSourced(net, steps + [(step, t)], Do(now, step, t))
  {
    hide Sourced; hide NodeInv; hide NetInv; hide Insert; hide InsertVote; hide HearFrom; hide ApplyUpdates; hide NodeSourced;
    var all := steps + [(step, t)];
    AllSourcedLater(net, steps, (step, t), now);
    HeldAreSourced(net, all, now);
    hide AllSourced;
    match step
    case Change(at, v) =>
      assert all[|steps|].0 == step;
      InsertedIsSourced(net, all, |steps|, v);
      InsertSourced(net, all, now.nodes[at], v, t);
      NodeChangeSourced(net, all, now, at, Insert(now.nodes[at], v, t));
    case Vote(at, v) =>
      assert all[|steps|].0 == step;
      NodesAreSound(now, at);
      VoteSourced(net, all, now.nodes[at], at, v, t, |steps|);
      NodeChangeSourced(net, all, now, at, InsertVote(now.nodes[at], v.key, v.version, v.contactVersion, v.lastId, t));
    case Ask(src, dst) => MessageSourced(net, all, now, step, t);
    case Collect(req, full, live) => MessageSourced(net, all, now, step, t);
    case Hear(req, addr) =>
      HearSourced(net, all, now.nodes[req.dst], req.me, addr, t);
      NodeChangeSourced(net, all, now, req.dst, HearFrom(now.nodes[req.dst], req.me, addr, t));
    case Accept(reply) =>
      forall v | v in Carried(reply) ensures Sourced(net, all, v) {
        CarriedAreChanged(reply.stamps, reply.since, reply.full, v);
      }
      var n := now.nodes[reply.dst];
      ApplySourced(net, all, n, reply.src, reply.ups, Carried(reply), reply.live, t);
      NodeChangeSourced(net, all, now, reply.dst, ApplyUpdates(n, reply.src, reply.ups, Carried(reply), reply.live, t));
  }

  lemma InsertedIsSourced(net: Net, steps: Steps, i: nat, v: NodeInfo)
    requires i < |steps| && steps[i].0.Change? && steps[i].0.v == v
    ensures Sourced(net, steps, v)
  {
    assert Origin(net, steps, v) && Derived(steps, v, v);
  }

  /**
   * Nothing is made up: over every run, whatever any node holds about a peer is an entry some node
   * started with or inserted, with at most its address filled in where none was given, and the
   * version and last id of a vote that was seen for that peer.
   */
  lemma {:induction false} NothingIsMadeUp(net: Net, steps: Steps)
    requires Initial(net) && RunNet(net, steps).Some?
    ensures AllSourced(net, steps, RunNet(net, steps).value)
  {
    hide Do; hide Enabled; hide AllSourced; hide NetInv;
    if steps == [] {
      StartIsSourced(net);
    } else {
      var m := |steps| - 1;
      NothingIsMadeUp(net, steps[..m]);
      EveryRunKeepsNotes(net, steps[..m]);
      StepSourced(net, steps[..m], RunNet(net, steps[..m]).value, steps[m].0, steps[m].1);
      assert steps[..m] + [(steps[m].0, steps[m].1)] == steps;
    }
  }

  lemma StartIsSourced(net: Net)
    requires Initial(net)
    ensures AllSourced(net, [], net)
  {
    forall a, k | a in net.nodes && k in net.nodes[a].table ensures Sourced(net, [], net.nodes[a].table[k]) {
      var u := net.nodes[a].table[k];
      assert u.id == k;
      assert Origin(net, [], u) && Derived([], u, u);
    }
  }

  // ---- Incremental is as good as full -------------------------------------------------------------------

  lemma {:induction false} KnownIsSkipped(n: Node, local: Stamps, since: nat, vs: seq<NodeInfo>, now: nat)
    requires forall v :: v in vs ==> (v.id in local && local[v.id] > since) || Knows(n, v)
    ensures InsertAll(n, ChangedSince(local, since, vs), now) == InsertAll(n, vs, now)
  {
    hide Insert; hide Knows;
    if vs != [] {
      var m := |vs| - 1;
      KnownIsSkipped(n, local, since, vs[..m], now);
      var v := vs[m];
      var old' := ChangedSince(local, since, vs[..m]);
      if v.id in local && local[v.id] > since {
        assert (old' + [v])[..|old'|] == old';
      } else {
        assert ChangedSince(local, since, vs) == old';
        InsertAllGrows(n, vs[..m], now);
        KnownInsertIsNothing(InsertAll(n, vs[..m], now), v, now);
      }
    }
  }

  lemma KnownInsertIsNothing(n: Node, v: NodeInfo, now: nat)
    requires Knows(n, v)
    ensures Insert(n, v, now) == n
  {
  }

  lemma {:induction false} CarriedAreChanged(local: Stamps, since: nat, vs: seq<NodeInfo>, v: NodeInfo)
    requires v in ChangedSince(local, since, vs)
    ensures v in vs && v.id in local && local[v.id] > since
  {
    var m := |vs| - 1;
    if v in ChangedSince(local, since, vs[..m]) {
      CarriedAreChanged(local, since, vs[..m], v);
    }
  }

  /**
   * Delta equals full transfer: in any state a run can reach, applying any reply ever sent leaves
   * its receiver in exactly the state that being sent the whole table would have, and knowing all
   * of it.
   */
  lemma DeltaEqualsFull(net: Net, reply: Reply, now: nat)
    requires NetInv(net) && reply in net.replies
    ensures
      var n := net.nodes[reply.dst];
      var n' := ApplyUpdates(n, reply.src, reply.ups, Carried(reply), reply.live, now);
      n' == ApplyUpdates(n, reply.src, reply.ups, reply.full, reply.live, now) &&
      forall v :: v in reply.full ==> Knows(n', v)
  {
    hide Insert; hide InsertAll; hide Rumours; hide Grew; hide NodeInv; hide KnowsUpTo;
    var n := net.nodes[reply.dst];
    assert ReplyInvariant(n, net.nodes[reply.src], reply);
    forall v | v in reply.full
      ensures (v.id in reply.stamps && reply.stamps[v.id] > reply.since) || Knows(n, v)
    {
      if v in Carried(reply) {
        CarriedAreChanged(reply.stamps, reply.since, reply.full, v);
      }
    }
    KnownIsSkipped(n, reply.stamps, reply.since, reply.full, now);
    ApplyUpdatesGrows(n, reply.src, reply.ups, reply.full, reply.live, now);
  }
}
