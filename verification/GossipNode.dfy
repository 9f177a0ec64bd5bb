/** One node's view of the network: a versioned table, stamped so that peers can ask for what is new. */
module GossipNode {
  import opened Base

  const GOSSIP_PURGE_MILLIS: nat := 15000
  const MIN_TABLE_SIZE: nat := 2

  datatype NodeInfo = NodeInfo(
    id: Pubkey, version: nat, contactVersion: nat, ncp: nat, leaderId: Pubkey, lastId: Hash)

  /** `ncp` when the address is not known. */
  const UNSPECIFIED: nat := 0

  type Stamps = map<Pubkey, nat>

  datatype Node = Node(
    id: Pubkey,
    table: map<Pubkey, NodeInfo>,
    local: Stamps,                     // my update index when the entry last changed
    remote: Stamps,                    // the peer's update index I last caught up with
    alive: Stamps,                     // when I last heard of it
    updateIndex: nat,
    rumours: map<Pubkey, Stamps>)      // what others claim to have seen of a peer

  function NewNode(info: NodeInfo): Option<Node> {
    if info.version != 0 then None
    else Some(Node(info.id, map[info.id := info], map[info.id := 1], map[], map[], 1, map[]))
  }

  function Remote(n: Node, id: Pubkey): nat {
    if id in n.remote then n.remote[id] else 0
  }

  // ---- Changes -------------------------------------------------------------------------------------

  predicate Newer(n: Node, v: NodeInfo) {
    v.id !in n.table || v.version > n.table[v.id].version
  }

  function Touch(n: Node, id: Pubkey, now: nat): Node {
    n.(alive := n.alive[id := now])
  }

  /** `insert`: only a newer version changes anything. */
  function Insert(n: Node, v: NodeInfo, now: nat): Node {
    if !Newer(n, v) then n else
    var ix := n.updateIndex + 1;
    Touch(n.(updateIndex := ix, table := n.table[v.id := v], local := n.local[v.id := ix]), v.id, now)
  }

  function InsertAll(n: Node, vs: seq<NodeInfo>, now: nat): Node {
    if vs == [] then n else Insert(InsertAll(n, vs[..|vs| - 1], now), vs[|vs| - 1], now)
  }

  function SetLeader(n: Node, key: Pubkey, now: nat): Node
    requires n.id in n.table
  {
    var me := n.table[n.id];
    Insert(n, me.(leaderId := key, version := me.version + 1), now)
  }

  function NewVote(n: Node, lastId: Hash, now: nat): Node
    requires n.id in n.table
  {
    var me := n.table[n.id];
    if me.leaderId == DEFAULT_PUBKEY || me.leaderId !in n.table then n
    else Insert(n, me.(version := me.version + 1, lastId := lastId), now)
  }

  function InsertVote(n: Node, key: Pubkey, version: nat, contactVersion: nat, lastId: Hash, now: nat): Node {
    if key !in n.table then n
    else if contactVersion > n.table[key].contactVersion then n
    else if version <= n.table[key].version then Touch(n, key, now)
    else
      var data := n.table[key].(version := version, lastId := lastId);
      Insert(Touch(n, data.id, now), data, now)
  }

  datatype VoteMsg = VoteMsg(key: Pubkey, version: nat, contactVersion: nat, lastId: Hash)

  /** `insert_votes`. */
  function InsertVotes(n: Node, votes: seq<VoteMsg>, now: nat): Node {
    if votes == [] then n else
    var v := votes[|votes| - 1];
    InsertVote(InsertVotes(n, votes[..|votes| - 1], now), v.key, v.version, v.contactVersion, v.lastId, now)
  }

  /** A peer's claim to have seen `ix` of `p`: kept only while it is news, and only the highest. */
  function Rumour(n: Node, from: Pubkey, p: Pubkey, ix: nat): Node {
    if Remote(n, p) >= ix then n else
    var heard := if p in n.rumours then n.rumours[p] else map[];
    if from in heard && ix <= heard[from] then n.(rumours := n.rumours[p := heard])
    else n.(rumours := n.rumours[p := heard[from := ix]])
  }

  function Rumours(n: Node, from: Pubkey, live: seq<(Pubkey, nat)>): Node {
    if live == [] then n else
    var last := live[|live| - 1];
    Rumour(Rumours(n, from, live[..|live| - 1]), from, last.0, last.1)
  }

  /** `apply_updates`: the data, then the rumours, then note how far we have caught up with the sender. */
  function ApplyUpdates(n: Node, from: Pubkey, ix: nat, data: seq<NodeInfo>, live: seq<(Pubkey, nat)>, now: nat): Node {
    var n' := Rumours(InsertAll(n, data, now), from, live);
    n'.(remote := n'.remote[from := ix], rumours := n'.rumours - {from})
  }

  /** The entries changed since `since`, in the order the table happens to be walked. */
  function ChangedSince(local: Stamps, since: nat, vs: seq<NodeInfo>): seq<NodeInfo> {
    if vs == [] then [] else
    var v := vs[|vs| - 1];
    ChangedSince(local, since, vs[..|vs| - 1]) + if v.id in local && local[v.id] > since then [v] else []
  }

  /** Handling a request for updates, after the answer has been collected. */
  function HearFrom(n: Node, from: NodeInfo, addr: nat, now: nat): Node {
    var seen := if from.ncp == UNSPECIFIED then from.(ncp := addr) else from;
    Touch(Insert(n, seen, now), seen.id, now)
  }

  // ---- Purge ---------------------------------------------------------------------------------------

  function Forget(n: Node, id: Pubkey): Node {
    n.(alive := n.alive - {id}, table := n.table - {id}, remote := n.remote - {id}, local := n.local - {id},
       rumours := map p | p in n.rumours && p != id :: n.rumours[p] - {id})
  }

  /** Forgetting the leader also clears whom we follow. */
  function PurgeOne(n: Node, id: Pubkey, leader: Pubkey, now: nat): Node
    requires n.id in n.table && id != n.id
  {
    var n' := Forget(n, id);
    if id == leader then SetLeader(n', DEFAULT_PUBKEY, now) else n'
  }

  // ---- The invariant -------------------------------------------------------------------------------

  ghost predicate TableInvariant(n: Node) {
    && n.id in n.table
    && n.table.Keys == n.local.Keys
    && n.alive.Keys <= n.table.Keys
    && (forall k :: k in n.table ==> n.table[k].id == k)
  }

  ghost predicate StampsInvariant(n: Node) {
    && (forall k :: k in n.local ==> 0 < n.local[k] <= n.updateIndex)
    && (forall j, k :: j in n.local && k in n.local && j != k ==> n.local[j] != n.local[k])
  }

  /** Every rumour says more than we have seen ourselves. */
  ghost predicate RumoursInvariant(n: Node) {
    forall p, q :: p in n.rumours && q in n.rumours[p] ==> n.rumours[p][q] > Remote(n, p)
  }

  ghost predicate NodeInv(n: Node) {
    TableInvariant(n) && StampsInvariant(n) && RumoursInvariant(n)
  }

  lemma NewNodeInv(info: NodeInfo)
    requires info.version == 0
    ensures NewNode(info).Some? && NodeInv(NewNode(info).value)
    ensures var n := NewNode(info).value;
      n.id == info.id && n.table == map[info.id := info] && n.updateIndex == 1 && n.remote == n.alive == map[] && n.rumours == map[]
  {
  }

  lemma TouchKeeps(n: Node, id: Pubkey, now: nat)
    requires NodeInv(n) && id in n.table
    ensures NodeInv(Touch(n, id, now))
  {
  }

  lemma InsertKeepsTable(n: Node, v: NodeInfo, now: nat)
    requires TableInvariant(n)
    ensures TableInvariant(Insert(n, v, now))
  {
  }

  lemma InsertKeepsStamps(n: Node, v: NodeInfo, now: nat)
    requires StampsInvariant(n)
    ensures StampsInvariant(Insert(n, v, now))
  {
  }

  lemma InsertKeeps(n: Node, v: NodeInfo, now: nat)
    requires NodeInv(n)
    ensures var n' := Insert(n, v, now);
      NodeInv(n') && v.id in n'.table && n'.table[v.id].version >= v.version && n'.id == n.id &&
      n'.updateIndex >= n.updateIndex && n'.remote == n.remote && n'.rumours == n.rumours
  {
    hide TableInvariant; hide StampsInvariant;
    InsertKeepsTable(n, v, now);
    InsertKeepsStamps(n, v, now);
  }

  lemma {:induction false} InsertAllKeeps(n: Node, vs: seq<NodeInfo>, now: nat)
    requires NodeInv(n)
    ensures var n' := InsertAll(n, vs, now);
      NodeInv(n') && n'.id == n.id && n'.updateIndex >= n.updateIndex && n'.remote == n.remote
  {
    hide NodeInv; hide Insert;
    if vs != [] {
      InsertAllKeeps(n, vs[..|vs| - 1], now);
      InsertKeeps(InsertAll(n, vs[..|vs| - 1], now), vs[|vs| - 1], now);
    }
  }

  lemma SetLeaderKeeps(n: Node, key: Pubkey, now: nat)
    requires NodeInv(n)
    ensures NodeInv(SetLeader(n, key, now)) && SetLeader(n, key, now).table[n.id].leaderId == key
    ensures SetLeader(n, key, now).table.Keys == n.table.Keys && SetLeader(n, key, now).id == n.id
  {
    var me := n.table[n.id];
    InsertKeeps(n, me.(leaderId := key, version := me.version + 1), now);
  }

  lemma NewVoteKeeps(n: Node, lastId: Hash, now: nat)
    requires NodeInv(n)
    ensures NodeInv(NewVote(n, lastId, now))
  {
    var me := n.table[n.id];
    InsertKeeps(n, me.(version := me.version + 1, lastId := lastId), now);
  }

  /** Everything but `k`'s entry, stamp and liveness is as it was. */
  ghost predicate OnlyAt(n: Node, n': Node, k: Pubkey) {
    n'.id == n.id && n'.remote == n.remote && n'.rumours == n.rumours &&
    (forall j :: j != k ==> (j in n'.table <==> j in n.table) && (j in n.table ==> n'.table[j] == n.table[j])) &&
    (forall j :: j != k ==> (j in n'.local <==> j in n.local) && (j in n.local ==> n'.local[j] == n.local[j])) &&
    (forall j :: j != k ==> (j in n'.alive <==> j in n.alive) && (j in n.alive ==> n'.alive[j] == n.alive[j]))
  }

  /** `v` is now the entry, under an update index above all before, and was just heard of. */
  ghost predicate Recorded(n: Node, n': Node, v: NodeInfo, now: nat) {
    OnlyAt(n, n', v.id) && v.id in n'.table && n'.table[v.id] == v && n'.updateIndex == n.updateIndex + 1 &&
    v.id in n'.local && n'.local[v.id] == n'.updateIndex && v.id in n'.alive && n'.alive[v.id] == now
  }

  /** A newer version is recorded, whole; any other changes nothing. */
  lemma InsertRecords(n: Node, v: NodeInfo, now: nat)
    ensures v.id !in n.table || v.version > n.table[v.id].version ==> Recorded(n, Insert(n, v, now), v, now)
    ensures v.id in n.table && v.version <= n.table[v.id].version ==> Insert(n, v, now) == n
  {
  }

  /** Choosing a leader changes just that in the node's own entry, under its next version. */
  lemma LeaderIsRecorded(n: Node, key: Pubkey, now: nat)
    requires n.id in n.table && n.table[n.id].id == n.id
    ensures var me := n.table[n.id];
      Recorded(n, SetLeader(n, key, now), me.(leaderId := key, version := me.version + 1), now)
  {
    hide Insert; hide Recorded;
    var me := n.table[n.id];
    InsertRecords(n, me.(leaderId := key, version := me.version + 1), now);
  }

  /** Voting does the same with its last id, as long as the leader is known. */
  lemma OwnVoteIsRecorded(n: Node, lastId: Hash, now: nat)
    requires n.id in n.table && n.table[n.id].id == n.id
    ensures
      var me := n.table[n.id];
      if me.leaderId != DEFAULT_PUBKEY && me.leaderId in n.table
      then Recorded(n, NewVote(n, lastId, now), me.(lastId := lastId, version := me.version + 1), now)
      else NewVote(n, lastId, now) == n
  {
    hide Insert; hide Recorded;
    var me := n.table[n.id];
    InsertRecords(n, me.(version := me.version + 1, lastId := lastId), now);
  }

  /**
   * A vote: from a known key, under a contact version we have, a newer one is recorded with its last
   * id, an older one only shows the voter is alive; any other changes nothing.
   */
  lemma VoteIsRecorded(n: Node, key: Pubkey, version: nat, contactVersion: nat, lastId: Hash, now: nat)
    requires NodeInv(n)
    ensures
      var n' := InsertVote(n, key, version, contactVersion, lastId, now);
      if key in n.table && contactVersion <= n.table[key].contactVersion then
        if version > n.table[key].version then Recorded(n, n', n.table[key].(version := version, lastId := lastId), now)
        else n' == n.(alive := n.alive[key := now])
      else n' == n
  {
    hide Insert; hide Recorded; hide StampsInvariant; hide RumoursInvariant;
    if key in n.table {
      var data := n.table[key].(version := version, lastId := lastId);
      InsertRecords(Touch(n, key, now), data, now);
      if version > n.table[key].version {
        RecordedAfterTouch(n, Insert(Touch(n, key, now), data, now), data, now);
      }
    }
  }

  lemma RecordedAfterTouch(n: Node, n': Node, v: NodeInfo, now: nat)
    requires Recorded(Touch(n, v.id, now), n', v, now)
    ensures Recorded(n, n', v, now)
  {
  }

  /** A vote that counts for `k`: it is `k`'s, under a contact version we have. */
  predicate Counts(n: Node, k: Pubkey, v: VoteMsg) {
    k in n.table && v.key == k && v.contactVersion <= n.table[k].contactVersion
  }

  /** Vote `i` is the first of the highest version. */
  ghost predicate Wins(n: Node, k: Pubkey, votes: seq<VoteMsg>, i: nat) {
    i < |votes| && Counts(n, k, votes[i]) && votes[i].version > n.table[k].version &&
    (forall j :: 0 <= j < |votes| && Counts(n, k, votes[j]) ==> votes[j].version <= votes[i].version) &&
    (forall j :: 0 <= j < i && Counts(n, k, votes[j]) ==> votes[j].version < votes[i].version)
  }

  /** Of a known voter the winning vote's version and last id are kept, or the entry is as it was if no vote is newer. */
  ghost predicate Tallied(n: Node, n': Node, votes: seq<VoteMsg>, k: Pubkey) {
    (k in n'.table <==> k in n.table) &&
    (k in n.table ==>
      (forall i :: 0 <= i < |votes| && Counts(n, k, votes[i]) ==> votes[i].version <= n'.table[k].version) &&
      (n'.table[k] == n.table[k] ||
       exists i: nat :: Wins(n, k, votes, i) && n'.table[k] == n.table[k].(version := votes[i].version, lastId := votes[i].lastId)))
  }

  lemma VoteAtKey(n: Node, v: VoteMsg, k: Pubkey, now: nat)
    requires NodeInv(n)
    ensures
      var n' := InsertVote(n, v.key, v.version, v.contactVersion, v.lastId, now);
      (k in n'.table <==> k in n.table) &&
      (k in n.table && Counts(n, k, v) && v.version > n.table[k].version ==>
        n'.table[k] == n.table[k].(version := v.version, lastId := v.lastId)) &&
      (k in n.table && !(Counts(n, k, v) && v.version > n.table[k].version) ==> n'.table[k] == n.table[k])
  {
    hide InsertVote; hide StampsInvariant; hide RumoursInvariant;
    VoteIsRecorded(n, v.key, v.version, v.contactVersion, v.lastId, now);
  }

  lemma {:induction false} TallyStep(n: Node, mid: Node, votes: seq<VoteMsg>, v: VoteMsg, k: Pubkey, now: nat)
    requires NodeInv(mid) && Tallied(n, mid, votes, k)
    ensures Tallied(n, InsertVote(mid, v.key, v.version, v.contactVersion, v.lastId, now), votes + [v], k)
  {
    hide InsertVote; hide NodeInv;
    VoteAtKey(mid, v, k, now);
    var all := votes + [v];
    if k in n.table {
      if Counts(n, k, v) && v.version > mid.table[k].version {
        assert Wins(n, k, all, |votes|);
      } else if mid.table[k] != n.table[k] {
        var i: nat :| Wins(n, k, votes, i) && mid.table[k] == n.table[k].(version := votes[i].version, lastId := votes[i].lastId);
        assert all[i] == votes[i] && Wins(n, k, all, i);
      }
    }
  }

  /** All the votes of a batch of entries: for every known voter the highest vote stands, the first of equals. */
  lemma {:induction false} VotesAreTallied(n: Node, votes: seq<VoteMsg>, now: nat, k: Pubkey)
    requires NodeInv(n)
    ensures NodeInv(InsertVotes(n, votes, now)) && Tallied(n, InsertVotes(n, votes, now), votes, k)
  {
    hide NodeInv; hide InsertVote; hide Tallied;
    if votes == [] {
      NothingTallied(n, k);
    } else {
      var m := |votes| - 1;
      var v := votes[m];
      VotesAreTallied(n, votes[..m], now, k);
      var mid := InsertVotes(n, votes[..m], now);
      InsertVoteKeeps(mid, v.key, v.version, v.contactVersion, v.lastId, now);
      TallyStep(n, mid, votes[..m], v, k, now);
      assert votes[..m] + [v] == votes;
    }
  }

  lemma NothingTallied(n: Node, k: Pubkey)
    ensures Tallied(n, n, [], k)
  {
  }

  /** Whoever asks for updates is known afterwards, at least at the version it gave, reachable, and alive. */
  lemma AskerIsKnown(n: Node, from: NodeInfo, addr: nat, now: nat)
    requires NodeInv(n)
    ensures
      var n' := HearFrom(n, from, addr, now);
      OnlyAt(n, n', from.id) && from.id in n'.table && from.id in n'.alive && n'.alive[from.id] == now &&
      (if from.id in n.table && from.version <= n.table[from.id].version
       then n'.table == n.table && n'.updateIndex == n.updateIndex
       else n'.table[from.id] == from.(ncp := if from.ncp == UNSPECIFIED then addr else from.ncp) &&
            n'.updateIndex == n.updateIndex + 1 && n'.local[from.id] == n'.updateIndex)
  {
  }

  /** A claim that is news is kept: the highest one its sender has made. */
  lemma RumourIsHeard(n: Node, from: Pubkey, p: Pubkey, ix: nat)
    ensures
      var n' := Rumour(n, from, p, ix);
      var before := if p in n.rumours && from in n.rumours[p] then n.rumours[p][from] else 0;
      ix > Remote(n, p) ==> p in n'.rumours && from in n'.rumours[p] && n'.rumours[p][from] == Max(before, ix)
  {
  }

  lemma RumourRaises(n: Node, from: Pubkey, p: Pubkey, ix: nat, q: Pubkey, voter: Pubkey)
    requires q in n.rumours && voter in n.rumours[q]
    ensures var n' := Rumour(n, from, p, ix);
      q in n'.rumours && voter in n'.rumours[q] && n'.rumours[q][voter] >= n.rumours[q][voter]
  {
  }

  /** So after a reply each of its claims is kept, unless we have seen as much ourselves. */
  lemma {:induction false} RumoursAreHeard(n: Node, from: Pubkey, live: seq<(Pubkey, nat)>, i: nat)
    requires i < |live| && live[i].1 > Remote(n, live[i].0)
    ensures var n' := Rumours(n, from, live);
      live[i].0 in n'.rumours && from in n'.rumours[live[i].0] && n'.rumours[live[i].0][from] >= live[i].1
  {
    hide Rumour;
    var m := |live| - 1;
    var mid := Rumours(n, from, live[..m]);
    RumoursKeepRemote(n, from, live[..m]);
    if i < m {
      RumoursAreHeard(n, from, live[..m], i);
      assert live[..m][i] == live[i];
      RumourRaises(mid, from, live[m].0, live[m].1, live[i].0, from);
    } else {
      RumourIsHeard(mid, from, live[m].0, live[m].1);
    }
  }

  lemma {:induction false} RumoursKeepRemote(n: Node, from: Pubkey, live: seq<(Pubkey, nat)>)
    ensures Rumours(n, from, live).remote == n.remote
  {
    if live != [] {
      RumoursKeepRemote(n, from, live[..|live| - 1]);
    }
  }

  /**
   * After a reply its sender's update index is noted and no rumour about the sender is left; of any
   * other peer each claim in it that is news is kept.
   */
  lemma ReplyIsNoted(n: Node, from: Pubkey, ix: nat, data: seq<NodeInfo>, live: seq<(Pubkey, nat)>, now: nat)
    requires NodeInv(n)
    ensures
      var n' := ApplyUpdates(n, from, ix, data, live, now);
      from in n'.remote && n'.remote[from] == ix && from !in n'.rumours &&
      (forall p :: p != from ==> Remote(n', p) == Remote(n, p)) &&
      forall i :: 0 <= i < |live| && live[i].0 != from && live[i].1 > Remote(n, live[i].0) ==>
        live[i].0 in n'.rumours && from in n'.rumours[live[i].0] && n'.rumours[live[i].0][from] >= live[i].1
  {
    hide InsertAll; hide Rumours; hide NodeInv;
    var mid := InsertAll(n, data, now);
    InsertAllKeeps(n, data, now);
    RumoursKeepRemote(mid, from, live);
    forall i | 0 <= i < |live| && live[i].0 != from && live[i].1 > Remote(n, live[i].0)
      ensures var n' := ApplyUpdates(n, from, ix, data, live, now);
        live[i].0 in n'.rumours && from in n'.rumours[live[i].0] && n'.rumours[live[i].0][from] >= live[i].1
    {
      RumoursAreHeard(mid, from, live, i);
    }
  }

  lemma InsertVoteKeeps(n: Node, key: Pubkey, version: nat, contactVersion: nat, lastId: Hash, now: nat)
    requires NodeInv(n)
    ensures NodeInv(InsertVote(n, key, version, contactVersion, lastId, now))
  {
    if key in n.table {
      TouchKeeps(n, key, now);
      InsertKeeps(Touch(n, key, now), n.table[key].(version := version, lastId := lastId), now);
    }
  }

  lemma RumourKeeps(n: Node, from: Pubkey, p: Pubkey, ix: nat)
    requires NodeInv(n)
    ensures NodeInv(Rumour(n, from, p, ix)) && Rumour(n, from, p, ix) == n.(rumours := Rumour(n, from, p, ix).rumours)
  {
  }

  lemma {:induction false} RumoursKeep(n: Node, from: Pubkey, live: seq<(Pubkey, nat)>)
    requires NodeInv(n)
    ensures NodeInv(Rumours(n, from, live)) && Rumours(n, from, live) == n.(rumours := Rumours(n, from, live).rumours)
  {
    hide NodeInv; hide Rumour;
    if live != [] {
      RumoursKeep(n, from, live[..|live| - 1]);
      RumourKeeps(Rumours(n, from, live[..|live| - 1]), from, live[|live| - 1].0, live[|live| - 1].1);
    }
  }

  lemma ApplyUpdatesKeeps(n: Node, from: Pubkey, ix: nat, data: seq<NodeInfo>, live: seq<(Pubkey, nat)>, now: nat)
    requires NodeInv(n)
    ensures NodeInv(ApplyUpdates(n, from, ix, data, live, now))
  {
    InsertAllKeeps(n, data, now);
    RumoursKeep(InsertAll(n, data, now), from, live);
    hide InsertAll; hide Rumours;
  }

  lemma HearFromKeeps(n: Node, from: NodeInfo, addr: nat, now: nat)
    requires NodeInv(n)
    ensures NodeInv(HearFrom(n, from, addr, now))
  {
    var seen := if from.ncp == UNSPECIFIED then from.(ncp := addr) else from;
    InsertKeeps(n, seen, now);
    TouchKeeps(Insert(n, seen, now), seen.id, now);
  }

  lemma ForgetKeeps(n: Node, id: Pubkey)
    requires NodeInv(n) && id != n.id
    ensures NodeInv(Forget(n, id)) && Forget(n, id).table == n.table - {id} && Forget(n, id).id == n.id
    ensures var n' := Forget(n, id);
      id !in n'.local && id !in n'.alive && id !in n'.remote && id !in n'.rumours &&
      forall p :: p in n'.rumours ==> id !in n'.rumours[p]
    ensures n.id in Forget(n, id).table && Forget(n, id).table[n.id].id == n.id
  {
  }

  lemma PurgeOneKeeps(n: Node, id: Pubkey, leader: Pubkey, now: nat)
    requires NodeInv(n) && id != n.id
    ensures var n' := PurgeOne(n, id, leader, now);
      NodeInv(n') && n'.id == n.id && n'.table.Keys == n.table.Keys - {id} && OthersKept(n, n') &&
      (id == leader ==> n'.table[n.id].leaderId == DEFAULT_PUBKEY)
  {
    hide NodeInv; hide Forget; hide SetLeader; hide OthersKept;
    ForgetKeeps(n, id);
    OthersForgotten(n, id);
    if id == leader {
      SetLeaderKeeps(Forget(n, id), DEFAULT_PUBKEY, now);
      OthersThroughLeader(n, Forget(n, id), now);
    }
  }

  /** Peers still in the table have the entry they had. */
  ghost predicate OthersKept(n: Node, n': Node) {
    forall k :: k in n'.table && k != n.id ==> k in n.table && n'.table[k] == n.table[k]
  }

  lemma OthersForgotten(n: Node, id: Pubkey)
    ensures OthersKept(n, Forget(n, id))
  {
  }

  lemma OthersThroughLeader(n: Node, mid: Node, now: nat)
    requires OthersKept(n, mid) && mid.id == n.id && n.id in mid.table && mid.table[n.id].id == n.id
    ensures OthersKept(n, SetLeader(mid, DEFAULT_PUBKEY, now))
  {
  }

  lemma SelfKnown(n: Node)
    requires NodeInv(n)
    ensures n.id in n.table && n.alive.Keys <= n.table.Keys
  {
  }

  /** The peer weighting never sees a claim below what it has seen itself: that branch is dead. */
  lemma NoStaleRumours(n: Node, peer: Pubkey, voter: Pubkey)
    requires NodeInv(n) && peer in n.rumours && voter in n.rumours[peer]
    ensures !(n.rumours[peer][voter] < Remote(n, peer))
  {
  }

  /** Anything that can happen to a node. */
  datatype NodeEvent =
    | Inserted(v: NodeInfo)
    | LeaderSet(key: Pubkey)
    | Voted(lastId: Hash)
    | VoteSeen(key: Pubkey, version: nat, contactVersion: nat, voted: Hash)
    | UpdatesReceived(from: Pubkey, ix: nat, data: seq<NodeInfo>, live: seq<(Pubkey, nat)>)
    | UpdatesRequested(requester: NodeInfo, addr: nat)
    | Purged(dead: Pubkey, leader: Pubkey)

  ghost function After(n: Node, ev: NodeEvent, now: nat): Node
    requires n.id in n.table
  {
    match ev
    case Inserted(v) => Insert(n, v, now)
    case LeaderSet(key) => SetLeader(n, key, now)
    case Voted(lastId) => NewVote(n, lastId, now)
    case VoteSeen(key, version, contact, lastId) => InsertVote(n, key, version, contact, lastId, now)
    case UpdatesReceived(from, ix, data, live) => ApplyUpdates(n, from, ix, data, live, now)
    case UpdatesRequested(from, addr) => HearFrom(n, from, addr, now)
    case Purged(dead, leader) => if dead == n.id then n else PurgeOne(n, dead, leader, now)
  }

  /** Every handler, with any arguments a peer could send, and every purge keep the invariant. */
  lemma EveryHandlerKeeps(n: Node, ev: NodeEvent, now: nat)
    requires NodeInv(n)
    ensures NodeInv(After(n, ev, now))
  {
    hide Insert; hide SetLeader; hide NewVote; hide InsertVote; hide ApplyUpdates; hide HearFrom; hide PurgeOne;
    SelfKnown(n);
    hide NodeInv; hide Touch; hide Newer; hide Remote;
    match ev
    case Inserted(v) => InsertKeeps(n, v, now);
    case LeaderSet(key) => SetLeaderKeeps(n, key, now);
    case Voted(lastId) => NewVoteKeeps(n, lastId, now);
    case VoteSeen(key, version, contact, lastId) => InsertVoteKeeps(n, key, version, contact, lastId, now);
    case UpdatesReceived(from, ix, data, live) => ApplyUpdatesKeeps(n, from, ix, data, live, now);
    case UpdatesRequested(from, addr) => HearFromKeeps(n, from, addr, now);
    case Purged(dead, leader) => if dead != n.id { PurgeOneKeeps(n, dead, leader, now); }
  }

  // ---- The node in place -----------------------------------------------------------------------------

  class BlockThread {
    var table: map<Pubkey, NodeInfo>
    var local: Stamps
    var remote: Stamps
    var alive: Stamps
    var updateIndex: nat
    const id: Pubkey
    var externalLiveness: map<Pubkey, Stamps>

    constructor (info: NodeInfo)
      requires info.version == 0
      ensures Some(View()) == NewNode(info)
    {
      id := info.id;
      table, local := map[info.id := info], map[info.id := 1];
      remote, alive, updateIndex, externalLiveness := map[], map[], 1, map[];
    }

    ghost function View(): Node
      reads this
    {
      Node(id, table, local, remote, alive, updateIndex, externalLiveness)
    }

    method UpdateLiveness(key: Pubkey, now: nat)
      modifies this`alive
      ensures View() == Touch(old(View()), key, now)
    {
      alive := alive[key := now];
    }

    method InsertInfo(v: NodeInfo, now: nat) returns (count: nat)
      modifies this
      ensures View() == Insert(old(View()), v, now)
      ensures count == if Newer(old(View()), v) then 1 else 0
    {
      if v.id !in table || v.version > table[v.id].version {
        updateIndex := updateIndex + 1;
        table := table[v.id := v];
        local := local[v.id := updateIndex];
        UpdateLiveness(v.id, now);
        count := 1;
      } else {
        count := 0;
      }
    }

    method ChooseLeader(key: Pubkey, now: nat)
      requires id in table
      modifies this
      ensures View() == SetLeader(old(View()), key, now)
    {
      var me := table[id];
      me := me.(leaderId := key);
      me := me.(version := me.version + 1);
      var _ := InsertInfo(me, now);
    }

    method RecordVote(key: Pubkey, version: nat, contactVersion: nat, lastId: Hash, now: nat)
      modifies this
      ensures View() == InsertVote(old(View()), key, version, contactVersion, lastId, now)
    {
      if key !in table {
        return;
      }
      if contactVersion > table[key].contactVersion {
        return;
      }
      if version <= table[key].version {
        UpdateLiveness(key, now);
      } else {
        var data := table[key].(version := version, lastId := lastId);
        UpdateLiveness(data.id, now);
        var _ := InsertInfo(data, now);
      }
    }

    method RecordVotes(votes: seq<VoteMsg>, now: nat)
      modifies this
      ensures View() == InsertVotes(old(View()), votes, now)
    {
      hide InsertVote;
      for i := 0 to |votes|
        invariant View() == InsertVotes(old(View()), votes[..i], now)
      {
        assert votes[..i + 1][..i] == votes[..i];
        RecordVote(votes[i].key, votes[i].version, votes[i].contactVersion, votes[i].lastId, now);
      }
      assert votes[..|votes|] == votes;
    }

    method ReceiveUpdates(from: Pubkey, ix: nat, data: seq<NodeInfo>, live: seq<(Pubkey, nat)>, now: nat)
      modifies this
      ensures View() == ApplyUpdates(old(View()), from, ix, data, live, now)
    {
      hide Insert; hide Rumour;
      for i := 0 to |data|
        invariant View() == InsertAll(old(View()), data[..i], now)
      {
        assert data[..i + 1][..i] == data[..i];
        var _ := InsertInfo(data[i], now);
      }
      assert data[..|data|] == data;
      ghost var inserted := View();
      for i := 0 to |live|
        invariant View() == Rumours(inserted, from, live[..i])
      {
        assert live[..i + 1][..i] == live[..i];
        HearRumour(from, live[i].0, live[i].1);
      }
      assert live[..|live|] == live;
      remote := remote[from := ix];
      externalLiveness := externalLiveness - {from};
    }

    method HearRumour(from: Pubkey, p: Pubkey, ix: nat)
      modifies this`externalLiveness
      ensures View() == Rumour(old(View()), from, p, ix)
    {
      var seen := if p in remote then remote[p] else 0;
      if seen >= ix {
        return;
      }
      var heard := if p in externalLiveness then externalLiveness[p] else map[];
      if !(from in heard && ix <= heard[from]) {
        heard := heard[from := ix];
      }
      externalLiveness := externalLiveness[p := heard];
    }

    /**
     * `purge`: forgets exactly the peers unheard of for too long, in any order; when the leader is
     * among them the node stops following anyone. Its invariant survives.
     */
    method Purge(now: nat)
      requires NodeInv(View()) && forall k :: k in alive ==> alive[k] <= now
      modifies this
      ensures NodeInv(View())
      ensures
        var leader := old(table[id].leaderId);
        var quiet := set k | k in old(alive) && k != id && now > old(alive[k]) + 15000;
        if old(|table|) > 2 && leader != DEFAULT_PUBKEY && leader in old(table) then
          table.Keys == old(table.Keys) - quiet && (leader in quiet ==> table[id].leaderId == DEFAULT_PUBKEY)
        else View() == old(View())
      ensures OthersKept(old(View()), View())
    {
      if |table| <= MIN_TABLE_SIZE {
        return;
      }
      var leader := table[id].leaderId;
      if leader == DEFAULT_PUBKEY || leader !in table {
        return;
      }
      var dead := set k | k in alive && k != id && now - alive[k] > GOSSIP_PURGE_MILLIS;
      SelfKnown(View());
      hide NodeInv;
      ForgetAll(dead, leader, now);
    }

    /** Forgets the given peers one by one, in whatever order they come. */
    method ForgetAll(peers: set<Pubkey>, leader: Pubkey, now: nat)
      requires NodeInv(View()) && id !in peers
      modifies this
      ensures NodeInv(View()) && id in table && table.Keys == old(table.Keys) - peers
      ensures OthersKept(old(View()), View())
      ensures leader in peers ==> table[id].leaderId == DEFAULT_PUBKEY
    {
      hide NodeInv; hide PurgeOne;
      var dead := peers;
      SelfKnown(View());
      while dead != {}
        invariant NodeInv(View()) && id in table && dead <= peers
        invariant table.Keys == old(table.Keys) - (peers - dead) && OthersKept(old(View()), View())
        invariant leader in peers - dead ==> table[id].leaderId == DEFAULT_PUBKEY
        decreases dead
      {
        var k :| k in dead;
        dead := dead - {k};
        PurgeOneKeeps(View(), k, leader, now);
        ForgetOne(k, leader, now);
      }
    }

    method ForgetOne(k: Pubkey, leader: Pubkey, now: nat)
      requires id in table && k != id
      modifies this
      ensures View() == PurgeOne(old(View()), k, leader, now)
      ensures k != leader ==> table == old(table) - {k}
    {
      alive := alive - {k};
      table := table - {k};
      remote := remote - {k};
      local := local - {k};
      externalLiveness := map p | p in externalLiveness && p != k :: externalLiveness[p] - {k};
      if k == leader {
        ChooseLeader(DEFAULT_PUBKEY, now);
      }
    }
  }
}
