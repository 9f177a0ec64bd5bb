/** Votes carried by entries: what a validator reads off the entries it replays and keeps of each voter. */
module Votes {
  import opened Base
  import opened Processor
  import opened FinPlanProgram
  import opened GossipNode

  /** `FinPlanTransaction::vote`: whatever the program, an instruction that reads as a vote is one, by the first key. */
  function VoteIn(f: Formats, tx: Transaction): Option<VoteMsg>
    requires tx.keys != []
  {
    match f.instruction(tx.userdata)
    case Some(NewVote(version, contactVersion)) => Some(VoteMsg(tx.keys[0], version, contactVersion, tx.lastId))
    case _ => None
  }

  function VotesIn(f: Formats, txs: seq<Transaction>): seq<VoteMsg>
    requires Payers(txs)
  {
    if txs == [] then [] else
    var vote := VoteIn(f, txs[|txs| - 1]);
    VotesIn(f, txs[..|txs| - 1]) + if vote.Some? then [vote.value] else []
  }

  /** `Block::votes`. */
  function VotesOf(f: Formats, es: seq<Entry>): seq<VoteMsg>
    requires AllPayers(es)
  {
    if es == [] then [] else VotesOf(f, es[..|es| - 1]) + VotesIn(f, es[|es| - 1].transactions)
  }

  /** Transaction `j` of entry `i` is `k`'s vote for `version`, under a contact version of at most `contact`. */
  predicate VotesFor(f: Formats, es: seq<Entry>, i: nat, j: nat, k: Pubkey, version: nat, contact: nat) {
    i < |es| && j < |es[i].transactions| &&
    var tx := es[i].transactions[j];
    tx.keys != [] && tx.keys[0] == k &&
    match f.instruction(tx.userdata)
    case Some(NewVote(v, c)) => v == version && c <= contact
    case _ => false
  }

  lemma {:induction false} VotesInExactly(f: Formats, txs: seq<Transaction>, m: VoteMsg)
    requires Payers(txs)
    ensures m in VotesIn(f, txs) <==> exists j :: 0 <= j < |txs| && VoteIn(f, txs[j]) == Some(m)
  {
    hide VoteIn;
    if txs != [] {
      var n := |txs| - 1;
      VotesInExactly(f, txs[..n], m);
      if m in VotesIn(f, txs[..n]) {
        var j :| 0 <= j < n && VoteIn(f, txs[..n][j]) == Some(m);
        assert VoteIn(f, txs[j]) == Some(m);
      }
      if j :| 0 <= j < |txs| && VoteIn(f, txs[j]) == Some(m) {
        if j < n {
          assert txs[..n][j] == txs[j];
        }
      }
    }
  }

  /** A vote is read off the entries exactly when some transaction of theirs is that vote. */
  lemma {:induction false} VotesOfExactly(f: Formats, es: seq<Entry>, m: VoteMsg)
    requires AllPayers(es)
    ensures m in VotesOf(f, es) <==>
      exists i, j :: 0 <= i < |es| && 0 <= j < |es[i].transactions| && VoteIn(f, es[i].transactions[j]) == Some(m)
  {
    hide VoteIn; hide VotesIn;
    if es != [] {
      var n := |es| - 1;
      VotesOfExactly(f, es[..n], m);
      VotesInExactly(f, es[n].transactions, m);
      if m in VotesOf(f, es[..n]) {
        var i, j :| 0 <= i < n && 0 <= j < |es[..n][i].transactions| && VoteIn(f, es[..n][i].transactions[j]) == Some(m);
        assert VoteIn(f, es[i].transactions[j]) == Some(m);
      }
      if i, j :| 0 <= i < |es| && 0 <= j < |es[i].transactions| && VoteIn(f, es[i].transactions[j]) == Some(m) {
        if i < n {
          assert es[..n][i] == es[i];
        }
      }
    }
  }

  /**
   * After the votes of the entries it has replayed, a node's entry for a known voter has at least the
   * version of every vote of theirs there that counts; and if it has changed at all, then just to the
   * version and last id of one of them.
   */
  lemma {:induction false} ReplayedVotesStand(f: Formats, n: Node, es: seq<Entry>, now: nat, k: Pubkey)
    requires NodeInv(n) && AllPayers(es) && k in n.table
    ensures
      var n', was := InsertVotes(n, VotesOf(f, es), now), n.table[k];
      NodeInv(n') && k in n'.table &&
      (forall i: nat, j: nat, version: nat :: VotesFor(f, es, i, j, k, version, was.contactVersion) ==>
        version <= n'.table[k].version) &&
      (n'.table[k] == was ||
        exists i: nat, j: nat, version: nat :: VotesFor(f, es, i, j, k, version, was.contactVersion) && version > was.version &&
          n'.table[k] == was.(version := version, lastId := es[i].transactions[j].lastId))
  {
    hide VotesOf; hide InsertVotes; hide NodeInv;
    var votes := VotesOf(f, es);
    var n', was := InsertVotes(n, votes, now), n.table[k];
    VotesAreTallied(n, votes, now, k);
    forall i: nat, j: nat, version: nat | VotesFor(f, es, i, j, k, version, was.contactVersion)
      ensures version <= n'.table[k].version
    {
      var m := VoteIn(f, es[i].transactions[j]).value;
      VotesOfExactly(f, es, m);
      assert Counts(n, k, m);
    }
    if n'.table[k] != was {
      var w: nat :| Wins(n, k, votes, w) && n'.table[k] == was.(version := votes[w].version, lastId := votes[w].lastId);
      VotesOfExactly(f, es, votes[w]);
      var i, j :| 0 <= i < |es| && 0 <= j < |es[i].transactions| && VoteIn(f, es[i].transactions[j]) == Some(votes[w]);
      assert VotesFor(f, es, i, j, k, votes[w].version, was.contactVersion);
    }
  }
}
