/**
 * Starting from the mint and from ledgers that hold contracts: the first two entries put the mint's
 * tokens in its account, and a ledger whose plans the boot has checked is one that keeps escrow.
 */
module BootLaws {
  import opened Base
  import opened HashChain
  import opened Packing
  import opened Processor
  import opened Batches
  import opened Tokens
  import opened FinPlanProgram
  import opened Programs
  import opened Escrow
  import opened EscrowRuns
  import opened Boot
  import Leader

  // ---- The mint ----------------------------------------------------------------------------------------

  /** `Mint::create_transactions`: all its tokens, from the mint to itself. */
  function MintTransaction(mint: Pubkey, seed: Hash, signature: Signature, userdata: seq<byte>): Transaction {
    Transaction(signature, [mint, mint], SYSTEM_PROGRAM_ID, seed, 0, userdata)
  }

  /** `Mint::create_entries`. */
  function MintEntries(r: Rules, mint: Pubkey, seed: Hash, signature: Signature, userdata: seq<byte>): (es: seq<Entry>)
    ensures |es| == 2
  {
    var e0 := NewEntry(r, seed, 0, []);
    [e0, NewEntry(r, e0.id, 0, [MintTransaction(mint, seed, signature, userdata)])]
  }

  /**
   * A mint's two entries verify from its seed and boot any node, which then has exactly the mint's
   * tokens more than before, all in the mint's account.
   */
  lemma MintBoots(run: Runtime, r: Rules, b: Bank, mint: Pubkey, seed: Hash, signature: Signature, userdata: seq<byte>,
                  system: seq<byte> -> Option<SystemInstruction>, tokens: int)
    requires KeepsSlice(run) && system(userdata) == Some(Move(tokens)) && r.plan(MintTransaction(mint, seed, signature, userdata))
    ensures
      var es := MintEntries(r, mint, seed, signature, userdata);
      AllPayers(es) && BlockVerify(r, es, seed) && GenesisOf(system, es) == Some((mint, tokens)) &&
      Accepts(run, r, b, mint, tokens, es) &&
      var b' := ProcessEntries(run, Genesis(b, mint, tokens, es), es[2..]).0;
      Balance(b'.accounts, mint) == Balance(b.accounts, mint) + tokens && Total(b'.accounts) == Total(b.accounts) + tokens &&
      forall k :: k != mint ==> Get(b'.accounts, k) == Get(b.accounts, k)
  {
    hide KeepsSlice; hide Total; hide Genesis; hide RegisterAll;
    var es, tx := MintEntries(r, mint, seed, signature, userdata), MintTransaction(mint, seed, signature, userdata);
    assert PlansVerify(r, [tx]);
    assert es[0].id == seed && es[1].transactions == [tx];
    assert EntryVerify(r, es[0], PrevId(es, seed, 0)) && EntryVerify(r, es[1], PrevId(es, seed, 1));
    assert es[2..] == [];
    GenesisFunds(b, mint, tokens, es);
  }

  // ---- Plans are checked where the node takes transactions in -------------------------------------------

  /** The node's rules: plans are checked by `verify_plan`. */
  function NodeRules(f: Formats, one: Hash -> Hash, two: (Hash, Hash) -> Hash, sigs: seq<Signature> -> Hash): Rules {
    Rules(one, two, sigs, tx => VerifyPlan(f, tx))
  }

  /** So a leader's own calls need only list their contract once. */
  lemma {:induction false} VettedCallsAreProper(f: Formats, r: Rules, ps: seq<Leader.Packet>, t: Transaction)
    requires r == NodeRules(f, r.one, r.two, r.sigs) && t in Leader.Vet(r, ps) && !RepeatsContract(t.keys)
    ensures Proper(f, t)
  {
    hide Leader.Vet; hide VerifyPlan;
    Leader.VettedExactly(r, ps);
  }

  /** The events of replaying a ledger: each entry's batch, then its id. */
  function EventsOf(es: seq<Entry>): seq<Event> {
    if es == [] then [] else
    EventsOf(es[..|es| - 1]) + [AtMostOnce.Batch(es[|es| - 1].transactions), AtMostOnce.NewId(es[|es| - 1].id)]
  }

  lemma {:induction false} EventsPay(es: seq<Entry>)
    requires AllPayers(es)
    ensures AllPay(EventsOf(es))
  {
    if es != [] {
      EventsPay(es[..|es| - 1]);
    }
  }

  lemma EmptyBatchIsNothing(run: Runtime, b: Bank)
    ensures ProcessTransactions(run, b, []) == (b, [])
  {
    EmptyBatch(run, b);
  }

  /** Replaying is a run of the escrow model: the book can only be refused where an entry is. */
  lemma {:induction false} ReplayIsRun(r: Registry, b: Bank, es: seq<Entry>)
    requires AllPayers(es) && AllPay(EventsOf(es)) && RunEscrow(r, b, EventsOf(es)).Some?
    requires ProcessEntries(Dispatch(r), b, es).1.Okay?
    ensures RunEscrow(r, b, EventsOf(es)).value.bank == ProcessEntries(Dispatch(r), b, es).0
  {
    hide ProcessTransactions; hide Dispatch; hide Register; hide EnterAll; hide Effects;
    if es != [] {
      var n := |es| - 1;
      var evs, e := EventsOf(es), es[n];
      var m := |evs| - 2;
      assert evs[..m] == EventsOf(es[..n]) && evs[..m + 1][..m] == evs[..m] && evs[..m + 1][m] == AtMostOnce.Batch(e.transactions);
      assert RunEscrow(r, b, evs[..m + 1]).Some? && RunEscrow(r, b, evs[..m]).Some?;
      ReplayIsRun(r, b, es[..n]);
      if e.transactions == [] {
        EmptyBatchIsNothing(Dispatch(r), RunEscrow(r, b, evs[..m]).value.bank);
      }
    }
  }

  /** What the keys of a ledger's contract calls must respect. */
  predicate CallsApart(es: seq<Entry>) {
    forall i :: 0 <= i < |es| ==>
      NoneListedLater(es[i].transactions) &&
      forall j :: 0 <= j < |es[i].transactions| ==> IsCall(es[i].transactions[j]) && !RepeatsContract(es[i].transactions[j].keys)
  }

  lemma {:induction false} CheckedLedgerIsCareful(r: Registry, b: Bank, es: seq<Entry>)
    requires AllPayers(es) && AllPay(EventsOf(es)) && CallsApart(es)
    requires forall i, j :: 0 <= i < |es| && 0 <= j < |es[i].transactions| ==> VerifyPlan(r.formats, es[i].transactions[j])
    ensures forall n :: 0 <= n < |EventsOf(es)| && EventsOf(es)[n].Batch? ==> ProperCalls(r.formats, EventsOf(es)[n].txs)
  {
    hide VerifyPlan; hide RepeatsContract; hide NoneListedLater; hide Acts; hide CanRun; hide OpensContract;
    if es != [] {
      var n := |es| - 1;
      assert forall i :: 0 <= i < n ==> es[..n][i] == es[i];
      assert AllPay(EventsOf(es[..n])) by { EventsPay(es[..n]); }
      CheckedLedgerIsCareful(r, b, es[..n]);
      assert ProperCalls(r.formats, es[n].transactions);
    }
  }

  /**
   * A ledger of contract calls that boots keeps escrow: from accounts that hold no contract, once its
   * chain and plans have been checked and it has replayed, every contract in it is backed and has
   * paid at most once.
   */
  lemma {:induction false} BootedLedgerKeepsEscrow(r: Registry, rules: Rules, b: Bank, mint: Pubkey, deposit: int, es: seq<Entry>)
    requires GoodFormats(r.formats) && KeepsSlice(r.other) && ForgesNothing(r.formats, r.other)
    requires rules == NodeRules(r.formats, rules.one, rules.two, rules.sigs)
    requires |es| >= 2 && AllPayers(es) && Accepts(Dispatch(r), rules, b, mint, deposit, es)
    requires Inv(r.formats, Genesis(b, mint, deposit, es).accounts, map[]) && CallsApart(es[2..])
    ensures
      var g := Genesis(b, mint, deposit, es);
      AllPay(EventsOf(es[2..])) && RunEscrow(r, g, EventsOf(es[2..])).Some? &&
      var s := RunEscrow(r, g, EventsOf(es[2..])).value;
      s.bank == ProcessEntries(Dispatch(r), g, es[2..]).0 && Inv(r.formats, s.bank.accounts, s.book) && PaidOnce(s.book, s.payouts)
  {
    hide GoodFormats; hide KeepsSlice; hide ForgesNothing; hide Inv; hide Genesis; hide ProcessEntries; hide Dispatch;
    hide RunEscrow;
    hide VerifyPlan; hide BlockVerify; hide CallsApart; hide PaidOnce; hide EventsOf; hide ProperCalls; hide CarefulRun;
    var g, rest := Genesis(b, mint, deposit, es), es[2..];
    PlansAreChecked(rules, rest, es[1].id);
    EventsPay(rest);
    CheckedLedgerIsCareful(r, g, rest);
    CallsAreCareful(r, g, EventsOf(rest));
    EscrowSafety(r, g, EventsOf(rest));
    ReplayIsRun(r, g, rest);
  }
}
