/** Starting a node from its ledger: replaying it, keeping its tail, and caching that tail in the window. */
module Boot {
  import opened Base
  import opened HashChain
  import opened Processor
  import opened Replay
  import opened ReceiveWindow
  import opened Codecs
  import LedgerFiles
  import opened Programs
  import opened LittleEndian
  import opened Tokens
  import opened BatchTotals

  // ---- The ring-buffered tail ----------------------------------------------------------------------

  function LastEntries(es: seq<Entry>): seq<Entry> {
    if |es| <= WINDOW_SIZE then es else es[|es| - WINDOW_SIZE..]
  }

  /** Overwrites the oldest once the ring is full. */
  function TailPush(tail: seq<Entry>, idx: nat, e: Entry): (seq<Entry>, nat)
    requires idx <= |tail|
  {
    (if |tail| > idx then tail[idx := e] else tail + [e], (idx + 1) % WINDOW_SIZE)
  }

  function Rotated(tail: seq<Entry>, idx: nat): seq<Entry>
    requires idx <= |tail|
  {
    tail[idx..] + tail[..idx]
  }

  ghost predicate TailHolds(all: seq<Entry>, tail: seq<Entry>, idx: nat) {
    if |all| < WINDOW_SIZE then tail == all && idx == |all|
    else |tail| == WINDOW_SIZE && idx == |all| % WINDOW_SIZE && Rotated(tail, idx) == LastEntries(all)
  }

  lemma TailStep(all: seq<Entry>, tail: seq<Entry>, idx: nat, e: Entry)
    requires TailHolds(all, tail, idx)
    ensures idx <= |tail| && TailHolds(all + [e], TailPush(tail, idx, e).0, TailPush(tail, idx, e).1)
  {
    var (tail', idx') := TailPush(tail, idx, e);
    if |all| >= WINDOW_SIZE {
      RingStep(tail, idx, e);
      assert LastEntries(all + [e]) == LastEntries(all)[1..] + [e];
    }
  }

  /** On a full ring, overwriting at the cursor drops the oldest and appends the newest. */
  lemma RingStep(tail: seq<Entry>, idx: nat, e: Entry)
    requires |tail| == WINDOW_SIZE && idx < WINDOW_SIZE
    ensures Rotated(tail[idx := e], (idx + 1) % WINDOW_SIZE) == Rotated(tail, idx)[1..] + [e]
  {
    var tail' := tail[idx := e];
    if idx + 1 < WINDOW_SIZE {
      assert tail'[idx + 1..] == tail[idx + 1..];
      assert tail'[..idx + 1] == tail[..idx] + [e];
      assert (tail[idx..] + tail[..idx])[1..] == tail[idx + 1..] + tail[..idx];
      assert (idx + 1) % WINDOW_SIZE == idx + 1;
    } else {
      assert tail' == tail[..idx] + [e];
      assert tail[idx..] == [tail[idx]];
      assert ([tail[idx]] + tail[..idx])[1..] == tail[..idx];
      assert (idx + 1) % WINDOW_SIZE == 0 && tail'[0..] == tail' && tail'[..0] == [];
    }
  }

  // ---- Replaying the ledger --------------------------------------------------------------------------

  /** The account and deposit of the second entry's first transaction; None where the source panics. */
  function GenesisOf(system: seq<byte> -> Option<SystemInstruction>, es: seq<Entry>): Option<(Pubkey, int)> {
    if |es| < 2 || es[1].transactions == [] then None else
    var tx := es[1].transactions[0];
    if tx.programId != SYSTEM_PROGRAM_ID || tx.keys == [] then None else
    match system(tx.userdata)
    case Some(Move(n)) => Some((tx.keys[0], n))
    case _ => None
  }

  /** A ledger starts with a deposit of `n` for `mint`: the first transfer of its second entry, by its own payer. */
  lemma GenesisIs(system: seq<byte> -> Option<SystemInstruction>, es: seq<Entry>, mint: Pubkey, n: int)
    ensures GenesisOf(system, es) == Some((mint, n)) <==>
      |es| >= 2 && |es[1].transactions| >= 1 &&
      var tx := es[1].transactions[0];
      tx.programId == SYSTEM_PROGRAM_ID && |tx.keys| >= 1 && tx.keys[0] == mint && system(tx.userdata) == Some(Move(n))
  {
  }

  datatype BootResult = Booted(height: nat, lastEntries: seq<Entry>) | Refused | Panics

  /** The bank after the first two entries: the mint's deposit, and both ids. */
  function Genesis(b: Bank, mint: Pubkey, deposit: int, es: seq<Entry>): Bank
    requires |es| >= 2
  {
    var a := Get(b.accounts, mint);
    var funded := b.(accounts := b.accounts[mint := a.(tokens := a.tokens + deposit)]);
    Register(Register(funded, es[0].id), es[1].id)
  }

  /** What booting from a ledger should check: one chain from the second entry on, every entry replaying. */
  ghost predicate Accepts(run: Runtime, r: Rules, b: Bank, mint: Pubkey, deposit: int, es: seq<Entry>)
    requires |es| >= 2 && AllPayers(es)
  {
    BlockVerify(r, es[2..], es[1].id) &&
    ProcessEntries(run, Genesis(b, mint, deposit, es), es[2..]).1.Okay?
  }

  // ---- What booting leaves ---------------------------------------------------------------------------

  lemma {:induction false} TotalUpdate(m: Accounts, k: Pubkey, a: Account)
    ensures Total(m[k := a]) == Total(m) - Balance(m, k) + a.tokens
  {
    TotalAt(m[k := a], k);
    TotalDrop(m, k);
    assert m[k := a] - {k} == m - {k};
  }

  /** The first two entries add the deposit to the mint's account and nothing to any other. */
  lemma {:induction false} GenesisFunds(b: Bank, mint: Pubkey, deposit: int, es: seq<Entry>)
    requires |es| >= 2
    ensures
      var g := Genesis(b, mint, deposit, es);
      Balance(g.accounts, mint) == Balance(b.accounts, mint) + deposit &&
      (forall k :: k != mint ==> Get(g.accounts, k) == Get(b.accounts, k)) &&
      Total(g.accounts) == Total(b.accounts) + deposit && g.ring == RegisterAll(b, Ids(es[..2])).ring
  {
    hide Total; hide RegisterAll;
    var a := Get(b.accounts, mint);
    TotalUpdate(b.accounts, mint, a.(tokens := a.tokens + deposit));
    TwoIds(b, es[0].id, es[1].id);
    assert Ids(es[..2]) == [es[0].id, es[1].id];
  }

  lemma {:induction false} TwoIds(b: Bank, id: Hash, id': Hash)
    ensures RegisterAll(b, [id, id']) == Register(Register(b, id), id')
  {
    assert [id][..0] == [] && RegisterAll(b, [id]) == Register(b, id);
    assert [id, id'][..1] == [id];
  }

  function FeeSum(txs: seq<Transaction>): int {
    if txs == [] then 0 else FeeSum(txs[..|txs| - 1]) + txs[|txs| - 1].fee
  }

  function LedgerFees(es: seq<Entry>): int {
    if es == [] then 0 else LedgerFees(es[..|es| - 1]) + FeeSum(es[|es| - 1].transactions)
  }

  lemma {:induction false} AllAcceptedFees(txs: seq<Transaction>, ss: seq<Status>)
    requires |txs| == |ss| && forall i :: 0 <= i < |ss| ==> ss[i].Okay?
    ensures Fees(txs, ss) == FeeSum(txs)
  {
    if txs != [] {
      AllAcceptedFees(txs[..|txs| - 1], ss[..|txs| - 1]);
    }
  }

  ghost predicate SeparateLedger(es: seq<Entry>) {
    forall i :: 0 <= i < |es| ==> Separate(es[i].transactions)
  }

  /** One entry that is accepted: its id is registered, and on separate accounts it costs its fees. */
  lemma EntryLeaves(run: Runtime, b: Bank, e: Entry)
    requires KeepsSlice(run) && Payers(e.transactions) && ProcessEntry(run, b, e).1.Okay?
    ensures ProcessEntry(run, b, e).0.ring == Register(b, e.id).ring
    ensures Separate(e.transactions) ==>
      Total(ProcessEntry(run, b, e).0.accounts) == Total(b.accounts) - FeeSum(e.transactions)
  {
    hide ProcessTransactions; hide Total; hide KeepsSlice; hide Separate;
    if e.transactions != [] {
      BatchKeepsRing(run, b, e.transactions);
      var ss := ProcessTransactions(run, b, e.transactions).1;
      if Separate(e.transactions) {
        SeparateConserves(run, b, e.transactions);
        AllAcceptedFees(e.transactions, ss);
      }
    }
  }

  /** One that is refused: some transaction of it failed, its id is not registered, and the rest of its batch stands. */
  lemma RefusedEntryLeaves(run: Runtime, b: Bank, e: Entry)
    requires Payers(e.transactions) && ProcessEntry(run, b, e).1.Failed?
    ensures
      var (b', ss) := ProcessTransactions(run, b, e.transactions);
      ProcessEntry(run, b, e).0 == b' && b'.ring == b.ring && exists i :: 0 <= i < |ss| && ss[i].Failed?
  {
    hide ProcessTransactions;
    BatchKeepsRing(run, b, e.transactions);
  }

  /** So a refused list of entries leaves exactly the ids of those before the one that failed. */
  lemma {:induction false} RefusedLedgerLeaves(run: Runtime, b: Bank, es: seq<Entry>) returns (m: nat)
    requires KeepsSlice(run) && AllPayers(es) && ProcessEntries(run, b, es).1.Failed?
    ensures m < |es| && ProcessEntries(run, b, es[..m]).1.Okay?
    ensures ProcessEntry(run, ProcessEntries(run, b, es[..m]).0, es[m]) == ProcessEntries(run, b, es)
    ensures ProcessEntries(run, b, es).0.ring == RegisterAll(b, Ids(es[..m])).ring
  {
    hide ProcessEntry; hide KeepsSlice;
    var n := |es| - 1;
    if ProcessEntries(run, b, es[..n]).1.Failed? {
      m := RefusedLedgerLeaves(run, b, es[..n]);
      assert es[..n][..m] == es[..m];
    } else {
      m := n;
      ReplayLeaves(run, b, es[..n]);
      RefusedEntryLeaves(run, ProcessEntries(run, b, es[..n]).0, es[n]);
    }
  }

  lemma BatchKeepsRing(run: Runtime, b: Bank, txs: seq<Transaction>)
    requires Payers(txs)
    ensures ProcessTransactions(run, b, txs).0.ring == b.ring
  {
  }

  lemma {:induction false} RegisterAllRing(b: Bank, b': Bank, ids: seq<Hash>)
    requires b.ring == b'.ring
    ensures RegisterAll(b, ids).ring == RegisterAll(b', ids).ring
  {
    if ids != [] {
      RegisterAllRing(b, b', ids[..|ids| - 1]);
    }
  }

  lemma {:induction false} ReplayLeaves(run: Runtime, b: Bank, es: seq<Entry>)
    requires KeepsSlice(run) && AllPayers(es) && ProcessEntries(run, b, es).1.Okay?
    ensures ProcessEntries(run, b, es).0.ring == RegisterAll(b, Ids(es)).ring
    ensures SeparateLedger(es) ==> Total(ProcessEntries(run, b, es).0.accounts) == Total(b.accounts) - LedgerFees(es)
  {
    hide ProcessEntry; hide Total; hide KeepsSlice; hide Separate; hide FeeSum;
    if es != [] {
      var n := |es| - 1;
      ReplayLeaves(run, b, es[..n]);
      var mid := ProcessEntries(run, b, es[..n]).0;
      EntryLeaves(run, mid, es[n]);
      OneMoreId(b, es[..n], es[n]);
      assert es[..n] + [es[n]] == es;
      RegisteredRing(mid, es[n].id);
      RegisteredRing(RegisterAll(b, Ids(es[..n])), es[n].id);
    }
  }

  lemma RegisteredRing(b: Bank, id: Hash)
    ensures Register(b, id).ring == (if |b.ring| >= MAX_ENTRY_IDS then b.ring[1..] else b.ring) + [id]
  {
  }

  lemma {:induction false} RegisterAllSplit(b: Bank, ids: seq<Hash>, k: nat)
    requires k <= |ids|
    ensures RegisterAll(b, ids) == RegisterAll(RegisterAll(b, ids[..k]), ids[k..])
  {
    if k < |ids| {
      var n := |ids| - 1;
      RegisterAllSplit(b, ids[..n], k);
      assert ids[..n][..k] == ids[..k] && ids[..n][k..] == ids[k..n] && ids[k..][..n - k] == ids[k..n];
    } else {
      assert ids[..k] == ids && ids[k..] == [];
    }
  }

  /**
   * What a ledger leaves once it has been accepted: the ids of all its entries, the last one last;
   * only plans that pass, from the third entry on; the mint up by the deposit and nobody else
   * changed, when there are just two entries; and on separate accounts the total as before, plus the
   * deposit, less all fees.
   */
  ghost predicate BootLeaves(run: Runtime, r: Rules, b: Bank, b': Bank, mint: Pubkey, deposit: int, es: seq<Entry>)
    requires |es| >= 2
  {
    b'.ring == RegisterAll(b, Ids(es)).ring && b'.ring != [] && b'.ring[|b'.ring| - 1] == es[|es| - 1].id &&
    (forall i, j :: 2 <= i < |es| && 0 <= j < |es[i].transactions| ==> r.plan(es[i].transactions[j])) &&
    (|es| == 2 ==>
      Balance(b'.accounts, mint) == Balance(b.accounts, mint) + deposit &&
      forall k :: k != mint ==> Get(b'.accounts, k) == Get(b.accounts, k)) &&
    (SeparateLedger(es[2..]) ==> Total(b'.accounts) == Total(b.accounts) + deposit - LedgerFees(es[2..]))
  }

  lemma {:induction false} AcceptedLedgerLeaves(run: Runtime, r: Rules, b: Bank, mint: Pubkey, deposit: int, es: seq<Entry>)
    requires KeepsSlice(run) && |es| >= 2 && AllPayers(es) && Accepts(run, r, b, mint, deposit, es)
    ensures BootLeaves(run, r, b, ProcessEntries(run, Genesis(b, mint, deposit, es), es[2..]).0, mint, deposit, es)
  {
    hide KeepsSlice; hide Total; hide RegisterAll; hide Genesis; hide BlockVerify; hide ProcessEntries;
    hide SeparateLedger; hide LedgerFees;
    var g := Genesis(b, mint, deposit, es);
    GenesisFunds(b, mint, deposit, es);
    ReplayLeaves(run, g, es[2..]);
    PlansAreChecked(r, es[2..], es[1].id);
    forall i, j | 2 <= i < |es| && 0 <= j < |es[i].transactions| ensures r.plan(es[i].transactions[j]) {
      assert es[2..][i - 2] == es[i];
    }
    RegisterAllRing(g, RegisterAll(b, Ids(es[..2])), Ids(es[2..]));
    RegisterAllSplit(b, Ids(es), 2);
    assert Ids(es)[..2] == Ids(es[..2]) && Ids(es)[2..] == Ids(es[2..]);
    LastRegistered(b, Ids(es));
    if |es| == 2 {
      NothingYet(run, r, g, es[1].id);
    }
  }

  lemma {:induction false} LastRegistered(b: Bank, ids: seq<Hash>)
    requires ids != []
    ensures var ring := RegisterAll(b, ids).ring; ring != [] && ring[|ring| - 1] == ids[|ids| - 1]
  {
  }

  lemma {:induction false} ReplayPrefix(run: Runtime, b: Bank, es: seq<Entry>, k: nat)
    requires AllPayers(es) && k <= |es| && ProcessEntries(run, b, es).1.Okay?
    ensures ProcessEntries(run, b, es[..k]).1.Okay?
  {
    hide ProcessEntry;
    if k < |es| {
      var n := |es| - 1;
      ReplayPrefix(run, b, es[..n], k);
      assert es[..n][..k] == es[..k];
    } else {
      assert es[..k] == es;
    }
  }

  class Booter {
    const r: Rules
    const processor: TransactionProcessor
    var tail: seq<Entry>
    var tailIdx: nat

    constructor (r: Rules, processor: TransactionProcessor)
      ensures this.r == r && this.processor == processor && tail == [] && tailIdx == 0
    {
      this.r, this.processor, tail, tailIdx := r, processor, [], 0;
    }

    method Remember(e: Entry, ghost all: seq<Entry>)
      requires TailHolds(all, tail, tailIdx)
      modifies this
      ensures TailHolds(all + [e], tail, tailIdx)
    {
      TailStep(all, tail, tailIdx, e);
      hide TailHolds;
      if |tail| > tailIdx {
        tail := tail[tailIdx := e];
      } else {
        tail := tail + [e];
      }
      tailIdx := (tailIdx + 1) % WINDOW_SIZE;
    }

    /** `process_entries_tail`: one block, each entry kept in the ring and processed. */
    method ProcessBlock(block: seq<Entry>, ghost all: seq<Entry>) returns (s: Status)
      requires AllPayers(block) && TailHolds(all, tail, tailIdx)
      modifies this, processor
      ensures (processor.View(), s) == ProcessEntries(processor.run, old(processor.View()), block)
      ensures s.Okay? ==> TailHolds(all + block, tail, tailIdx)
    {
      hide ProcessEntry; hide TailHolds;
      s := Okay;
      assert all + block[..0] == all;
      for i := 0 to |block|
        invariant s.Okay?
        invariant (processor.View(), s) == ProcessEntries(processor.run, old(processor.View()), block[..i])
        invariant TailHolds(all + block[..i], tail, tailIdx)
      {
        var e := block[i];
        assert block[..i + 1][..i] == block[..i];
        assert all + block[..i] + [e] == all + block[..i + 1];
        Remember(e, all + block[..i]);
        s := processor.ProcessOneEntry(e);
        if s.Failed? {
          StopsHere(processor.run, old(processor.View()), block, i + 1);
          return;
        }
      }
      assert block[..|block|] == block;
    }

    /** `process_blocks`: verify a block from the id carried over, then process it; stop at the first failure. */
    method ProcessBlocks(rest: seq<Entry>, start: Hash, ghost all: seq<Entry>) returns (ok: bool, count: nat)
      requires AllPayers(rest) && TailHolds(all, tail, tailIdx)
      modifies this, processor
      ensures ok <==>
        BlockVerify(r, rest, start) && ProcessEntries(processor.run, old(processor.View()), rest).1.Okay?
      ensures ok ==> count == |rest| && TailHolds(all + rest, tail, tailIdx)
      ensures ok ==> processor.View() == ProcessEntries(processor.run, old(processor.View()), rest).0
    {
      hide ProcessEntries; hide BlockVerify; hide TailHolds;
      ghost var b := processor.View();
      var id, pos := start, 0;
      NothingYet(processor.run, r, b, start);
      assert rest[..0] == [] && all + rest[..0] == all;
      while pos < |rest|
        invariant 0 <= pos <= |rest|
        invariant (processor.View(), Okay) == ProcessEntries(processor.run, b, rest[..pos])
        invariant BlockVerify(r, rest[..pos], start) && id == PrevId(rest, start, pos)
        invariant TailHolds(all + rest[..pos], tail, tailIdx)
      {
        var end := if pos + VERIFY_BLOCK_SIZE < |rest| then pos + VERIFY_BLOCK_SIZE else |rest|;
        var block := rest[pos..end];
        BlockStep(r, rest, start, pos, end);
        if !BlockVerify(r, block, id) {
          return false, 0;
        }
        var s := ProcessBlock(block, all + rest[..pos]);
        assert rest[..end] == rest[..pos] + block;
        ProcessEntriesConcat(processor.run, b, rest[..pos], block);
        if s.Failed? {
          if ProcessEntries(processor.run, b, rest).1.Okay? {
            ReplayPrefix(processor.run, b, rest, end);
          }
          return false, 0;
        }
        assert all + rest[..pos] + block == all + rest[..end];
        id := block[|block| - 1].id;
        pos := end;
      }
      assert rest[..|rest|] == rest;
      ok, count := true, pos;
    }

    /**
     * `process_ledger`: panics exactly on a ledger whose start is not a deposit; otherwise accepts
     * exactly one that verifies as one chain and replays throughout, and then reports the number of
     * entries and hands back the last WINDOW_SIZE of them in order, having left what `BootLeaves` says.
     */
    method ProcessLedger(es: seq<Entry>, system: seq<byte> -> Option<SystemInstruction>) returns (out: BootResult)
      requires AllPayers(es)
      modifies this, processor
      ensures out.Panics? <==> GenesisOf(system, es).None?
      ensures GenesisOf(system, es).Some? ==>
        var (mint, deposit) := GenesisOf(system, es).value;
        (out.Booted? <==> Accepts(processor.run, r, old(processor.View()), mint, deposit, es)) &&
        (out.Booted? ==>
          out == Booted(|es|, LastEntries(es)) &&
          processor.View() == ProcessEntries(processor.run, Genesis(old(processor.View()), mint, deposit, es), es[2..]).0 &&
          (KeepsSlice(processor.run) ==>
            BootLeaves(processor.run, r, old(processor.View()), processor.View(), mint, deposit, es)))
    {
      hide ProcessEntries; hide BlockVerify; hide Register; hide Rotated; hide LastEntries; hide BootLeaves; hide KeepsSlice;
      if |es| < 2 || es[1].transactions == [] {
        return Panics;
      }
      var tx := es[1].transactions[0];
      if tx.programId != SYSTEM_PROGRAM_ID || tx.keys == [] {
        return Panics;
      }
      var ins := system(tx.userdata);
      if ins.None? || !ins.value.Move? {
        return Panics;
      }
      var mint, deposit := tx.keys[0], ins.value.tokens;
      var account := Get(processor.accounts, mint);
      processor.accounts := processor.accounts[mint := account.(tokens := account.tokens + deposit)];
      processor.RegisterEntryId(es[0].id);
      processor.RegisterEntryId(es[1].id);
      tail, tailIdx := es[..2], 2;
      assert tail == [es[0], es[1]];
      var ok, count := ProcessBlocks(es[2..], es[1].id, es[..2]);
      if !ok {
        return Refused;
      }
      assert es[..2] + es[2..] == es;
      RotatedTail(es, tail, tailIdx);
      if KeepsSlice(processor.run) {
        AcceptedLedgerLeaves(processor.run, r, old(processor.View()), mint, deposit, es);
      }
      out := Booted(2 + count, if |tail| == WINDOW_SIZE then Rotated(tail, tailIdx) else tail);
    }

    /**
     * The whole start of a node: recover the files, read them, replay them, build the window. From
     * the files of any written ledger, torn at any byte, it panics when no entry is whole; otherwise
     * it is exactly a start from the longest whole prefix, with a window fit to receive and every
     * repair request answered from that prefix.
     */
    method Start(ledger: LedgerFiles.Ledger<Entry>, system: seq<byte> -> Option<SystemInstruction>, cfg: Config,
                 ghost es: seq<Entry>, ghost p: nat, ghost q: nat)
      returns (out: BootResult, slots: seq<Slot<Entry>>)
      requires Canonical(ledger.c) && LedgerFiles.Writable(ledger.c, es) && AllPayers(es) && cfg.interval > 0
      requires p <= |LedgerFiles.IndexOf(ledger.c, es)| && q <= |LedgerFiles.DataOf(ledger.c, es)|
      requires ledger.View() ==
        LedgerFiles.Files(LedgerFiles.IndexOf(ledger.c, es)[..p], LedgerFiles.DataOf(ledger.c, es)[..q])
      modifies this, processor, ledger
      ensures
        var k := Min(p / LedgerFiles.SIZEOF_U64, LedgerFiles.WholeEntries(ledger.c, es, q));
        var led := es[..k];
        var genesis := GenesisOf(system, led);
        (out.Panics? <==> k == 0 || genesis.None?) &&
        (k > 0 && genesis.Some? ==>
          (out.Booted? <==> Accepts(processor.run, r, old(processor.View()), genesis.value.0, genesis.value.1, led))) &&
        (out.Booted? ==>
          out.height == k && ledger.View() == LedgerFiles.Written(ledger.c, led) &&
          processor.View() ==
            ProcessEntries(processor.run, Genesis(old(processor.View()), genesis.value.0, genesis.value.1, led), led[2..]).0 &&
          Fresh(cfg, Win(slots, k, k, []), k) &&
          forall ix: nat ::
            ServeRepair(ledger.c, slots, Some(ledger.View()), ix) == Answer(led, 0, ix) &&
            ServeRepair(ledger.c, slots, None, ix) == Answer(led, k - Min(k, WINDOW_SIZE), ix))
    {
      hide ProcessEntries; hide BlockVerify; hide Genesis; hide GenesisOf; hide LedgerFiles.Recovered;
      hide LedgerFiles.ScanFrom;
      hide LedgerFiles.DataOf; hide LedgerFiles.IndexOf; hide LedgerFiles.WholeEntries; hide LedgerFiles.Sound; hide Accepts;
      hide LastEntries; hide CachesTail; hide Placed; hide ServeRepair; hide Canonical; hide LedgerFiles.Writable;
      hide BootLeaves; hide KeepsSlice; hide RegisterAll; hide Get;
      ghost var k := Min(p / LedgerFiles.SIZEOF_U64, LedgerFiles.WholeEntries(ledger.c, es, q));
      ghost var led := es[..k];
      LedgerFiles.CrashRecovery(ledger.c, es, p, q);
      slots := [];
      var ok := ledger.Recover();
      if !ok {
        return Panics, [];
      }
      LedgerFiles.WritablePrefix(ledger.c, es, k);
      LedgerFiles.WrittenIsSound(ledger.c, led);
      var reader := new LedgerFiles.LedgerReader(ledger.c, ledger.data);
      var entries := reader.Drain();
      assert entries == led;
      assert AllPayers(led);
      out := ProcessLedger(entries, system);
      if out.Booted? {
        LastEntriesAre(led);
        slots := InitializedWindow(out.lastEntries, out.height, led);
        BootWindowIsFresh(cfg, slots, k);
        LedgerFiles.WritableSize(ledger.c, led);
        forall ix: nat
          ensures ServeRepair(ledger.c, slots, Some(ledger.View()), ix) == Answer(led, 0, ix)
          ensures ServeRepair(ledger.c, slots, None, ix) == Answer(led, k - Min(k, WINDOW_SIZE), ix)
        {
          RepairServesLedger(ledger.c, slots, ledger.View(), k - Min(k, WINDOW_SIZE), ix);
        }
      }
    }
  }

  lemma RotatedTail(all: seq<Entry>, tail: seq<Entry>, idx: nat)
    requires TailHolds(all, tail, idx)
    ensures idx <= |tail| && (if |tail| == WINDOW_SIZE then Rotated(tail, idx) else tail) == LastEntries(all)
  {
  }

  lemma LastEntriesAre(es: seq<Entry>)
    ensures |LastEntries(es)| == Min(|es|, WINDOW_SIZE) == Min(|es|, 2048) && LastEntries(es) == es[|es| - |LastEntries(es)|..]
  {
  }

  lemma BlockStep(r: Rules, rest: seq<Entry>, start: Hash, pos: nat, end: nat)
    requires pos < end <= |rest| && BlockVerify(r, rest[..pos], start)
    ensures
      var block, id := rest[pos..end], PrevId(rest, start, pos);
      (BlockVerify(r, rest, start) ==> BlockVerify(r, block, id)) &&
      (BlockVerify(r, block, id) ==> BlockVerify(r, rest[..end], start))
  {
    hide BlockVerify;
    BlockVerifySplit(r, rest, start, end);
    BlockVerifySplit(r, rest[..end], start, pos);
    assert rest[..end][..pos] == rest[..pos] && rest[..end][pos..] == rest[pos..end];
  }

  lemma {:induction false} NothingYet(run: Runtime, r: Rules, b: Bank, start: Hash)
    ensures ProcessEntries(run, b, []) == (b, Okay) && BlockVerify(r, [], start)
  {
  }

  /** Once an entry fails, processing more of them leaves the same state and failure. */
  lemma {:induction false} StopsHere(run: Runtime, b: Bank, es: seq<Entry>, k: nat)
    requires AllPayers(es) && k <= |es| && ProcessEntries(run, b, es[..k]).1.Failed?
    ensures ProcessEntries(run, b, es) == ProcessEntries(run, b, es[..k])
  {
    hide ProcessEntry;
    if k < |es| {
      var n := |es| - 1;
      assert es[..n][..k] == es[..k];
      StopsHere(run, b, es[..n], k);
    } else {
      assert es[..k] == es;
    }
  }

  // ---- The window built from the tail ------------------------------------------------------------------

  /** The window holds the last entries below `height`, each in its own slot, and nothing else. */
  ghost predicate CachesTail<E>(slots: seq<Slot<E>>, ledger: seq<E>, from: nat, upto: nat) {
    |slots| == WINDOW_SIZE && upto <= |ledger| &&
    (forall ix: nat :: from <= ix < upto ==> slots[SlotOf(ix)].data == Some(Blob(ix, false, Some(ledger[ix])))) &&
    (forall i :: 0 <= i < WINDOW_SIZE && slots[i].data.Some? ==>
      from <= slots[i].data.value.index < upto && SlotOf(slots[i].data.value.index) == i)
  }

  /**
   * `initialized_window`: indexes the tail's blobs up to the entry height and puts each in its slot.
   * No slot is ever filled twice.
   */
  method InitializedWindow<E>(tail: seq<E>, entryHeight: nat, ghost ledger: seq<E>) returns (slots: seq<Slot<E>>)
    requires |tail| <= entryHeight == |ledger| && tail == ledger[|ledger| - |tail|..]
    ensures CachesTail(slots, ledger, entryHeight - Min(|tail|, WINDOW_SIZE), entryHeight)
    ensures Placed(slots, entryHeight)
  {
    slots := seq(WINDOW_SIZE, _ => Slot(None, None, false));
    var received := entryHeight - |tail|;
    var diff := if |tail| > WINDOW_SIZE then |tail| - WINDOW_SIZE else 0;
    ghost var from := received + diff;
    for i := diff to |tail|
      invariant CachesTail(slots, ledger, from, received + i)
    {
      var ix := received + i;
      var pos := SlotOf(ix);
      assert slots[pos].data.None? by {
        if slots[pos].data.Some? {
          DistinctSlots(from, slots[pos].data.value.index, ix);
        }
      }
      CacheOne(slots, ledger, from, ix);
      slots := slots[pos := slots[pos].(data := Some(Blob(ix, false, Some(tail[i]))))];
    }
  }

  lemma CacheOne<E>(slots: seq<Slot<E>>, ledger: seq<E>, from: nat, ix: nat)
    requires CachesTail(slots, ledger, from, ix) && from <= ix < |ledger| && ix < from + WINDOW_SIZE
    requires slots[SlotOf(ix)].data.None?
    ensures
      var pos := SlotOf(ix);
      CachesTail(slots[pos := slots[pos].(data := Some(Blob(ix, false, Some(ledger[ix]))))], ledger, from, ix + 1)
  {
    hide SlotOf;
    var pos := SlotOf(ix);
    var slots' := slots[pos := slots[pos].(data := Some(Blob(ix, false, Some(ledger[ix]))))];
    forall jx: nat | from <= jx < ix + 1 ensures slots'[SlotOf(jx)].data == Some(Blob(jx, false, Some(ledger[jx]))) {
      if jx < ix {
        DistinctSlots(from, jx, ix);
      }
    }
  }

  /** A window just built is fit to start receiving at the entry height. */
  lemma BootWindowIsFresh<E>(cfg: Config, slots: seq<Slot<E>>, entryHeight: nat)
    requires cfg.interval > 0 && Placed(slots, entryHeight)
    ensures Fresh(cfg, Win(slots, entryHeight, entryHeight, []), entryHeight)
  {
  }

  // ---- Answering repair requests -------------------------------------------------------------------------

  /** `run_window_request`: from the window when the slot holds the index, else from the ledger file, if open. */
  function ServeRepair<E>(c: Codec<E>, slots: seq<Slot<E>>, files: Option<LedgerFiles.Files>, ix: nat): Option<Blob<E>>
    requires |slots| == WINDOW_SIZE
  {
    if Held(slots, ix) then slots[SlotOf(ix)].data
    else if files.None? then None
    else
      match LedgerFiles.GetEntry(c, files.value.index, files.value.data, ix)
      case None => None
      case Some(e) => Some(Blob(ix, false, Some(e)))
  }

  /** Entry `ix` as a blob, for indices of the ledger from `from` on. */
  function Answer<E>(ledger: seq<E>, from: nat, ix: nat): Option<Blob<E>> {
    if from <= ix < |ledger| then Some(Blob(ix, false, Some(ledger[ix]))) else None
  }

  /**
   * Boot cache agrees with the ledger: on verified files, a request for any entry of the ledger is
   * answered with that entry, whether the window still has it or not, and a request past the end
   * with nothing. With no ledger file open, exactly the cached entries are answered.
   */
  lemma {:induction false} RepairServesLedger<E(!new)>(c: Codec<E>, slots: seq<Slot<E>>, files: LedgerFiles.Files, from: nat, ix: nat)
    requires |files.data| < Pow256(8) && LedgerFiles.Sound(c, files.index, files.data)
    requires var ledger := LedgerFiles.ScanFrom(c, files.data, 0).entries;
      from <= |ledger| && CachesTail(slots, ledger, from, |ledger|)
    ensures var ledger := LedgerFiles.ScanFrom(c, files.data, 0).entries;
      |slots| == WINDOW_SIZE &&
      ServeRepair(c, slots, Some(files), ix) == Answer(ledger, 0, ix) &&
      ServeRepair(c, slots, None, ix) == Answer(ledger, from, ix)
  {
    hide LedgerFiles.ScanFrom; hide LedgerFiles.Sound; hide LedgerFiles.GetEntry;
    LedgerFiles.VerifiedIndexMatchesReader(c, files.index, files.data, ix);
  }
}

/** From the leader's threads to the validator's accounts, through the window. */
module Pipeline {
  import opened Base
  import opened HashChain
  import opened Processor
  import opened Replay
  import opened LeaderThreads
  import opened Programs
  import opened Boot
  import W = ReceiveWindow

  /** A run stopped early has sent a prefix, in time if the whole was, with ids as fresh. */
  lemma {:induction false} StreamPrefix(run: Runtime, r: Rules, s: State, acts: seq<Act>, j: nat)
    requires j <= |acts| && RunThreads(run, r, s, acts).Some?
    ensures RunThreads(run, r, s, acts[..j]).Some?
    ensures SentBy(run, r, s, acts[..j]) <= SentBy(run, r, s, acts)
    ensures RunInTime(run, r, s, acts) ==> RunInTime(run, r, s, acts[..j])
    ensures FreshIds(s.bank, SentBy(run, r, s, acts)) ==> FreshIds(s.bank, SentBy(run, r, s, acts[..j]))
  {
    hide Do; hide Enabled; hide Sent; hide RecordedInTime; hide FreshIds;
    if j < |acts| {
      var n := |acts| - 1;
      StreamPrefix(run, r, s, acts[..n], j);
      assert acts[..n][..j] == acts[..j];
      if FreshIds(s.bank, SentBy(run, r, s, acts)) {
        FreshPrefix(s.bank, SentBy(run, r, s, acts[..n]), Sent(run, r, RunThreads(run, r, s, acts[..n]).value, acts[n]));
      }
    } else {
      assert acts[..j] == acts;
    }
  }

  /** Whoever sends a data blob sends the leader's entry of that index. */
  ghost predicate Honest(arrived: seq<W.Blob<Entry>>, h: nat, stream: seq<Entry>) {
    forall b :: b in arrived && !b.coding && b.entry.Some? && b.index >= h ==>
      b.index - h < |stream| && b.entry.value == stream[b.index - h]
  }

  /**
   * End to end: the stream of the leader's two threads, broadcast as blobs that arrive at a
   * validator in any order, repeated, partly lost and repaired, is delivered as a prefix of itself;
   * the validator accepts every entry it is given; whenever it has been given exactly what the
   * leader had sent at some moment between chunks, it has the accounts and entry ids the leader had
   * then; and once the first `n` entries' blobs have been accepted it has been given them, unless it
   * is itself to take over before.
   */
  lemma {:induction false} ValidatorCatchesUp(
    run: Runtime, r: Rules, s: State, v: Bank, acts: seq<Act>, j: nat,
    cfg: W.Config, w: W.Win<Entry>, h: nat, arrivals: seq<W.WindowStep<Entry>>, n: nat)
    requires s.phase.Idle? && Follows(v, s.bank) && j <= |acts| && W.Fresh(cfg, w, h)
    requires RunThreads(run, r, s, acts).Some? && RunInTime(run, r, s, acts) && FreshIds(s.bank, SentBy(run, r, s, acts))
    requires Honest(W.Arrived(arrivals), h, SentBy(run, r, s, acts))
    ensures W.Run(cfg, w, arrivals).Some? && RunThreads(run, r, s, acts[..j]).Some?
    ensures
      var queue, s' := W.Run(cfg, w, arrivals).value.queue, RunThreads(run, r, s, acts[..j]).value;
      queue <= SentBy(run, r, s, acts) && AllPayers(queue) && ProcessEntries(run, v, queue).1.Okay? &&
      (|queue| == |SentBy(run, r, s, acts[..j])| && s'.phase.Idle? ==>
        Follows(ProcessEntries(run, v, queue).0, s'.bank)) &&
      (W.EndIsNear(cfg, h) && (forall b :: b in W.Arrived(arrivals) ==> W.Decodable(b)) &&
       (forall q: nat :: h <= q < h + n ==> q in W.Accepted(cfg, w, arrivals)) ==>
        |queue| >= n || W.Stops(cfg, h + |queue|))
  {
    hide RunThreads; hide SentBy; hide RunInTime; hide FreshIds; hide ProcessEntries; hide W.Run; hide W.Inv; hide Follows;
    hide W.Arrived; hide W.Accepted; hide W.Stops; hide Agrees; hide W.Fresh; hide W.Decodable;
    var stream := SentBy(run, r, s, acts);
    W.RunKeepsInv(cfg, w, h, arrivals);
    var queue := W.Run(cfg, w, arrivals).value.queue;
    W.HonestDelivery(cfg, W.Run(cfg, w, arrivals).value, h, W.Arrived(arrivals), stream);
    RunAgrees(run, r, s, v, acts);
    ReplayPrefix(run, v, stream, |queue|);
    assert stream[..|queue|] == queue;
    StreamPrefix(run, r, s, acts, j);
    var s' := RunThreads(run, r, s, acts[..j]).value;
    if |queue| == |SentBy(run, r, s, acts[..j])| && s'.phase.Idle? {
      RunAgrees(run, r, s, v, acts[..j]);
      assert queue == SentBy(run, r, s, acts[..j]);
      AgreesWhenIdle(run, s', ProcessEntries(run, v, queue).0, Seen(s.bank, queue));
    }
    if W.EndIsNear(cfg, h) && (forall b :: b in W.Arrived(arrivals) ==> W.Decodable(b)) &&
       (forall q: nat :: h <= q < h + n ==> q in W.Accepted(cfg, w, arrivals)) {
      W.AcceptedAreDelivered(cfg, w, h, arrivals, n);
    }
  }

  lemma AgreesWhenIdle(run: Runtime, s: State, v: Bank, seen: set<Hash>)
    requires Agrees(run, s, v, seen) && s.phase.Idle?
    ensures Follows(v, s.bank)
  {
  }

  // ---- Started from the leader's own ledger -------------------------------------------------------------

  /** A leader that started from the ledger `es`: it has replayed it, and its clock is at the last id. */
  ghost predicate StartedFrom(run: Runtime, r: Rules, b: Bank, mint: Pubkey, deposit: int, es: seq<Entry>, s: State) {
    |es| >= 2 && AllPayers(es) && Accepts(run, r, b, mint, deposit, es) && s.phase.Idle? &&
    s.bank == ProcessEntries(run, Genesis(b, mint, deposit, es), es[2..]).0 &&
    s.rec.stream == [] && InStep(r, es[|es| - 1].id, s.rec)
  }

  /** What the leader's ledger held once it was `k` entries long. */
  function LedgerAt(es: seq<Entry>, sent: seq<Entry>, k: nat): (led: seq<Entry>)
    requires |es| <= k <= |es| + |sent|
    ensures |led| == k
  {
    es + sent[..k - |es|]
  }

  /**
   * Whatever the leader's ledger holds boots another node: from any length on, `Booter.Start`
   * accepts it, and the bank it leaves is the leader's own start taken through what was sent.
   */
  lemma {:induction false} LeadersLedgerBoots(
    run: Runtime, r: Rules, b: Bank, mint: Pubkey, deposit: int, es: seq<Entry>, s: State, acts: seq<Act>, k: nat,
    system: seq<byte> -> Option<SystemInstruction>)
    requires StartedFrom(run, r, b, mint, deposit, es, s) && PlansInOrder(r, acts)
    requires RunThreads(run, r, s, acts).Some? && RunInTime(run, r, s, acts) && FreshIds(s.bank, SentBy(run, r, s, acts))
    requires |es| <= k <= |es| + |SentBy(run, r, s, acts)|
    ensures
      var sent := SentBy(run, r, s, acts);
      var led := LedgerAt(es, sent, k);
      AllPayers(led) && AllPayers(sent) && GenesisOf(system, led) == GenesisOf(system, es) &&
      Accepts(run, r, b, mint, deposit, led) &&
      ProcessEntries(run, s.bank, sent).1.Okay? &&
      ProcessEntries(run, Genesis(b, mint, deposit, led), led[2..]) == ProcessEntries(run, s.bank, sent[..k - |es|])
  {
    hide RunThreads; hide SentBy; hide RunInTime; hide FreshIds; hide ProcessEntries; hide BlockVerify;
    hide PlansInOrder; hide Agrees;
    var sent, start := SentBy(run, r, s, acts), es[|es| - 1].id;
    var m, led := k - |es|, LedgerAt(es, sent, k);
    RunAgrees(run, r, s, s.bank, acts);
    ReplayPrefix(run, s.bank, sent, m);
    assert led[2..] == es[2..] + sent[..m];
    ProcessEntriesConcat(run, Genesis(b, mint, deposit, es), es[2..], sent[..m]);
    RunVerifies(run, r, start, s, acts);
    assert [] + sent == sent;
    BlockVerifySplit(r, sent, start, m);
    BlockVerifySplit(r, led[2..], es[1].id, |es| - 2);
    assert led[2..][..|es| - 2] == es[2..] && led[2..][|es| - 2..] == sent[..m];
  }

  /**
   * Boot, then catch up: a validator started from the leader's ledger at any length `k`, fed by
   * blobs in any order from there on, is given a prefix of what the leader sent afterwards, accepts
   * it, follows the leader whenever it has come to where the leader was between two chunks, and is
   * given all it accepted unless it is to take over first.
   */
  lemma {:induction false} BootedValidatorCatchesUp(
    run: Runtime, r: Rules, b: Bank, mint: Pubkey, deposit: int, es: seq<Entry>, s: State, acts: seq<Act>, j: nat, k: nat,
    cfg: W.Config, w: W.Win<Entry>, arrivals: seq<W.WindowStep<Entry>>, n: nat)
    requires StartedFrom(run, r, b, mint, deposit, es, s) && PlansInOrder(r, acts) && j <= |acts| && W.Fresh(cfg, w, k)
    requires RunThreads(run, r, s, acts).Some? && RunInTime(run, r, s, acts) && FreshIds(s.bank, SentBy(run, r, s, acts))
    requires |es| <= k <= |es| + |SentBy(run, r, s, acts)|
    requires Honest(W.Arrived(arrivals), k, SentBy(run, r, s, acts)[k - |es|..])
    ensures W.Run(cfg, w, arrivals).Some? && RunThreads(run, r, s, acts[..j]).Some?
    ensures
      var sent, queue, s' := SentBy(run, r, s, acts), W.Run(cfg, w, arrivals).value.queue, RunThreads(run, r, s, acts[..j]).value;
      var led := LedgerAt(es, sent, k);
      AllPayers(led) && Accepts(run, r, b, mint, deposit, led) &&
      var v := ProcessEntries(run, Genesis(b, mint, deposit, led), led[2..]).0;
      queue <= sent[k - |es|..] && AllPayers(queue) && ProcessEntries(run, v, queue).1.Okay? &&
      (k + |queue| == |es| + |SentBy(run, r, s, acts[..j])| && s'.phase.Idle? ==>
        Follows(ProcessEntries(run, v, queue).0, s'.bank)) &&
      (W.EndIsNear(cfg, k) && (forall x :: x in W.Arrived(arrivals) ==> W.Decodable(x)) &&
       (forall q: nat :: k <= q < k + n ==> q in W.Accepted(cfg, w, arrivals)) ==>
        |queue| >= n || W.Stops(cfg, k + |queue|))
  {
    hide RunThreads; hide SentBy; hide RunInTime; hide FreshIds; hide ProcessEntries; hide W.Run; hide W.Inv; hide Follows;
    hide W.Arrived; hide W.Accepted; hide W.Stops; hide Agrees; hide W.Fresh; hide W.Decodable; hide Accepts; hide Genesis;
    hide PlansInOrder;
    var sent, m := SentBy(run, r, s, acts), k - |es|;
    LeadersLedgerBoots(run, r, b, mint, deposit, es, s, acts, k, _ => None);
    W.RunKeepsInv(cfg, w, k, arrivals);
    var queue := W.Run(cfg, w, arrivals).value.queue;
    W.HonestDelivery(cfg, W.Run(cfg, w, arrivals).value, k, W.Arrived(arrivals), sent[m..]);
    var taken := m + |queue|;
    assert sent[..taken] == sent[..m] + queue;
    ReplayPrefix(run, s.bank, sent, taken);
    ReplayPrefix(run, s.bank, sent, m);
    ProcessEntriesConcat(run, s.bank, sent[..m], queue);
    StreamPrefix(run, r, s, acts, j);
    var s' := RunThreads(run, r, s, acts[..j]).value;
    if taken == |SentBy(run, r, s, acts[..j])| && s'.phase.Idle? {
      FollowsItself(s.bank);
      RunAgrees(run, r, s, s.bank, acts[..j]);
      assert sent[..taken] == SentBy(run, r, s, acts[..j]);
      AgreesWhenIdle(run, s', ProcessEntries(run, s.bank, sent[..taken]).0, Seen(s.bank, sent[..taken]));
    }
    if W.EndIsNear(cfg, k) && (forall x :: x in W.Arrived(arrivals) ==> W.Decodable(x)) &&
       (forall q: nat :: k <= q < k + n ==> q in W.Accepted(cfg, w, arrivals)) {
      W.AcceptedAreDelivered(cfg, w, k, arrivals, n);
    }
  }

  lemma FollowsItself(b: Bank)
    ensures Follows(b, b)
  {
  }
}
