/**
 * Leader and validator as one replicated state machine. The leader executes chunks, keeps what
 * succeeded and records it as an entry; the validator processes the entry stream.
 */
module Replay {
  import opened Base
  import opened Processor
  import opened SignatureFacts
  import opened Batches
  import LittleEndian
  import Programs
  import Transfers

  // ---- Keeping what succeeded ------------------------------------------------------------------

  function KeptTxs(txs: seq<Transaction>, xs: seq<Executed>): seq<Transaction>
    requires |txs| == |xs|
  {
    if txs == [] then [] else
    var n := |txs| - 1;
    KeptTxs(txs[..n], xs[..n]) + if xs[n].status.Okay? then [txs[n]] else []
  }

  function KeptResults(xs: seq<Executed>): seq<Executed> {
    if xs == [] then [] else
    var n := |xs| - 1;
    KeptResults(xs[..n]) + if xs[n].status.Okay? then [xs[n]] else []
  }

  lemma {:induction false} KeptShape(txs: seq<Transaction>, xs: seq<Executed>)
    requires |txs| == |xs| && Payers(txs)
    ensures |KeptTxs(txs, xs)| == |KeptResults(xs)| && Payers(KeptTxs(txs, xs))
    ensures forall i :: 0 <= i < |KeptResults(xs)| ==> KeptResults(xs)[i].status.Okay?
  {
    if txs != [] {
      var n := |txs| - 1;
      KeptShape(txs[..n], xs[..n]);
    }
  }

  /** Storing a batch skips what failed. */
  lemma {:induction false} StoreKept(m: Accounts, txs: seq<Transaction>, xs: seq<Executed>)
    requires |txs| == |xs| && Payers(txs)
    ensures |KeptTxs(txs, xs)| == |KeptResults(xs)|
    ensures StoreAll(m, KeptTxs(txs, xs), KeptResults(xs)) == StoreAll(m, txs, xs)
  {
    hide StoreOne;
    KeptShape(txs, xs);
    if txs != [] {
      var n := |txs| - 1;
      KeptShape(txs[..n], xs[..n]);
      StoreKept(m, txs[..n], xs[..n]);
      if xs[n].status.Okay? {
        StoreAllAppend(m, KeptTxs(txs[..n], xs[..n]), KeptResults(xs[..n]), txs[n], xs[n]);
      } else {
        SkipFailed(StoreAll(m, txs[..n], xs[..n]), txs[n], xs[n]);
        assert KeptTxs(txs, xs) == KeptTxs(txs[..n], xs[..n]) && KeptResults(xs) == KeptResults(xs[..n]);
      }
    }
  }

  lemma SkipFailed(m: Accounts, tx: Transaction, x: Executed)
    requires x.status.Failed?
    ensures StoreOne(m, tx, x) == m
  {
  }

  // ---- Signatures: the validator knows no more than the leader ----------------------------------

  ghost predicate Covers(v: Sigs, l: Sigs) {
    forall id :: id in v && id in l ==> v[id].Keys <= l[id].Keys
  }

  /** One transaction the leader accepted loads the same on the validator. */
  lemma OneKeptLoads(accounts: Accounts, l: Sigs, v: Sigs, t: Transaction)
    requires t.keys != [] && Covers(v, l) && LoadAccount(accounts, l, t).0.Ok? && t.lastId in v
    ensures LoadAccount(accounts, v, t).0 == LoadAccount(accounts, l, t).0
    ensures Covers(LoadAccount(accounts, v, t).1, LoadAccount(accounts, l, t).1)
    ensures LoadAccount(accounts, v, t).1.Keys == v.Keys
  {
  }

  lemma OneDroppedCovers(accounts: Accounts, l: Sigs, v: Sigs, t: Transaction)
    requires t.keys != [] && Covers(v, l)
    ensures Covers(v, LoadAccount(accounts, l, t).1)
  {
  }

  /**
   * The kept transactions, loaded as a batch of their own on signatures no larger than the
   * leader's, load and execute exactly as they did among the others.
   */
  lemma {:induction false} KeptExecuteTheSame(run: Runtime, accounts: Accounts, l: Sigs, v: Sigs, txs: seq<Transaction>)
    requires Payers(txs) && Covers(v, l)
    requires var xs := ExecuteAll(run, txs, LoadAll(accounts, l, txs).0);
      forall t :: t in KeptTxs(txs, xs) ==> t.lastId in v
    ensures
      var xs := ExecuteAll(run, txs, LoadAll(accounts, l, txs).0);
      var kept := KeptTxs(txs, xs);
      Payers(kept) &&
      var (ls, v') := LoadAll(accounts, v, kept);
      ExecuteAll(run, kept, ls) == KeptResults(xs) && v'.Keys == v.Keys &&
      Covers(v', LoadAll(accounts, l, txs).1)
  {
    hide LoadAccount; hide Covers; hide Execute;
    var (ls, l') := LoadAll(accounts, l, txs);
    var xs := ExecuteAll(run, txs, ls);
    KeptShape(txs, xs);
    if txs != [] {
      var n := |txs| - 1;
      var init, t := txs[..n], txs[n];
      var (ls0, mid) := LoadAll(accounts, l, init);
      var xs0 := ExecuteAll(run, init, ls0);
      assert xs[..n] == xs0 && xs[n] == ExecuteLoaded(run, t, LoadAccount(accounts, mid, t).0);
      KeptExecuteTheSame(run, accounts, l, v, init);
      var kept0 := KeptTxs(init, xs0);
      var (vs0, vmid) := LoadAll(accounts, v, kept0);
      if xs[n].status.Okay? {
        assert KeptTxs(txs, xs) == kept0 + [t];
        assert t in KeptTxs(txs, xs);
        OneKeptLoads(accounts, mid, vmid, t);
        LoadAllAppend(accounts, v, kept0, t);
        var vl := LoadAccount(accounts, vmid, t).0;
        ExecuteAllAppend(run, kept0, vs0, t, vl);
      } else {
        assert KeptTxs(txs, xs) == kept0;
        OneDroppedCovers(accounts, mid, vmid, t);
      }
    }
  }

  lemma ExecuteAllAppend(run: Runtime, txs: seq<Transaction>, ls: seq<Loaded>, t: Transaction, l: Loaded)
    requires |txs| == |ls|
    ensures ExecuteAll(run, txs + [t], ls + [l]) == ExecuteAll(run, txs, ls) + [ExecuteLoaded(run, t, l)]
  {
  }

  /** Recording the status of a signature already reserved adds no signature. */
  lemma {:induction false} UpdateReserved(sigs: Sigs, txs: seq<Transaction>, ss: seq<Status>)
    requires |txs| == |ss|
    requires forall i :: 0 <= i < |txs| ==> txs[i].lastId in sigs && txs[i].signature in sigs[txs[i].lastId]
    ensures var u := UpdateAll(sigs, txs, ss);
      u.Keys == sigs.Keys && forall id :: id in sigs ==> u[id].Keys == sigs[id].Keys
  {
    if txs != [] {
      var n := |txs| - 1;
      UpdateReserved(sigs, txs[..n], ss[..n]);
    }
  }

  // ---- Ids registered between execution and recording --------------------------------------------

  ghost predicate SameRing(v: Bank, l: Bank) {
    v.ring == l.ring && v.sigs.Keys == l.sigs.Keys && Covers(v.sigs, l.sigs)
  }

  /** The validator has the leader's accounts and ids, and no signature the leader lacks. */
  ghost predicate Follows(v: Bank, l: Bank) {
    v.accounts == l.accounts && SameRing(v, l)
  }

  lemma RegisterSame(v: Bank, l: Bank, id: Hash)
    requires SameRing(v, l)
    ensures SameRing(Register(v, id), Register(l, id))
  {
  }

  lemma {:induction false} RegisterAllSame(v: Bank, l: Bank, ids: seq<Hash>)
    requires SameRing(v, l)
    ensures SameRing(RegisterAll(v, ids), RegisterAll(l, ids))
    ensures RegisterAll(v, ids).accounts == v.accounts && RegisterAll(l, ids).accounts == l.accounts
  {
    hide SameRing;
    if ids != [] {
      var n := |ids| - 1;
      RegisterAllSame(v, l, ids[..n]);
      RegisterSame(RegisterAll(v, ids[..n]), RegisterAll(l, ids[..n]), ids[n]);
    }
  }

  /** An id survives registrations with its signatures, is forgotten, or was registered afresh. */
  lemma {:induction false} RegisterAllKeepsOrForgets(b: Bank, ids: seq<Hash>, id: Hash)
    requires id in RegisterAll(b, ids).sigs
    ensures id !in ids ==> id in b.sigs && RegisterAll(b, ids).sigs[id] == b.sigs[id]
    ensures RegisterAll(b, ids).sigs[id] == map[] || (id in b.sigs && RegisterAll(b, ids).sigs[id] == b.sigs[id])
  {
    if ids != [] {
      var n := |ids| - 1;
      if id != ids[n] {
        RegisterAllKeepsOrForgets(b, ids[..n], id);
        assert ids == ids[..n] + [ids[n]];
      }
    }
  }

  lemma {:induction false} RegisteredAfreshIsEmpty(b: Bank, ids: seq<Hash>, id: Hash)
    requires id in ids && id !in b.sigs && id in RegisterAll(b, ids).sigs
    ensures RegisterAll(b, ids).sigs[id] == map[]
  {
    RegisterAllKeepsOrForgets(b, ids, id);
  }

  /** Loading touches the signatures of no id that no transaction names. */
  lemma {:induction false} LoadAllElsewhere(accounts: Accounts, sigs: Sigs, txs: seq<Transaction>, id: Hash)
    requires Payers(txs) && forall t :: t in txs ==> t.lastId != id
    ensures var after := LoadAll(accounts, sigs, txs).1;
      (id in after <==> id in sigs) && (id in sigs ==> after[id] == sigs[id])
  {
    if txs != [] {
      var n := |txs| - 1;
      LoadAllElsewhere(accounts, sigs, txs[..n], id);
    }
  }

  // ---- One leader step ---------------------------------------------------------------------------

  /**
   * A tick, or a chunk: execute `txs`, then, if anything succeeded, record it under `id`. The clock
   * runs on another thread, so `ticks` may be registered and sent between the two.
   */
  datatype LeaderStep = Tick(e: Entry) | Chunk(txs: seq<Transaction>, ticks: seq<Entry>, numHashes: nat, id: Hash)

  predicate TicksOnly(es: seq<Entry>) {
    forall i :: 0 <= i < |es| ==> es[i].transactions == []
  }

  predicate WellFormed(step: LeaderStep) {
    match step
    case Tick(e) => e.transactions == []
    case Chunk(txs, ticks, _, _) => Payers(txs) && TicksOnly(ticks)
  }

  /** No tick repeats an id that is still known. */
  ghost predicate FreshTicks(l: Bank, step: LeaderStep) {
    step.Chunk? ==> forall id :: id in Ids(step.ticks) ==> id !in l.sigs
  }

  function Kept(run: Runtime, l: Bank, txs: seq<Transaction>): seq<Transaction>
    requires Payers(txs)
  {
    KeptTxs(txs, Results(run, l, txs))
  }

  /** The leader's next state and what it sends. */
  function LeaderDo(run: Runtime, l: Bank, step: LeaderStep): (Bank, seq<Entry>)
    requires WellFormed(step)
  {
    match step
    case Tick(e) => (Register(l, e.id), [e])
    case Chunk(txs, ticks, n, id) =>
      var kept := Kept(run, l, txs);
      var l' := RegisterAll(ProcessTransactions(run, l, txs).0, Ids(ticks));
      if kept == [] then (l', ticks) else (Register(l', id), ticks + [Entry(n, id, kept)])
  }

  /** Every transaction the leader kept still has its last id known when it is recorded. */
  ghost predicate StillKnown(run: Runtime, l: Bank, step: LeaderStep)
    requires WellFormed(step)
  {
    step.Chunk? ==> forall t :: t in Kept(run, l, step.txs) ==> t.lastId in RegisterAll(l, Ids(step.ticks)).sigs
  }

  lemma {:induction false} TicksReplay(run: Runtime, b: Bank, es: seq<Entry>)
    requires TicksOnly(es)
    ensures AllPayers(es) && ProcessEntries(run, b, es) == (RegisterAll(b, Ids(es)), Okay)
  {
    if es != [] {
      var n := |es| - 1;
      TicksReplay(run, b, es[..n]);
      assert Ids(es)[..n] == Ids(es[..n]);
      assert es[n].transactions == [];
    }
  }

  lemma {:induction false} ProcessEntriesAppend(run: Runtime, b: Bank, es: seq<Entry>, e: Entry)
    requires AllPayers(es) && Payers(e.transactions)
    ensures AllPayers(es + [e])
    ensures var (b', s) := ProcessEntries(run, b, es);
      ProcessEntries(run, b, es + [e]) == if s.Failed? then (b', s) else ProcessEntry(run, b', e)
  {
    assert (es + [e])[..|es|] == es;
  }

  /** Executing never changes which ids are known, and only adds signatures. */
  lemma {:induction false} BatchGrows(run: Runtime, b: Bank, txs: seq<Transaction>)
    requires Payers(txs)
    ensures Grows(b.sigs, ProcessTransactions(run, b, txs).0.sigs)
    ensures Grows(LoadAll(b.accounts, b.sigs, txs).1, ProcessTransactions(run, b, txs).0.sigs)
    ensures ProcessTransactions(run, b, txs).0.ring == b.ring
  {
    LoadAllReserves(b.accounts, b.sigs, txs);
    UpdateAllGrows(LoadAll(b.accounts, b.sigs, txs).1, txs, Statuses(Results(run, b, txs)));
  }

  lemma {:induction false} KeptFromKnown(run: Runtime, l: Bank, txs: seq<Transaction>, n: nat, t: Transaction)
    requires Payers(txs) && n <= |txs|
    requires t in KeptTxs(txs[..n], Results(run, l, txs)[..n])
    ensures t.lastId in l.sigs
  {
    var xs := Results(run, l, txs);
    if n > 0 {
      assert txs[..n][..n - 1] == txs[..n - 1] && xs[..n][..n - 1] == xs[..n - 1];
      if t in KeptTxs(txs[..n - 1], xs[..n - 1]) {
        KeptFromKnown(run, l, txs, n - 1, t);
      } else {
        LoadAllReserves(l.accounts, l.sigs, txs);
        assert Reserved(l.sigs, LoadAll(l.accounts, l.sigs, txs).1, txs, LoadAll(l.accounts, l.sigs, txs).0, n - 1);
      }
    }
  }

  /** The validator, having seen the ticks, processes the recorded batch as the leader did. */
  lemma {:induction false} RecordedBatchReplays(run: Runtime, l: Bank, v: Bank, step: LeaderStep)
    requires step.Chunk? && WellFormed(step) && Follows(v, l) && FreshTicks(l, step) && StillKnown(run, l, step)
    ensures
      var kept := Kept(run, l, step.txs);
      var ticked := RegisterAll(v, Ids(step.ticks));
      Payers(kept) &&
      var (v', ss) := ProcessTransactions(run, ticked, kept);
      FirstFailure(ss) == Okay &&
      Follows(v', RegisterAll(ProcessTransactions(run, l, step.txs).0, Ids(step.ticks)))
  {
    hide Register; hide RegisterAll; hide ProcessTransactions; hide LoadAll; hide ExecuteAll; hide StoreAll; hide UpdateAll;
    hide KeptTxs; hide KeptResults;
    var txs, ids := step.txs, Ids(step.ticks);
    var xs := Results(run, l, txs);
    var kept := Kept(run, l, txs);
    var l1 := ProcessTransactions(run, l, txs).0;
    var ticked := RegisterAll(v, ids);
    BatchGrows(run, l, txs);
    RegisterAllSame(v, l, ids);
    RegisterAllSame(v, l1, ids);
    TickedCovers(v, l, ids);
    KeptExecuteTheSame(run, l.accounts, l.sigs, ticked.sigs, txs);
    KeptShape(txs, xs);
    StoreKept(l.accounts, txs, xs);
    BatchParts(run, l, txs);
    BatchParts(run, ticked, kept);
    assert Results(run, ticked, kept) == KeptResults(xs);
    RecordedSignaturesCovered(run, l, v, step);
  }

  /** Ticking leaves the validator with no signature, under an id the leader knew, that the leader lacked. */
  lemma {:induction false} TickedCovers(v: Bank, l: Bank, ids: seq<Hash>)
    requires SameRing(v, l)
    ensures Covers(RegisterAll(v, ids).sigs, l.sigs)
  {
    hide RegisterAll;
    forall id | id in RegisterAll(v, ids).sigs && id in l.sigs
      ensures RegisterAll(v, ids).sigs[id].Keys <= l.sigs[id].Keys
    {
      RegisterAllKeepsOrForgets(v, ids, id);
    }
  }

  lemma {:induction false} RecordedSignaturesCovered(run: Runtime, l: Bank, v: Bank, step: LeaderStep)
    requires step.Chunk? && WellFormed(step) && Follows(v, l) && FreshTicks(l, step) && StillKnown(run, l, step)
    requires Payers(Kept(run, l, step.txs))
    ensures
      var kept := Kept(run, l, step.txs);
      var ticked := RegisterAll(v, Ids(step.ticks));
      SameRing(ProcessTransactions(run, ticked, kept).0,
               RegisterAll(ProcessTransactions(run, l, step.txs).0, Ids(step.ticks)))
  {
    hide Register; hide RegisterAll; hide ProcessTransactions; hide LoadAll; hide ExecuteAll; hide StoreAll; hide UpdateAll;
    hide KeptTxs; hide KeptResults; hide Results;
    var txs, ids := step.txs, Ids(step.ticks);
    var kept := Kept(run, l, txs);
    var ticked := RegisterAll(v, ids);
    var l1 := ProcessTransactions(run, l, txs).0;
    var l2 := RegisterAll(l1, ids);
    BatchGrows(run, l, txs);
    RegisterAllSame(v, l1, ids);
    TickedCovers(v, l, ids);
    ResultsParts(run, l, txs);
    RegisterAllSame(v, l, ids);
    KeptExecuteTheSame(run, l.accounts, l.sigs, ticked.sigs, txs);
    BatchParts(run, ticked, kept);
    var v' := LoadAll(l.accounts, ticked.sigs, kept).1;
    KeptReserved(run, l, ticked, txs);
    UpdateReserved(v', kept, ProcessTransactions(run, ticked, kept).1);
    forall id | id in v' && id in l2.sigs ensures v'[id].Keys <= l2.sigs[id].Keys {
      RegisterAllKeepsOrForgets(l1, ids, id);
      if id in ids {
        assert id !in l.sigs;
        KeptNamesKnownIds(run, l, txs);
        LoadAllElsewhere(l.accounts, ticked.sigs, kept, id);
        RegisteredAfreshIsEmpty(v, ids, id);
      }
    }
  }

  lemma {:induction false} ResultsParts(run: Runtime, b: Bank, txs: seq<Transaction>)
    requires Payers(txs)
    ensures Results(run, b, txs) == ExecuteAll(run, txs, LoadAll(b.accounts, b.sigs, txs).0)
  {
  }

  lemma KeptNamesKnownIds(run: Runtime, l: Bank, txs: seq<Transaction>)
    requires Payers(txs)
    ensures forall t :: t in Kept(run, l, txs) ==> t.lastId in l.sigs
  {
    var xs := Results(run, l, txs);
    assert txs[..|txs|] == txs && xs[..|xs|] == xs;
    forall t | t in Kept(run, l, txs) ensures t.lastId in l.sigs {
      KeptFromKnown(run, l, txs, |txs|, t);
    }
  }

  /** Every kept transaction is reserved on the validator once loaded there. */
  lemma KeptReserved(run: Runtime, l: Bank, ticked: Bank, txs: seq<Transaction>)
    requires Payers(txs) && ticked.accounts == l.accounts && Payers(Kept(run, l, txs))
    requires Covers(ticked.sigs, l.sigs) && forall t :: t in Kept(run, l, txs) ==> t.lastId in ticked.sigs
    ensures
      var kept := Kept(run, l, txs);
      var v' := LoadAll(l.accounts, ticked.sigs, kept).1;
      forall i :: 0 <= i < |kept| ==> kept[i].lastId in v' && kept[i].signature in v'[kept[i].lastId]
  {
    hide LoadAll; hide Covers; hide KeptTxs; hide KeptResults; hide Execute;
    var kept := Kept(run, l, txs);
    ResultsParts(run, l, txs);
    assert kept == KeptTxs(txs, ExecuteAll(run, txs, LoadAll(l.accounts, l.sigs, txs).0));
    KeptExecuteTheSame(run, l.accounts, l.sigs, ticked.sigs, txs);
    KeptShape(txs, Results(run, l, txs));
    var (ls, v') := LoadAll(l.accounts, ticked.sigs, kept);
    LoadAllReserves(l.accounts, ticked.sigs, kept);
    forall i | 0 <= i < |kept| ensures kept[i].lastId in v' && kept[i].signature in v'[kept[i].lastId] {
      assert ExecuteAll(run, kept, ls)[i].status.Okay?;
      assert Reserved(ticked.sigs, v', kept, ls, i);
    }
  }

  /** A kept transaction whose id the ticks have pushed out is refused by the validator. */
  lemma {:induction false} ForgottenIdIsRefused(run: Runtime, l: Bank, v: Bank, step: LeaderStep)
    requires step.Chunk? && WellFormed(step) && Follows(v, l) && !StillKnown(run, l, step)
    requires Payers(Kept(run, l, step.txs))
    ensures Kept(run, l, step.txs) != []
    ensures FirstFailure(ProcessTransactions(run, RegisterAll(v, Ids(step.ticks)), Kept(run, l, step.txs)).1).Failed?
  {
    hide RegisterAll; hide KeptTxs; hide StoreAll; hide UpdateAll;
    var kept := Kept(run, l, step.txs);
    var ticked := RegisterAll(v, Ids(step.ticks));
    RegisterAllSame(v, l, Ids(step.ticks));
    var t :| t in kept && t.lastId !in ticked.sigs;
    var i :| 0 <= i < |kept| && kept[i] == t;
    LoadAllReserves(ticked.accounts, ticked.sigs, kept);
    assert Reserved(ticked.sigs, LoadAll(ticked.accounts, ticked.sigs, kept).1, kept,
      LoadAll(ticked.accounts, ticked.sigs, kept).0, i);
    assert ProcessTransactions(run, ticked, kept).1[i].Failed?;
  }

  /** On a full ring one tick is enough: it pushes out the oldest id, and whatever was kept under it. */
  lemma OneTickEvicts(run: Runtime, l: Bank, step: LeaderStep, e: Entry, t: Transaction)
    requires step.Chunk? && WellFormed(step) && step.ticks == [e] && e.id !in l.sigs
    requires |l.ring| >= MAX_ENTRY_IDS && t in Kept(run, l, step.txs) && t.lastId == l.ring[0]
    ensures !StillKnown(run, l, step)
  {
    hide Kept;
    OneId(l, e);
    assert t.lastId != e.id by {
      KeptNamesKnownIds(run, l, step.txs);
    }
    assert t.lastId !in RegisterAll(l, Ids(step.ticks)).sigs;
  }

  /** A full ring of 32-byte ids. */
  function FullRing(): (ring: seq<Hash>)
    ensures |ring| == MAX_ENTRY_IDS
  {
    seq(MAX_ENTRY_IDS, i requires 0 <= i => Hash(LittleEndian.ToLE(i, 32)))
  }

  /** A bank with that ring, holding one account. */
  ghost function FullBank(k: Pubkey): Bank {
    Bank(map[k := Account(1, [], SYSTEM_PROGRAM_ID)], FullRing(), map id | id in FullRing() :: map[], 0)
  }

  lemma RingIsDistinct()
    ensures NoDuplicates(FullRing())
  {
    hide LittleEndian.ToLE; hide LittleEndian.FromLE; hide LittleEndian.Pow256;
    EnoughIds(32);
    forall i, j | 0 <= i < j < MAX_ENTRY_IDS ensures FullRing()[i] != FullRing()[j] {
      LittleEndian.FromToLE(i, 32);
      LittleEndian.FromToLE(j, 32);
    }
  }

  lemma {:induction false} EnoughIds(k: nat)
    requires k >= 2
    ensures MAX_ENTRY_IDS < LittleEndian.Pow256(k)
  {
    if k > 2 {
      EnoughIds(k - 1);
    } else {
      assert LittleEndian.Pow256(2) == 256 * LittleEndian.Pow256(1) == 256 * 256 * LittleEndian.Pow256(0);
    }
  }

  lemma KeptAlone(run: Runtime, l: Bank, t: Transaction)
    requires t.keys != [] && LoadAccount(l.accounts, l.sigs, t).0.Ok?
    requires Execute(run, t, Fetch(l.accounts, t)).status.Okay?
    ensures Kept(run, l, [t]) == [t]
  {
    hide Execute; hide LoadAccount;
    LoadAllAppend(l.accounts, l.sigs, [], t);
    assert [] + [t] == [t];
    var xs := Results(run, l, [t]);
    LoadOkIsFetch(l, t);
    assert LoadAll(l.accounts, l.sigs, []) == ([], l.sigs);
    assert LoadAll(l.accounts, l.sigs, [t]).0 == [] + [LoadAccount(l.accounts, l.sigs, t).0];
    assert |xs| == 1 && xs[0] == Execute(run, t, Fetch(l.accounts, t));
    assert [t][..0] == [] && xs[..0] == [];
    assert KeptTxs([], []) == [];
    assert KeptTxs([t], xs) == [] + [t];
  }

  lemma LoadOkIsFetch(l: Bank, t: Transaction)
    requires t.keys != [] && LoadAccount(l.accounts, l.sigs, t).0.Ok?
    ensures LoadAccount(l.accounts, l.sigs, t).0 == Ok(Fetch(l.accounts, t))
  {
  }

  /** The system program does nothing with an instruction it cannot read. */
  lemma UnreadableAccepted(r: Programs.Registry, t: Transaction, pre: seq<Account>)
    requires t.programId == SYSTEM_PROGRAM_ID && r.system(t.userdata).None?
    requires forall i :: 0 <= i < |pre| ==> pre[i].tokens >= 0
    ensures Execute(Programs.Dispatch(r), t, pre).status.Okay?
  {
    hide Programs.Dispatch;
    Transfers.SystemRuns(r, t, pre);
    assert VerifyFrom(t, pre, pre, 0).Okay?;
  }

  /** So a leader whose tick falls between executing and recording can send what no validator accepts. */
  lemma ReplayCanFail(r: Programs.Registry, k: Pubkey, g: Signature, userdata: seq<byte>, tick: Entry, id: Hash)
    requires tick.transactions == [] && tick.id !in FullBank(k).sigs && r.system(userdata).None?
    ensures
      var run, l, tx := Programs.Dispatch(r), FullBank(k), Transaction(g, [k], SYSTEM_PROGRAM_ID, FullRing()[0], 0, userdata);
      var step := Chunk([tx], [tick], 1, id);
      WellFormed(step) && FreshTicks(l, step) && Follows(l, l) && AllPayers(LeaderDo(run, l, step).1) &&
      ProcessEntries(run, l, LeaderDo(run, l, step).1).1.Failed?
  {
    hide ProcessEntries; hide LeaderDo; hide Kept; hide Execute; hide Register; hide FullRing; hide Programs.Dispatch;
    var run, l, tx := Programs.Dispatch(r), FullBank(k), Transaction(g, [k], SYSTEM_PROGRAM_ID, FullRing()[0], 0, userdata);
    var step := Chunk([tx], [tick], 1, id);
    RingIsDistinct();
    assert tx.lastId in l.sigs;
    assert LoadAccount(l.accounts, l.sigs, tx).0.Ok?;
    UnreadableAccepted(r, tx, Fetch(l.accounts, tx));
    KeptAlone(run, l, tx);
    assert Ids([tick]) == [tick.id];
    OneTickEvicts(run, l, step, tick, tx);
    StepReplays(run, l, l, step);
  }

  lemma LeaderSendsPayers(run: Runtime, l: Bank, step: LeaderStep)
    requires WellFormed(step)
    ensures AllPayers(LeaderDo(run, l, step).1)
    ensures step.Chunk? ==> Payers(Kept(run, l, step.txs))
  {
    if step.Chunk? {
      KeptShape(step.txs, Results(run, l, step.txs));
    }
  }

  /**
   * Replay agreement, one step: a validator that follows the leader accepts what the leader's step
   * sends exactly when every kept transaction's last id is still known once the intervening ticks
   * are registered, and then it follows the leader again.
   */
  lemma {:induction false} StepReplays(run: Runtime, l: Bank, v: Bank, step: LeaderStep)
    requires WellFormed(step) && Follows(v, l) && FreshTicks(l, step)
    ensures
      var (l', es) := LeaderDo(run, l, step);
      AllPayers(es) &&
      var (v', s) := ProcessEntries(run, v, es);
      (s.Okay? <==> StillKnown(run, l, step)) && (s.Okay? ==> Follows(v', l'))
  {
    hide Register; hide RegisterAll; hide ProcessTransactions; hide Kept; hide Covers;
    LeaderSendsPayers(run, l, step);
    match step
    case Tick(e) =>
      TicksReplay(run, v, [e]);
      OneId(v, e);
      RegisterSame(v, l, e.id);
      RegisterKeepsAccounts(v, e.id);
      RegisterKeepsAccounts(l, e.id);
    case Chunk(txs, ticks, n, id) =>
      var kept := Kept(run, l, txs);
      TicksReplay(run, v, ticks);
      var ticked := RegisterAll(v, Ids(ticks));
      if kept != [] {
        ProcessEntriesAppend(run, v, ticks, Entry(n, id, kept));
      }
      if StillKnown(run, l, step) {
        RecordedBatchReplays(run, l, v, step);
        var v' := ProcessTransactions(run, ticked, kept).0;
        var l' := RegisterAll(ProcessTransactions(run, l, txs).0, Ids(ticks));
        if kept == [] {
          NothingKept(run, ticked);
        } else {
          RegisterSame(v', l', id);
          RegisterKeepsAccounts(v', id);
          RegisterKeepsAccounts(l', id);
        }
      } else {
        ForgottenIdIsRefused(run, l, v, step);
      }
  }

  lemma {:induction false} OneId(b: Bank, e: Entry)
    ensures RegisterAll(b, Ids([e])) == Register(b, e.id)
  {
    assert Ids([e]) == [e.id] && [e.id][..0] == [];
    assert RegisterAll(b, []) == b;
  }

  lemma RegisterKeepsAccounts(b: Bank, id: Hash)
    ensures Register(b, id).accounts == b.accounts
  {
  }

  lemma NothingKept(run: Runtime, b: Bank)
    ensures ProcessTransactions(run, b, []).0 == b
  {
    EmptyBatch(run, b);
  }

  /** When nothing comes between executing and recording, the step always replays. */
  lemma AtomicStepsReplay(run: Runtime, l: Bank, step: LeaderStep)
    requires WellFormed(step) && (step.Chunk? ==> step.ticks == [])
    ensures StillKnown(run, l, step)
  {
    if step.Chunk? {
      KeptNamesKnownIds(run, l, step.txs);
      assert Ids(step.ticks) == [];
    }
  }

  // ---- Runs --------------------------------------------------------------------------------------

  predicate AllWellFormed(steps: seq<LeaderStep>) {
    forall i :: 0 <= i < |steps| ==> WellFormed(steps[i])
  }

  /** The leader's state after a run, and the whole stream it has sent. */
  function LeaderRun(run: Runtime, l: Bank, steps: seq<LeaderStep>): (Bank, seq<Entry>)
    requires AllWellFormed(steps)
  {
    if steps == [] then (l, []) else
    var n := |steps| - 1;
    var (l', es) := LeaderRun(run, l, steps[..n]);
    var (l'', es') := LeaderDo(run, l', steps[n]);
    (l'', es + es')
  }

  /** Along the whole run, ticks are fresh and kept transactions are recorded in time. */
  ghost predicate InTime(run: Runtime, l: Bank, steps: seq<LeaderStep>)
    requires AllWellFormed(steps)
    decreases |steps|
  {
    steps == [] ||
    var n := |steps| - 1;
    InTime(run, l, steps[..n]) &&
    FreshTicks(LeaderRun(run, l, steps[..n]).0, steps[n]) && StillKnown(run, LeaderRun(run, l, steps[..n]).0, steps[n])
  }

  lemma {:induction false} ProcessEntriesConcat(run: Runtime, b: Bank, es: seq<Entry>, es': seq<Entry>)
    requires AllPayers(es) && AllPayers(es')
    ensures AllPayers(es + es')
    ensures var (b', s) := ProcessEntries(run, b, es);
      ProcessEntries(run, b, es + es') == if s.Failed? then (b', s) else ProcessEntries(run, b', es')
  {
    hide ProcessEntry;
    if es' == [] {
      assert es + es' == es;
    } else {
      var n := |es'| - 1;
      ProcessEntriesConcat(run, b, es, es'[..n]);
      assert es + es' == (es + es'[..n]) + [es'[n]];
      ProcessEntriesAppend(run, b, es + es'[..n], es'[n]);
    }
  }

  /**
   * Replay agreement over every run: a validator that starts out following the leader and
   * processes the stream accepts every entry and ends up following the leader.
   */
  lemma {:induction false} RunReplays(run: Runtime, l: Bank, v: Bank, steps: seq<LeaderStep>)
    requires AllWellFormed(steps) && Follows(v, l) && InTime(run, l, steps)
    ensures
      var (l', es) := LeaderRun(run, l, steps);
      AllPayers(es) &&
      var (v', s) := ProcessEntries(run, v, es);
      s.Okay? && Follows(v', l')
  {
    hide Follows; hide LeaderDo; hide StillKnown; hide FreshTicks; hide WellFormed;
    if steps != [] {
      var n := |steps| - 1;
      RunReplays(run, l, v, steps[..n]);
      var (l', es) := LeaderRun(run, l, steps[..n]);
      var v' := ProcessEntries(run, v, es).0;
      StepReplays(run, l', v', steps[n]);
      ProcessEntriesConcat(run, v, es, LeaderDo(run, l', steps[n]).1);
    }
  }

  /** In particular, when chunks are executed and recorded in one go, nothing more is needed. */
  lemma {:induction false} AtomicRunReplays(run: Runtime, l: Bank, v: Bank, steps: seq<LeaderStep>)
    requires AllWellFormed(steps) && Follows(v, l)
    requires forall i :: 0 <= i < |steps| ==> steps[i].Chunk? ==> steps[i].ticks == []
    ensures
      var (l', es) := LeaderRun(run, l, steps);
      AllPayers(es) &&
      var (v', s) := ProcessEntries(run, v, es);
      s.Okay? && Follows(v', l')
  {
    AtomicIsInTime(run, l, steps);
    RunReplays(run, l, v, steps);
  }

  lemma {:induction false} AtomicIsInTime(run: Runtime, l: Bank, steps: seq<LeaderStep>)
    requires AllWellFormed(steps)
    requires forall i :: 0 <= i < |steps| ==> steps[i].Chunk? ==> steps[i].ticks == []
    ensures InTime(run, l, steps)
  {
    if steps != [] {
      var n := |steps| - 1;
      AtomicIsInTime(run, l, steps[..n]);
      AtomicStepsReplay(run, LeaderRun(run, l, steps[..n]).0, steps[n]);
    }
  }
}
