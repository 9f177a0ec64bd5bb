/**
 * The leader's two threads at the grain of their locks. The transaction stage holds the account map
 * while it works through a chunk, but entry ids and signatures are locked for one access at a time,
 * so the clock's ticks fall anywhere: between two loads, before statuses are recorded, and before
 * what succeeded is recorded.
 */
module LeaderThreads {
  import opened Base
  import opened HashChain
  import opened Processor
  import opened SignatureFacts
  import opened Batches
  import opened Replay

  /** Where the transaction stage is: loading, recording statuses, or about to record the entry. */
  datatype Phase =
    | Idle
    | Loading(chunk: seq<Transaction>, loaded: seq<Loaded>)
    | Updating(chunk: seq<Transaction>, loaded: seq<Loaded>, results: seq<Executed>, done: nat)

  datatype State = State(bank: Bank, rec: Recorder, phase: Phase)

  /** One locked access by either thread. */
  datatype Act = HashOnce | TickOnce | Begin(chunk: seq<Transaction>) | LoadNext | Finish | UpdateNext | RecordKept

  predicate Enabled(s: State, act: Act) {
    match act
    case HashOnce => true
    case TickOnce => true
    case Begin(chunk) => s.phase.Idle? && Payers(chunk)
    case LoadNext => s.phase.Loading? && |s.phase.loaded| < |s.phase.chunk| && Payers(s.phase.chunk)
    case Finish => s.phase.Loading? && |s.phase.loaded| == |s.phase.chunk|
    case UpdateNext =>
      s.phase.Updating? && s.phase.done < |s.phase.chunk| && |s.phase.chunk| == |s.phase.results|
    case RecordKept =>
      s.phase.Updating? && s.phase.done == |s.phase.chunk| == |s.phase.results|
  }

  /** What the stage will record. */
  function KeptOf(p: Phase): seq<Transaction>
    requires p.Updating? && |p.chunk| == |p.results|
  {
    KeptTxs(p.chunk, p.results)
  }

  function Send(r: Rules, s: State, step: RecorderStep): State {
    var rec := Step(r, s.rec, step);
    s.(rec := rec, bank := Register(s.bank, rec.last))
  }

  function Do(run: Runtime, r: Rules, s: State, act: Act): State
    requires Enabled(s, act)
  {
    match act
    case HashOnce => s.(rec := Step(r, s.rec, HashStep))
    case TickOnce => Send(r, s, TickStep)
    case Begin(chunk) => s.(phase := Loading(chunk, []))
    case LoadNext =>
      var p := s.phase;
      var (l, sigs) := LoadAccount(s.bank.accounts, s.bank.sigs, p.chunk[|p.loaded|]);
      s.(bank := s.bank.(sigs := sigs), phase := Loading(p.chunk, p.loaded + [l]))
    case Finish =>
      var p := s.phase;
      var xs := ExecuteAll(run, p.chunk, p.loaded);
      s.(bank := s.bank.(accounts := StoreAll(s.bank.accounts, p.chunk, xs)), phase := Updating(p.chunk, p.loaded, xs, 0))
    case UpdateNext =>
      var p := s.phase;
      var x := p.results[p.done];
      s.(bank := s.bank.(sigs := UpdateStatus(s.bank.sigs, p.chunk[p.done], x.status),
                         count := s.bank.count + if x.status.Okay? then 1 else 0),
         phase := p.(done := p.done + 1))
    case RecordKept =>
      if KeptOf(s.phase) == [] then s.(phase := Idle) else Send(r, s, RecordStep(KeptOf(s.phase))).(phase := Idle)
  }

  /** A run of the two threads; None when some access was not the stage's next one. */
  function RunThreads(run: Runtime, r: Rules, s: State, acts: seq<Act>): Option<State> {
    if acts == [] then Some(s) else
    var n := |acts| - 1;
    match RunThreads(run, r, s, acts[..n])
    case None => None
    case Some(mid) => if Enabled(mid, acts[n]) then Some(Do(run, r, mid, acts[n])) else None
  }

  /** What a step sends. */
  function Sent(run: Runtime, r: Rules, s: State, act: Act): seq<Entry>
    requires Enabled(s, act)
  {
    match act
    case TickOnce => [Entry(s.rec.n + 1, r.one(s.rec.last), [])]
    case RecordKept =>
      var kept := KeptOf(s.phase);
      if kept == [] then [] else [Entry(s.rec.n + 1, r.two(s.rec.last, TxHash(r, kept)), kept)]
    case _ => []
  }

  lemma SentIsStream(run: Runtime, r: Rules, s: State, act: Act)
    requires Enabled(s, act)
    ensures Do(run, r, s, act).rec.stream == s.rec.stream + Sent(run, r, s, act)
    ensures Sent(run, r, s, act) == [] ==>
      Do(run, r, s, act).bank.ring == s.bank.ring && Do(run, r, s, act).rec.stream == s.rec.stream
    ensures Sent(run, r, s, act) != [] ==>
      Do(run, r, s, act).bank == Register(s.bank, Sent(run, r, s, act)[0].id) && |Sent(run, r, s, act)| == 1
  {
  }

  // ---- What holds at every moment ----------------------------------------------------------------

  /**
   * Transaction `i`, if it loaded: from the accounts the validator still has, under an id known at
   * some time, with its signature taken on the leader and free on the validator.
   */
  ghost predicate LoadedWell(v: Bank, l: Sigs, t: Transaction, ld: Loaded, seen: set<Hash>)
    requires t.keys != []
  {
    ld.Ok? ==>
      ld.value == Fetch(v.accounts, t) && t.keys[0] in v.accounts && t.fee <= v.accounts[t.keys[0]].tokens &&
      t.lastId in seen &&
      (t.lastId in l ==> t.signature in l[t.lastId]) && (t.lastId in v.sigs ==> t.signature !in v.sigs[t.lastId])
  }

  ghost predicate AllLoadedWell(v: Bank, l: Sigs, txs: seq<Transaction>, ls: seq<Loaded>, seen: set<Hash>) {
    Payers(txs) && |ls| <= |txs| &&
    (forall i :: 0 <= i < |ls| ==> LoadedWell(v, l, txs[i], ls[i], seen)) &&
    (forall i, j :: 0 <= i < j < |ls| && ls[i].Ok? && ls[j].Ok? ==>
      (txs[i].lastId, txs[i].signature) != (txs[j].lastId, txs[j].signature))
  }

  /** The validator, having processed all that was sent, against the leader in the middle of a chunk. */
  ghost predicate Agrees(run: Runtime, s: State, v: Bank, seen: set<Hash>) {
    SameRing(v, s.bank) && s.bank.sigs.Keys <= seen &&
    match s.phase
    case Idle => v.accounts == s.bank.accounts
    case Loading(txs, ls) => v.accounts == s.bank.accounts && AllLoadedWell(v, s.bank.sigs, txs, ls, seen)
    case Updating(txs, ls, xs, done) =>
      |ls| == |txs| == |xs| && xs == ExecuteAll(run, txs, ls) && s.bank.accounts == StoreAll(v.accounts, txs, xs) &&
      AllLoadedWell(v, s.bank.sigs, txs, ls, seen)
  }

  lemma TickKeepsLoads(v: Bank, l: Bank, txs: seq<Transaction>, ls: seq<Loaded>, seen: set<Hash>, id: Hash)
    requires AllLoadedWell(v, l.sigs, txs, ls, seen) && id !in seen
    ensures AllLoadedWell(Register(v, id), Register(l, id).sigs, txs, ls, seen + {id})
  {
    forall i | 0 <= i < |ls| ensures LoadedWell(Register(v, id), Register(l, id).sigs, txs[i], ls[i], seen + {id}) {
      assert LoadedWell(v, l.sigs, txs[i], ls[i], seen);
    }
  }

  lemma TickAgrees(run: Runtime, r: Rules, s: State, v: Bank, seen: set<Hash>)
    requires Agrees(run, s, v, seen) && Step(r, s.rec, TickStep).last !in seen
    ensures var id := Step(r, s.rec, TickStep).last;
      Agrees(run, Do(run, r, s, TickOnce), Register(v, id), seen + {id})
  {
    hide AllLoadedWell; hide SameRing; hide StoreAll; hide ExecuteAll;
    var id := Step(r, s.rec, TickStep).last;
    RegisterSame(v, s.bank, id);
    RegisteredKeys(s.bank, id);
    RegisterKeepsAccounts(v, id);
    RegisterKeepsAccounts(s.bank, id);
    match s.phase
    case Idle =>
    case Loading(txs, ls) => TickKeepsLoads(v, s.bank, txs, ls, seen, id);
    case Updating(txs, ls, xs, _) => TickKeepsLoads(v, s.bank, txs, ls, seen, id);
  }

  lemma RegisteredKeys(b: Bank, id: Hash)
    ensures Register(b, id).sigs.Keys <= b.sigs.Keys + {id}
  {
  }

  lemma LoadAgrees(run: Runtime, r: Rules, s: State, v: Bank, seen: set<Hash>)
    requires Agrees(run, s, v, seen) && Enabled(s, LoadNext)
    ensures Agrees(run, Do(run, r, s, LoadNext), v, seen)
  {
    var p := s.phase;
    var t := p.chunk[|p.loaded|];
    var (l, sigs) := LoadAccount(s.bank.accounts, s.bank.sigs, t);
    OneMoreReserved(s.bank.accounts, s.bank.sigs, s.bank.sigs, t);
    var ls := p.loaded + [l];
    forall i | 0 <= i < |ls| ensures LoadedWell(v, sigs, p.chunk[i], ls[i], seen) {
      if i < |p.loaded| {
        assert LoadedWell(v, s.bank.sigs, p.chunk[i], p.loaded[i], seen);
      }
    }
    forall i, j | 0 <= i < j < |ls| && ls[i].Ok? && ls[j].Ok?
      ensures (p.chunk[i].lastId, p.chunk[i].signature) != (p.chunk[j].lastId, p.chunk[j].signature)
    {
      assert LoadedWell(v, s.bank.sigs, p.chunk[i], p.loaded[i], seen);
    }
  }

  lemma FinishAgrees(run: Runtime, r: Rules, s: State, v: Bank, seen: set<Hash>)
    requires Agrees(run, s, v, seen) && Enabled(s, Finish)
    ensures Agrees(run, Do(run, r, s, Finish), v, seen)
  {
    hide StoreAll; hide AllLoadedWell;
  }

  lemma UpdateAgrees(run: Runtime, r: Rules, s: State, v: Bank, seen: set<Hash>)
    requires Agrees(run, s, v, seen) && Enabled(s, UpdateNext)
    ensures Agrees(run, Do(run, r, s, UpdateNext), v, seen)
  {
    hide StoreAll; hide ExecuteAll;
    var p := s.phase;
    var sigs := Do(run, r, s, UpdateNext).bank.sigs;
    assert Grows(s.bank.sigs, sigs);
    forall i | 0 <= i < |p.loaded| ensures LoadedWell(v, sigs, p.chunk[i], p.loaded[i], seen) {
      assert LoadedWell(v, s.bank.sigs, p.chunk[i], p.loaded[i], seen);
    }
  }

  // ---- The validator on what was recorded ----------------------------------------------------------

  /** Ready to load on the validator, all but the id being known. */
  ghost predicate Unspent(v: Bank, t: Transaction) {
    t.keys != [] && t.keys[0] in v.accounts && t.fee <= v.accounts[t.keys[0]].tokens &&
    (t.lastId in v.sigs ==> t.signature !in v.sigs[t.lastId])
  }

  ghost predicate AllUnspent(v: Bank, txs: seq<Transaction>) {
    (forall i :: 0 <= i < |txs| ==> Unspent(v, txs[i])) && DistinctSignatures(txs)
  }

  function Fetched(m: Accounts, txs: seq<Transaction>): (ls: seq<Loaded>)
    ensures |ls| == |txs|
  {
    seq(|txs|, i requires 0 <= i < |txs| => Ok(Fetch(m, txs[i])))
  }

  /** Every signature of `after` was there before or belongs to the batch. */
  ghost predicate AddsOnly(sigs: Sigs, after: Sigs, txs: seq<Transaction>) {
    after.Keys == sigs.Keys &&
    forall id, g :: id in after && g in after[id] ==> g in sigs[id] || FromBatch(txs, id, g)
  }

  ghost predicate FromBatch(txs: seq<Transaction>, id: Hash, g: Signature) {
    exists i :: 0 <= i < |txs| && txs[i].lastId == id && txs[i].signature == g
  }

  lemma FromLonger(txs: seq<Transaction>, n: nat, id: Hash, g: Signature)
    requires n <= |txs| && FromBatch(txs[..n], id, g)
    ensures FromBatch(txs, id, g)
  {
    var i :| 0 <= i < n && txs[..n][i].lastId == id && txs[..n][i].signature == g;
    assert txs[i].lastId == id;
  }

  lemma NotFromBatch(txs: seq<Transaction>, n: nat)
    requires n < |txs| && DistinctSignatures(txs)
    ensures !FromBatch(txs[..n], txs[n].lastId, txs[n].signature)
  {
  }

  lemma OneMoreLoads(v: Bank, mid: Sigs, txs: seq<Transaction>)
    requires txs != [] && Unspent(v, txs[|txs| - 1]) && txs[|txs| - 1].lastId in v.sigs
    requires DistinctSignatures(txs) && AddsOnly(v.sigs, mid, txs[..|txs| - 1])
    ensures var t := txs[|txs| - 1];
      var (l, sigs) := LoadAccount(v.accounts, mid, t);
      l == Ok(Fetch(v.accounts, t)) && AddsOnly(v.sigs, sigs, txs) && Grows(mid, sigs) &&
      t.lastId in sigs && t.signature in sigs[t.lastId]
  {
    hide DistinctSignatures; hide FromBatch;
    var n := |txs| - 1;
    var t := txs[n];
    NotFromBatch(txs, n);
    var sigs := LoadAccount(v.accounts, mid, t).1;
    forall id, g | id in sigs && g in sigs[id] ensures g in v.sigs[id] || FromBatch(txs, id, g) {
      if id == t.lastId && g == t.signature {
        LastOfBatch(txs);
      } else if g !in v.sigs[id] {
        FromLonger(txs, n, id, g);
      }
    }
  }

  lemma LastOfBatch(txs: seq<Transaction>)
    requires txs != []
    ensures FromBatch(txs, txs[|txs| - 1].lastId, txs[|txs| - 1].signature)
  {
  }

  /** Such a batch loads whole when its ids are known, and adds no signatures but its own. */
  lemma {:induction false} UnspentLoads(v: Bank, txs: seq<Transaction>)
    requires Payers(txs) && AllUnspent(v, txs) && forall t :: t in txs ==> t.lastId in v.sigs
    ensures var (ls, sigs) := LoadAll(v.accounts, v.sigs, txs);
      ls == Fetched(v.accounts, txs) && AddsOnly(v.sigs, sigs, txs) &&
      forall i :: 0 <= i < |txs| ==> txs[i].lastId in sigs && txs[i].signature in sigs[txs[i].lastId]
  {
    hide LoadAccount; hide AddsOnly; hide Unspent; hide DistinctSignatures;
    if txs == [] {
      AddsNothing(v.sigs);
    } else {
      var n := |txs| - 1;
      DistinctPrefix(txs, n);
      UnspentLoads(v, txs[..n]);
      var (ls, mid) := LoadAll(v.accounts, v.sigs, txs[..n]);
      assert txs[n] in txs;
      OneMoreLoads(v, mid, txs);
      var (all, sigs) := LoadAll(v.accounts, v.sigs, txs);
      assert sigs == LoadAccount(v.accounts, mid, txs[n]).1;
      forall i | 0 <= i < |txs| ensures txs[i].lastId in sigs && txs[i].signature in sigs[txs[i].lastId] {
        if i < n {
          assert txs[..n][i] == txs[i];
          assert txs[i].lastId in mid && txs[i].signature in mid[txs[i].lastId];
        }
      }
    }
  }

  lemma AddsNothing(sigs: Sigs)
    ensures AddsOnly(sigs, sigs, [])
  {
  }

  lemma DistinctPrefix(txs: seq<Transaction>, n: nat)
    requires n <= |txs| && DistinctSignatures(txs)
    ensures DistinctSignatures(txs[..n])
  {
  }

  /** The kept transactions are among those that loaded. */
  lemma {:induction false} KeptAreLoaded(run: Runtime, txs: seq<Transaction>, ls: seq<Loaded>, n: nat, k: nat)
    requires n <= |txs| == |ls|
    requires var xs := ExecuteAll(run, txs, ls); k < |KeptTxs(txs[..n], xs[..n])|
    ensures var xs := ExecuteAll(run, txs, ls);
      exists i :: 0 <= i < n && ls[i].Ok? && txs[i] == KeptTxs(txs[..n], xs[..n])[k]
  {
    var xs := ExecuteAll(run, txs, ls);
    if n > 0 {
      assert txs[..n][..n - 1] == txs[..n - 1] && xs[..n][..n - 1] == xs[..n - 1];
      var before := KeptTxs(txs[..n - 1], xs[..n - 1]);
      if k < |before| {
        KeptAreLoaded(run, txs, ls, n - 1, k);
        var i :| 0 <= i < n - 1 && ls[i].Ok? && txs[i] == before[k];
        assert ls[i].Ok? && txs[i] == KeptTxs(txs[..n], xs[..n])[k];
      } else {
        assert ls[n - 1].Ok? && txs[n - 1] == KeptTxs(txs[..n], xs[..n])[k];
      }
    }
  }

  lemma {:induction false} KeptDistinct(run: Runtime, v: Bank, l: Sigs, txs: seq<Transaction>, ls: seq<Loaded>, seen: set<Hash>, n: nat)
    requires n <= |txs| == |ls| && AllLoadedWell(v, l, txs, ls, seen)
    ensures DistinctSignatures(KeptTxs(txs[..n], ExecuteAll(run, txs, ls)[..n]))
  {
    var xs := ExecuteAll(run, txs, ls);
    if n > 0 {
      KeptDistinct(run, v, l, txs, ls, seen, n - 1);
      assert txs[..n][..n - 1] == txs[..n - 1] && xs[..n][..n - 1] == xs[..n - 1];
      var before := KeptTxs(txs[..n - 1], xs[..n - 1]);
      if xs[n - 1].status.Okay? {
        forall k | 0 <= k < |before|
          ensures before[k].lastId != txs[n - 1].lastId || before[k].signature != txs[n - 1].signature
        {
          KeptAreLoaded(run, txs, ls, n - 1, k);
          var i :| 0 <= i < n - 1 && ls[i].Ok? && txs[i] == before[k];
          assert ls[n - 1].Ok?;
        }
      }
    }
  }

  lemma {:induction false} KeptUnspent(run: Runtime, v: Bank, l: Sigs, txs: seq<Transaction>, ls: seq<Loaded>, seen: set<Hash>)
    requires |txs| == |ls| && AllLoadedWell(v, l, txs, ls, seen)
    ensures var kept := KeptTxs(txs, ExecuteAll(run, txs, ls));
      Payers(kept) && AllUnspent(v, kept) &&
      forall i :: 0 <= i < |kept| && kept[i].lastId in l ==> kept[i].signature in l[kept[i].lastId]
  {
    hide ExecuteAll; hide KeptTxs; hide DistinctSignatures;
    var xs := ExecuteAll(run, txs, ls);
    var kept := KeptTxs(txs, xs);
    assert txs[..|txs|] == txs && xs[..|txs|] == xs;
    KeptShape(txs, xs);
    KeptDistinct(run, v, l, txs, ls, seen, |txs|);
    forall k | 0 <= k < |kept|
      ensures Unspent(v, kept[k]) && (kept[k].lastId in l ==> kept[k].signature in l[kept[k].lastId])
    {
      KeptAreLoaded(run, txs, ls, |txs|, k);
      var i :| 0 <= i < |txs| && ls[i].Ok? && txs[i] == kept[k];
      assert LoadedWell(v, l, txs[i], ls[i], seen);
    }
  }

  lemma ExecuteOneMore(run: Runtime, m: Accounts, txs: seq<Transaction>, t: Transaction)
    ensures ExecuteAll(run, txs + [t], Fetched(m, txs + [t])) ==
      ExecuteAll(run, txs, Fetched(m, txs)) + [Execute(run, t, Fetch(m, t))]
  {
    hide Execute; hide Fetch;
    assert Fetched(m, txs + [t]) == Fetched(m, txs) + [Ok(Fetch(m, t))];
    ExecuteAllAppend(run, txs, Fetched(m, txs), t, Ok(Fetch(m, t)));
  }

  /** Executing the kept transactions afresh gives the results they had. */
  lemma {:induction false} KeptExecute(run: Runtime, v: Bank, l: Sigs, txs: seq<Transaction>, ls: seq<Loaded>, seen: set<Hash>, n: nat)
    requires n <= |txs| == |ls| && AllLoadedWell(v, l, txs, ls, seen)
    ensures var xs := ExecuteAll(run, txs, ls);
      var kept := KeptTxs(txs[..n], xs[..n]);
      ExecuteAll(run, kept, Fetched(v.accounts, kept)) == KeptResults(xs[..n])
  {
    hide Execute; hide Fetch; hide Fetched;
    var xs := ExecuteAll(run, txs, ls);
    if n == 0 {
      assert KeptTxs(txs[..0], xs[..0]) == [];
    } else {
      KeptExecute(run, v, l, txs, ls, seen, n - 1);
      assert txs[..n][..n - 1] == txs[..n - 1] && xs[..n][..n - 1] == xs[..n - 1];
      var before := KeptTxs(txs[..n - 1], xs[..n - 1]);
      if xs[n - 1].status.Okay? {
        assert LoadedWell(v, l, txs[n - 1], ls[n - 1], seen);
        ExecuteOneMore(run, v.accounts, before, txs[n - 1]);
        assert KeptTxs(txs[..n], xs[..n]) == before + [txs[n - 1]];
        assert xs[n - 1] == Execute(run, txs[n - 1], Fetch(v.accounts, txs[n - 1]));
      } else {
        assert KeptTxs(txs[..n], xs[..n]) == before;
      }
    }
  }

  /** Every kept transaction's last id is still known when the entry is recorded. */
  ghost predicate RecordedInTime(s: State, act: Act) {
    act.RecordKept? && Enabled(s, act) ==> forall t :: t in KeptOf(s.phase) ==> t.lastId in s.bank.sigs
  }

  /** In time: the recorded batch is all-Ok on the validator, which then has the leader's accounts. */
  lemma RecordedReplays(run: Runtime, s: State, v: Bank, seen: set<Hash>)
    requires Agrees(run, s, v, seen) && Enabled(s, RecordKept) && RecordedInTime(s, RecordKept)
    ensures var kept := KeptOf(s.phase);
      Payers(kept) &&
      var (v', ss) := ProcessTransactions(run, v, kept);
      FirstFailure(ss).Okay? && v'.accounts == s.bank.accounts && SameRing(v', s.bank)
  {
    hide ExecuteAll; hide KeptTxs; hide KeptResults; hide StoreAll; hide UpdateAll; hide LoadAll; hide ProcessTransactions;
    hide AllLoadedWell;
    var p := s.phase;
    var kept := KeptOf(p);
    KeptUnspent(run, v, s.bank.sigs, p.chunk, p.loaded, seen);
    KeptExecute(run, v, s.bank.sigs, p.chunk, p.loaded, seen, |p.chunk|);
    assert p.chunk[..|p.chunk|] == p.chunk && p.results[..|p.chunk|] == p.results;
    UnspentLoads(v, kept);
    BatchParts(run, v, kept);
    PayersOfLoads(v, s.bank.sigs, p.chunk, p.loaded, seen);
    KeptShape(p.chunk, p.results);
    StoreKept(v.accounts, p.chunk, p.results);
    ResultsParts(run, v, kept);
    var xs := Results(run, v, kept);
    assert xs == KeptResults(p.results);
    var loaded := LoadAll(v.accounts, v.sigs, kept).1;
    UpdateReserved(loaded, kept, Statuses(xs));
    CoversAfter(v, s.bank, kept, loaded, UpdateAll(loaded, kept, Statuses(xs)));
  }

  lemma PayersOfLoads(v: Bank, l: Sigs, txs: seq<Transaction>, ls: seq<Loaded>, seen: set<Hash>)
    requires AllLoadedWell(v, l, txs, ls, seen)
    ensures Payers(txs)
  {
  }

  lemma CoversAfter(v: Bank, l: Bank, kept: seq<Transaction>, loaded: Sigs, after: Sigs)
    requires SameRing(v, l) && after.Keys == loaded.Keys && AddsOnly(v.sigs, loaded, kept)
    requires forall id :: id in loaded ==> after[id].Keys == loaded[id].Keys
    requires forall i :: 0 <= i < |kept| && kept[i].lastId in l.sigs ==> kept[i].signature in l.sigs[kept[i].lastId]
    ensures Covers(after, l.sigs) && after.Keys == l.sigs.Keys
  {
    forall id | id in after && id in l.sigs ensures after[id].Keys <= l.sigs[id].Keys {
      forall g | g in after[id].Keys ensures g in l.sigs[id].Keys {
        assert g in loaded[id];
      }
    }
  }

  /** Too late: the validator refuses the entry. */
  lemma LateIsRefused(run: Runtime, s: State, v: Bank, seen: set<Hash>)
    requires Agrees(run, s, v, seen) && Enabled(s, RecordKept) && !RecordedInTime(s, RecordKept)
    ensures KeptOf(s.phase) != [] && Payers(KeptOf(s.phase))
    ensures FirstFailure(ProcessTransactions(run, v, KeptOf(s.phase)).1).Failed?
  {
    hide KeptTxs; hide StoreAll; hide UpdateAll;
    var p := s.phase;
    var kept := KeptOf(p);
    PayersOfLoads(v, s.bank.sigs, p.chunk, p.loaded, seen);
    KeptShape(p.chunk, p.results);
    var t :| t in kept && t.lastId !in v.sigs;
    var i :| 0 <= i < |kept| && kept[i] == t;
    LoadAllReserves(v.accounts, v.sigs, kept);
    assert Reserved(v.sigs, LoadAll(v.accounts, v.sigs, kept).1, kept, LoadAll(v.accounts, v.sigs, kept).0, i);
    assert ProcessTransactions(run, v, kept).1[i].Failed?;
  }

  // ---- One step, and the validator beside it ---------------------------------------------------------

  lemma {:induction false} StepAgrees(run: Runtime, r: Rules, s: State, v: Bank, seen: set<Hash>, act: Act)
    requires Enabled(s, act) && Agrees(run, s, v, seen) && RecordedInTime(s, act)
    requires forall e :: e in Sent(run, r, s, act) ==> e.id !in seen
    ensures AllPayers(Sent(run, r, s, act))
    ensures var (v', st) := ProcessEntries(run, v, Sent(run, r, s, act));
      st.Okay? && Agrees(run, Do(run, r, s, act), v', seen + set id | id in Ids(Sent(run, r, s, act)))
  {
    hide ProcessEntry; hide SameRing; hide AllLoadedWell; hide Register; hide RecordedInTime; hide StoreAll; hide ExecuteAll;
    var es := Sent(run, r, s, act);
    var seen' := seen + set id | id in Ids(es);
    match act
    case HashOnce => assert seen' == seen;
    case TickOnce =>
      var e := es[0];
      assert e in es && es == [e];
      TickAgrees(run, r, s, v, seen);
      OneEntry(run, v, e);
      TickEntry(run, v, e);
      assert Ids(es) == [e.id];
      assert seen' == seen + {e.id};
    case Begin(chunk) =>
      assert seen' == seen;
      NothingLoaded(v, s.bank.sigs, chunk, seen);
    case LoadNext =>
      assert seen' == seen;
      LoadAgrees(run, r, s, v, seen);
    case Finish =>
      assert seen' == seen;
      FinishAgrees(run, r, s, v, seen);
    case UpdateNext =>
      assert seen' == seen;
      UpdateAgrees(run, r, s, v, seen);
    case RecordKept =>
      RecordAgrees(run, r, s, v, seen);
  }

  lemma NothingLoaded(v: Bank, l: Sigs, txs: seq<Transaction>, seen: set<Hash>)
    requires Payers(txs)
    ensures AllLoadedWell(v, l, txs, [], seen)
  {
  }

  lemma {:induction false} OneEntry(run: Runtime, v: Bank, e: Entry)
    requires Payers(e.transactions)
    ensures AllPayers([e]) && ProcessEntries(run, v, [e]) == ProcessEntry(run, v, e)
  {
    assert [e][..0] == [];
    assert ProcessEntries(run, v, []) == (v, Okay);
  }

  lemma TickEntry(run: Runtime, v: Bank, e: Entry)
    requires e.transactions == []
    ensures ProcessEntry(run, v, e) == (Register(v, e.id), Okay)
  {
  }

  lemma {:induction false} RecordAgrees(run: Runtime, r: Rules, s: State, v: Bank, seen: set<Hash>)
    requires Enabled(s, RecordKept) && Agrees(run, s, v, seen) && RecordedInTime(s, RecordKept)
    ensures AllPayers(Sent(run, r, s, RecordKept))
    ensures var es := Sent(run, r, s, RecordKept);
      var (v', st) := ProcessEntries(run, v, es);
      st.Okay? && Agrees(run, Do(run, r, s, RecordKept), v', seen + set id | id in Ids(es))
  {
    hide ProcessTransactions; hide SameRing; hide AllLoadedWell; hide Register; hide RecordedInTime; hide StoreAll;
    hide ExecuteAll;
    hide KeptTxs;
    var es, kept := Sent(run, r, s, RecordKept), KeptOf(s.phase);
    var seen' := seen + set id | id in Ids(es);
    RecordedReplays(run, s, v, seen);
    if kept == [] {
      NothingKept(run, v);
      assert seen' == seen;
    } else {
      var e := es[0];
      assert es == [e];
      OneEntry(run, v, e);
      var v1 := ProcessTransactions(run, v, kept).0;
      assert ProcessEntry(run, v, e) == (Register(v1, e.id), Okay);
      RegisterSame(v1, s.bank, e.id);
      RegisterKeepsAccounts(v1, e.id);
      RegisterKeepsAccounts(s.bank, e.id);
      RegisteredKeys(s.bank, e.id);
      assert Ids(es) == [e.id];
      assert seen' == seen + {e.id};
    }
  }

  lemma {:induction false} LateStepFails(run: Runtime, r: Rules, s: State, v: Bank, seen: set<Hash>, act: Act)
    requires Enabled(s, act) && Agrees(run, s, v, seen) && !RecordedInTime(s, act)
    ensures AllPayers(Sent(run, r, s, act)) && ProcessEntries(run, v, Sent(run, r, s, act)).1.Failed?
  {
    hide ProcessTransactions; hide Agrees;
    LateIsRefused(run, s, v, seen);
    OneEntry(run, v, Sent(run, r, s, act)[0]);
  }

  // ---- Whole runs ------------------------------------------------------------------------------------

  /** No entry's id repeats an earlier one or one known at the start. */
  ghost predicate FreshIds(b: Bank, es: seq<Entry>) {
    NoDuplicates(Ids(es)) && forall id :: id in Ids(es) ==> id !in b.sigs
  }

  /** The chunks the stage is handed carry verified plans. */
  predicate PlansInOrder(r: Rules, acts: seq<Act>) {
    forall i :: 0 <= i < |acts| && acts[i].Begin? ==> PlansVerify(r, acts[i].chunk)
  }

  /** What a run has sent since its start. */
  function SentBy(run: Runtime, r: Rules, s: State, acts: seq<Act>): seq<Entry>
    requires RunThreads(run, r, s, acts).Some?
  {
    if acts == [] then [] else
    var n := |acts| - 1;
    SentBy(run, r, s, acts[..n]) + Sent(run, r, RunThreads(run, r, s, acts[..n]).value, acts[n])
  }

  ghost predicate RunInTime(run: Runtime, r: Rules, s: State, acts: seq<Act>)
    requires RunThreads(run, r, s, acts).Some?
  {
    acts == [] ||
    var n := |acts| - 1;
    RunInTime(run, r, s, acts[..n]) && RecordedInTime(RunThreads(run, r, s, acts[..n]).value, acts[n])
  }

  ghost function Seen(b: Bank, es: seq<Entry>): set<Hash> {
    b.sigs.Keys + set id | id in Ids(es)
  }

  lemma IdsConcat(es: seq<Entry>, es': seq<Entry>)
    ensures Ids(es + es') == Ids(es) + Ids(es')
  {
  }

  lemma FreshPrefix(b: Bank, es: seq<Entry>, es': seq<Entry>)
    requires FreshIds(b, es + es')
    ensures FreshIds(b, es) && forall e :: e in es' ==> e.id !in Seen(b, es)
    ensures Seen(b, es + es') == Seen(b, es) + set id | id in Ids(es')
  {
    IdsConcat(es, es');
    var ids, ids' := Ids(es), Ids(es');
    forall i, j | 0 <= i < j < |ids| ensures ids[i] != ids[j] {
      assert (ids + ids')[i] == ids[i] && (ids + ids')[j] == ids[j];
    }
    forall id | id in ids ensures id !in b.sigs {
      assert id in ids + ids';
    }
    forall e | e in es' ensures e.id !in Seen(b, es) {
      var k :| 0 <= k < |es'| && es'[k] == e;
      assert ids'[k] == e.id && (ids + ids')[|ids| + k] == e.id;
      forall i | 0 <= i < |ids| ensures ids[i] != e.id {
        assert (ids + ids')[i] == ids[i];
      }
    }
  }

  predicate PhaseOk(p: Phase) {
    p.Idle? || (Payers(p.chunk) && (p.Updating? ==> |p.results| == |p.chunk|))
  }

  lemma {:induction false} RunPhaseOk(run: Runtime, r: Rules, s: State, acts: seq<Act>)
    requires s.phase.Idle? && RunThreads(run, r, s, acts).Some?
    ensures PhaseOk(RunThreads(run, r, s, acts).value.phase)
  {
    if acts != [] {
      RunPhaseOk(run, r, s, acts[..|acts| - 1]);
    }
  }

  lemma SendsPayers(run: Runtime, r: Rules, s: State, act: Act)
    requires PhaseOk(s.phase) && Enabled(s, act)
    ensures AllPayers(Sent(run, r, s, act))
  {
    if act.RecordKept? {
      KeptShape(s.phase.chunk, s.phase.results);
    }
  }

  /** Up to the first entry recorded too late the validator agrees; from there on it has failed. */
  lemma {:induction false} RunAgrees(run: Runtime, r: Rules, s: State, v: Bank, acts: seq<Act>)
    requires s.phase.Idle? && Follows(v, s.bank) && RunThreads(run, r, s, acts).Some?
    requires FreshIds(s.bank, SentBy(run, r, s, acts))
    ensures AllPayers(SentBy(run, r, s, acts))
    ensures var (v', st) := ProcessEntries(run, v, SentBy(run, r, s, acts));
      (st.Okay? <==> RunInTime(run, r, s, acts)) &&
      (st.Okay? ==> Agrees(run, RunThreads(run, r, s, acts).value, v', Seen(s.bank, SentBy(run, r, s, acts))))
  {
    hide Agrees; hide Enabled; hide Do; hide RecordedInTime; hide Sent; hide FreshIds; hide Seen;
    if acts == [] {
      AgreesAtFirst(run, s, v);
    } else {
      var n := |acts| - 1;
      var before, mid := SentBy(run, r, s, acts[..n]), RunThreads(run, r, s, acts[..n]).value;
      var more := Sent(run, r, mid, acts[n]);
      FreshPrefix(s.bank, before, more);
      RunAgrees(run, r, s, v, acts[..n]);
      RunPhaseOk(run, r, s, acts[..n]);
      SendsPayers(run, r, mid, acts[n]);
      ProcessEntriesConcat(run, v, before, more);
      if RunInTime(run, r, s, acts[..n]) {
        var v1 := ProcessEntries(run, v, before).0;
        if RecordedInTime(mid, acts[n]) {
          StepAgrees(run, r, mid, v1, Seen(s.bank, before), acts[n]);
        } else {
          LateStepFails(run, r, mid, v1, Seen(s.bank, before), acts[n]);
        }
      }
    }
  }

  lemma {:induction false} AgreesAtFirst(run: Runtime, s: State, v: Bank)
    requires s.phase.Idle? && Follows(v, s.bank)
    ensures Agrees(run, s, v, Seen(s.bank, [])) && ProcessEntries(run, v, []) == (v, Okay)
  {
  }

  // ---- The chain and the ids -------------------------------------------------------------------------

  ghost predicate SameIds(a: Bank, b: Bank) { a.ring == b.ring && a.sigs.Keys == b.sigs.Keys }

  ghost predicate PhasePlansVerify(r: Rules, p: Phase) {
    p.Idle? || (PlansVerify(r, p.chunk) && (p.Updating? ==> |p.results| == |p.chunk|))
  }

  lemma {:induction false} StepKeepsIds(run: Runtime, r: Rules, s: State, act: Act, b: Bank)
    requires Enabled(s, act) && SameIds(s.bank, b)
    ensures SameIds(Do(run, r, s, act).bank, RegisterAll(b, Ids(Sent(run, r, s, act))))
  {
    hide StoreAll; hide ExecuteAll; hide KeptTxs;
    var es := Sent(run, r, s, act);
    if es == [] {
      assert Ids(es) == [];
    } else {
      assert es == [es[0]];
      OneId(b, es[0]);
    }
    if act.LoadNext? {
      OneMoreReserved(s.bank.accounts, s.bank.sigs, s.bank.sigs, s.phase.chunk[|s.phase.loaded|]);
    }
  }

  lemma StepKeepsRecorder(run: Runtime, r: Rules, start: Hash, s: State, act: Act)
    requires Enabled(s, act) && InStep(r, start, s.rec) && PhasePlansVerify(r, s.phase)
    requires act.Begin? ==> PlansVerify(r, act.chunk)
    ensures InStep(r, start, Do(run, r, s, act).rec) && PhasePlansVerify(r, Do(run, r, s, act).phase)
  {
    hide InStep; hide StoreAll; hide LoadAccount; hide UpdateStatus; hide Register; hide PlansVerify;
    match act
    case HashOnce => StepKeepsChain(r, start, s.rec, HashStep);
    case TickOnce => StepKeepsChain(r, start, s.rec, TickStep);
    case RecordKept =>
      KeptPlansVerify(r, s.phase.chunk, s.phase.results);
      if KeptOf(s.phase) != [] {
        StepKeepsChain(r, start, s.rec, RecordStep(KeptOf(s.phase)));
      }
    case _ =>
  }

  lemma {:induction false} KeptPlansVerify(r: Rules, txs: seq<Transaction>, xs: seq<Executed>)
    requires |txs| == |xs| && PlansVerify(r, txs)
    ensures PlansVerify(r, KeptTxs(txs, xs))
  {
    if txs != [] {
      var n := |txs| - 1;
      KeptPlansVerify(r, txs[..n], xs[..n]);
    }
  }

  lemma {:induction false} RunVerifies(run: Runtime, r: Rules, start: Hash, s: State, acts: seq<Act>)
    requires s.phase.Idle? && InStep(r, start, s.rec) && PlansInOrder(r, acts) && RunThreads(run, r, s, acts).Some?
    ensures var s', es := RunThreads(run, r, s, acts).value, SentBy(run, r, s, acts);
      InStep(r, start, s'.rec) && PhasePlansVerify(r, s'.phase) && s'.rec.stream == s.rec.stream + es &&
      SameIds(s'.bank, RegisterAll(s.bank, Ids(es)))
  {
    hide InStep; hide Do; hide Enabled; hide Sent; hide PhasePlansVerify; hide SameIds; hide RegisterAll;
    if acts == [] {
      AtFirst(r, s);
    } else {
      var n := |acts| - 1;
      RunVerifies(run, r, start, s, acts[..n]);
      var mid, es := RunThreads(run, r, s, acts[..n]).value, SentBy(run, r, s, acts[..n]);
      var more := Sent(run, r, mid, acts[n]);
      StepKeepsRecorder(run, r, start, mid, acts[n]);
      StepKeepsIds(run, r, mid, acts[n], RegisterAll(s.bank, Ids(es)));
      SentIsStream(run, r, mid, acts[n]);
      assert s.rec.stream + es + more == s.rec.stream + (es + more);
      IdsConcat(es, more);
      RegisterAllConcat(s.bank, Ids(es), Ids(more));
    }
  }

  lemma AtFirst(r: Rules, s: State)
    requires s.phase.Idle?
    ensures PhasePlansVerify(r, s.phase) && s.rec.stream + [] == s.rec.stream
    ensures SameIds(s.bank, RegisterAll(s.bank, Ids([])))
  {
  }

  lemma {:induction false} RegisterAllConcat(b: Bank, ids: seq<Hash>, ids': seq<Hash>)
    ensures RegisterAll(b, ids + ids') == RegisterAll(RegisterAll(b, ids), ids')
  {
    hide Register;
    if ids' == [] {
      assert ids + ids' == ids;
    } else {
      var n := |ids'| - 1;
      RegisterAllConcat(b, ids, ids'[..n]);
      var all := ids + ids';
      assert all[..|all| - 1] == ids + ids'[..n] && all[|all| - 1] == ids'[n];
    }
  }

  /**
   * Both threads, interleaved in any way their locks allow, whatever is in the chunks: the stream
   * verifies as one chain; its ids are registered in stream order; a validator that started in
   * agreement accepts all of it if and only if every entry was recorded while the last ids it names
   * were known; and then, whenever the stage is between chunks, the validator has the leader's
   * accounts and ids.
   */
  lemma {:induction false} TwoThreadsReplay(run: Runtime, r: Rules, start: Hash, s: State, v: Bank, acts: seq<Act>)
    requires s.phase.Idle? && InStep(r, start, s.rec) && Follows(v, s.bank) && PlansInOrder(r, acts)
    requires RunThreads(run, r, s, acts).Some? && FreshIds(s.bank, SentBy(run, r, s, acts))
    ensures
      var s', es := RunThreads(run, r, s, acts).value, SentBy(run, r, s, acts);
      s'.rec.stream == s.rec.stream + es && BlockVerify(r, s'.rec.stream, start) &&
      SameIds(s'.bank, RegisterAll(s.bank, Ids(es))) && AllPayers(es) &&
      var (v', st) := ProcessEntries(run, v, es);
      (st.Okay? <==> RunInTime(run, r, s, acts)) &&
      (st.Okay? && s'.phase.Idle? ==> Follows(v', s'.bank))
  {
    hide RunThreads; hide SentBy; hide RunInTime; hide FreshIds; hide ProcessEntries; hide BlockVerify; hide PlansInOrder;
    hide SameIds; hide SameRing;
    RunVerifies(run, r, start, s, acts);
    RunAgrees(run, r, s, v, acts);
  }
}

/** At most once, with ids registered between a chunk's loads and its statuses. */
module ThreadSignatures {
  import opened Base
  import opened HashChain
  import opened Processor
  import opened SignatureFacts
  import AtMostOnce
  import opened LeaderThreads

  type Pair = AtMostOnce.Pair

  function PairOf(t: Transaction): Pair { (t.lastId, t.signature) }

  /** What a step accepts: the chunk's good results, when they are stored. */
  function AcceptedAt(run: Runtime, s: State, act: Act): seq<Pair>
    requires Enabled(s, act)
  {
    if act.Finish? then AtMostOnce.Accepted(s.phase.chunk, Statuses(ExecuteAll(run, s.phase.chunk, s.phase.loaded))) else []
  }

  function AcceptedBy(run: Runtime, r: Rules, s: State, acts: seq<Act>): seq<Pair>
    requires RunThreads(run, r, s, acts).Some?
  {
    if acts == [] then [] else
    var n := |acts| - 1;
    AcceptedBy(run, r, s, acts[..n]) + AcceptedAt(run, RunThreads(run, r, s, acts[..n]).value, acts[n])
  }

  /** The pair was once loadable, and while its id is known its signature is taken. */
  ghost predicate Taken(p: Pair, sigs: Sigs, seen: set<Hash>) {
    p.0 in seen && (p.0 in sigs ==> p.1 in sigs[p.0])
  }

  ghost predicate AllTaken(ps: seq<Pair>, sigs: Sigs, seen: set<Hash>) {
    forall i :: 0 <= i < |ps| ==> Taken(ps[i], sigs, seen)
  }

  /** The loaded transactions of a chunk: taken, separate, and new since the run began. */
  ghost predicate LoadsTaken(first: Sigs, txs: seq<Transaction>, ls: seq<Loaded>, acc: seq<Pair>, sigs: Sigs, seen: set<Hash>) {
    |ls| <= |txs| &&
    (forall i :: 0 <= i < |ls| && ls[i].Ok? ==>
      Taken(PairOf(txs[i]), sigs, seen) && PairOf(txs[i]) !in acc && Unspoilt(first, PairOf(txs[i]))) &&
    (forall i, j :: 0 <= i < j < |ls| && ls[i].Ok? && ls[j].Ok? ==> PairOf(txs[i]) != PairOf(txs[j]))
  }

  ghost predicate Unspoilt(first: Sigs, p: Pair) {
    p.0 in first ==> p.1 !in first[p.0]
  }

  /** Signatures known at the start are still known while their ids are. */
  ghost predicate StillHeld(first: Sigs, sigs: Sigs, seen: set<Hash>) {
    first.Keys <= seen && sigs.Keys <= seen && forall id :: id in first && id in sigs ==> first[id].Keys <= sigs[id].Keys
  }

  ghost predicate OnceSoFar(first: Sigs, s: State, acc: seq<Pair>, seen: set<Hash>) {
    NoDuplicates(acc) && AllTaken(acc, s.bank.sigs, seen) && (forall i :: 0 <= i < |acc| ==> Unspoilt(first, acc[i])) &&
    StillHeld(first, s.bank.sigs, seen) &&
    (s.phase.Loading? ==> LoadsTaken(first, s.phase.chunk, s.phase.loaded, acc, s.bank.sigs, seen))
  }

  /** Signatures only grow, or an id is dropped, or a new one starts without any. */
  ghost predicate Moves(sigs: Sigs, sigs': Sigs, seen: set<Hash>, seen': set<Hash>) {
    seen <= seen' && sigs'.Keys <= seen' && forall id :: id in sigs' && id in seen ==> id in sigs && sigs[id].Keys <= sigs'[id].Keys
  }

  lemma MovesKeeps(first: Sigs, s: State, sigs': Sigs, acc: seq<Pair>, seen: set<Hash>, seen': set<Hash>)
    requires OnceSoFar(first, s, acc, seen) && Moves(s.bank.sigs, sigs', seen, seen')
    ensures AllTaken(acc, sigs', seen') && StillHeld(first, sigs', seen')
    ensures s.phase.Loading? ==> LoadsTaken(first, s.phase.chunk, s.phase.loaded, acc, sigs', seen')
  {
  }

  lemma RegisterMoves(b: Bank, id: Hash, seen: set<Hash>)
    requires b.sigs.Keys <= seen && id !in seen
    ensures Moves(b.sigs, Register(b, id).sigs, seen, seen + {id})
  {
  }

  lemma LoadKeepsOnce(run: Runtime, r: Rules, first: Sigs, s: State, acc: seq<Pair>, seen: set<Hash>)
    requires OnceSoFar(first, s, acc, seen) && Enabled(s, LoadNext)
    ensures OnceSoFar(first, Do(run, r, s, LoadNext), acc, seen)
  {
    var p := s.phase;
    var t := p.chunk[|p.loaded|];
    var (l, sigs) := LoadAccount(s.bank.accounts, s.bank.sigs, t);
    OneMoreReserved(s.bank.accounts, s.bank.sigs, s.bank.sigs, t);
    MovesKeeps(first, s, sigs, acc, seen, seen);
    if l.Ok? {
      assert !Taken(PairOf(t), s.bank.sigs, seen);
      assert Taken(PairOf(t), sigs, seen);
    }
  }

  ghost predicate WasLoaded(txs: seq<Transaction>, ls: seq<Loaded>, n: nat, p: Pair)
    requires n <= |txs| && n <= |ls|
  {
    exists i :: 0 <= i < n && ls[i].Ok? && p == PairOf(txs[i])
  }

  /** Everything accepted had been loaded. */
  lemma {:induction false} AcceptedWereLoaded(run: Runtime, txs: seq<Transaction>, ls: seq<Loaded>, n: nat)
    requires |txs| == |ls| && n <= |txs|
    requires forall i, j :: 0 <= i < j < |ls| && ls[i].Ok? && ls[j].Ok? ==> PairOf(txs[i]) != PairOf(txs[j])
    ensures var acc := AtMostOnce.Accepted(txs[..n], Statuses(ExecuteAll(run, txs, ls))[..n]);
      NoDuplicates(acc) && forall k :: 0 <= k < |acc| ==> WasLoaded(txs, ls, n, acc[k])
  {
    if n > 0 {
      AcceptedWereLoaded(run, txs, ls, n - 1);
      var ss := Statuses(ExecuteAll(run, txs, ls));
      assert txs[..n][..n - 1] == txs[..n - 1] && ss[..n][..n - 1] == ss[..n - 1];
      var before := AtMostOnce.Accepted(txs[..n - 1], ss[..n - 1]);
      var acc := before + if ss[n - 1].Okay? then [PairOf(txs[n - 1])] else [];
      assert acc == AtMostOnce.Accepted(txs[..n], ss[..n]);
      assert ss[n - 1].Okay? ==> ls[n - 1].Ok?;
      forall k | 0 <= k < |acc| ensures WasLoaded(txs, ls, n, acc[k]) {
        assert k < |before| ==> WasLoaded(txs, ls, n - 1, before[k]);
      }
    }
  }

  lemma {:induction false} FinishKeepsOnce(run: Runtime, r: Rules, first: Sigs, s: State, acc: seq<Pair>, seen: set<Hash>)
    requires OnceSoFar(first, s, acc, seen) && Enabled(s, Finish)
    ensures OnceSoFar(first, Do(run, r, s, Finish), acc + AcceptedAt(run, s, Finish), seen)
  {
    hide ExecuteAll; hide StoreAll; hide AtMostOnce.Accepted;
    var txs, ls := s.phase.chunk, s.phase.loaded;
    var ss := Statuses(ExecuteAll(run, txs, ls));
    AcceptedWereLoaded(run, txs, ls, |txs|);
    assert txs[..|txs|] == txs && ss[..|txs|] == ss;
    var more := AcceptedAt(run, s, Finish);
    forall k | 0 <= k < |more| ensures Taken(more[k], s.bank.sigs, seen) && more[k] !in acc && Unspoilt(first, more[k]) {
      assert WasLoaded(txs, ls, |txs|, more[k]);
    }
  }

  lemma StepKeepsOnce(run: Runtime, r: Rules, first: Sigs, s: State, acc: seq<Pair>, seen: set<Hash>, act: Act)
    requires OnceSoFar(first, s, acc, seen) && Enabled(s, act)
    requires forall e :: e in Sent(run, r, s, act) ==> e.id !in seen
    ensures OnceSoFar(first, Do(run, r, s, act), acc + AcceptedAt(run, s, act), seen + set id | id in Ids(Sent(run, r, s, act)))
  {
    hide Sent; hide Do; hide OnceSoFar; hide Ids;
    var none: set<Hash> := set id | id in Ids(Sent(run, r, s, act));
    if act.LoadNext? || act.Finish? {
      SendsNothing(run, r, s, act);
      assert seen + none == seen;
      assert acc + [] == acc;
      if act.LoadNext? {
        LoadKeepsOnce(run, r, first, s, acc, seen);
      } else {
        FinishKeepsOnce(run, r, first, s, acc, seen);
      }
    } else {
      assert acc + [] == acc;
      OtherKeepsOnce(run, r, first, s, acc, seen, act);
    }
  }

  lemma SendsNothing(run: Runtime, r: Rules, s: State, act: Act)
    requires Enabled(s, act) && (act.LoadNext? || act.Finish?)
    ensures Ids(Sent(run, r, s, act)) == []
  {
  }

  lemma OtherKeepsOnce(run: Runtime, r: Rules, first: Sigs, s: State, acc: seq<Pair>, seen: set<Hash>, act: Act)
    requires OnceSoFar(first, s, acc, seen) && Enabled(s, act) && !act.LoadNext? && !act.Finish?
    requires forall e :: e in Sent(run, r, s, act) ==> e.id !in seen
    ensures OnceSoFar(first, Do(run, r, s, act), acc, seen + set id | id in Ids(Sent(run, r, s, act)))
  {
    hide Sent; hide Do; hide NoDuplicates; hide LoadsTaken; hide AllTaken; hide StillHeld; hide Register; hide Moves;
    var es, s' := Sent(run, r, s, act), Do(run, r, s, act);
    var seen' := seen + set id | id in Ids(es);
    SentIsStream(run, r, s, act);
    if es != [] {
      assert Ids(es) == [es[0].id];
      assert seen' == seen + {es[0].id};
      HeldAreSeen(first, s, acc, seen);
      RegisterMoves(s.bank, es[0].id, seen);
    } else {
      assert seen' == seen;
      StaysOrGrows(run, r, s, act, seen, first, acc);
    }
    MovesKeeps(first, s, s'.bank.sigs, acc, seen, seen');
    StillLoading(run, r, s, act);
    if act.Begin? {
      NothingLoaded(first, act.chunk, acc, s'.bank.sigs, seen');
    }
  }

  lemma StillLoading(run: Runtime, r: Rules, s: State, act: Act)
    requires Enabled(s, act) && !act.LoadNext? && !act.Finish?
    ensures var p := Do(run, r, s, act).phase;
      p.Loading? ==> if act.Begin? then p == Loading(act.chunk, []) else p == s.phase
  {
  }

  lemma HeldAreSeen(first: Sigs, s: State, acc: seq<Pair>, seen: set<Hash>)
    requires OnceSoFar(first, s, acc, seen)
    ensures s.bank.sigs.Keys <= seen
  {
  }

  lemma NothingLoaded(first: Sigs, txs: seq<Transaction>, acc: seq<Pair>, sigs: Sigs, seen: set<Hash>)
    ensures LoadsTaken(first, txs, [], acc, sigs, seen)
  {
  }

  lemma StaysOrGrows(run: Runtime, r: Rules, s: State, act: Act, seen: set<Hash>, first: Sigs, acc: seq<Pair>)
    requires Enabled(s, act) && OnceSoFar(first, s, acc, seen) && Sent(run, r, s, act) == [] && !act.LoadNext? && !act.Finish?
    ensures Moves(s.bank.sigs, Do(run, r, s, act).bank.sigs, seen, seen)
  {
  }

  /**
   * At most once over both threads: however ids are registered between a chunk's loads, its results
   * and its statuses, no (last id, signature) pair is accepted twice, nor one that had been seen
   * before the run, even after its id has left the ring.
   */
  lemma {:induction false} AcceptedOnceByThreads(run: Runtime, r: Rules, s: State, acts: seq<Act>)
    requires s.phase.Idle? && RunThreads(run, r, s, acts).Some? && FreshIds(s.bank, SentBy(run, r, s, acts))
    ensures OnceSoFar(s.bank.sigs, RunThreads(run, r, s, acts).value, AcceptedBy(run, r, s, acts),
      Seen(s.bank, SentBy(run, r, s, acts)))
    ensures NoDuplicates(AcceptedBy(run, r, s, acts))
    ensures forall i :: 0 <= i < |AcceptedBy(run, r, s, acts)| ==>
      var p := AcceptedBy(run, r, s, acts)[i]; p.0 in s.bank.sigs ==> p.1 !in s.bank.sigs[p.0]
  {
    hide Enabled; hide Do; hide Sent; hide FreshIds; hide NoDuplicates; hide AcceptedAt;
    if acts != [] {
      var n := |acts| - 1;
      var before, mid := SentBy(run, r, s, acts[..n]), RunThreads(run, r, s, acts[..n]).value;
      var more := Sent(run, r, mid, acts[n]);
      FreshPrefix(s.bank, before, more);
      AcceptedOnceByThreads(run, r, s, acts[..n]);
      StepKeepsOnce(run, r, s.bank.sigs, mid, AcceptedBy(run, r, s, acts[..n]), Seen(s.bank, before), acts[n]);
    } else {
      assert NoDuplicates<Pair>([]) by { NoneRepeats(); }
    }
    var acc := AcceptedBy(run, r, s, acts);
    forall i | 0 <= i < |acc| ensures acc[i].0 in s.bank.sigs ==> acc[i].1 !in s.bank.sigs[acc[i].0] {
      assert Unspoilt(s.bank.sigs, acc[i]);
    }
  }

  lemma NoneRepeats()
    ensures NoDuplicates<Pair>([])
  {
  }
}
