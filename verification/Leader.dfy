/** The leader's side: the recorder shared by two threads, and the loop that feeds it. */
module Leader {
  import opened Base
  import opened HashChain
  import opened Packing
  import opened Processor
  import opened Replay
  import opened LeaderThreads

  /** `PodRecorder`: advances the clock, registers the id and sends the entry in one locked step. */
  class PodRecorder {
    const pod: Pod
    const processor: TransactionProcessor
    var sent: seq<Entry>

    /** The clock starts at the processor's last id; without one the source panics. */
    constructor (r: Rules, processor: TransactionProcessor)
      requires processor.lastIds != []
      ensures fresh(pod) && pod.r == r && this.processor == processor
      ensures var start := processor.lastIds[|processor.lastIds| - 1];
        View() == Recorder(start, 0, []) && InStep(r, start, View())
    {
      pod := new Pod(r, processor.lastIds[|processor.lastIds| - 1]);
      this.processor, sent := processor, [];
    }

    ghost function View(): Recorder
      reads this, pod
    {
      Recorder(pod.lastHash, pod.numHashes, sent)
    }

    method DoHash()
      modifies pod
      ensures View() == Step(pod.r, old(View()), HashStep)
    {
      pod.DoHash();
    }

    method Tick()
      modifies this, pod, processor
      ensures View() == Step(pod.r, old(View()), TickStep)
      ensures processor.View() == Register(old(processor.View()), sent[|sent| - 1].id)
    {
      var t := pod.Tick();
      processor.RegisterEntryId(t.id);
      sent := sent + [Entry(t.numHashes, t.id, [])];
    }

    method Record(mixin: Hash, txs: seq<Transaction>)
      requires mixin == TxHash(pod.r, txs)
      modifies this, pod, processor
      ensures View() == Step(pod.r, old(View()), RecordStep(txs))
      ensures processor.View() == Register(old(processor.View()), sent[|sent| - 1].id)
    {
      var t := pod.Record(mixin);
      processor.RegisterEntryId(t.id);
      sent := sent + [Entry(t.numHashes, t.id, txs)];
    }

    /** One turn of the stage: execute a chunk, keep what succeeded, record it. */
    method ProcessChunk(chunk: seq<Transaction>)
      requires Payers(chunk)
      modifies this, pod, processor
      ensures (processor.View(), View()) == ChunkDo(processor.run, pod.r, old(processor.View()), old(View()), chunk)
    {
      ghost var l := processor.View();
      var results := processor.ProcessBatch(chunk);
      var kept := KeepOkay(chunk, results, Results(processor.run, l, chunk));
      hide ProcessTransactions; hide Results; hide Register;
      if kept != [] {
        Record(TxHash(pod.r, kept), kept);
      }
    }

    /** The transaction stage's loop over everything it was handed. */
    method ProcessChunks(txs: seq<Transaction>)
      requires Payers(txs)
      modifies this, pod, processor
      ensures (processor.View(), View()) == Stage(processor.run, pod.r, old(processor.View()), old(View()), txs)
    {
      hide ChunkDo; hide Longest;
      var chunkStart := 0;
      assert txs[0..] == txs;
      while chunkStart != |txs|
        invariant 0 <= chunkStart <= |txs|
        invariant Stage(processor.run, pod.r, old(processor.View()), old(View()), txs) ==
          Stage(processor.run, pod.r, processor.View(), View(), txs[chunkStart..])
        decreases |txs| - chunkStart
      {
        ghost var rest := txs[chunkStart..];
        var num := NumWillFit(txs[chunkStart..]);
        var chunkEnd := chunkStart + num;
        assert txs[chunkStart..chunkEnd] == rest[..num] && txs[chunkEnd..] == rest[num..];
        ProcessChunk(txs[chunkStart..chunkEnd]);
        chunkStart := chunkEnd;
      }
    }
  }

  method KeepOkay(txs: seq<Transaction>, ss: seq<Status>, ghost xs: seq<Executed>) returns (kept: seq<Transaction>)
    requires |txs| == |ss| == |xs| && ss == Statuses(xs)
    ensures kept == KeptTxs(txs, xs)
  {
    kept := [];
    for i := 0 to |txs|
      invariant kept == KeptTxs(txs[..i], xs[..i])
    {
      assert txs[..i + 1][..i] == txs[..i] && xs[..i + 1][..i] == xs[..i];
      if ss[i].Okay? {
        kept := kept + [txs[i]];
      }
    }
    assert txs[..|txs|] == txs && xs[..|xs|] == xs;
  }

  function FitCount(txs: seq<Transaction>): (k: nat)
    requires txs != []
    ensures 1 <= k <= |txs|
    ensures (forall j :: k < j <= |txs| ==> !Fits(txs[..j])) && (k > 1 ==> Fits(txs[..k]))
  {
    if Longest(txs) == 0 then 1 else Longest(txs)
  }

  function ChunkDo(run: Runtime, r: Rules, l: Bank, rec: Recorder, chunk: seq<Transaction>): (Bank, Recorder)
    requires Payers(chunk)
  {
    var l' := ProcessTransactions(run, l, chunk).0;
    var kept := Kept(run, l, chunk);
    if kept == [] then (l', rec) else
    var rec' := Step(r, rec, RecordStep(kept));
    (Register(l', rec'.last), rec')
  }

  /** The loop on values: bank and recorder after the transactions have been worked through. */
  function Stage(run: Runtime, r: Rules, l: Bank, rec: Recorder, txs: seq<Transaction>): (Bank, Recorder)
    requires Payers(txs)
    decreases |txs|
  {
    if txs == [] then (l, rec) else
    var k := FitCount(txs);
    var (l', rec') := ChunkDo(run, r, l, rec, txs[..k]);
    Stage(run, r, l', rec', txs[k..])
  }

  // ---- What the stage's output is worth ----------------------------------------------------------

  lemma {:induction false} LeaderRunConcat(run: Runtime, l: Bank, first: seq<LeaderStep>, second: seq<LeaderStep>)
    requires AllWellFormed(first) && AllWellFormed(second)
    ensures AllWellFormed(first + second)
    ensures
      var (l', es) := LeaderRun(run, l, first);
      var (l'', es') := LeaderRun(run, l', second);
      LeaderRun(run, l, first + second) == (l'', es + es')
  {
    hide LeaderDo;
    if second == [] {
      assert first + second == first;
      assert LeaderRun(run, l, first).1 + [] == LeaderRun(run, l, first).1;
    } else {
      var n := |second| - 1;
      LeaderRunConcat(run, l, first, second[..n]);
      var all := first + second;
      assert all[..|all| - 1] == first + second[..n] && all[|all| - 1] == second[n];
      var (l', es) := LeaderRun(run, l, first);
      var (m, es') := LeaderRun(run, l', second[..n]);
      var last := LeaderDo(run, m, second[n]).1;
      assert (es + es') + last == es + (es' + last);
    }
  }

  lemma {:induction false} OneStepRun(run: Runtime, l: Bank, step: LeaderStep)
    requires WellFormed(step)
    ensures LeaderRun(run, l, [step]) == LeaderDo(run, l, step)
  {
    hide LeaderDo;
    assert LeaderRun(run, l, [step][..0]) == (l, []);
    assert [] + LeaderDo(run, l, step).1 == LeaderDo(run, l, step).1;
  }

  ghost predicate Atomic(steps: seq<LeaderStep>) {
    AllWellFormed(steps) && forall i :: 0 <= i < |steps| ==> steps[i].Chunk? && steps[i].ticks == []
  }

  /** The leader step that a chunk amounts to. */
  function ChunkStep(run: Runtime, r: Rules, l: Bank, rec: Recorder, chunk: seq<Transaction>): (step: LeaderStep)
    requires Payers(chunk)
  {
    LeaderStep.Chunk(chunk, [], rec.n + 1, r.two(rec.last, TxHash(r, Kept(run, l, chunk))))
  }

  /** One chunk of the stage is one leader step: same bank, same entries sent. */
  lemma ChunkIsLeaderStep(run: Runtime, r: Rules, start: Hash, l: Bank, rec: Recorder, chunk: seq<Transaction>)
    requires Payers(chunk) && PlansVerify(r, chunk) && InStep(r, start, rec)
    ensures
      var (l', rec') := ChunkDo(run, r, l, rec, chunk);
      var step := ChunkStep(run, r, l, rec, chunk);
      WellFormed(step) && LeaderDo(run, l, step).0 == l' && rec'.stream == rec.stream + LeaderDo(run, l, step).1 &&
      InStep(r, start, rec')
  {
    hide ProcessTransactions; hide Register; hide InStep;
    KeptPlansVerify(r, chunk, Results(run, l, chunk));
    var kept := Kept(run, l, chunk);
    var e := Entry(rec.n + 1, r.two(rec.last, TxHash(r, kept)), kept);
    assert Ids([]) == [] && [] + [e] == [e];
    if kept != [] {
      StepKeepsChain(r, start, rec, RecordStep(kept));
    }
  }

  /**
   * Working through any transactions is a run of atomic leader steps, so every validator in step
   * with the leader replays its output; and when the plans verify, the stream verifies too.
   */
  lemma {:induction false} StageIsLeaderRun(run: Runtime, r: Rules, start: Hash, l: Bank, rec: Recorder, txs: seq<Transaction>)
    returns (steps: seq<LeaderStep>)
    requires Payers(txs) && PlansVerify(r, txs) && InStep(r, start, rec)
    ensures Atomic(steps)
    ensures
      var (l', rec') := Stage(run, r, l, rec, txs);
      InStep(r, start, rec') &&
      LeaderRun(run, l, steps).0 == l' && rec'.stream == rec.stream + LeaderRun(run, l, steps).1
    decreases |txs|
  {
    hide LeaderDo; hide ChunkDo; hide InStep; hide FitCount; hide WellFormed;
    if txs == [] {
      steps := [];
      assert LeaderRun(run, l, []) == (l, []) && rec.stream + [] == rec.stream;
    } else {
      var k := FitCount(txs);
      var chunk := txs[..k];
      ChunkIsLeaderStep(run, r, start, l, rec, chunk);
      var step := ChunkStep(run, r, l, rec, chunk);
      var (l', rec') := ChunkDo(run, r, l, rec, chunk);
      var rest := StageIsLeaderRun(run, r, start, l', rec', txs[k..]);
      steps := [step] + rest;
      LeaderRunConcat(run, l, [step], rest);
      OneStepRun(run, l, step);
      var es, es' := LeaderDo(run, l, step).1, LeaderRun(run, l', rest).1;
      assert (rec.stream + es) + es' == rec.stream + (es + es');
    }
  }

  /** End of the pipeline: what the stage sends verifies as a chain and replays to the leader's accounts. */
  lemma {:induction false} StageOutputReplays(run: Runtime, r: Rules, start: Hash, l: Bank, rec: Recorder, v: Bank, txs: seq<Transaction>)
    requires Payers(txs) && PlansVerify(r, txs) && InStep(r, start, rec) && Follows(v, l)
    ensures
      var (l', rec') := Stage(run, r, l, rec, txs);
      BlockVerify(r, rec'.stream, start) && rec.stream <= rec'.stream &&
      var sent := rec'.stream[|rec.stream|..];
      AllPayers(sent) && ProcessEntries(run, v, sent).1.Okay? && Follows(ProcessEntries(run, v, sent).0, l')
  {
    hide Stage; hide LeaderRun; hide ProcessEntries; hide Follows; hide WellFormed;
    var steps := StageIsLeaderRun(run, r, start, l, rec, txs);
    AtomicRunReplays(run, l, v, steps);
    var rec' := Stage(run, r, l, rec, txs).1;
    assert rec'.stream[|rec.stream|..] == LeaderRun(run, l, steps).1;
  }

  // ---- What the stage is handed ------------------------------------------------------------------

  /** A received packet: what it decodes to, if anything, and the verdict on its signature. */
  datatype Packet = Packet(tx: Option<Transaction>, ver: nat)

  predicate Good(r: Rules, p: Packet) {
    p.tx.Some? && r.plan(p.tx.value) && p.ver != 0
  }

  /** `process_packets`: keeps what decodes, has a plan that passes and a good signature. */
  function Vet(r: Rules, ps: seq<Packet>): seq<Transaction> {
    if ps == [] then [] else
    var p := ps[|ps| - 1];
    Vet(r, ps[..|ps| - 1]) + if Good(r, p) then [p.tx.value] else []
  }

  lemma {:induction false} VettedWereGood(r: Rules, ps: seq<Packet>, k: nat)
    requires k < |Vet(r, ps)|
    ensures r.plan(Vet(r, ps)[k])
    ensures exists i :: 0 <= i < |ps| && Good(r, ps[i]) && ps[i].tx.value == Vet(r, ps)[k]
  {
    var n := |ps| - 1;
    if k < |Vet(r, ps[..n])| {
      VettedWereGood(r, ps[..n], k);
      var i :| 0 <= i < n && Good(r, ps[..n][i]) && ps[..n][i].tx.value == Vet(r, ps[..n])[k];
      assert Good(r, ps[i]);
    } else {
      assert Good(r, ps[n]);
    }
  }

  lemma {:induction false} GoodAreVetted(r: Rules, ps: seq<Packet>, i: nat)
    requires i < |ps| && Good(r, ps[i])
    ensures |Vet(r, ps[..i])| < |Vet(r, ps)| && Vet(r, ps)[|Vet(r, ps[..i])|] == ps[i].tx.value
  {
    var n := |ps| - 1;
    if i < n {
      GoodAreVetted(r, ps[..n], i);
      assert ps[..n][..i] == ps[..i];
    }
  }

  /** Nothing with a bad plan or signature gets through, and everything else does, in its place. */
  lemma {:induction false} VettedExactly(r: Rules, ps: seq<Packet>)
    ensures PlansVerify(r, Vet(r, ps))
    ensures forall k :: 0 <= k < |Vet(r, ps)| ==>
      r.plan(Vet(r, ps)[k]) && exists i :: 0 <= i < |ps| && ps[i].tx == Some(Vet(r, ps)[k]) && ps[i].ver != 0
    ensures forall i :: 0 <= i < |ps| && ps[i].tx.Some? && ps[i].ver != 0 && r.plan(ps[i].tx.value) ==>
      |Vet(r, ps[..i])| < |Vet(r, ps)| && Vet(r, ps)[|Vet(r, ps[..i])|] == ps[i].tx.value
  {
    hide Vet;
    forall k | 0 <= k < |Vet(r, ps)|
      ensures r.plan(Vet(r, ps)[k]) && exists i :: 0 <= i < |ps| && ps[i].tx == Some(Vet(r, ps)[k]) && ps[i].ver != 0
    {
      VettedWereGood(r, ps, k);
      var i :| 0 <= i < |ps| && Good(r, ps[i]) && ps[i].tx.value == Vet(r, ps)[k];
      assert ps[i].tx == Some(Vet(r, ps)[k]);
    }
    forall i | 0 <= i < |ps| && ps[i].tx.Some? && ps[i].ver != 0 && r.plan(ps[i].tx.value)
      ensures |Vet(r, ps[..i])| < |Vet(r, ps)| && Vet(r, ps)[|Vet(r, ps[..i])|] == ps[i].tx.value
    {
      GoodAreVetted(r, ps, i);
    }
  }

  /** So whatever packets come in, what the stage sends verifies and replays. */
  lemma {:induction false} PacketsReplay(run: Runtime, r: Rules, start: Hash, l: Bank, rec: Recorder, v: Bank, ps: seq<Packet>)
    requires Payers(Vet(r, ps)) && InStep(r, start, rec) && Follows(v, l)
    ensures
      var (l', rec') := Stage(run, r, l, rec, Vet(r, ps));
      BlockVerify(r, rec'.stream, start) && rec.stream <= rec'.stream &&
      var sent := rec'.stream[|rec.stream|..];
      AllPayers(sent) && ProcessEntries(run, v, sent).1.Okay? && Follows(ProcessEntries(run, v, sent).0, l')
  {
    hide Stage; hide ProcessEntries; hide Follows; hide Vet; hide PlansVerify; hide InStep; hide BlockVerify;
    VettedExactly(r, ps);
    StageOutputReplays(run, r, start, l, rec, v, Vet(r, ps));
  }

  // ---- The stage as one of the two threads -------------------------------------------------------

  function LoadActs(chunk: seq<Transaction>, k: nat): seq<Act> {
    if k == 0 then [Begin(chunk)] else LoadActs(chunk, k - 1) + [LoadNext]
  }

  function UpdateActs(chunk: seq<Transaction>, k: nat): seq<Act> {
    if k == 0 then LoadActs(chunk, |chunk|) + [Finish] else UpdateActs(chunk, k - 1) + [UpdateNext]
  }

  /** The accesses the stage makes for one chunk. */
  function ChunkActs(chunk: seq<Transaction>): seq<Act> {
    UpdateActs(chunk, |chunk|) + [RecordKept]
  }

  function StageActs(txs: seq<Transaction>): seq<Act>
    decreases |txs|
  {
    if txs == [] then [] else ChunkActs(txs[..FitCount(txs)]) + StageActs(txs[FitCount(txs)..])
  }

  lemma {:induction false} OneMoreAct(run: Runtime, r: Rules, s: State, acts: seq<Act>, act: Act)
    ensures RunThreads(run, r, s, acts + [act]) ==
      match RunThreads(run, r, s, acts)
      case None => None
      case Some(mid) => if Enabled(mid, act) then Some(Do(run, r, mid, act)) else None
  {
    hide Do; hide Enabled;
    assert (acts + [act])[..|acts|] == acts;
  }

  lemma {:induction false} RunThreadsConcat(run: Runtime, r: Rules, s: State, first: seq<Act>, second: seq<Act>)
    ensures RunThreads(run, r, s, first + second) ==
      match RunThreads(run, r, s, first) case None => None case Some(mid) => RunThreads(run, r, mid, second)
  {
    hide Do; hide Enabled;
    if second == [] {
      assert first + second == first;
    } else {
      var n := |second| - 1;
      RunThreadsConcat(run, r, s, first, second[..n]);
      assert first + second == (first + second[..n]) + [second[n]];
      OneMoreAct(run, r, s, first + second[..n], second[n]);
    }
  }

  /** A chunk with its first `k` transactions loaded. */
  function PartLoaded(l: Bank, rec: Recorder, chunk: seq<Transaction>, k: nat): State
    requires Payers(chunk) && k <= |chunk|
  {
    var (ls, sigs) := LoadAll(l.accounts, l.sigs, chunk[..k]);
    State(l.(sigs := sigs), rec, Loading(chunk, ls))
  }

  lemma {:induction false} OneMoreLoad(run: Runtime, r: Rules, l: Bank, rec: Recorder, chunk: seq<Transaction>, k: nat)
    requires Payers(chunk) && k < |chunk|
    ensures var s := PartLoaded(l, rec, chunk, k);
      Enabled(s, LoadNext) && Do(run, r, s, LoadNext) == PartLoaded(l, rec, chunk, k + 1)
  {
    hide LoadAccount;
    assert chunk[..k + 1][..k] == chunk[..k];
  }

  lemma {:induction false} LoadsAlone(run: Runtime, r: Rules, l: Bank, rec: Recorder, chunk: seq<Transaction>, k: nat)
    requires Payers(chunk) && k <= |chunk|
    ensures RunThreads(run, r, State(l, rec, Idle), LoadActs(chunk, k)) == Some(PartLoaded(l, rec, chunk, k))
  {
    var s := State(l, rec, Idle);
    if k == 0 {
      OneMoreAct(run, r, s, [], Begin(chunk));
      assert [] + [Begin(chunk)] == [Begin(chunk)];
    } else {
      hide PartLoaded; hide Do; hide Enabled;
      LoadsAlone(run, r, l, rec, chunk, k - 1);
      OneMoreAct(run, r, s, LoadActs(chunk, k - 1), LoadNext);
      OneMoreLoad(run, r, l, rec, chunk, k - 1);
    }
  }

  /** A chunk loaded, executed and stored, with the first `k` statuses recorded. */
  function PartUpdated(run: Runtime, l: Bank, rec: Recorder, chunk: seq<Transaction>, k: nat): State
    requires Payers(chunk) && k <= |chunk|
  {
    var (ls, sigs) := LoadAll(l.accounts, l.sigs, chunk);
    var xs := ExecuteAll(run, chunk, ls);
    var ss := Statuses(xs);
    State(Bank(StoreAll(l.accounts, chunk, xs), l.ring, UpdateAll(sigs, chunk[..k], ss[..k]), l.count + CountOkay(ss[..k])),
          rec, Updating(chunk, ls, xs, k))
  }

  lemma OneMoreUpdate(run: Runtime, r: Rules, l: Bank, rec: Recorder, chunk: seq<Transaction>, k: nat)
    requires Payers(chunk) && k < |chunk|
    ensures var s := PartUpdated(run, l, rec, chunk, k);
      Enabled(s, UpdateNext) && Do(run, r, s, UpdateNext) == PartUpdated(run, l, rec, chunk, k + 1)
  {
    hide LoadAll; hide ExecuteAll; hide StoreAll; hide UpdateStatus;
    var ss := Statuses(ExecuteAll(run, chunk, LoadAll(l.accounts, l.sigs, chunk).0));
    assert chunk[..k + 1][..k] == chunk[..k] && ss[..k + 1][..k] == ss[..k];
  }

  lemma {:induction false} NoUpdateYet(run: Runtime, r: Rules, l: Bank, rec: Recorder, chunk: seq<Transaction>)
    requires Payers(chunk)
    ensures var (ls, sigs) := LoadAll(l.accounts, l.sigs, chunk);
      var s := State(l.(sigs := sigs), rec, Loading(chunk, ls));
      Enabled(s, Finish) && Do(run, r, s, Finish) == PartUpdated(run, l, rec, chunk, 0)
  {
    hide LoadAll; hide ExecuteAll; hide StoreAll;
    var ss := Statuses(ExecuteAll(run, chunk, LoadAll(l.accounts, l.sigs, chunk).0));
    assert ss[..0] == [] && chunk[..0] == [];
  }

  lemma {:induction false} UpdatesAlone(run: Runtime, r: Rules, l: Bank, rec: Recorder, chunk: seq<Transaction>, k: nat)
    requires Payers(chunk) && k <= |chunk|
    ensures RunThreads(run, r, State(l, rec, Idle), UpdateActs(chunk, k)) == Some(PartUpdated(run, l, rec, chunk, k))
  {
    hide PartUpdated; hide Do; hide Enabled; hide LoadAll;
    var s := State(l, rec, Idle);
    if k == 0 {
      LoadsAlone(run, r, l, rec, chunk, |chunk|);
      assert chunk[..|chunk|] == chunk;
      OneMoreAct(run, r, s, LoadActs(chunk, |chunk|), Finish);
      NoUpdateYet(run, r, l, rec, chunk);
    } else {
      UpdatesAlone(run, r, l, rec, chunk, k - 1);
      OneMoreAct(run, r, s, UpdateActs(chunk, k - 1), UpdateNext);
      OneMoreUpdate(run, r, l, rec, chunk, k - 1);
    }
  }

  lemma {:induction false} ChunkAlone(run: Runtime, r: Rules, l: Bank, rec: Recorder, chunk: seq<Transaction>)
    requires Payers(chunk)
    ensures var (l', rec') := ChunkDo(run, r, l, rec, chunk);
      RunThreads(run, r, State(l, rec, Idle), ChunkActs(chunk)) == Some(State(l', rec', Idle))
  {
    hide LoadAll; hide ExecuteAll; hide StoreAll; hide UpdateAll; hide KeptTxs; hide Register; hide CountOkay;
    UpdatesAlone(run, r, l, rec, chunk, |chunk|);
    var ss := Statuses(Results(run, l, chunk));
    assert chunk[..|chunk|] == chunk && ss[..|chunk|] == ss;
    OneMoreAct(run, r, State(l, rec, Idle), UpdateActs(chunk, |chunk|), RecordKept);
  }

  /** The stage's loop is a run of its thread, chunk after chunk; the other thread may act anywhere in it. */
  lemma {:induction false} StageIsThreadRun(run: Runtime, r: Rules, l: Bank, rec: Recorder, txs: seq<Transaction>)
    requires Payers(txs)
    ensures var (l', rec') := Stage(run, r, l, rec, txs);
      RunThreads(run, r, State(l, rec, Idle), StageActs(txs)) == Some(State(l', rec', Idle))
    decreases |txs|
  {
    hide ChunkDo; hide ChunkActs; hide FitCount;
    if txs != [] {
      var k := FitCount(txs);
      ChunkAlone(run, r, l, rec, txs[..k]);
      var (l', rec') := ChunkDo(run, r, l, rec, txs[..k]);
      StageIsThreadRun(run, r, l', rec', txs[k..]);
      RunThreadsConcat(run, r, State(l, rec, Idle), ChunkActs(txs[..k]), StageActs(txs[k..]));
    }
  }
}
