/**
 * The hash chain that orders the ledger. Hashing and plan checking are parameters: every statement
 * holds for any functions in their place.
 */
module HashChain {
  import opened Base
  import opened Processor

  datatype Rules = Rules(
    one: Hash -> Hash,              // hash of a hash
    two: (Hash, Hash) -> Hash,      // hash of a hash and a mixin
    sigs: seq<Signature> -> Hash,   // hash of a list of signatures
    plan: Transaction -> bool)      // verify_plan

  function Signatures(txs: seq<Transaction>): seq<Signature> {
    seq(|txs|, i requires 0 <= i < |txs| => txs[i].signature)
  }

  function TxHash(r: Rules, txs: seq<Transaction>): Hash {
    r.sigs(Signatures(txs))
  }

  /** `n` hashes after `h`. */
  function Iter(r: Rules, h: Hash, n: nat): Hash {
    if n == 0 then h else r.one(Iter(r, h, n - 1))
  }

  function NextHash(r: Rules, start: Hash, numHashes: nat, txs: seq<Transaction>): Hash {
    if numHashes == 0 && txs == [] then start else
    var h := Iter(r, start, if numHashes == 0 then 0 else numHashes - 1);
    if txs == [] then r.one(h) else r.two(h, TxHash(r, txs))
  }

  predicate PlansVerify(r: Rules, txs: seq<Transaction>) {
    forall i :: 0 <= i < |txs| ==> r.plan(txs[i])
  }

  predicate EntryVerify(r: Rules, e: Entry, start: Hash) {
    PlansVerify(r, e.transactions) && e.id == NextHash(r, start, e.numHashes, e.transactions)
  }

  /** The id an entry at position `i` builds on. */
  function PrevId(es: seq<Entry>, start: Hash, i: nat): Hash
    requires i <= |es|
  {
    if i == 0 then start else es[i - 1].id
  }

  function LastId(es: seq<Entry>, start: Hash): Hash {
    PrevId(es, start, |es|)
  }

  predicate BlockVerify(r: Rules, es: seq<Entry>, start: Hash) {
    forall i :: 0 <= i < |es| ==> EntryVerify(r, es[i], PrevId(es, start, i))
  }

  /** Verifying in two pieces, carrying the last id across, is verifying the whole. */
  lemma BlockVerifySplit(r: Rules, es: seq<Entry>, start: Hash, k: nat)
    requires k <= |es|
    ensures BlockVerify(r, es, start) <==>
      BlockVerify(r, es[..k], start) && BlockVerify(r, es[k..], PrevId(es, start, k))
  {
    if BlockVerify(r, es, start) {
      WholeGivesParts(r, es, start, k);
    }
    if BlockVerify(r, es[..k], start) && BlockVerify(r, es[k..], PrevId(es, start, k)) {
      PartsGiveWhole(r, es, start, k);
    }
  }

  lemma WholeGivesParts(r: Rules, es: seq<Entry>, start: Hash, k: nat)
    requires k <= |es| && BlockVerify(r, es, start)
    ensures BlockVerify(r, es[..k], start) && BlockVerify(r, es[k..], PrevId(es, start, k))
  {
    hide EntryVerify;
    var a, b, mid := es[..k], es[k..], PrevId(es, start, k);
    forall i | 0 <= i < |a| ensures EntryVerify(r, a[i], PrevId(a, start, i)) {
      assert EntryVerify(r, es[i], PrevId(es, start, i));
    }
    forall i | 0 <= i < |b| ensures EntryVerify(r, b[i], PrevId(b, mid, i)) {
      assert EntryVerify(r, es[k + i], PrevId(es, start, k + i));
    }
  }

  lemma PartsGiveWhole(r: Rules, es: seq<Entry>, start: Hash, k: nat)
    requires k <= |es|
    requires BlockVerify(r, es[..k], start) && BlockVerify(r, es[k..], PrevId(es, start, k))
    ensures BlockVerify(r, es, start)
  {
    hide EntryVerify;
    var a, b, mid := es[..k], es[k..], PrevId(es, start, k);
    forall i | 0 <= i < |es| ensures EntryVerify(r, es[i], PrevId(es, start, i)) {
      if i < k {
        assert EntryVerify(r, a[i], PrevId(a, start, i));
      } else {
        assert EntryVerify(r, b[i - k], PrevId(b, mid, i - k));
      }
    }
  }

  lemma BlockVerifyAppend(r: Rules, es: seq<Entry>, start: Hash, e: Entry)
    ensures BlockVerify(r, es + [e], start) <==>
      BlockVerify(r, es, start) && EntryVerify(r, e, LastId(es, start))
  {
    BlockVerifySplit(r, es + [e], start, |es|);
    assert (es + [e])[..|es|] == es && (es + [e])[|es|..] == [e];
    assert PrevId(es + [e], start, |es|) == LastId(es, start);
    assert BlockVerify(r, [e], LastId(es, start)) <==> EntryVerify(r, e, PrevId([e], LastId(es, start), 0));
  }

  // ---- Tampering ---------------------------------------------------------------------------------

  /** No two inputs hash alike, with or without a mixin. */
  ghost predicate CollisionFree(r: Rules) {
    (forall h: Hash, h': Hash, m: Hash :: r.one(h) != r.two(h', m)) &&
    (forall h: Hash, m: Hash, h': Hash, m': Hash :: r.two(h, m) == r.two(h', m') ==> h == h' && m == m') &&
    (forall s: seq<Signature>, s': seq<Signature> :: r.sigs(s) == r.sigs(s') ==> s == s')
  }

  /**
   * In a verified block, reordering, replacing or dropping the transactions of any entry, so that
   * its list of signatures changes, makes the block fail. Only an entry that counts no hashes, which
   * the recorder never sends, must keep at least one transaction.
   */
  lemma TamperingDetected(r: Rules, es: seq<Entry>, start: Hash, i: nat, txs: seq<Transaction>)
    requires CollisionFree(r) && BlockVerify(r, es, start) && i < |es| && es[i].transactions != []
    requires txs != [] || es[i].numHashes > 0
    requires Signatures(txs) != Signatures(es[i].transactions)
    ensures !BlockVerify(r, es[i := es[i].(transactions := txs)], start)
  {
    var e, es' := es[i], es[i := es[i].(transactions := txs)];
    assert EntryVerify(r, e, PrevId(es, start, i));
    assert PrevId(es', start, i) == PrevId(es, start, i) && es'[i].id == e.id;
    assert NextHash(r, PrevId(es', start, i), e.numHashes, txs) != e.id;
    assert !EntryVerify(r, es'[i], PrevId(es', start, i));
  }

  // ---- Proof-of-history clock ------------------------------------------------------------------

  datatype PodEntry = PodEntry(numHashes: nat, id: Hash, mixin: Option<Hash>)

  class Pod {
    const r: Rules
    var lastHash: Hash
    var numHashes: nat

    constructor (r: Rules, lastHash: Hash)
      ensures this.r == r && this.lastHash == lastHash && numHashes == 0
    {
      this.r, this.lastHash, numHashes := r, lastHash, 0;
    }

    /** The clock has hashed `numHashes` times since `from`. */
    ghost predicate Since(from: Hash)
      reads this
    {
      lastHash == Iter(r, from, numHashes)
    }

    method DoHash()
      modifies this
      ensures numHashes == old(numHashes) + 1
      ensures forall from :: old(Since(from)) ==> Since(from)
      ensures lastHash == r.one(old(lastHash))
    {
      lastHash := r.one(lastHash);
      numHashes := numHashes + 1;
    }

    method Record(mixin: Hash) returns (e: PodEntry)
      modifies this
      ensures e == PodEntry(old(numHashes) + 1, r.two(old(lastHash), mixin), Some(mixin))
      ensures numHashes == 0 && lastHash == e.id && Since(e.id)
    {
      var n := numHashes + 1;
      lastHash := r.two(lastHash, mixin);
      numHashes := 0;
      e := PodEntry(n, lastHash, Some(mixin));
    }

    method Tick() returns (e: PodEntry)
      modifies this
      ensures e == PodEntry(old(numHashes) + 1, r.one(old(lastHash)), None)
      ensures numHashes == 0 && lastHash == e.id && Since(e.id)
    {
      DoHash();
      e := PodEntry(numHashes, lastHash, None);
      numHashes := 0;
    }
  }

  /** `next_hash`, as the source computes it: with a clock of its own. */
  method ComputeNextHash(r: Rules, start: Hash, numHashes: nat, txs: seq<Transaction>) returns (h: Hash)
    ensures h == NextHash(r, start, numHashes, txs)
  {
    if numHashes == 0 && txs == [] {
      return start;
    }
    var pod := new Pod(r, start);
    var i := 1;
    while i < numHashes
      invariant fresh(pod) && pod.r == r
      invariant pod.numHashes == i - 1 && pod.Since(start)
      invariant i == 1 || i <= numHashes
    {
      pod.DoHash();
      i := i + 1;
    }
    if txs == [] {
      var e := pod.Tick();
      h := e.id;
    } else {
      var e := pod.Record(TxHash(r, txs));
      h := e.id;
    }
  }

  // ---- The recorder: every interleaving verifies -----------------------------------------------

  /** One atomic step of a thread holding the recorder. */
  datatype RecorderStep = HashStep | TickStep | RecordStep(txs: seq<Transaction>)

  /** Clock state and everything sent so far. */
  datatype Recorder = Recorder(last: Hash, n: nat, stream: seq<Entry>)

  function Step(r: Rules, s: Recorder, step: RecorderStep): Recorder {
    match step
    case HashStep => s.(last := r.one(s.last), n := s.n + 1)
    case TickStep =>
      var id := r.one(s.last);
      Recorder(id, 0, s.stream + [Entry(s.n + 1, id, [])])
    case RecordStep(txs) =>
      var id := r.two(s.last, TxHash(r, txs));
      Recorder(id, 0, s.stream + [Entry(s.n + 1, id, txs)])
  }

  /** What the transaction stage guarantees of each thing it records. */
  predicate Recordable(r: Rules, step: RecorderStep) {
    step.RecordStep? ==> step.txs != [] && PlansVerify(r, step.txs)
  }

  ghost predicate InStep(r: Rules, start: Hash, s: Recorder) {
    s.last == Iter(r, LastId(s.stream, start), s.n) && BlockVerify(r, s.stream, start)
  }

  lemma StepKeepsChain(r: Rules, start: Hash, s: Recorder, step: RecorderStep)
    requires InStep(r, start, s) && Recordable(r, step)
    ensures InStep(r, start, Step(r, s, step))
  {
    if !step.HashStep? {
      var s' := Step(r, s, step);
      var e := s'.stream[|s.stream|];
      BlockVerifyAppend(r, s.stream, start, e);
      assert EntryVerify(r, e, LastId(s.stream, start));
    }
  }

  /** The same with the bank the recorder registers ids in: each entry's id, as it is sent. */
  function RunWith(r: Rules, start: Hash, b: Bank, steps: seq<RecorderStep>): (Recorder, Bank) {
    if steps == [] then (Recorder(start, 0, []), b) else
    var n := |steps| - 1;
    var (s, b') := RunWith(r, start, b, steps[..n]);
    var s' := Step(r, s, steps[n]);
    (s', if steps[n].HashStep? then b' else Register(b', s'.last))
  }

  /**
   * Every interleaving of hashing, ticking and recording emits a stream that `Block::verify`
   * accepts from the hash the recorder started at, and has registered its ids in stream order.
   */
  lemma {:induction false} EveryInterleavingVerifies(r: Rules, start: Hash, b: Bank, steps: seq<RecorderStep>)
    requires forall i :: 0 <= i < |steps| ==> Recordable(r, steps[i])
    ensures var (s, b') := RunWith(r, start, b, steps);
      InStep(r, start, s) && b' == RegisterAll(b, Ids(s.stream))
  {
    hide InStep; hide Register;
    if steps == [] {
      NothingSent(r, start, b);
    } else {
      var n := |steps| - 1;
      EveryInterleavingVerifies(r, start, b, steps[..n]);
      var (s, b') := RunWith(r, start, b, steps[..n]);
      StepKeepsChain(r, start, s, steps[n]);
      if !steps[n].HashStep? {
        OneMoreId(b, s.stream, Step(r, s, steps[n]).stream[|s.stream|]);
      }
    }
  }

  lemma {:induction false} NothingSent(r: Rules, start: Hash, b: Bank)
    ensures InStep(r, start, Recorder(start, 0, [])) && RegisterAll(b, Ids([])) == b
  {
  }

  lemma {:induction false} OneMoreId(b: Bank, es: seq<Entry>, e: Entry)
    ensures RegisterAll(b, Ids(es + [e])) == Register(RegisterAll(b, Ids(es)), e.id)
  {
    var ids := Ids(es + [e]);
    assert ids[..|es|] == Ids(es) && ids[|es|] == e.id;
  }

  /** What verifying says of the transactions themselves: every one carries a plan that passes. */
  lemma PlansAreChecked(r: Rules, es: seq<Entry>, start: Hash)
    requires BlockVerify(r, es, start)
    ensures forall i, j :: 0 <= i < |es| && 0 <= j < |es[i].transactions| ==> r.plan(es[i].transactions[j])
  {
    forall i | 0 <= i < |es| ensures PlansVerify(r, es[i].transactions) {
      assert EntryVerify(r, es[i], PrevId(es, start, i));
    }
  }

  // ---- Whatever verifies could have been sent -------------------------------------------------------

  predicate Counted(es: seq<Entry>) {
    forall i :: 0 <= i < |es| ==> es[i].numHashes > 0
  }

  predicate AllRecordable(r: Rules, steps: seq<RecorderStep>) {
    forall i :: 0 <= i < |steps| ==> Recordable(r, steps[i])
  }

  /** The steps that send `e`: hashing until its count is one short, then a tick or a record. */
  function StepsFor(e: Entry): seq<RecorderStep>
    requires e.numHashes > 0
  {
    seq(e.numHashes - 1, _ => HashStep) + [if e.transactions == [] then TickStep else RecordStep(e.transactions)]
  }

  function AllSteps(es: seq<Entry>): seq<RecorderStep>
    requires Counted(es)
  {
    if es == [] then [] else AllSteps(es[..|es| - 1]) + StepsFor(es[|es| - 1])
  }

  lemma {:induction false} HashesRun(r: Rules, start: Hash, b: Bank, steps: seq<RecorderStep>, k: nat)
    ensures var s := RunWith(r, start, b, steps).0;
      RunWith(r, start, b, steps + seq(k, _ => HashStep)).0 == s.(last := Iter(r, s.last, k), n := s.n + k)
  {
    var all := steps + seq(k, _ => HashStep);
    if k == 0 {
      assert all == steps;
    } else {
      HashesRun(r, start, b, steps, k - 1);
      assert all[..|all| - 1] == steps + seq(k - 1, _ => HashStep);
    }
  }

  lemma {:induction false} StepsForSend(r: Rules, start: Hash, b: Bank, before: seq<RecorderStep>, es: seq<Entry>, e: Entry)
    requires e.numHashes > 0 && RunWith(r, start, b, before).0 == Recorder(LastId(es, start), 0, es)
    requires EntryVerify(r, e, LastId(es, start))
    ensures RunWith(r, start, b, before + StepsFor(e)).0 == Recorder(e.id, 0, es + [e])
  {
    hide PlansVerify; hide TxHash; hide LastId;
    var k := e.numHashes - 1;
    HashesRun(r, start, b, before, k);
    var all := before + StepsFor(e);
    assert all[..|all| - 1] == before + seq(k, _ => HashStep);
    assert all[|all| - 1] == if e.transactions == [] then TickStep else RecordStep(e.transactions);
  }

  lemma StepsForRecordable(r: Rules, before: seq<RecorderStep>, e: Entry, start: Hash)
    requires e.numHashes > 0 && AllRecordable(r, before) && EntryVerify(r, e, start)
    ensures AllRecordable(r, before + StepsFor(e))
  {
    hide NextHash;
  }

  lemma {:induction false} AllStepsSend(r: Rules, start: Hash, b: Bank, es: seq<Entry>)
    requires BlockVerify(r, es, start) && Counted(es)
    ensures RunWith(r, start, b, AllSteps(es)).0 == Recorder(LastId(es, start), 0, es) && AllRecordable(r, AllSteps(es))
  {
    hide EntryVerify; hide StepsFor; hide AllRecordable;
    if es == [] {
      assert AllRecordable(r, []) by { NothingToRecord(r); }
    } else {
      var n := |es| - 1;
      BlockVerifySplit(r, es, start, n);
      AllStepsSend(r, start, b, es[..n]);
      assert EntryVerify(r, es[n], PrevId(es, start, n)) && LastId(es[..n], start) == PrevId(es, start, n);
      hide BlockVerify; hide RunWith;
      StepsForSend(r, start, b, AllSteps(es[..n]), es[..n], es[n]);
      StepsForRecordable(r, AllSteps(es[..n]), es[n], PrevId(es, start, n));
      assert es[..n] + [es[n]] == es;
    }
  }

  lemma NothingToRecord(r: Rules)
    ensures AllRecordable(r, [])
  {
  }

  lemma {:induction false} SentAreCounted(r: Rules, start: Hash, b: Bank, steps: seq<RecorderStep>)
    ensures Counted(RunWith(r, start, b, steps).0.stream)
  {
    if steps != [] {
      SentAreCounted(r, start, b, steps[..|steps| - 1]);
    }
  }

  /**
   * `Block::verify` accepts exactly what a recorder could have sent from that hash: a list of entries
   * that each count a hash verifies if and only if some run of hashing, ticking and recording
   * transactions with good plans sends it.
   */
  lemma {:induction false} VerifiedExactlyWhenSent(r: Rules, start: Hash, b: Bank, es: seq<Entry>)
    ensures BlockVerify(r, es, start) && Counted(es) <==>
      exists steps :: AllRecordable(r, steps) && RunWith(r, start, b, steps).0.stream == es
  {
    hide BlockVerify; hide RunWith; hide AllRecordable; hide Counted;
    if BlockVerify(r, es, start) && Counted(es) {
      AllStepsSend(r, start, b, es);
    }
    if steps :| AllRecordable(r, steps) && RunWith(r, start, b, steps).0.stream == es {
      SentVerifies(r, start, b, steps);
      SentAreCounted(r, start, b, steps);
    }
  }

  lemma {:induction false} SentVerifies(r: Rules, start: Hash, b: Bank, steps: seq<RecorderStep>)
    requires AllRecordable(r, steps)
    ensures BlockVerify(r, RunWith(r, start, b, steps).0.stream, start)
  {
    hide RunWith;
    EveryInterleavingVerifies(r, start, b, steps);
  }

  // ---- Checking a ledger block by block --------------------------------------------------------

  const VERIFY_BLOCK_SIZE: nat := 16

  /** Blocks of VERIFY_BLOCK_SIZE, each checked from the id the previous one ended on. */
  method VerifyInBlocks(r: Rules, es: seq<Entry>, start: Hash) returns (ok: bool)
    ensures ok <==> BlockVerify(r, es, start)
  {
    hide EntryVerify;
    var id := start;
    var pos := 0;
    assert es[..0] == [];
    assert BlockVerify(r, [], start);
    hide BlockVerify;
    while pos < |es|
      invariant 0 <= pos <= |es|
      invariant BlockVerify(r, es[..pos], start) && id == PrevId(es, start, pos)
    {
      var end := if pos + VERIFY_BLOCK_SIZE < |es| then pos + VERIFY_BLOCK_SIZE else |es|;
      var block := es[pos..end];
      BlockVerifySplit(r, es, start, end);
      BlockVerifySplit(r, es[..end], start, pos);
      assert es[..end][..pos] == es[..pos] && es[..end][pos..] == block;
      if !BlockVerify(r, block, id) {
        return false;
      }
      id := block[|block| - 1].id;
      pos := end;
    }
    assert es[..|es|] == es;
    ok := true;
  }
}

/** Cutting a list of transactions into entries that fit a blob. */
module Packing {
  import opened Base
  import opened EntryFormat
  import opened HashChain

  predicate Fits(txs: seq<Transaction>) {
    SerializedSize(Entry(0, DEFAULT_HASH, txs)) <= BLOB_DATA_SIZE
  }

  lemma {:induction false} FitsPrefix(txs: seq<Transaction>, k: nat)
    requires k <= |txs| && Fits(txs)
    ensures Fits(txs[..k])
  {
    if k < |txs| {
      FitsPrefix(txs[..|txs| - 1], k);
      assert txs[..|txs| - 1][..k] == txs[..k];
    } else {
      assert txs[..k] == txs;
    }
  }

  lemma LongerStillDoesNotFit(txs: seq<Transaction>, k: nat)
    requires k <= |txs| && !Fits(txs[..k])
    ensures forall j :: k <= j <= |txs| ==> !Fits(txs[..j])
  {
    forall j | k <= j <= |txs| ensures !Fits(txs[..j]) {
      assert txs[..j][..k] == txs[..k];
      if Fits(txs[..j]) {
        FitsPrefix(txs[..j], k);
      }
    }
  }

  lemma EmptyFits()
    ensures Fits([])
  {
  }

  /** Reference definition: the number of transactions in the longest fitting prefix. */
  function Longest(txs: seq<Transaction>): (k: nat)
    ensures k <= |txs| && Fits(txs[..k])
    ensures forall j :: k < j <= |txs| ==> !Fits(txs[..j])
  {
    if Fits(txs) then assert txs[..|txs|] == txs; |txs|
    else
      var init := txs[..|txs| - 1];
      assert forall j :: 0 <= j < |txs| ==> init[..j] == txs[..j];
      assert txs[..|txs|] == txs;
      Longest(init)
  }

  /**
   * `num_will_fit`: the longest fitting prefix, found by narrowing from both ends; when even the
   * first transaction is too large the answer is still one.
   */
  method NumWillFit(txs: seq<Transaction>) returns (num: nat)
    ensures txs == [] ==> num == 0
    ensures txs != [] ==> num == if Longest(txs) == 0 then 1 else Longest(txs)
  {
    if txs == [] {
      return 0;
    }
    num := |txs|;
    var upper, lower, next := |txs|, 1, |txs|;
    while true
      invariant 1 <= lower <= num <= upper <= |txs|
      invariant lower == 1 || Fits(txs[..lower])
      invariant (num == upper == |txs| && lower == 1) || (num < upper && !Fits(txs[..upper]))
      invariant num == lower && num < upper ==> upper == lower + 1
      decreases upper - lower, if num == upper then 1 else 0
    {
      var fits := Fits(txs[..num]);
      if fits {
        next := (upper + num) / 2;
        lower := num;
      } else {
        next := (lower + num) / 2;
        upper := num;
        LongerStillDoesNotFit(txs, num);
      }
      if next == num {
        if fits && num < |txs| {
          LongerStillDoesNotFit(txs, num + 1);
        }
        return;
      }
      num := next;
    }
  }

  /**
   * The inner search of `next_entries_mut`: where the chunk starting at `chunkStart` ends. When not
   * even one transaction fits, the chunk is empty.
   */
  method ChunkEnd(txs: seq<Transaction>, chunkStart: nat) returns (chunkEnd: nat)
    requires chunkStart < |txs|
    ensures chunkEnd == chunkStart + Longest(txs[chunkStart..])
  {
    ghost var rest := txs[chunkStart..];
    EmptyFits();
    assert rest[..0] == [];
    chunkEnd := |txs|;
    var upper, lower, next := chunkEnd, chunkStart, chunkEnd;
    while true
      invariant chunkStart <= lower <= chunkEnd <= upper <= |txs|
      invariant lower == chunkStart || Fits(rest[..lower - chunkStart])
      invariant (chunkEnd == upper == |txs| && lower == chunkStart) ||
                (chunkEnd < upper && !Fits(rest[..upper - chunkStart]))
      invariant chunkEnd == lower && chunkEnd < upper ==> upper == lower + 1
      decreases upper - lower, if chunkEnd == upper then 1 else 0
    {
      assert txs[chunkStart..chunkEnd] == rest[..chunkEnd - chunkStart];
      var fits := Fits(txs[chunkStart..chunkEnd]);
      if fits {
        next := (upper + chunkEnd) / 2;
        lower := chunkEnd;
      } else {
        next := (lower + chunkEnd) / 2;
        upper := chunkEnd;
        LongerStillDoesNotFit(rest, chunkEnd - chunkStart);
      }
      if next == chunkEnd {
        if fits && chunkEnd < |txs| {
          LongerStillDoesNotFit(rest, chunkEnd + 1 - chunkStart);
        }
        return;
      }
      chunkEnd := next;
    }
  }

  // ---- New entries -----------------------------------------------------------------------------

  /** `Entry::new`: the id is computed with no hashes of its own, whatever count is passed in. */
  function NewEntry(r: Rules, start: Hash, numHashes: nat, txs: seq<Transaction>): Entry {
    Entry(numHashes + (if txs == [] then 0 else 1), NextHash(r, start, 0, txs), txs)
  }

  /** A rule set whose chain visibly moves: hashing appends a byte. */
  function Visible(plan: Transaction -> bool): Rules {
    Rules((h: Hash) => Hash(h.bytes + [0]), (h: Hash, m: Hash) => Hash(h.bytes + [1]), s => Hash([]), plan)
  }

  lemma {:induction false} VisibleIter(plan: Transaction -> bool, h: Hash, n: nat)
    ensures |Iter(Visible(plan), h, n).bytes| == |h.bytes| + n
  {
    if n > 0 {
      VisibleIter(plan, h, n - 1);
    }
  }

  /**
   * A new entry verifies, whatever the hash function, exactly when no hashes had been counted
   * before it: the count is stored but the id does not reflect it.
   */
  lemma NewEntryVerifies(plan: Transaction -> bool, start: Hash, numHashes: nat, txs: seq<Transaction>)
    requires forall i :: 0 <= i < |txs| ==> plan(txs[i])
    ensures (forall r: Rules :: r.plan == plan ==> EntryVerify(r, NewEntry(r, start, numHashes, txs), start))
      <==> numHashes == 0
  {
    if numHashes > 0 {
      var r := Visible(plan);
      VisibleIter(plan, start, if txs == [] then numHashes - 1 else numHashes);
      var e := NewEntry(r, start, numHashes, txs);
      assert |e.id.bytes| < |NextHash(r, start, e.numHashes, txs).bytes|;
      assert r.plan == plan && !EntryVerify(r, e, start);
    } else {
      forall r: Rules | r.plan == plan ensures EntryVerify(r, NewEntry(r, start, 0, txs), start) {
        assert PlansVerify(r, txs);
      }
    }
  }

  // ---- Packing ---------------------------------------------------------------------------------

  predicate SinglesFit(txs: seq<Transaction>) {
    forall i :: 0 <= i < |txs| ==> Fits([txs[i]])
  }

  /** Reference definition: repeatedly take the longest fitting prefix. */
  function Greedy(txs: seq<Transaction>): (chunks: seq<seq<Transaction>>)
    requires SinglesFit(txs)
    ensures forall i :: 0 <= i < |chunks| ==> chunks[i] != [] && Fits(chunks[i])
    decreases |txs|
  {
    if txs == [] then [] else
    FirstFits(txs);
    var k := Longest(txs);
    [txs[..k]] + Greedy(txs[k..])
  }

  lemma {:induction false} FirstFits(txs: seq<Transaction>)
    requires txs != [] && SinglesFit(txs)
    ensures Fits(txs[..1]) && Longest(txs) >= 1
  {
    assert txs[..1] == [txs[0]];
  }

  // ---- When packing ends -------------------------------------------------------------------------

  lemma FitsMember(txs: seq<Transaction>, i: nat)
    requires i < |txs| && Fits(txs)
    ensures Fits([txs[i]])
  {
    hide TxSize;
    FitsPrefix(txs, i + 1);
    var upto, one := txs[..i + 1], [txs[i]];
    assert upto[..i] == txs[..i] && one[..0] == [];
    assert TxsSize(upto) == TxsSize(txs[..i]) + TxSize(txs[i]);
    assert TxsSize(one) == TxsSize([]) + TxSize(txs[i]);
  }

  /** Where the chunk after the first `n` starts. */
  function ChunkStartAfter(txs: seq<Transaction>, n: nat): (s: nat)
    ensures s <= |txs|
  {
    if n == 0 then 0 else
    var s := ChunkStartAfter(txs, n - 1);
    s + Longest(txs[s..])
  }

  /** No chunk reaches past a transaction too large for any blob. */
  lemma {:induction false} StuckAt(txs: seq<Transaction>, i: nat, n: nat)
    requires i < |txs| && !Fits([txs[i]])
    ensures ChunkStartAfter(txs, n) <= i
  {
    hide Fits; hide Longest;
    if n > 0 {
      StuckAt(txs, i, n - 1);
      var s := ChunkStartAfter(txs, n - 1);
      var k := Longest(txs[s..]);
      if i < s + k {
        FitsMember(txs[s..][..k], i - s);
      }
    }
  }

  lemma {:induction false} Advances(txs: seq<Transaction>, n: nat)
    requires SinglesFit(txs)
    ensures n <= ChunkStartAfter(txs, n) || ChunkStartAfter(txs, n) == |txs|
  {
    hide Fits; hide Longest;
    if n > 0 {
      Advances(txs, n - 1);
      var s := ChunkStartAfter(txs, n - 1);
      if s < |txs| {
        FirstFits(txs[s..]);
      }
    }
  }

  lemma SingleFitsExactly(t: Transaction)
    ensures Fits([t]) <==> 200 + 32 * |t.keys| + |t.userdata| <= 65280
  {
    assert [t][..0] == [];
    assert TxsSize([t]) == TxsSize([]) + TxSize(t);
  }

  /** A first transaction with a blob's worth of userdata keeps packing where it started. */
  lemma {:induction false} PackingSticks(txs: seq<Transaction>, n: nat)
    requires |txs| >= 2 && |txs[0].userdata| == BLOB_DATA_SIZE
    ensures !Fits([txs[0]]) && ChunkStartAfter(txs, n) == 0
  {
    SingleFitsExactly(txs[0]);
    StuckAt(txs, 0, n);
  }

  /** The loop over chunks comes to an end exactly when every transaction fits a blob by itself. */
  lemma {:induction false} PackingEnds(txs: seq<Transaction>)
    ensures (exists n: nat :: ChunkStartAfter(txs, n) == |txs|) <==> SinglesFit(txs)
  {
    if SinglesFit(txs) {
      Advances(txs, |txs|);
    } else {
      var i :| 0 <= i < |txs| && !Fits([txs[i]]);
      forall n: nat ensures ChunkStartAfter(txs, n) != |txs| {
        StuckAt(txs, i, n);
      }
    }
  }

  /** Packing neither drops, repeats nor reorders a transaction. */
  lemma {:induction false} GreedyConcatenatesToInput(txs: seq<Transaction>)
    requires SinglesFit(txs)
    ensures Flatten(Greedy(txs)) == txs
    decreases |txs|
  {
    hide Fits; hide Longest;
    if txs != [] {
      FirstFits(txs);
      var k := Longest(txs);
      GreedyConcatenatesToInput(txs[k..]);
      var g := Greedy(txs);
      assert g[0] == txs[..k] && g[1..] == Greedy(txs[k..]);
      assert txs == txs[..k] + txs[k..];
    }
  }

  function Lists(es: seq<Entry>): seq<seq<Transaction>> {
    seq(|es|, i requires 0 <= i < |es| => es[i].transactions)
  }

  /** The chunks `next_entries_mut` should produce; a list of at most one is never split. */
  function Chunks(txs: seq<Transaction>): seq<seq<Transaction>>
    requires |txs| <= 1 || SinglesFit(txs)
  {
    if |txs| <= 1 then [txs] else Greedy(txs)
  }

  lemma AppendNew(r: Rules, es: seq<Entry>, start: Hash, txs: seq<Transaction>)
    requires BlockVerify(r, es, start) && PlansVerify(r, txs)
    ensures BlockVerify(r, es + [NewEntry(r, LastId(es, start), 0, txs)], start)
  {
    BlockVerifyAppend(r, es, start, NewEntry(r, LastId(es, start), 0, txs));
  }

  lemma {:induction false} GreedyStep(txs: seq<Transaction>)
    requires txs != [] && SinglesFit(txs)
    ensures var k := Longest(txs);
      1 <= k && SinglesFit(txs[k..]) && Fits(txs[..k]) && Greedy(txs) == [txs[..k]] + Greedy(txs[k..])
  {
    FirstFits(txs);
  }

  lemma ListsAppend(es: seq<Entry>, e: Entry)
    ensures Lists(es + [e]) == Lists(es) + [e.transactions]
  {
  }

  lemma FittingEntry(e: Entry)
    ensures Fits(e.transactions) <==> SerializedSize(e) <= BLOB_DATA_SIZE
  {
  }

  /**
   * `next_entries_mut`: entries holding exactly the greedy chunks in order, every one within a
   * blob, chained from `start`, with the count reset; from a zero count the block verifies. A lone
   * transaction too large for a blob makes `Entry::new` panic, which is None here.
   */
  method NextEntries(r: Rules, start: Hash, numHashes: nat, txs: seq<Transaction>)
    returns (out: Option<(seq<Entry>, Hash, nat)>)
    requires |txs| <= 1 || SinglesFit(txs)
    ensures out.Some? <==> SinglesFit(txs)
    ensures out.Some? ==>
      var (es, last, count) := out.value;
      Lists(es) == Chunks(txs) && es != [] && last == LastId(es, start) && count == 0 &&
      (forall i :: 0 <= i < |es| ==> SerializedSize(es[i]) <= BLOB_DATA_SIZE) &&
      (numHashes == 0 && PlansVerify(r, txs) ==> BlockVerify(r, es, start))
  {
    hide Greedy; hide BlockVerify; hide Longest; hide Fits; hide SerializedSize; hide Lists;
    if |txs| <= 1 {
      var e := NewEntry(r, start, numHashes, txs);
      LoneEntry(r, start, numHashes, txs);
      return if SerializedSize(e) > BLOB_DATA_SIZE then None else Some(([e], e.id, 0));
    }
    var last, count := start, numHashes;
    var es := [];
    var chunkStart := 0;
    EmptyLists(r, start);
    assert txs[0..] == txs;
    while chunkStart < |txs|
      invariant chunkStart <= |txs|
      invariant SinglesFit(txs[chunkStart..])
      invariant Greedy(txs) == Lists(es) + Greedy(txs[chunkStart..])
      invariant forall i :: 0 <= i < |es| ==> SerializedSize(es[i]) <= BLOB_DATA_SIZE
      invariant last == LastId(es, start)
      invariant if es == [] then count == numHashes && chunkStart == 0 else count == 0
      invariant numHashes == 0 && PlansVerify(r, txs) ==> BlockVerify(r, es, start)
    {
      ghost var rest := txs[chunkStart..];
      GreedyStep(rest);
      FirstFits(rest);
      var chunkEnd := ChunkEnd(txs, chunkStart);
      var chunk := txs[chunkStart..chunkEnd];
      var e := NewEntry(r, last, count, chunk);
      if numHashes == 0 && PlansVerify(r, txs) {
        AppendNew(r, es, start, chunk);
      }
      assert chunk == rest[..Longest(rest)] && txs[chunkEnd..] == rest[Longest(rest)..];
      ListsAppend(es, e);
      FittingEntry(e);
      es, last, count := es + [e], e.id, 0;
      chunkStart := chunkEnd;
    }
    assert txs[chunkStart..] == [];
    EmptyLists(r, start);
    out := Some((es, last, count));
  }

  /** A list that is not split. */
  lemma LoneEntry(r: Rules, start: Hash, numHashes: nat, txs: seq<Transaction>)
    requires |txs| <= 1
    ensures var e := NewEntry(r, start, numHashes, txs);
      (SerializedSize(e) <= BLOB_DATA_SIZE <==> SinglesFit(txs)) && Lists([e]) == [txs] && LastId([e], start) == e.id &&
      (numHashes == 0 && PlansVerify(r, txs) ==> BlockVerify(r, [e], start))
  {
    hide BlockVerify; hide Fits; hide SerializedSize; hide Lists;
    var e := NewEntry(r, start, numHashes, txs);
    EmptyFits();
    assert txs == [] || txs == [txs[0]];
    FittingEntry(e);
    ListsAppend([], e);
    EmptyLists(r, start);
    assert [] + [e] == [e] && [] + [txs] == [txs];
    if numHashes == 0 && PlansVerify(r, txs) {
      AppendNew(r, [], start, txs);
    }
  }

  lemma EmptyLists(r: Rules, start: Hash)
    ensures Lists([]) == [] && Greedy([]) == [] && BlockVerify(r, [], start)
  {
  }
}
