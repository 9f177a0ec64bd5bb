/** Facts about reserving and recording signatures that several laws need. */
module SignatureFacts {
  import opened Base
  import opened Processor

  /** `a` has the same ids as `b`, and under each no signature that `b` lacks. */
  ghost predicate Grows(a: Sigs, b: Sigs) {
    a.Keys == b.Keys && forall id :: id in a ==> a[id].Keys <= b[id].Keys
  }

  lemma {:induction false} UpdateAllGrows(sigs: Sigs, txs: seq<Transaction>, ss: seq<Status>)
    requires |txs| == |ss|
    ensures Grows(sigs, UpdateAll(sigs, txs, ss))
  {
    if txs != [] {
      var n := |txs| - 1;
      UpdateAllGrows(sigs, txs[..n], ss[..n]);
    }
  }

  /** What successful loading says about the signatures before and after. */
  ghost predicate Reserved(sigs: Sigs, after: Sigs, txs: seq<Transaction>, ls: seq<Loaded>, i: nat)
    requires |txs| == |ls| && i < |txs|
  {
    ls[i].Ok? ==>
      txs[i].lastId in sigs && txs[i].lastId in after &&
      txs[i].signature !in sigs[txs[i].lastId] && txs[i].signature in after[txs[i].lastId]
  }

  lemma OneMoreReserved(accounts: Accounts, sigs: Sigs, mid: Sigs, t: Transaction)
    requires t.keys != [] && Grows(sigs, mid)
    ensures var (l, after) := LoadAccount(accounts, mid, t);
      Grows(mid, after) && Grows(sigs, after) &&
      (l.Ok? ==> t.lastId in sigs && t.signature !in mid[t.lastId] && t.signature in after[t.lastId])
  {
  }

  lemma {:induction false} LoadAllReserves(accounts: Accounts, sigs: Sigs, txs: seq<Transaction>)
    requires Payers(txs)
    ensures var (ls, after) := LoadAll(accounts, sigs, txs);
      Grows(sigs, after) &&
      (forall i :: 0 <= i < |txs| ==> Reserved(sigs, after, txs, ls, i)) &&
      (forall i, j :: 0 <= i < j < |txs| && ls[i].Ok? && ls[j].Ok? ==>
        (txs[i].lastId, txs[i].signature) != (txs[j].lastId, txs[j].signature))
  {
    hide LoadAccount;
    if txs != [] {
      var n := |txs| - 1;
      LoadAllReserves(accounts, sigs, txs[..n]);
      var (ls, mid) := LoadAll(accounts, sigs, txs[..n]);
      var (all, after) := LoadAll(accounts, sigs, txs);
      assert all == ls + [LoadAccount(accounts, mid, txs[n]).0];
      OneMoreReserved(accounts, sigs, mid, txs[n]);
      forall i | 0 <= i < n
        ensures Reserved(sigs, after, txs, all, i)
        ensures all[i].Ok? && all[n].Ok? ==> (txs[i].lastId, txs[i].signature) != (txs[n].lastId, txs[n].signature)
      {
        assert Reserved(sigs, mid, txs[..n], ls, i);
      }
      forall i, j | 0 <= i < j < n && all[i].Ok? && all[j].Ok?
        ensures (txs[i].lastId, txs[i].signature) != (txs[j].lastId, txs[j].signature)
      {
        assert txs[..n][i] == txs[i] && txs[..n][j] == txs[j];
      }
    }
  }
}

/** What becomes of a transaction, and what an error says. */
module Outcomes {
  import opened Base
  import opened Processor

  /** An earlier transaction of the batch has taken the same signature under the same id. */
  ghost predicate TakenEarlier(txs: seq<Transaction>, ls: seq<Loaded>, i: nat)
    requires |txs| == |ls| && i < |txs|
  {
    exists j :: 0 <= j < i && ls[j].Ok? && txs[j].lastId == txs[i].lastId && txs[j].signature == txs[i].signature
  }

  /** Known at the start, or taken by one that loaded. */
  ghost predicate Known(sigs: Sigs, txs: seq<Transaction>, ls: seq<Loaded>, n: nat, id: Hash, g: Signature)
    requires n <= |txs| == |ls|
  {
    id in sigs && (g in sigs[id] || exists j :: 0 <= j < n && ls[j].Ok? && txs[j].lastId == id && txs[j].signature == g)
  }

  lemma KnownStep(sigs: Sigs, txs: seq<Transaction>, ls: seq<Loaded>, t: Transaction, l: Loaded, id: Hash, g: Signature)
    requires |txs| == |ls|
    ensures Known(sigs, txs + [t], ls + [l], |txs| + 1, id, g) <==>
      Known(sigs, txs, ls, |txs|, id, g) || (id in sigs && l.Ok? && t.lastId == id && t.signature == g)
  {
    var all, loaded := txs + [t], ls + [l];
    assert all[|txs|] == t && loaded[|txs|] == l && forall j :: 0 <= j < |txs| ==> all[j] == txs[j] && loaded[j] == ls[j];
  }

  lemma LoadOneSignature(accounts: Accounts, mid: Sigs, t: Transaction, id: Hash, g: Signature)
    requires t.keys != []
    ensures var (l, after) := LoadAccount(accounts, mid, t);
      after.Keys == mid.Keys &&
      (id in after && g in after[id] <==> (id in mid && g in mid[id]) || (id in mid && l.Ok? && t.lastId == id && t.signature == g))
  {
  }

  lemma {:induction false} LoadedSignatures(accounts: Accounts, sigs: Sigs, txs: seq<Transaction>, id: Hash, g: Signature)
    requires Payers(txs)
    ensures var (ls, after) := LoadAll(accounts, sigs, txs);
      after.Keys == sigs.Keys && (id in after && g in after[id] <==> Known(sigs, txs, ls, |txs|, id, g))
  {
    hide LoadAccount; hide Known;
    if txs == [] {
      NothingTaken(sigs, id, g);
    } else {
      var n := |txs| - 1;
      LoadedSignatures(accounts, sigs, txs[..n], id, g);
      var (ls, mid) := LoadAll(accounts, sigs, txs[..n]);
      LoadOneSignature(accounts, mid, txs[n], id, g);
      KnownStep(sigs, txs[..n], ls, txs[n], LoadAccount(accounts, mid, txs[n]).0, id, g);
      assert txs[..n] + [txs[n]] == txs;
    }
  }

  lemma NothingTaken(sigs: Sigs, id: Hash, g: Signature)
    ensures Known(sigs, [], [], 0, id, g) <==> id in sigs && g in sigs[id]
  {
  }

  lemma {:induction false} LoadAllAt(accounts: Accounts, sigs: Sigs, txs: seq<Transaction>, i: nat)
    requires Payers(txs) && i < |txs|
    ensures Payers(txs[..i]) && LoadAll(accounts, sigs, txs).0[..i] == LoadAll(accounts, sigs, txs[..i]).0
    ensures LoadAll(accounts, sigs, txs).0[i] == LoadAccount(accounts, LoadAll(accounts, sigs, txs[..i]).1, txs[i]).0
  {
    hide LoadAccount;
    var n := |txs| - 1;
    if i < n {
      LoadAllAt(accounts, sigs, txs[..n], i);
      assert txs[..n][..i] == txs[..i];
    }
  }

  /**
   * Each transaction of a batch loads, from the accounts as they were, or is refused for exactly one
   * reason, tried in this order: its payer is unknown; the payer has less than the fee; its last id
   * is unknown; its signature was seen under that id before the batch, or taken by an earlier one.
   */
  lemma {:induction false} LoadsExactly(accounts: Accounts, sigs: Sigs, txs: seq<Transaction>, i: nat)
    requires Payers(txs) && i < |txs|
    ensures
      var ls, t := LoadAll(accounts, sigs, txs).0, txs[i];
      ls[i] ==
        if t.keys[0] !in accounts then Err(AccountNotFound)
        else if accounts[t.keys[0]].tokens < t.fee then Err(InsufficientFundsForFee)
        else if t.lastId !in sigs then Err(LastIdNotFound)
        else if t.signature in sigs[t.lastId] || TakenEarlier(txs, ls, i) then Err(DuplicateSignature)
        else Ok(Fetch(accounts, t))
  {
    hide LoadAll; hide Fetch;
    var t := txs[i];
    LoadAllAt(accounts, sigs, txs, i);
    LoadedSignatures(accounts, sigs, txs[..i], t.lastId, t.signature);
    var ls, before := LoadAll(accounts, sigs, txs).0, LoadAll(accounts, sigs, txs[..i]).0;
    assert forall j :: 0 <= j < i ==> ls[j] == before[j] && txs[..i][j] == txs[j];
    assert t.lastId in sigs ==>
      (Known(sigs, txs[..i], before, i, t.lastId, t.signature) <==> t.signature in sigs[t.lastId] || TakenEarlier(txs, ls, i));
  }

  /** An account that fails its check, and why. */
  predicate Offends(tx: Transaction, pre: Account, post: Account, e: TxError) {
    match e
    case ModifiedContractId => post.programId != pre.programId && !(tx.programId == pre.programId == SYSTEM_PROGRAM_ID)
    case ExternalAccountTokenSpend => post.tokens < pre.tokens && post.programId != tx.programId
    case ResultWithNegativeTokens => post.tokens < 0
    case _ => false
  }

  lemma {:induction false} VerifyTells(tx: Transaction, pre: seq<Account>, post: seq<Account>, i: nat)
    requires VerifyFrom(tx, pre, post, i).Failed?
    ensures exists j :: i <= j < |pre| && j < |post| && Offends(tx, pre[j], post[j], VerifyFrom(tx, pre, post, i).error)
    decreases |pre| - i
  {
    if VerifyTransaction(tx, pre[i].programId, pre[i].tokens, post[i]).Okay? {
      VerifyTells(tx, pre, post, i + 1);
    } else {
      assert Offends(tx, pre[i], post[i], VerifyFrom(tx, pre, post, i).error);
    }
  }

  /**
   * When a transaction that loaded is refused, the error tells the truth: it is the program's own; or
   * the program ran, and some account shows the offence named, or none does and the tokens do not add up.
   */
  lemma {:induction false} RefusalTells(run: Runtime, tx: Transaction, pre: seq<Account>)
    requires Execute(run, tx, pre).status.Failed?
    ensures run(tx, pre).Fault? ==> Execute(run, tx, pre).status == Failed(run(tx, pre).error)
    ensures run(tx, pre).Done? ==>
      var post, e := run(tx, pre).accounts, Execute(run, tx, pre).status.error;
      (exists j :: 0 <= j < |pre| && j < |post| && Offends(tx, pre[j], post[j], e)) ||
      (e == UnbalancedTransaction && SumTokens(pre) != SumTokens(post) &&
       forall j, e' :: 0 <= j < |pre| && j < |post| ==> !Offends(tx, pre[j], post[j], e'))
  {
    hide SumTokens;
    if run(tx, pre).Done? && VerifyFrom(tx, pre, run(tx, pre).accounts, 0).Failed? {
      VerifyTells(tx, pre, run(tx, pre).accounts, 0);
    }
  }
}

/** No transaction is accepted twice, for as long as the processor runs. */
module AtMostOnce {
  import opened Base
  import opened Processor
  import opened SignatureFacts

  datatype Event = Batch(txs: seq<Transaction>) | NewId(id: Hash)

  type Pair = (Hash, Signature)

  /** The bank, every id ever registered, and every accepted (last id, signature) pair, in order. */
  datatype History = History(bank: Bank, registered: seq<Hash>, accepted: seq<Pair>)

  function Accepted(txs: seq<Transaction>, ss: seq<Status>): seq<Pair>
    requires |txs| == |ss|
  {
    if txs == [] then [] else
    var n := |txs| - 1;
    Accepted(txs[..n], ss[..n]) + if ss[n].Okay? then [(txs[n].lastId, txs[n].signature)] else []
  }

  predicate Admissible(h: History, ev: Event) {
    match ev
    case Batch(txs) => Payers(txs)
    case NewId(id) => id !in h.registered
  }

  function Advance(run: Runtime, h: History, ev: Event): History
    requires Admissible(h, ev)
  {
    match ev
    case Batch(txs) =>
      var (b, ss) := ProcessTransactions(run, h.bank, txs);
      History(b, h.registered, h.accepted + Accepted(txs, ss))
    case NewId(id) => History(Register(h.bank, id), h.registered + [id], h.accepted)
  }

  /** A run from any accounts and no ids; None once an event re-registers an id. */
  function RunFrom(run: Runtime, accounts: Accounts, evs: seq<Event>): Option<History> {
    if evs == [] then Some(History(Bank(accounts, [], map[], 0), [], [])) else
    var n := |evs| - 1;
    match RunFrom(run, accounts, evs[..n])
    case None => None
    case Some(h) => if Admissible(h, evs[n]) then Some(Advance(run, h, evs[n])) else None
  }

  function LastOf(s: seq<Hash>, n: nat): seq<Hash> {
    if |s| <= n then s else s[|s| - n..]
  }

  /** The ring is the most recent ids, and signatures are kept for exactly those. */
  ghost predicate RingInvariant(h: History) {
    && NoDuplicates(h.registered)
    && h.bank.ring == LastOf(h.registered, MAX_ENTRY_IDS)
    && (forall id :: id in h.bank.sigs <==> id in h.bank.ring)
  }

  ghost predicate AcceptedInvariant(h: History) {
    && NoDuplicates(h.accepted)
    && (forall p :: p in h.accepted ==>
          p.0 in h.registered && (p.0 in h.bank.sigs ==> p.1 in h.bank.sigs[p.0]))
  }

  lemma {:induction false} AcceptedFrom(txs: seq<Transaction>, ss: seq<Status>, ls: seq<Loaded>, sigs: Sigs, after: Sigs)
    requires |txs| == |ss| == |ls|
    requires forall i :: 0 <= i < |txs| ==> ss[i].Okay? ==> ls[i].Ok?
    requires forall i :: 0 <= i < |txs| ==> Reserved(sigs, after, txs, ls, i)
    requires forall i, j :: 0 <= i < j < |txs| && ls[i].Ok? && ls[j].Ok? ==>
      (txs[i].lastId, txs[i].signature) != (txs[j].lastId, txs[j].signature)
    ensures NoDuplicates(Accepted(txs, ss))
    ensures forall p :: p in Accepted(txs, ss) ==>
      p.0 in sigs && p.1 !in sigs[p.0] && p.0 in after && p.1 in after[p.0] &&
      exists i :: 0 <= i < |txs| && ls[i].Ok? && p == (txs[i].lastId, txs[i].signature)
  {
    if txs != [] {
      var n := |txs| - 1;
      forall i | 0 <= i < n ensures Reserved(sigs, after, txs[..n], ls[..n], i) {
        assert Reserved(sigs, after, txs, ls, i);
      }
      AcceptedFrom(txs[..n], ss[..n], ls[..n], sigs, after);
      var before := Accepted(txs[..n], ss[..n]);
      forall p | p in before
        ensures exists i :: 0 <= i < n && ls[i].Ok? && p == (txs[i].lastId, txs[i].signature)
      {
        var i :| 0 <= i < n && ls[..n][i].Ok? && p == (txs[..n][i].lastId, txs[..n][i].signature);
        assert ls[i].Ok? && p == (txs[i].lastId, txs[i].signature);
      }
      if ss[n].Okay? {
        assert Reserved(sigs, after, txs, ls, n);
        var last := (txs[n].lastId, txs[n].signature);
        assert ls[n].Ok? && last == (txs[n].lastId, txs[n].signature);
        assert last !in before;
      }
    }
  }

  lemma BatchKeeps(run: Runtime, h: History, txs: seq<Transaction>)
    requires Payers(txs) && RingInvariant(h) && AcceptedInvariant(h)
    ensures var h' := Advance(run, h, Batch(txs)); RingInvariant(h') && AcceptedInvariant(h')
  {
    var b := h.bank;
    var (ls, mid) := LoadAll(b.accounts, b.sigs, txs);
    var (b', ss) := ProcessTransactions(run, b, txs);
    LoadAllReserves(b.accounts, b.sigs, txs);
    UpdateAllGrows(mid, txs, ss);
    AcceptedFrom(txs, ss, ls, b.sigs, mid);
    var added := Accepted(txs, ss);
    assert forall p :: p in added ==> p !in h.accepted && p.0 in h.registered;
  }

  lemma {:induction false} CountsAccepted(txs: seq<Transaction>, ss: seq<Status>)
    requires |txs| == |ss|
    ensures CountOkay(ss) == |Accepted(txs, ss)|
  {
    if txs != [] {
      CountsAccepted(txs[..|txs| - 1], ss[..|txs| - 1]);
    }
  }

  lemma RingSlides(s: seq<Hash>, id: Hash)
    ensures var ring := LastOf(s, MAX_ENTRY_IDS);
      LastOf(s + [id], MAX_ENTRY_IDS) == (if |ring| >= MAX_ENTRY_IDS then ring[1..] else ring) + [id]
  {
  }

  ghost predicate Keyed(b: Bank) {
    NoDuplicates(b.ring) && forall id :: id in b.sigs <==> id in b.ring
  }

  lemma SlideNoDuplicates(ring: seq<Hash>, id: Hash)
    requires NoDuplicates(ring) && id !in ring
    ensures NoDuplicates(ring + [id])
    ensures ring != [] ==> NoDuplicates(ring[1..] + [id]) && ring[0] !in ring[1..]
  {
    if ring != [] {
      var kept := ring[1..] + [id];
      forall i, j | 0 <= i < j < |kept| ensures kept[i] != kept[j] {
        assert kept[i] == ring[i + 1];
      }
    }
  }

  lemma HeadAndRest(ring: seq<Hash>, k: Hash)
    requires ring != []
    ensures k in ring <==> k == ring[0] || k in ring[1..]
  {
    assert ring == [ring[0]] + ring[1..];
  }

  /** Registering a new id forgets at most the oldest and leaves the others' signatures alone. */
  lemma RegisterKeepsOthers(b: Bank, id: Hash)
    requires Keyed(b) && id !in b.ring
    ensures var b' := Register(b, id);
      Keyed(b') && id in b'.sigs && b'.sigs[id] == map[] &&
      forall k :: k in b'.sigs && k != id ==> k in b.sigs && b'.sigs[k] == b.sigs[k]
  {
    hide NoDuplicates;
    SlideNoDuplicates(b.ring, id);
    var b' := Register(b, id);
    forall k ensures k in b'.sigs <==> k in b'.ring {
      if |b.ring| >= MAX_ENTRY_IDS {
        HeadAndRest(b.ring, k);
        HeadAndRest(b.ring, id);
      }
    }
  }

  lemma TailOfRegistered(s: seq<Hash>, n: nat)
    requires NoDuplicates(s)
    ensures NoDuplicates(LastOf(s, n)) && forall k :: k in LastOf(s, n) ==> k in s
  {
  }

  lemma AcceptedSurvive(h: History, b': Bank, id: Hash)
    requires AcceptedInvariant(h) && id !in h.registered
    requires forall k :: k in b'.sigs && k != id ==> k in h.bank.sigs && b'.sigs[k] == h.bank.sigs[k]
    ensures AcceptedInvariant(History(b', h.registered + [id], h.accepted))
  {
    hide NoDuplicates;
  }

  lemma NewIdKeeps(run: Runtime, h: History, id: Hash)
    requires id !in h.registered && RingInvariant(h) && AcceptedInvariant(h)
    ensures var h' := Advance(run, h, NewId(id)); RingInvariant(h') && AcceptedInvariant(h')
  {
    hide NoDuplicates; hide AcceptedInvariant; hide Register; hide LastOf;
    TailOfRegistered(h.registered, MAX_ENTRY_IDS);
    SlideNoDuplicates(h.registered, id);
    RegisterKeepsOthers(h.bank, id);
    RingSlides(h.registered, id);
    RegisteredRing(h.bank, id);
    AcceptedSurvive(h, Register(h.bank, id), id);
  }

  lemma RegisteredRing(b: Bank, id: Hash)
    ensures Register(b, id).ring == (if |b.ring| >= MAX_ENTRY_IDS then b.ring[1..] else b.ring) + [id]
    ensures Register(b, id).accounts == b.accounts
  {
  }

  /**
   * Over every run in which no id is registered twice: the ring is the last MAX_ENTRY_IDS ids,
   * signatures are kept under exactly those, no (last id, signature) pair is ever accepted twice,
   * even long after its id has left the ring, and the processor's count is the number accepted.
   */
  lemma {:induction false} AcceptedAtMostOnce(run: Runtime, accounts: Accounts, evs: seq<Event>)
    requires RunFrom(run, accounts, evs).Some?
    ensures RingInvariant(RunFrom(run, accounts, evs).value)
    ensures AcceptedInvariant(RunFrom(run, accounts, evs).value)
    ensures RunFrom(run, accounts, evs).value.bank.count == |RunFrom(run, accounts, evs).value.accepted|
    ensures var h := RunFrom(run, accounts, evs).value; |h.bank.ring| == Min(|h.registered|, 16384)
  {
    if evs != [] {
      var n := |evs| - 1;
      AcceptedAtMostOnce(run, accounts, evs[..n]);
      var h := RunFrom(run, accounts, evs[..n]).value;
      match evs[n]
      case Batch(txs) => BatchKeeps(run, h, txs); CountsAccepted(txs, ProcessTransactions(run, h.bank, txs).1);
      case NewId(id) => NewIdKeeps(run, h, id);
    }
  }
}

/** A batch of transactions on separate accounts does what they would do one after the other. */
module Batches {
  import opened Base
  import opened Processor
  import opened SignatureFacts

  function OneByOne(run: Runtime, b: Bank, txs: seq<Transaction>): (Bank, seq<Status>)
    requires Payers(txs)
  {
    if txs == [] then (b, []) else
    var n := |txs| - 1;
    var (b', ss) := OneByOne(run, b, txs[..n]);
    var (b'', s) := ProcessTransactions(run, b', [txs[n]]);
    (b'', ss + s)
  }

  ghost predicate Disjoint(txs: seq<Transaction>) {
    forall i, j :: 0 <= i < j < |txs| ==> forall k :: !(k in txs[i].keys && k in txs[j].keys)
  }

  ghost predicate DistinctSignatures(txs: seq<Transaction>) {
    forall i, j :: 0 <= i < j < |txs| ==>
      txs[i].lastId != txs[j].lastId || txs[i].signature != txs[j].signature
  }

  /** Storing touches only the transaction's own keys. */
  lemma {:induction false} PutAllFrame(accounts: Accounts, keys: seq<Pubkey>, accs: seq<Account>, n: nat, k: Pubkey)
    requires n <= |keys| && n <= |accs| && k !in keys
    ensures k in PutAll(accounts, keys, accs, n) <==> k in accounts
    ensures Get(PutAll(accounts, keys, accs, n), k) == Get(accounts, k)
  {
    if n > 0 {
      PutAllFrame(accounts, keys, accs, n - 1, k);
    }
  }

  lemma {:induction false} StoreAllFrame(accounts: Accounts, txs: seq<Transaction>, xs: seq<Executed>, k: Pubkey)
    requires |txs| == |xs| && forall i :: 0 <= i < |txs| ==> k !in txs[i].keys
    ensures k in StoreAll(accounts, txs, xs) <==> k in accounts
    ensures Get(StoreAll(accounts, txs, xs), k) == Get(accounts, k)
  {
    if txs != [] {
      var n := |txs| - 1;
      StoreAllFrame(accounts, txs[..n], xs[..n], k);
      if xs[n].status.Okay? {
        PutAllFrame(StoreAll(accounts, txs[..n], xs[..n]), txs[n].keys, xs[n].accounts,
          Min(|txs[n].keys|, |xs[n].accounts|), k);
      }
    }
  }

  lemma UpdatesCommute(u: Sigs, t: Transaction, s: Status, t': Transaction, s': Status)
    requires t.lastId != t'.lastId || t.signature != t'.signature
    ensures UpdateStatus(UpdateStatus(u, t, s), t', s') == UpdateStatus(UpdateStatus(u, t', s'), t, s)
  {
    if t.lastId == t'.lastId && t.lastId in u {
      var m := u[t.lastId];
      assert m[t.signature := s][t'.signature := s'] == m[t'.signature := s'][t.signature := s];
    }
  }

  lemma UpdateTwice(u: Sigs, t: Transaction, s: Status, s': Status)
    ensures UpdateStatus(UpdateStatus(u, t, s), t, s') == UpdateStatus(u, t, s')
  {
    if t.lastId in u {
      var m := u[t.lastId];
      assert m[t.signature := s][t.signature := s'] == m[t.signature := s'];
    }
  }

  /** Recording the statuses of other transactions commutes with marking this one. */
  lemma {:induction false} UpdateAllCommutes(sigs: Sigs, txs: seq<Transaction>, ss: seq<Status>, t: Transaction, s: Status)
    requires |txs| == |ss| && DistinctSignatures(txs + [t])
    ensures UpdateAll(UpdateStatus(sigs, t, s), txs, ss) == UpdateStatus(UpdateAll(sigs, txs, ss), t, s)
  {
    if txs != [] {
      var n := |txs| - 1;
      DistinctDrop(txs, t, n);
      UpdateAllCommutes(sigs, txs[..n], ss[..n], t, s);
      var u := UpdateAll(sigs, txs[..n], ss[..n]);
      assert (txs + [t])[n] == txs[n] && (txs + [t])[n + 1] == t;
      UpdatesCommute(u, t, s, txs[n], ss[n]);
    }
  }

  lemma DistinctDrop(txs: seq<Transaction>, t: Transaction, n: nat)
    requires n <= |txs| && DistinctSignatures(txs + [t])
    ensures DistinctSignatures(txs[..n] + [t])
  {
    var all, some := txs + [t], txs[..n] + [t];
    forall i, j | 0 <= i < j < |some|
      ensures some[i].lastId != some[j].lastId || some[i].signature != some[j].signature
    {
      assert some[i] == all[i] && some[j] == all[if j == n then |txs| else j];
    }
  }

  /** After recording the others, whether `t` can still be reserved is unchanged. */
  lemma {:induction false} UpdateAllElsewhere(sigs: Sigs, txs: seq<Transaction>, ss: seq<Status>, t: Transaction)
    requires |txs| == |ss| && DistinctSignatures(txs + [t])
    ensures t.lastId in UpdateAll(sigs, txs, ss) <==> t.lastId in sigs
    ensures t.lastId in sigs ==>
      (t.signature in UpdateAll(sigs, txs, ss)[t.lastId] <==> t.signature in sigs[t.lastId])
  {
    if txs != [] {
      var n := |txs| - 1;
      DistinctDrop(txs, t, n);
      UpdateAllElsewhere(sigs, txs[..n], ss[..n], t);
      assert (txs + [t])[n] == txs[n] && (txs + [t])[n + 1] == t;
    }
  }

  /** The last transaction loads the same from the batch's start as after the others have run. */
  lemma {:induction false} LastLoadsTheSame(b: Bank, mid: Sigs, txs: seq<Transaction>, xs: seq<Executed>, ss: seq<Status>, t: Transaction)
    requires |txs| == |xs| == |ss| && t.keys != []
    requires Disjoint(txs + [t]) && DistinctSignatures(txs + [t])
    ensures LoadAccount(StoreAll(b.accounts, txs, xs), UpdateAll(mid, txs, ss), t).0 == LoadAccount(b.accounts, mid, t).0
  {
    var stored := StoreAll(b.accounts, txs, xs);
    forall k | k in t.keys ensures (k in stored <==> k in b.accounts) && Get(stored, k) == Get(b.accounts, k) {
      forall i | 0 <= i < |txs| ensures k !in txs[i].keys {
        assert (txs + [t])[i] == txs[i] && (txs + [t])[|txs|] == t;
      }
      StoreAllFrame(b.accounts, txs, xs, k);
    }
    assert Get(stored, t.keys[0]) == Get(b.accounts, t.keys[0]);
    assert Fetch(stored, t) == Fetch(b.accounts, t);
    UpdateAllElsewhere(mid, txs, ss, t);
  }

  lemma LoadMarks(accounts: Accounts, sigs: Sigs, t: Transaction)
    requires t.keys != []
    ensures var (l, after) := LoadAccount(accounts, sigs, t);
      after == if l.Ok? then UpdateStatus(sigs, t, Okay) else sigs
  {
  }

  lemma {:induction false} LastStatusesAgree(b: Bank, mid: Sigs, txs: seq<Transaction>, ss: seq<Status>, t: Transaction, s: Status, stored: Accounts)
    requires |txs| == |ss| && t.keys != [] && DistinctSignatures(txs + [t])
    requires LoadAccount(stored, UpdateAll(mid, txs, ss), t).0 == LoadAccount(b.accounts, mid, t).0
    ensures UpdateStatus(UpdateAll(LoadAccount(b.accounts, mid, t).1, txs, ss), t, s) ==
      UpdateStatus(LoadAccount(stored, UpdateAll(mid, txs, ss), t).1, t, s)
  {
    hide UpdateAll; hide UpdateStatus; hide Fetch;
    var u := UpdateAll(mid, txs, ss);
    LoadMarks(b.accounts, mid, t);
    LoadMarks(stored, u, t);
    UpdateAllCommutes(mid, txs, ss, t, Okay);
    UpdateTwice(u, t, Okay, s);
  }

  /**
   * Load-all, execute-all, store-all on separate accounts ends in exactly the bank that processing
   * one at a time ends in, with the same results.
   */
  lemma {:induction false} BatchEqualsSequence(run: Runtime, b: Bank, txs: seq<Transaction>)
    requires Payers(txs) && Disjoint(txs) && DistinctSignatures(txs)
    ensures ProcessTransactions(run, b, txs) == OneByOne(run, b, txs)
  {
    if txs != [] {
      var n := |txs| - 1;
      var init, t := txs[..n], txs[n];
      assert txs == init + [t];
      BatchEqualsSequence(run, b, init);
      LastStep(run, b, init, t);
    }
  }

  lemma {:induction false} LoadAllAppend(accounts: Accounts, sigs: Sigs, txs: seq<Transaction>, t: Transaction)
    requires Payers(txs) && t.keys != []
    ensures
      var (ls, mid) := LoadAll(accounts, sigs, txs);
      var (l, after) := LoadAccount(accounts, mid, t);
      Payers(txs + [t]) && LoadAll(accounts, sigs, txs + [t]) == (ls + [l], after)
  {
    assert (txs + [t])[..|txs|] == txs;
  }

  lemma {:induction false} ResultsAppend(run: Runtime, b: Bank, txs: seq<Transaction>, t: Transaction)
    requires Payers(txs) && t.keys != []
    ensures
      var xs := Results(run, b, txs);
      var x := ExecuteLoaded(run, t, LoadAccount(b.accounts, LoadAll(b.accounts, b.sigs, txs).1, t).0);
      Payers(txs + [t]) && Results(run, b, txs + [t]) == xs + [x] &&
      Statuses(xs + [x]) == Statuses(xs) + [x.status]
  {
    hide LoadAll; hide ExecuteLoaded;
    LoadAllAppend(b.accounts, b.sigs, txs, t);
  }

  lemma {:induction false} StoreAllAppend(accounts: Accounts, txs: seq<Transaction>, xs: seq<Executed>, t: Transaction, x: Executed)
    requires |txs| == |xs|
    ensures StoreAll(accounts, txs + [t], xs + [x]) == StoreOne(StoreAll(accounts, txs, xs), t, x)
  {
    assert (txs + [t])[..|txs|] == txs && (xs + [x])[..|xs|] == xs;
  }

  lemma {:induction false} UpdateAllAppend(sigs: Sigs, txs: seq<Transaction>, ss: seq<Status>, t: Transaction, s: Status)
    requires |txs| == |ss|
    ensures UpdateAll(sigs, txs + [t], ss + [s]) == UpdateStatus(UpdateAll(sigs, txs, ss), t, s)
    ensures CountOkay(ss + [s]) == CountOkay(ss) + if s.Okay? then 1 else 0
  {
    assert (txs + [t])[..|txs|] == txs && (ss + [s])[..|ss|] == ss;
  }

  /** A batch with one more transaction at the end. */
  lemma {:induction false} BatchAppend(run: Runtime, b: Bank, txs: seq<Transaction>, t: Transaction)
    requires Payers(txs) && t.keys != []
    ensures
      var xs := Results(run, b, txs);
      var (l, sigs) := LoadAccount(b.accounts, LoadAll(b.accounts, b.sigs, txs).1, t);
      var x := ExecuteLoaded(run, t, l);
      Payers(txs + [t]) && ProcessTransactions(run, b, txs + [t]) ==
        (Bank(StoreOne(StoreAll(b.accounts, txs, xs), t, x), b.ring,
              UpdateStatus(UpdateAll(sigs, txs, Statuses(xs)), t, x.status),
              b.count + CountOkay(Statuses(xs)) + if x.status.Okay? then 1 else 0), Statuses(xs) + [x.status])
  {
    hide LoadAll; hide Results; hide Statuses; hide StoreAll; hide UpdateAll; hide CountOkay; hide ExecuteLoaded;
    hide LoadAccount; hide StoreOne; hide UpdateStatus;
    var (l, sigs) := LoadAccount(b.accounts, LoadAll(b.accounts, b.sigs, txs).1, t);
    var x := ExecuteLoaded(run, t, l);
    LoadAllAppend(b.accounts, b.sigs, txs, t);
    ResultsAppend(run, b, txs, t);
    StoreAllAppend(b.accounts, txs, Results(run, b, txs), t, x);
    UpdateAllAppend(sigs, txs, Statuses(Results(run, b, txs)), t, x.status);
  }

  /** A batch of one. */
  lemma SingleBatch(run: Runtime, b: Bank, t: Transaction)
    requires t.keys != []
    ensures
      var (l, sigs) := LoadAccount(b.accounts, b.sigs, t);
      var x := ExecuteLoaded(run, t, l);
      ProcessTransactions(run, b, [t]) ==
        (Bank(StoreOne(b.accounts, t, x), b.ring, UpdateStatus(sigs, t, x.status),
              b.count + if x.status.Okay? then 1 else 0), [x.status])
  {
    hide ExecuteLoaded; hide LoadAccount; hide StoreOne; hide UpdateStatus; hide ProcessTransactions;
    BatchAppend(run, b, [], t);
    assert [] + [t] == [t];
    EmptyBatch(run, b);
    var x := ExecuteLoaded(run, t, LoadAccount(b.accounts, b.sigs, t).0);
    assert [] + [x.status] == [x.status];
  }

  /** A known payer with the fee, a known id, an unseen signature. */
  predicate Loadable(b: Bank, tx: Transaction)
    requires tx.keys != []
  {
    tx.keys[0] in b.accounts && tx.fee <= b.accounts[tx.keys[0]].tokens &&
    tx.lastId in b.sigs && tx.signature !in b.sigs[tx.lastId]
  }

  /** What becomes of one transaction: accepted when it loads and executes, else without effect on accounts. */
  lemma SingleOutcome(run: Runtime, b: Bank, tx: Transaction)
    requires tx.keys != []
    ensures
      var (b', ss) := ProcessTransactions(run, b, [tx]);
      var x := Execute(run, tx, Fetch(b.accounts, tx));
      |ss| == 1 && (ss[0].Okay? <==> Loadable(b, tx) && x.status.Okay?) &&
      b'.accounts == if ss[0].Okay? then StoreOne(b.accounts, tx, x) else b.accounts
  {
    hide ProcessTransactions; hide Execute; hide PutAll; hide Fetch;
    SingleBatch(run, b, tx);
  }

  lemma EmptyBatch(run: Runtime, b: Bank)
    ensures Results(run, b, []) == [] && Statuses([]) == [] && CountOkay([]) == 0
    ensures LoadAll(b.accounts, b.sigs, []) == ([], b.sigs)
    ensures StoreAll(b.accounts, [], []) == b.accounts
    ensures forall sigs: Sigs :: UpdateAll(sigs, [], []) == sigs
  {
  }

  lemma LastStep(run: Runtime, b: Bank, txs: seq<Transaction>, t: Transaction)
    requires Payers(txs) && t.keys != [] && Disjoint(txs + [t]) && DistinctSignatures(txs + [t])
    ensures
      var (b', ss) := ProcessTransactions(run, b, txs);
      var (b'', s) := ProcessTransactions(run, b', [t]);
      ProcessTransactions(run, b, txs + [t]) == (b'', ss + s)
  {
    hide ProcessTransactions; hide StoreAll; hide UpdateAll; hide LoadAll; hide Statuses; hide CountOkay;
    BatchAppend(run, b, txs, t);
    var xs := Results(run, b, txs);
    var (ls, mid) := LoadAll(b.accounts, b.sigs, txs);
    var ss := Statuses(xs);
    BatchParts(run, b, txs);
    var b' := ProcessTransactions(run, b, txs).0;
    SingleBatch(run, b', t);
    LastLoadsTheSame(b, mid, txs, xs, ss, t);
    var l := LoadAccount(b.accounts, mid, t).0;
    LastStatusesAgree(b, mid, txs, ss, t, ExecuteLoaded(run, t, l).status, b'.accounts);
  }

  lemma {:induction false} BatchParts(run: Runtime, b: Bank, txs: seq<Transaction>)
    requires Payers(txs)
    ensures
      var xs := Results(run, b, txs);
      var ss := Statuses(xs);
      ProcessTransactions(run, b, txs) ==
        (Bank(StoreAll(b.accounts, txs, xs), b.ring, UpdateAll(LoadAll(b.accounts, b.sigs, txs).1, txs, ss),
              b.count + CountOkay(ss)), ss)
  {
  }

  // ---- What the status map says afterwards -------------------------------------------------------

  lemma {:induction false} UpdateAllRecords(sigs: Sigs, txs: seq<Transaction>, ss: seq<Status>, i: nat)
    requires |txs| == |ss| && i < |txs| && DistinctSignatures(txs) && txs[i].lastId in sigs
    ensures var u := UpdateAll(sigs, txs, ss);
      u.Keys == sigs.Keys && txs[i].signature in u[txs[i].lastId] && u[txs[i].lastId][txs[i].signature] == ss[i]
  {
    var n := |txs| - 1;
    UpdateAllGrows(sigs, txs, ss);
    UpdateAllGrows(sigs, txs[..n], ss[..n]);
    if i < n {
      assert DistinctSignatures(txs[..n]);
      UpdateAllRecords(sigs, txs[..n], ss[..n], i);
    }
  }

  /** Whoever asks for a signature's status after its batch learns that transaction's own result. */
  lemma StatusIsRecorded(run: Runtime, b: Bank, txs: seq<Transaction>, i: nat)
    requires Payers(txs) && DistinctSignatures(txs) && i < |txs| && txs[i].lastId in b.sigs
    ensures var (b', ss) := ProcessTransactions(run, b, txs);
      txs[i].lastId in b'.sigs && txs[i].signature in b'.sigs[txs[i].lastId] &&
      b'.sigs[txs[i].lastId][txs[i].signature] == ss[i]
  {
    hide LoadAll; hide UpdateAll; hide StoreAll; hide Results;
    LoadAllReserves(b.accounts, b.sigs, txs);
    UpdateAllRecords(LoadAll(b.accounts, b.sigs, txs).1, txs, Statuses(Results(run, b, txs)), i);
  }
}
