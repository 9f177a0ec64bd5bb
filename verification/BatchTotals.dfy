/**
 * A batch against its transactions one at a time. All are loaded from the accounts as they were
 * before the batch, so each account ends as the last accepted transaction that lists it would leave it.
 */
module BatchAccounts {
  import opened Base
  import opened Processor
  import opened SignatureFacts
  import opened Batches
  import opened Tokens

  // ---- A batch, one transaction at a time ----------------------------------------------------------

  lemma {:induction false} LoadedCanPay(accounts: Accounts, sigs: Sigs, txs: seq<Transaction>, i: nat)
    requires Payers(txs) && i < |txs| && LoadAll(accounts, sigs, txs).0[i].Ok?
    ensures txs[i].keys[0] in accounts && txs[i].fee <= accounts[txs[i].keys[0]].tokens
  {
    var n := |txs| - 1;
    if i < n {
      LoadedCanPay(accounts, sigs, txs[..n], i);
    }
  }

  /** What a batch accepts it would accept by itself, with the same result. */
  lemma AcceptedAlone(run: Runtime, b: Bank, txs: seq<Transaction>, i: nat)
    requires Payers(txs) && i < |txs| && ProcessTransactions(run, b, txs).1[i].Okay?
    ensures Loadable(b, txs[i]) && Results(run, b, txs)[i] == Execute(run, txs[i], Fetch(b.accounts, txs[i]))
    ensures
      var (b', ss) := ProcessTransactions(run, b, [txs[i]]);
      ss == [Okay] && b'.accounts == StoreOne(b.accounts, txs[i], Results(run, b, txs)[i])
  {
    hide LoadAll; hide Execute; hide StoreAll; hide UpdateAll; hide StoreOne;
    var (ls, after) := LoadAll(b.accounts, b.sigs, txs);
    assert ls[i].Ok?;
    LoadedAreFetched(b.accounts, b.sigs, txs, i);
    LoadedCanPay(b.accounts, b.sigs, txs, i);
    LoadAllReserves(b.accounts, b.sigs, txs);
    assert Reserved(b.sigs, after, txs, ls, i);
    hide ProcessTransactions;
    SingleOutcome(run, b, txs[i]);
  }

  /** Among the first `n`, the last accepted transaction that lists `k`. */
  function LastLister(txs: seq<Transaction>, ss: seq<Status>, k: Pubkey, n: nat): (r: Option<nat>)
    requires n <= |txs| == |ss|
    ensures r.Some? ==> r.value < n && ss[r.value].Okay? && k in txs[r.value].keys
    ensures forall i :: 0 <= i < n && ss[i].Okay? && k in txs[i].keys ==> r.Some? && i <= r.value
  {
    if n == 0 then None
    else if ss[n - 1].Okay? && k in txs[n - 1].keys then Some(n - 1)
    else LastLister(txs, ss, k, n - 1)
  }

  lemma SameWrite(m: Accounts, m': Accounts, tx: Transaction, x: Executed, k: Pubkey)
    requires x.status.Okay? && |x.accounts| == |tx.keys| && k in tx.keys
    ensures Get(StoreOne(m, tx, x), k) == Get(StoreOne(m', tx, x), k)
  {
    hide PutAll;
    var j := LastPosition(tx.keys, k);
    PutAllLast(m, tx.keys, x.accounts, |tx.keys|, j);
    PutAllLast(m', tx.keys, x.accounts, |tx.keys|, j);
  }

  lemma NoWrite(m: Accounts, tx: Transaction, x: Executed, k: Pubkey)
    requires x.status.Failed? || k !in tx.keys
    ensures Get(StoreOne(m, tx, x), k) == Get(m, k)
  {
    if x.status.Okay? {
      PutAllFrame(m, tx.keys, x.accounts, Min(|tx.keys|, |x.accounts|), k);
    }
  }

  lemma {:induction false} StoredByLast(m: Accounts, txs: seq<Transaction>, xs: seq<Executed>, k: Pubkey, n: nat)
    requires n <= |txs| == |xs|
    requires forall i :: 0 <= i < |xs| && xs[i].status.Okay? ==> |xs[i].accounts| == |txs[i].keys|
    ensures Get(StoreAll(m, txs[..n], xs[..n]), k) ==
      match LastLister(txs, Statuses(xs), k, n)
      case None => Get(m, k)
      case Some(i) => Get(StoreOne(m, txs[i], xs[i]), k)
  {
    hide StoreOne; hide Get;
    if n == 0 {
      assert txs[..0] == [] && xs[..0] == [];
    } else {
      StoredByLast(m, txs, xs, k, n - 1);
      assert txs[..n][..n - 1] == txs[..n - 1] && xs[..n][..n - 1] == xs[..n - 1];
      var before := StoreAll(m, txs[..n - 1], xs[..n - 1]);
      if xs[n - 1].status.Okay? && k in txs[n - 1].keys {
        SameWrite(before, m, txs[n - 1], xs[n - 1], k);
      } else {
        NoWrite(before, txs[n - 1], xs[n - 1], k);
      }
    }
  }

  /** After a batch each account is as the last accepted transaction listing it would leave it alone. */
  lemma {:induction false} BatchAccount(run: Runtime, b: Bank, txs: seq<Transaction>, k: Pubkey)
    requires KeepsSlice(run) && Payers(txs)
    ensures var (b', ss) := ProcessTransactions(run, b, txs);
      Get(b'.accounts, k) ==
        match LastLister(txs, ss, k, |txs|)
        case None => Get(b.accounts, k)
        case Some(i) => Get(ProcessTransactions(run, b, [txs[i]]).0.accounts, k)
  {
    hide StoreAll; hide Results; hide UpdateAll; hide LoadAll; hide Get; hide LastLister; hide VerifyTransaction;
    var xs := Results(run, b, txs);
    BatchParts(run, b, txs);
    hide ProcessTransactions;
    assert txs[..|txs|] == txs && xs[..|txs|] == xs;
    forall i | 0 <= i < |xs| && xs[i].status.Okay? ensures |xs[i].accounts| == |txs[i].keys| {
      AcceptedAccounts(run, b, txs, i);
    }
    StoredByLast(b.accounts, txs, xs, k, |txs|);
    var last := LastLister(txs, Statuses(xs), k, |txs|);
    if last.Some? {
      AcceptedAlone(run, b, txs, last.value);
    }
  }

  // ---- What is accepted alone is accepted in a batch ------------------------------------------------

  ghost predicate SamePair(t: Transaction, t': Transaction) {
    t.lastId == t'.lastId && t.signature == t'.signature
  }

  /** Loading others does not spend `t`'s signature. */
  lemma {:induction false} StaysUnspent(accounts: Accounts, sigs: Sigs, txs: seq<Transaction>, t: Transaction)
    requires Payers(txs) && forall i :: 0 <= i < |txs| ==> !SamePair(txs[i], t)
    requires t.lastId in sigs && t.signature !in sigs[t.lastId]
    ensures var after := LoadAll(accounts, sigs, txs).1; t.lastId in after && t.signature !in after[t.lastId]
  {
    if txs != [] {
      var n := |txs| - 1;
      StaysUnspent(accounts, sigs, txs[..n], t);
      assert !SamePair(txs[n], t);
    }
  }

  lemma {:induction false} LoadsInBatch(accounts: Accounts, sigs: Sigs, txs: seq<Transaction>, i: nat)
    requires Payers(txs) && i < |txs| && forall j :: 0 <= j < i ==> !SamePair(txs[j], txs[i])
    requires var t := txs[i];
      t.keys[0] in accounts && t.fee <= accounts[t.keys[0]].tokens && t.lastId in sigs && t.signature !in sigs[t.lastId]
    ensures LoadAll(accounts, sigs, txs).0[i] == Ok(Fetch(accounts, txs[i]))
  {
    hide Fetch;
    var n := |txs| - 1;
    if i < n {
      LoadsInBatch(accounts, sigs, txs[..n], i);
    } else {
      StaysUnspent(accounts, sigs, txs[..n], txs[n]);
    }
  }

  lemma AcceptedInBatch(run: Runtime, b: Bank, txs: seq<Transaction>, i: nat)
    requires Payers(txs) && DistinctSignatures(txs) && i < |txs| && ProcessTransactions(run, b, [txs[i]]).1 == [Okay]
    ensures ProcessTransactions(run, b, txs).1[i].Okay?
  {
    hide LoadAll; hide Execute; hide StoreAll; hide UpdateAll; hide Fetch; hide ProcessTransactions;
    SingleOutcome(run, b, txs[i]);
    LoadsInBatch(b.accounts, b.sigs, txs, i);
    BatchParts(run, b, txs);
  }

  // ---- Banks in which only one or two of a batch can be loaded --------------------------------------

  function LastIds(txs: seq<Transaction>): set<Hash> {
    set m | 0 <= m < |txs| :: txs[m].lastId
  }

  function OtherSignatures(txs: seq<Transaction>, i: nat, j: nat, id: Hash): set<Signature> {
    set m | 0 <= m < |txs| && m != i && m != j && txs[m].lastId == id :: txs[m].signature
  }

  /** Every signature of the batch but those two has been seen. */
  ghost function SpentBut(txs: seq<Transaction>, i: nat, j: nat): Sigs {
    map id | id in LastIds(txs) :: map s | s in OtherSignatures(txs, i, j, id) :: Okay
  }

  lemma SpentExactly(txs: seq<Transaction>, i: nat, j: nat, m: nat)
    requires DistinctSignatures(txs) && i < |txs| && j < |txs| && m < |txs|
    ensures var sigs := SpentBut(txs, i, j);
      txs[m].lastId in sigs && (txs[m].signature in sigs[txs[m].lastId] <==> m != i && m != j)
  {
    if m == i || m == j {
      forall n | 0 <= n < |txs| && n != i && n != j ensures txs[n].lastId != txs[m].lastId || txs[n].signature != txs[m].signature {
        assert n != m;
      }
    }
  }
}

/** What a whole batch does to the total of all balances, and when that is just its fees. */
module BatchTotals {
  import opened Base
  import opened Processor
  import opened Batches
  import opened Tokens
  import opened Programs
  import opened Transfers
  import opened BatchAccounts

  // ---- The exact change of the total ---------------------------------------------------------------

  predicate Lists(txs: seq<Transaction>, ss: seq<Status>, i: nat, k: Pubkey)
    requires |txs| == |ss|
  {
    exists j :: i <= j < |txs| && ss[j].Okay? && k in txs[j].keys
  }

  /** What `i` wrote at position `p` is not written over, by itself or by a later one that was accepted. */
  predicate Lasts(txs: seq<Transaction>, ss: seq<Status>, i: nat, p: nat)
    requires i < |txs| == |ss| && p < |txs[i].keys|
  {
    txs[i].keys[p] !in txs[i].keys[p + 1..] && !Lists(txs, ss, i + 1, txs[i].keys[p])
  }

  function Gain(m: Accounts, txs: seq<Transaction>, xs: seq<Executed>, i: nat, p: nat): int
    requires i < |txs| == |xs| && p < |txs[i].keys| == |xs[i].accounts|
  {
    if Lasts(txs, Statuses(xs), i, p) then xs[i].accounts[p].tokens - Balance(m, txs[i].keys[p]) else 0
  }

  /** What the first `n` positions of `i` add to the total. */
  function Gains(m: Accounts, txs: seq<Transaction>, xs: seq<Executed>, i: nat, n: nat): int
    requires i < |txs| == |xs| && n <= |txs[i].keys| == |xs[i].accounts|
  {
    if n == 0 then 0 else Gains(m, txs, xs, i, n - 1) + Gain(m, txs, xs, i, n - 1)
  }

  ghost predicate Whole(txs: seq<Transaction>, xs: seq<Executed>) {
    |txs| == |xs| && forall i :: 0 <= i < |xs| && xs[i].status.Okay? ==> |xs[i].accounts| == |txs[i].keys|
  }

  /** What the first `n` transactions add. */
  ghost function Change(m: Accounts, txs: seq<Transaction>, xs: seq<Executed>, n: nat): int
    requires Whole(txs, xs) && n <= |txs|
  {
    if n == 0 then 0
    else Change(m, txs, xs, n - 1) + if xs[n - 1].status.Okay? then Gains(m, txs, xs, n - 1, |txs[n - 1].keys|) else 0
  }

  lemma {:induction false} StoreFront(m: Accounts, txs: seq<Transaction>, xs: seq<Executed>)
    requires |txs| == |xs| > 0
    ensures StoreAll(m, txs, xs) == StoreAll(StoreOne(m, txs[0], xs[0]), txs[1..], xs[1..])
  {
    hide StoreOne;
    var n := |txs| - 1;
    if n > 0 {
      StoreFront(m, txs[..n], xs[..n]);
      assert txs[..n][1..] == txs[1..][..n - 1] && xs[..n][1..] == xs[1..][..n - 1];
    } else {
      assert txs[..0] == [] && xs[..0] == [] && txs[1..] == [] && xs[1..] == [];
    }
  }

  /** A key that a stored transaction lists does not depend on what was there before; another is left alone. */
  lemma {:induction false} StoredOver(m: Accounts, m': Accounts, txs: seq<Transaction>, xs: seq<Executed>, k: Pubkey)
    requires Whole(txs, xs)
    ensures if Lists(txs, Statuses(xs), 0, k)
      then Get(StoreAll(m, txs, xs), k) == Get(StoreAll(m', txs, xs), k)
      else Get(StoreAll(m, txs, xs), k) == Get(m, k)
  {
    hide StoreAll; hide StoreOne; hide Get; hide LastLister;
    assert txs[..|txs|] == txs && xs[..|txs|] == xs;
    StoredByLast(m, txs, xs, k, |txs|);
    StoredByLast(m', txs, xs, k, |txs|);
    var last := LastLister(txs, Statuses(xs), k, |txs|);
    if last.Some? {
      SameWrite(m, m', txs[last.value], xs[last.value], k);
    }
  }

  lemma ListsFrom(txs: seq<Transaction>, ss: seq<Status>, i: nat, k: Pubkey)
    requires |txs| == |ss| && i <= |txs|
    ensures Lists(txs, ss, i, k) <==> Lists(txs[i..], ss[i..], 0, k)
  {
    if Lists(txs, ss, i, k) {
      var j :| i <= j < |txs| && ss[j].Okay? && k in txs[j].keys;
      assert txs[i..][j - i] == txs[j] && ss[i..][j - i] == ss[j];
    }
  }

  /** The lasting writes of `i`, over the accounts as the later transactions leave them. */
  ghost function Patched(base: Accounts, txs: seq<Transaction>, xs: seq<Executed>, i: nat, n: nat): Accounts
    requires i < |txs| == |xs| && n <= |txs[i].keys| == |xs[i].accounts|
  {
    if n == 0 then base
    else if Lasts(txs, Statuses(xs), i, n - 1)
      then Put(Patched(base, txs, xs, i, n - 1), txs[i].keys[n - 1], xs[i].accounts[n - 1])
      else Patched(base, txs, xs, i, n - 1)
  }

  lemma {:induction false} PatchedElsewhere(base: Accounts, txs: seq<Transaction>, xs: seq<Executed>, i: nat, n: nat, k: Pubkey)
    requires i < |txs| == |xs| && n <= |txs[i].keys| == |xs[i].accounts|
    requires forall p :: 0 <= p < n && Lasts(txs, Statuses(xs), i, p) ==> txs[i].keys[p] != k
    ensures Get(Patched(base, txs, xs, i, n), k) == Get(base, k)
  {
    hide Lasts;
    if n > 0 {
      PatchedElsewhere(base, txs, xs, i, n - 1, k);
    }
  }

  lemma {:induction false} PatchedTotal(m: Accounts, base: Accounts, txs: seq<Transaction>, xs: seq<Executed>, i: nat, n: nat)
    requires i < |txs| == |xs| && n <= |txs[i].keys| == |xs[i].accounts|
    requires forall p :: 0 <= p < |txs[i].keys| && Lasts(txs, Statuses(xs), i, p) ==>
      Balance(base, txs[i].keys[p]) == Balance(m, txs[i].keys[p])
    ensures Total(Patched(base, txs, xs, i, n)) == Total(base) + Gains(m, txs, xs, i, n)
  {
    hide Total; hide Put;
    if n > 0 {
      PatchedTotal(m, base, txs, xs, i, n - 1);
      if Lasts(txs, Statuses(xs), i, n - 1) {
        var before, k := Patched(base, txs, xs, i, n - 1), txs[i].keys[n - 1];
        TotalPut(before, k, xs[i].accounts[n - 1]);
        forall p | 0 <= p < n - 1 && Lasts(txs, Statuses(xs), i, p) ensures txs[i].keys[p] != k {
          assert k == txs[i].keys[p + 1..][n - 2 - p];
        }
        PatchedElsewhere(base, txs, xs, i, n - 1, k);
      }
    }
  }

  lemma {:induction false} PatchedAt(base: Accounts, txs: seq<Transaction>, xs: seq<Executed>, i: nat, n: nat, p: nat)
    requires i < |txs| == |xs| && p < n <= |txs[i].keys| == |xs[i].accounts| && Lasts(txs, Statuses(xs), i, p)
    ensures Balance(Patched(base, txs, xs, i, n), txs[i].keys[p]) == xs[i].accounts[p].tokens
  {
    if p < n - 1 {
      PatchedAt(base, txs, xs, i, n - 1, p);
      assert txs[i].keys[n - 1] == txs[i].keys[p + 1..][n - 2 - p];
    }
  }

  /** A transaction put in front of others that were stored adds its gains, and no more. */
  lemma {:induction false} FrontTotal(m: Accounts, txs: seq<Transaction>, xs: seq<Executed>, i: nat)
    requires Whole(txs, xs) && i < |txs|
    ensures Total(StoreAll(m, txs[i..], xs[i..])) == Total(StoreAll(m, txs[i + 1..], xs[i + 1..])) +
      if xs[i].status.Okay? then Gains(m, txs, xs, i, |txs[i].keys|) else 0
  {
    hide Total; hide StoreAll; hide Put; hide Lasts; hide Gains; hide Patched;
    StoreFront(m, txs[i..], xs[i..]);
    assert txs[i..][1..] == txs[i + 1..] && xs[i..][1..] == xs[i + 1..];
    if xs[i].status.Okay? {
      var base, n := StoreAll(m, txs[i + 1..], xs[i + 1..]), |txs[i].keys|;
      forall p | 0 <= p < n && Lasts(txs, Statuses(xs), i, p) ensures Balance(base, txs[i].keys[p]) == Balance(m, txs[i].keys[p]) {
        LastingIsUnlisted(m, txs, xs, i, p);
      }
      PatchedTotal(m, base, txs, xs, i, n);
      forall k ensures Balance(Patched(base, txs, xs, i, n), k) == Balance(StoreAll(m, txs[i..], xs[i..]), k) {
        PatchedIsStored(m, txs, xs, i, k);
      }
      SameBalancesSameTotal(Patched(base, txs, xs, i, n), StoreAll(m, txs[i..], xs[i..]));
    }
  }

  lemma LastingIsUnlisted(m: Accounts, txs: seq<Transaction>, xs: seq<Executed>, i: nat, p: nat)
    requires Whole(txs, xs) && i < |txs| && p < |txs[i].keys| && Lasts(txs, Statuses(xs), i, p)
    ensures Balance(StoreAll(m, txs[i + 1..], xs[i + 1..]), txs[i].keys[p]) == Balance(m, txs[i].keys[p])
  {
    hide StoreAll; hide Lists;
    ListsFrom(txs, Statuses(xs), i + 1, txs[i].keys[p]);
    assert Statuses(xs)[i + 1..] == Statuses(xs[i + 1..]);
    StoredOver(m, m, txs[i + 1..], xs[i + 1..], txs[i].keys[p]);
  }

  lemma {:induction false} PatchedIsStored(m: Accounts, txs: seq<Transaction>, xs: seq<Executed>, i: nat, k: Pubkey)
    requires Whole(txs, xs) && i < |txs| && xs[i].status.Okay?
    ensures Balance(Patched(StoreAll(m, txs[i + 1..], xs[i + 1..]), txs, xs, i, |txs[i].keys|), k) ==
      Balance(StoreAll(m, txs[i..], xs[i..]), k)
  {
    hide StoreAll; hide Put; hide Patched; hide Lists; hide Get; hide LastPosition;
    var t, x, n := txs[i], xs[i], |txs[i].keys|;
    var rest, results := txs[i + 1..], xs[i + 1..];
    var base, one := StoreAll(m, rest, results), StoreOne(m, t, x);
    StoreFront(m, txs[i..], xs[i..]);
    assert txs[i..][1..] == rest && xs[i..][1..] == results && Statuses(xs)[i + 1..] == Statuses(results);
    ListsFrom(txs, Statuses(xs), i + 1, k);
    StoredOver(one, m, rest, results, k);
    StoredOver(m, m, rest, results, k);
    StoredBalance(m, t.keys, x.accounts, k);
    if k in t.keys && !Lists(txs, Statuses(xs), i + 1, k) {
      var p := LastPosition(t.keys, k);
      assert Lasts(txs, Statuses(xs), i, p);
      PatchedAt(base, txs, xs, i, n, p);
    } else {
      forall p | 0 <= p < n && Lasts(txs, Statuses(xs), i, p) ensures t.keys[p] != k {
      }
      PatchedElsewhere(base, txs, xs, i, n, k);
    }
  }

  lemma {:induction false} StoredChange(m: Accounts, txs: seq<Transaction>, xs: seq<Executed>, n: nat)
    requires Whole(txs, xs) && n <= |txs|
    ensures Total(StoreAll(m, txs, xs)) == Total(StoreAll(m, txs[n..], xs[n..])) + Change(m, txs, xs, n)
  {
    hide Total; hide StoreAll; hide Gains;
    if n == 0 {
      assert txs[0..] == txs && xs[0..] == xs;
    } else {
      StoredChange(m, txs, xs, n - 1);
      FrontTotal(m, txs, xs, n - 1);
    }
  }

  /**
   * The exact change of the total, for any batch, any programs and any keys: each accepted
   * transaction adds what it did to the accounts that nothing afterwards writes again.
   */
  lemma {:induction false} BatchTotal(run: Runtime, b: Bank, txs: seq<Transaction>)
    requires KeepsSlice(run) && Payers(txs)
    ensures Whole(txs, Results(run, b, txs))
    ensures Total(ProcessTransactions(run, b, txs).0.accounts) ==
      Total(b.accounts) + Change(b.accounts, txs, Results(run, b, txs), |txs|)
  {
    hide Total; hide Results; hide KeepsSlice; hide VerifyTransaction; hide LoadAll; hide UpdateAll; hide Change;
    var xs := Results(run, b, txs);
    BatchParts(run, b, txs);
    forall i | 0 <= i < |xs| && xs[i].status.Okay? ensures |xs[i].accounts| == |txs[i].keys| {
      AcceptedAccounts(run, b, txs, i);
    }
    StoredChange(b.accounts, txs, xs, |txs|);
    assert txs[|txs|..] == [] && xs[|txs|..] == [];
  }

  // ---- When a batch costs just its fees ----------------------------------------------------------------

  ghost predicate FeesOnly(run: Runtime, b: Bank, txs: seq<Transaction>)
    requires Payers(txs)
  {
    var (b', ss) := ProcessTransactions(run, b, txs);
    Total(b'.accounts) == Total(b.accounts) - Fees(txs, ss)
  }

  predicate Covers(t': Transaction, t: Transaction) {
    forall k :: k in t.keys ==> k in t'.keys
  }

  /** `t'`, later, shares no account with `t`; or it writes over all of them, and there is no fee to lose. */
  predicate Harmless(t: Transaction, t': Transaction) {
    (forall k :: k in t.keys ==> k !in t'.keys) || (Covers(t', t) && t.fee == 0)
  }

  ghost predicate Separate(txs: seq<Transaction>) {
    (forall i :: 0 <= i < |txs| ==> NoDuplicates(txs[i].keys)) &&
    (forall i, j :: 0 <= i < j < |txs| ==> Harmless(txs[i], txs[j]))
  }

  lemma {:induction false} AllLast(m: Accounts, txs: seq<Transaction>, xs: seq<Executed>, i: nat, n: nat)
    requires i < |txs| == |xs| && n <= |txs[i].keys| == |xs[i].accounts|
    requires forall p :: 0 <= p < n ==> Lasts(txs, Statuses(xs), i, p)
    ensures Gains(m, txs, xs, i, n) == SumTokens(xs[i].accounts[..n]) - BalanceSum(m, txs[i].keys, n)
  {
    hide Lasts;
    if n > 0 {
      AllLast(m, txs, xs, i, n - 1);
      assert xs[i].accounts[..n][..n - 1] == xs[i].accounts[..n - 1];
    } else {
      assert xs[i].accounts[..0] == [];
    }
  }

  lemma {:induction false} NoneLast(m: Accounts, txs: seq<Transaction>, xs: seq<Executed>, i: nat, n: nat)
    requires i < |txs| == |xs| && n <= |txs[i].keys| == |xs[i].accounts|
    requires forall p :: 0 <= p < n ==> !Lasts(txs, Statuses(xs), i, p)
    ensures Gains(m, txs, xs, i, n) == 0
  {
    if n > 0 {
      NoneLast(m, txs, xs, i, n - 1);
    }
  }

  /** In a separate batch an accepted transaction takes its fee out of the total, and nothing else. */
  lemma {:induction false} SeparateGains(run: Runtime, b: Bank, txs: seq<Transaction>, i: nat)
    requires KeepsSlice(run) && Payers(txs) && Separate(txs) && i < |txs| && Results(run, b, txs)[i].status.Okay?
    ensures |Results(run, b, txs)[i].accounts| == |txs[i].keys|
    ensures Gains(b.accounts, txs, Results(run, b, txs), i, |txs[i].keys|) == -txs[i].fee
  {
    hide Results; hide KeepsSlice; hide SumTokens; hide BalanceSum; hide Gains; hide VerifyTransaction;
    hide ProcessTransactions;
    hide LoadAll; hide Fetch;
    var m, xs, t, n := b.accounts, Results(run, b, txs), txs[i], |txs[i].keys|;
    var ss := Statuses(xs);
    AcceptedAccounts(run, b, txs, i);
    AcceptedSum(run, b, txs, i);
    if j :| i < j < |txs| && ss[j].Okay? && !(forall k :: k in t.keys ==> k !in txs[j].keys) {
      assert Harmless(t, txs[j]);
      forall p | 0 <= p < n ensures !Lasts(txs, ss, i, p) {
        assert t.keys[p] in txs[j].keys;
      }
      NoneLast(m, txs, xs, i, n);
    } else {
      forall p | 0 <= p < n ensures Lasts(txs, ss, i, p) {
      }
      AllLast(m, txs, xs, i, n);
      FetchedSum(m, t, n);
      assert xs[i].accounts[..n] == xs[i].accounts && Fetch(m, t)[..n] == Fetch(m, t);
    }
  }

  lemma AcceptedSum(run: Runtime, b: Bank, txs: seq<Transaction>, i: nat)
    requires KeepsSlice(run) && Payers(txs) && i < |txs| && Results(run, b, txs)[i].status.Okay?
    ensures SumTokens(Results(run, b, txs)[i].accounts) == SumTokens(Fetch(b.accounts, txs[i]))
  {
    hide LoadAll; hide SumTokens; hide VerifyFrom;
    LoadedAreFetched(b.accounts, b.sigs, txs, i);
  }

  lemma {:induction false} ChangeIsFees(run: Runtime, b: Bank, txs: seq<Transaction>, n: nat)
    requires KeepsSlice(run) && Payers(txs) && Separate(txs) && n <= |txs| && Whole(txs, Results(run, b, txs))
    ensures var xs := Results(run, b, txs);
      Change(b.accounts, txs, xs, n) == -Fees(txs[..n], Statuses(xs)[..n])
  {
    hide Results; hide KeepsSlice; hide Gains; hide Separate;
    if n > 0 {
      ChangeIsFees(run, b, txs, n - 1);
      var xs := Results(run, b, txs);
      if xs[n - 1].status.Okay? {
        SeparateGains(run, b, txs, n - 1);
      }
      assert txs[..n][..n - 1] == txs[..n - 1] && Statuses(xs)[..n][..n - 1] == Statuses(xs)[..n - 1];
    }
  }

  lemma SeparateConserves(run: Runtime, b: Bank, txs: seq<Transaction>)
    requires KeepsSlice(run) && Payers(txs) && Separate(txs)
    ensures FeesOnly(run, b, txs)
  {
    hide Results; hide KeepsSlice; hide Total; hide Change; hide Fees; hide Separate; hide ProcessTransactions;
    BatchTotal(run, b, txs);
    ChangeIsFees(run, b, txs, |txs|);
    BatchParts(run, b, txs);
    var ss := Statuses(Results(run, b, txs));
    assert txs[..|txs|] == txs && ss[..|txs|] == ss;
  }

  // ---- And when it does not ------------------------------------------------------------------------------

  function Shifted(accs: seq<Account>, p: nat, q: nat, d: int): (post: seq<Account>)
    ensures |post| == |accs|
  {
    if p < |accs| && q < |accs| && p != q then Credit(Credit(accs, p, -d), q, d) else accs
  }

  lemma {:induction false} ShiftedSum(accs: seq<Account>, p: nat, q: nat, d: int)
    ensures SumTokens(Shifted(accs, p, q, d)) == SumTokens(accs)
  {
    if p < |accs| && q < |accs| && p != q {
      CreditSum(accs, p, -d);
      CreditSum(Credit(accs, p, -d), q, d);
    }
  }

  /** Only the transaction `t` does anything: it moves `d` from position `p` to position `q`. */
  function Once(t: Transaction, p: nat, q: nat, d: int): Runtime {
    (tx: Transaction, accs: seq<Account>) => if tx == t then Done(Shifted(accs, p, q, d)) else Done(accs)
  }

  lemma OnceKeepsSlice(t: Transaction, p: nat, q: nat, d: int)
    ensures KeepsSlice(Once(t, p, q, d))
  {
  }

  /** Every key of the two holds enough; nothing else of the batch can be loaded. */
  ghost function SharedBank(txs: seq<Transaction>, i: nat, j: nat): Bank
    requires i < |txs| && j < |txs|
  {
    var each := Account(2 * (Abs(txs[i].fee) + Abs(txs[j].fee)) + 1, [], txs[i].programId);
    Bank(map k | k in txs[i].keys + txs[j].keys :: each, [], SpentBut(txs, i, j), 0)
  }

  /** The two are accepted, with these results, and the rest refused. */
  lemma OnceAccepted(txs: seq<Transaction>, i: nat, j: nat, p: nat, q: nat)
    requires Payers(txs) && DistinctSignatures(txs) && i <= j < |txs| && p < |txs[i].keys| && q < |txs[i].keys|
    ensures
      var d := Abs(txs[i].fee) + 1;
      var run, b := Once(txs[i], p, q, d), SharedBank(txs, i, j);
      var pre := Fetch(b.accounts, txs[i]);
      var xs := Results(run, b, txs);
      (forall m :: 0 <= m < |txs| ==> (xs[m].status.Okay? <==> m == i || m == j)) &&
      xs[i].accounts == Shifted(pre, p, q, d) &&
      (i != j ==> xs[j].accounts == Fetch(b.accounts, txs[j]))
  {
    hide Execute; hide ProcessTransactions; hide Results; hide Fetch; hide Once; hide SharedBank;
    var run, b := Once(txs[i], p, q, Abs(txs[i].fee) + 1), SharedBank(txs, i, j);
    forall m | 0 <= m < |txs| ensures Results(run, b, txs)[m].status.Okay? <==> m == i || m == j {
      OnceAcceptedAt(txs, i, j, p, q, m);
    }
    OnceAcceptedAt(txs, i, j, p, q, i);
    OnceAcceptedAt(txs, i, j, p, q, j);
    DistinctAreUnequal(txs, i, j);
  }

  lemma DistinctAreUnequal(txs: seq<Transaction>, i: nat, j: nat)
    requires DistinctSignatures(txs) && i <= j < |txs|
    ensures i != j ==> txs[i] != txs[j]
  {
  }

  ghost predicate OnceStatus(txs: seq<Transaction>, i: nat, j: nat, p: nat, q: nat, m: nat)
    requires Payers(txs) && i <= j < |txs| && p < |txs[i].keys| && q < |txs[i].keys| && m < |txs|
  {
    var d, t := Abs(txs[i].fee) + 1, txs[m];
    var run, b := Once(txs[i], p, q, d), SharedBank(txs, i, j);
    var pre, x := Fetch(b.accounts, t), Results(run, b, txs)[m];
    (x.status.Okay? <==> m == i || m == j) &&
    (x.status.Okay? ==> x.accounts == if t == txs[i] then Shifted(pre, p, q, d) else pre)
  }

  lemma OnceAcceptedAt(txs: seq<Transaction>, i: nat, j: nat, p: nat, q: nat, m: nat)
    requires Payers(txs) && DistinctSignatures(txs) && i <= j < |txs| && p < |txs[i].keys| && q < |txs[i].keys| && m < |txs|
    ensures OnceStatus(txs, i, j, p, q, m)
  {
    hide Execute; hide LoadAll; hide SpentBut; hide ProcessTransactions; hide Results; hide Fetch; hide Once; hide StoreOne;
    hide Shifted; hide DistinctSignatures;
    var run, b := Once(txs[i], p, q, Abs(txs[i].fee) + 1), SharedBank(txs, i, j);
    BatchParts(run, b, txs);
    SpentExactly(txs, i, j, m);
    if m == i || m == j {
      OnceExecutes(txs, i, j, p, q, m);
      SingleOutcome(run, b, txs[m]);
      assert txs[m].keys[0] in txs[i].keys + txs[j].keys;
      AcceptedInBatch(run, b, txs, m);
      AcceptedAlone(run, b, txs, m);
    } else if Results(run, b, txs)[m].status.Okay? {
      AcceptedAlone(run, b, txs, m);
      assert false;
    }
  }

  lemma OnceExecutes(txs: seq<Transaction>, i: nat, j: nat, p: nat, q: nat, m: nat)
    requires Payers(txs) && i <= j < |txs| && p < |txs[i].keys| && q < |txs[i].keys| && (m == i || m == j)
    ensures
      var d, t := Abs(txs[i].fee) + 1, txs[m];
      var pre := Fetch(SharedBank(txs, i, j).accounts, t);
      Execute(Once(txs[i], p, q, d), t, pre) ==
        Executed(Okay, if t == txs[i] then Shifted(pre, p, q, d) else pre)
  {
    hide SumTokens; hide VerifyTransaction; hide Fetch; hide Shifted; hide SharedBank; hide Execute;
    var d, t := Abs(txs[i].fee) + 1, txs[m];
    var pre := Fetch(SharedBank(txs, i, j).accounts, t);
    var post := if t == txs[i] then Shifted(pre, p, q, d) else pre;
    forall n | 0 <= n < |pre| ensures VerifyTransaction(t, pre[n].programId, pre[n].tokens, post[n]).Okay? {
      OncePasses(txs, i, j, p, q, m, n);
    }
    ShiftedSum(pre, p, q, d);
    ExecutesTo(Once(txs[i], p, q, d), t, pre, post);
  }

  lemma {:induction false} ExecutesTo(run: Runtime, t: Transaction, pre: seq<Account>, post: seq<Account>)
    requires run(t, pre) == Done(post) && |post| == |pre| && SumTokens(pre) == SumTokens(post)
    requires forall n :: 0 <= n < |pre| ==> VerifyTransaction(t, pre[n].programId, pre[n].tokens, post[n]).Okay?
    ensures Execute(run, t, pre) == Executed(Okay, post)
  {
    hide SumTokens; hide VerifyTransaction;
    assert VerifyFrom(t, pre, post, 0).Okay?;
  }

  lemma OncePasses(txs: seq<Transaction>, i: nat, j: nat, p: nat, q: nat, m: nat, n: nat)
    requires Payers(txs) && i <= j < |txs| && p < |txs[i].keys| && q < |txs[i].keys| && (m == i || m == j) && n < |txs[m].keys|
    ensures
      var d, t := Abs(txs[i].fee) + 1, txs[m];
      var pre := Fetch(SharedBank(txs, i, j).accounts, t);
      var post := if t == txs[i] then Shifted(pre, p, q, d) else pre;
      VerifyTransaction(t, pre[n].programId, pre[n].tokens, post[n]).Okay?
  {
    hide SpentBut;
    var t := txs[m];
    var pre := Fetch(SharedBank(txs, i, j).accounts, t);
    assert t.keys[n] in txs[i].keys + txs[j].keys;
    assert pre[n].tokens == 2 * (Abs(txs[i].fee) + Abs(txs[j].fee)) + 1 - if n == 0 then t.fee else 0;
  }

  ghost predicate OnlyOkay(ss: seq<Status>, i: nat, j: nat) {
    i < |ss| && j < |ss| && forall m :: 0 <= m < |ss| ==> (ss[m].Okay? <==> m == i || m == j)
  }

  lemma {:induction false} ChangeOfTwo(m: Accounts, txs: seq<Transaction>, xs: seq<Executed>, i: nat, j: nat, n: nat)
    requires Whole(txs, xs) && OnlyOkay(Statuses(xs), i, j) && n <= |txs|
    ensures xs[i].status.Okay? && xs[j].status.Okay?
    ensures Change(m, txs, xs, n) ==
      (if i < n then Gains(m, txs, xs, i, |txs[i].keys|) else 0) +
      (if j < n && j != i then Gains(m, txs, xs, j, |txs[j].keys|) else 0)
  {
    hide Gains;
    var ss := Statuses(xs);
    assert ss[i].Okay? && ss[j].Okay?;
    if n > 0 {
      ChangeOfTwo(m, txs, xs, i, j, n - 1);
      assert ss[n - 1] == xs[n - 1].status;
    }
  }

  lemma {:induction false} FeesOfTwo(txs: seq<Transaction>, ss: seq<Status>, i: nat, j: nat, n: nat)
    requires |txs| == |ss| && OnlyOkay(ss, i, j) && n <= |txs|
    ensures Fees(txs[..n], ss[..n]) == (if i < n then txs[i].fee else 0) + (if j < n && j != i then txs[j].fee else 0)
  {
    if n > 0 {
      FeesOfTwo(txs, ss, i, j, n - 1);
      assert txs[..n][..n - 1] == txs[..n - 1] && ss[..n][..n - 1] == ss[..n - 1];
    }
  }

  /** Only two positions gain or lose anything. */
  lemma {:induction false} GainsAt(m: Accounts, txs: seq<Transaction>, xs: seq<Executed>, i: nat, p: nat, q: nat, n: nat)
    requires i < |txs| == |xs| && n <= |txs[i].keys| == |xs[i].accounts| && p < |txs[i].keys| && q < |txs[i].keys|
    requires forall a :: 0 <= a < |txs[i].keys| && a != p && a != q ==> Gain(m, txs, xs, i, a) == 0
    ensures Gains(m, txs, xs, i, n) ==
      (if p < n then Gain(m, txs, xs, i, p) else 0) + (if q < n && q != p then Gain(m, txs, xs, i, q) else 0)
  {
    hide Gain;
    if n > 0 {
      GainsAt(m, txs, xs, i, p, q, n - 1);
    }
  }

  lemma {:induction false} NothingListsLater(txs: seq<Transaction>, ss: seq<Status>, i: nat, j: nat, k: Pubkey)
    requires |txs| == |ss| && OnlyOkay(ss, i, j) && i <= j
    ensures !Lists(txs, ss, j + 1, k) && (Lists(txs, ss, i + 1, k) <==> i < j && k in txs[j].keys)
  {
  }

  /** Whatever a transaction moved from a place that is written over to one that lasts is made from nothing. */
  lemma {:induction false} ShiftedGains(txs: seq<Transaction>, i: nat, j: nat, p: nat, q: nat)
    requires Payers(txs) && DistinctSignatures(txs) && i <= j < |txs| && p < |txs[i].keys| && q < |txs[i].keys|
    requires
      var run, b := Once(txs[i], p, q, Abs(txs[i].fee) + 1), SharedBank(txs, i, j);
      var ss := Statuses(Results(run, b, txs));
      (p == q && txs[i].fee != 0 && forall a :: 0 <= a < |txs[i].keys| ==> !Lasts(txs, ss, i, a)) ||
      (p != q && !Lasts(txs, ss, i, p) && Lasts(txs, ss, i, q))
    ensures
      var run, b := Once(txs[i], p, q, Abs(txs[i].fee) + 1), SharedBank(txs, i, j);
      var xs := Results(run, b, txs);
      |xs[i].accounts| == |txs[i].keys| && Gains(b.accounts, txs, xs, i, |txs[i].keys|) != -txs[i].fee
  {
    hide Results; hide ProcessTransactions; hide Lasts; hide Gains; hide SharedBank; hide Once; hide Fetch; hide Get;
    var run, b, n := Once(txs[i], p, q, Abs(txs[i].fee) + 1), SharedBank(txs, i, j), |txs[i].keys|;
    var m, xs, d := b.accounts, Results(run, b, txs), Abs(txs[i].fee) + 1;
    OnceAccepted(txs, i, j, p, q);
    if p == q {
      NoneLast(m, txs, xs, i, n);
    } else {
      forall a | 0 <= a < n ensures Gain(m, txs, xs, i, a) ==
        if !Lasts(txs, Statuses(xs), i, a) then 0 else (if a == q then d else 0) - (if a == 0 then txs[i].fee else 0)
      {
        FetchedBalance(m, txs[i], a);
      }
      GainsAt(m, txs, xs, i, 0, q, n);
    }
  }

  lemma FetchedBalance(m: Accounts, tx: Transaction, a: nat)
    requires a < |tx.keys|
    ensures Fetch(m, tx)[a].tokens == Balance(m, tx.keys[a]) - if a == 0 then tx.fee else 0
  {
  }

  /** The one that came last and did nothing costs its fee. */
  lemma {:induction false} IdleGains(txs: seq<Transaction>, i: nat, j: nat, p: nat, q: nat)
    requires Payers(txs) && DistinctSignatures(txs) && i < j < |txs| && p < |txs[i].keys| && q < |txs[i].keys|
    requires NoDuplicates(txs[j].keys)
    ensures
      var run, b := Once(txs[i], p, q, Abs(txs[i].fee) + 1), SharedBank(txs, i, j);
      var xs := Results(run, b, txs);
      |xs[j].accounts| == |txs[j].keys| && Gains(b.accounts, txs, xs, j, |txs[j].keys|) == -txs[j].fee
  {
    hide Results; hide ProcessTransactions; hide Gains; hide SharedBank; hide Once; hide Fetch; hide Lists; hide Get;
    var run, b := Once(txs[i], p, q, Abs(txs[i].fee) + 1), SharedBank(txs, i, j);
    var m, xs := b.accounts, Results(run, b, txs);
    OnceAccepted(txs, i, j, p, q);
    assert OnlyOkay(Statuses(xs), i, j);
    forall a | 0 <= a < |txs[j].keys| ensures Gain(m, txs, xs, j, a) == if a == 0 then -txs[j].fee else 0 {
      NothingListsLater(txs, Statuses(xs), i, j, txs[j].keys[a]);
      FetchedBalance(m, txs[j], a);
      assert Lasts(txs, Statuses(xs), j, a);
    }
    GainsAt(m, txs, xs, j, 0, 0, |txs[j].keys|);
  }

  lemma {:induction false} SharedMints(txs: seq<Transaction>, i: nat, j: nat, p: nat, q: nat)
    requires Payers(txs) && DistinctSignatures(txs) && i <= j < |txs| && p < |txs[i].keys| && q < |txs[i].keys|
    requires i != j ==> NoDuplicates(txs[j].keys)
    requires
      var run, b := Once(txs[i], p, q, Abs(txs[i].fee) + 1), SharedBank(txs, i, j);
      var ss := Statuses(Results(run, b, txs));
      (p == q && txs[i].fee != 0 && forall a :: 0 <= a < |txs[i].keys| ==> !Lasts(txs, ss, i, a)) ||
      (p != q && !Lasts(txs, ss, i, p) && Lasts(txs, ss, i, q))
    ensures !FeesOnly(Once(txs[i], p, q, Abs(txs[i].fee) + 1), SharedBank(txs, i, j), txs)
  {
    hide Results; hide ProcessTransactions; hide Gains; hide SharedBank; hide Once; hide Fetch; hide Lasts; hide Fees;
    hide Total;
    hide Change; hide DistinctSignatures;
    var run, b := Once(txs[i], p, q, Abs(txs[i].fee) + 1), SharedBank(txs, i, j);
    var m, xs := b.accounts, Results(run, b, txs);
    OnceKeepsSlice(txs[i], p, q, Abs(txs[i].fee) + 1);
    OnceAccepted(txs, i, j, p, q);
    ShiftedGains(txs, i, j, p, q);
    if i != j {
      IdleGains(txs, i, j, p, q);
    }
    BatchTotal(run, b, txs);
    BatchParts(run, b, txs);
    ChangeOfTwo(m, txs, xs, i, j, |txs|);
    FeesOfTwo(txs, Statuses(xs), i, j, |txs|);
    assert txs[..|txs|] == txs && Statuses(xs)[..|txs|] == Statuses(xs);
  }

  lemma RepeatMints(txs: seq<Transaction>, i: nat) returns (run: Runtime, b: Bank)
    requires Payers(txs) && DistinctSignatures(txs) && i < |txs| && !NoDuplicates(txs[i].keys)
    ensures KeepsSlice(run) && !FeesOnly(run, b, txs)
  {
    hide Results; hide ProcessTransactions; hide SharedBank; hide Once; hide FeesOnly; hide Fetch; hide KeepsSlice;
    var keys := txs[i].keys;
    var p, p' :| 0 <= p < p' < |keys| && keys[p] == keys[p'];
    var q := LastPosition(keys, keys[p]);
    run, b := Once(txs[i], p, q, Abs(txs[i].fee) + 1), SharedBank(txs, i, i);
    OnceKeepsSlice(txs[i], p, q, Abs(txs[i].fee) + 1);
    OnceAccepted(txs, i, i, p, q);
    var ss := Statuses(Results(run, b, txs));
    assert OnlyOkay(ss, i, i);
    NothingListsLater(txs, ss, i, i, keys[q]);
    assert keys[p + 1..][q - p - 1] == keys[p];
    assert Lasts(txs, ss, i, q) && !Lasts(txs, ss, i, p);
    SharedMints(txs, i, i, p, q);
  }

  lemma OverlapMints(txs: seq<Transaction>, i: nat, j: nat) returns (run: Runtime, b: Bank)
    requires Payers(txs) && DistinctSignatures(txs) && i < j < |txs| && !Harmless(txs[i], txs[j])
    requires NoDuplicates(txs[i].keys) && NoDuplicates(txs[j].keys)
    ensures KeepsSlice(run) && !FeesOnly(run, b, txs)
  {
    hide Results; hide ProcessTransactions; hide SharedBank; hide Once; hide FeesOnly; hide Fetch; hide KeepsSlice;
    var keys := txs[i].keys;
    var k :| k in keys && k in txs[j].keys;
    var p :| 0 <= p < |keys| && keys[p] == k;
    var q := p;
    if k' :| k' in keys && k' !in txs[j].keys {
      q :| 0 <= q < |keys| && keys[q] == k';
    }
    run, b := Once(txs[i], p, q, Abs(txs[i].fee) + 1), SharedBank(txs, i, j);
    OnceKeepsSlice(txs[i], p, q, Abs(txs[i].fee) + 1);
    OnceAccepted(txs, i, j, p, q);
    var ss := Statuses(Results(run, b, txs));
    assert OnlyOkay(ss, i, j);
    forall a | 0 <= a < |keys| ensures Lasts(txs, ss, i, a) <==> keys[a] !in txs[j].keys {
      NothingListsLater(txs, ss, i, j, keys[a]);
    }
    SharedMints(txs, i, j, p, q);
  }

  /**
   * A batch lowers the total by the fees it accepted, whatever the programs do and in every bank,
   * exactly when no transaction lists a key twice and every two share no account, unless the later
   * one writes over all of the earlier one's and the earlier one pays no fee.
   */
  lemma BatchConservesExactly(txs: seq<Transaction>)
    requires Payers(txs) && DistinctSignatures(txs)
    ensures Separate(txs) <==> forall run: Runtime, b: Bank :: KeepsSlice(run) ==> FeesOnly(run, b, txs)
  {
    hide FeesOnly; hide KeepsSlice; hide DistinctSignatures; hide Harmless; hide NoDuplicates;
    if Separate(txs) {
      forall run: Runtime, b: Bank | KeepsSlice(run) ensures FeesOnly(run, b, txs) {
        SeparateConserves(run, b, txs);
      }
    } else if i :| 0 <= i < |txs| && !NoDuplicates(txs[i].keys) {
      var run, b := RepeatMints(txs, i);
    } else {
      var i, j :| 0 <= i < j < |txs| && !Harmless(txs[i], txs[j]);
      var run, b := OverlapMints(txs, i, j);
    }
  }

  // ---- One balance sent twice ------------------------------------------------------------------------

  /** Two transfers of `n` from one account to two others, in one batch: both arrive, the sender is charged once. */
  lemma SameBalanceSentTwice(r: Registry, b: Bank, t: Transaction, t': Transaction, n: int)
    requires KeepsSlice(r.other) && t.programId == t'.programId == SYSTEM_PROGRAM_ID && DistinctSignatures([t, t'])
    requires |t.keys| == |t'.keys| == 2 && t.keys[0] == t'.keys[0] && t.keys[1] != t.keys[0] && t'.keys[1] !in t.keys
    requires r.system(t.userdata) == r.system(t'.userdata) == Some(Move(n))
    requires Loadable(b, t) && Loadable(b, t') && Movable(b.accounts, t, n) && Movable(b.accounts, t', n)
    ensures
      var (b', ss) := ProcessTransactions(Dispatch(r), b, [t, t']);
      var from, to, to' := t.keys[0], t.keys[1], t'.keys[1];
      ss == [Okay, Okay] &&
      Balance(b'.accounts, to) == Balance(b.accounts, to) + n && Balance(b'.accounts, to') == Balance(b.accounts, to') + n &&
      Balance(b'.accounts, from) == Balance(b.accounts, from) - n - t'.fee &&
      Total(b'.accounts) == Total(b.accounts) + n - t'.fee
  {
    hide ProcessTransactions; hide Dispatch; hide Total; hide Movable; hide Loadable; hide Get; hide KeepsSlice;
    var txs, run := [t, t'], Dispatch(r);
    var from, to, to' := t.keys[0], t.keys[1], t'.keys[1];
    TransferMovesTokens(r, b, t, n);
    TransferMovesTokens(r, b, t', n);
    DispatchKeepsSlice(r);
    assert txs[0] == t && txs[1] == t' && t.keys == [from, to] && t'.keys == [from, to'];
    AcceptedInBatch(run, b, txs, 0);
    AcceptedInBatch(run, b, txs, 1);
    var (b', ss) := ProcessTransactions(run, b, txs);
    assert ss == [ss[0], ss[1]];
    forall k ensures Balance(b'.accounts, k) ==
      if k == to then Balance(b.accounts, to) + n else Balance(ProcessTransactions(run, b, [t']).0.accounts, k)
    {
      BatchAccount(run, b, txs, k);
      assert k in t.keys <==> k == from || k == to;
      assert k in t'.keys <==> k == from || k == to';
    }
    TotalOfChange(ProcessTransactions(run, b, [t']).0.accounts, b'.accounts, to, to);
  }
}
