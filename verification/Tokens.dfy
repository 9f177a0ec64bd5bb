/** Where tokens can go: conservation, positive balances, and who may spend from an account. */
module Tokens {
  import opened Base
  import opened Processor
  import opened Batches

  // ---- Totals ----------------------------------------------------------------------------------

  ghost function Total(m: Accounts): int {
    if m == map[] then 0 else
    var k :| k in m;
    m[k].tokens + Total(m - {k})
  }

  /** The total can be taken apart at any account, not only the one the definition picks. */
  lemma {:induction false} TotalAt(m: Accounts, k: Pubkey)
    requires k in m
    ensures Total(m) == m[k].tokens + Total(m - {k})
    decreases |m|
  {
    var j :| j in m && Total(m) == m[j].tokens + Total(m - {j});
    if j != k {
      TotalAt(m - {j}, k);
      TotalAt(m - {k}, j);
      assert m - {j} - {k} == m - {k} - {j};
    }
  }

  lemma {:induction false} TotalPut(m: Accounts, k: Pubkey, a: Account)
    ensures Total(Put(m, k, a)) == Total(m) - Get(m, k).tokens + a.tokens
  {
    var m' := Put(m, k, a);
    assert m' - {k} == m - {k};
    if k in m {
      TotalAt(m, k);
    } else {
      assert m - {k} == m;
    }
    if k in m' {
      TotalAt(m', k);
    } else {
      assert m' - {k} == m';
    }
  }

  function Balance(m: Accounts, k: Pubkey): int { Get(m, k).tokens }

  /** The account map holds what a writer left for `k`: nothing when it left no tokens. */
  ghost predicate LeftBy(m: Accounts, k: Pubkey, a: Account) {
    if a.tokens == 0 then k !in m else k in m && m[k] == a
  }

  // ---- Conservation ----------------------------------------------------------------------------

  function BalanceSum(m: Accounts, keys: seq<Pubkey>, n: nat): int
    requires n <= |keys|
  {
    if n == 0 then 0 else BalanceSum(m, keys, n - 1) + Get(m, keys[n - 1]).tokens
  }

  lemma {:induction false} PutAllTotal(m: Accounts, keys: seq<Pubkey>, accs: seq<Account>, n: nat)
    requires n <= |keys| && n <= |accs| && NoDuplicates(keys)
    ensures Total(PutAll(m, keys, accs, n)) == Total(m) - BalanceSum(m, keys, n) + SumTokens(accs[..n])
  {
    hide Total; hide Put;
    if n > 0 {
      PutAllTotal(m, keys, accs, n - 1);
      TotalPut(PutAll(m, keys, accs, n - 1), keys[n - 1], accs[n - 1]);
      PutAllFrame(m, keys[..n - 1], accs, n - 1, keys[n - 1]);
      PutAllAgree(m, keys, keys[..n - 1], accs, n - 1);
      assert accs[..n][..n - 1] == accs[..n - 1];
    }
  }

  lemma {:induction false} PutAllAgree(m: Accounts, keys: seq<Pubkey>, keys': seq<Pubkey>, accs: seq<Account>, n: nat)
    requires n <= |keys| && n <= |keys'| && n <= |accs|
    requires forall i :: 0 <= i < n ==> keys[i] == keys'[i]
    ensures PutAll(m, keys, accs, n) == PutAll(m, keys', accs, n)
  {
    if n > 0 {
      PutAllAgree(m, keys, keys', accs, n - 1);
    }
  }

  lemma {:induction false} FetchedSum(m: Accounts, tx: Transaction, n: nat)
    requires 0 < n <= |tx.keys|
    ensures SumTokens(Fetch(m, tx)[..n]) == BalanceSum(m, tx.keys, n) - tx.fee
  {
    var f := Fetch(m, tx);
    assert f[..n][..n - 1] == f[..n - 1];
    if n > 1 {
      FetchedSum(m, tx, n - 1);
    } else {
      assert f[..0] == [];
      assert SumTokens(f[..1]) == SumTokens([]) + f[0].tokens;
      assert BalanceSum(m, tx.keys, 0) == 0;
    }
  }

  lemma AcceptedOne(run: Runtime, b: Bank, tx: Transaction)
    requires KeepsSlice(run) && tx.keys != []
    requires ExecuteLoaded(run, tx, LoadAccount(b.accounts, b.sigs, tx).0).status.Okay?
    ensures var x := ExecuteLoaded(run, tx, LoadAccount(b.accounts, b.sigs, tx).0);
      |x.accounts| == |tx.keys| && SumTokens(x.accounts) == SumTokens(Fetch(b.accounts, tx))
  {
  }

  lemma {:induction false} StoreOneTotal(m: Accounts, tx: Transaction, x: Executed)
    requires x.status.Okay? && |x.accounts| == |tx.keys| > 0 && NoDuplicates(tx.keys)
    requires SumTokens(x.accounts) == SumTokens(Fetch(m, tx))
    ensures Total(StoreOne(m, tx, x)) == Total(m) - tx.fee
  {
    var n := |tx.keys|;
    PutAllTotal(m, tx.keys, x.accounts, n);
    FetchedSum(m, tx, n);
    assert Fetch(m, tx)[..n] == Fetch(m, tx) && x.accounts[..n] == x.accounts;
  }

  /** An accepted transaction on distinct accounts costs exactly its fee; a failed one, nothing. */
  lemma OneTransactionConserves(run: Runtime, b: Bank, tx: Transaction)
    requires KeepsSlice(run) && tx.keys != [] && NoDuplicates(tx.keys)
    ensures
      var (b', ss) := ProcessTransactions(run, b, [tx]);
      |ss| == 1 && Total(b'.accounts) == Total(b.accounts) - if ss[0].Okay? then tx.fee else 0
  {
    hide ProcessTransactions; hide LoadAccount; hide ExecuteLoaded; hide Total; hide KeepsSlice; hide NoDuplicates;
    SingleBatch(run, b, tx);
    var x := ExecuteLoaded(run, tx, LoadAccount(b.accounts, b.sigs, tx).0);
    if x.status.Okay? {
      AcceptedOne(run, b, tx);
      StoreOneTotal(b.accounts, tx, x);
    }
  }

  function Fees(txs: seq<Transaction>, ss: seq<Status>): int
    requires |txs| == |ss|
  {
    if txs == [] then 0 else
    var n := |txs| - 1;
    Fees(txs[..n], ss[..n]) + if ss[n].Okay? then txs[n].fee else 0
  }

  lemma {:induction false} SequenceConserves(run: Runtime, b: Bank, txs: seq<Transaction>)
    requires KeepsSlice(run) && Payers(txs)
    requires forall i :: 0 <= i < |txs| ==> NoDuplicates(txs[i].keys)
    ensures var (b', ss) := OneByOne(run, b, txs);
      |ss| == |txs| && Total(b'.accounts) == Total(b.accounts) - Fees(txs, ss)
  {
    hide ProcessTransactions; hide NoDuplicates; hide KeepsSlice;
    if txs != [] {
      var n := |txs| - 1;
      SequenceConserves(run, b, txs[..n]);
      var (b', ss) := OneByOne(run, b, txs[..n]);
      OneTransactionConserves(run, b', txs[n]);
      var (b'', s) := ProcessTransactions(run, b', [txs[n]]);
      assert (ss + s)[..n] == ss && (ss + s)[n] == s[0];
    }
  }

  /**
   * Conservation: a batch on separate accounts lowers the total by exactly the fees of the
   * transactions it accepted, whatever the programs do.
   */
  lemma {:induction false} BatchConserves(run: Runtime, b: Bank, txs: seq<Transaction>)
    requires KeepsSlice(run) && Payers(txs) && Disjoint(txs) && DistinctSignatures(txs)
    requires forall i :: 0 <= i < |txs| ==> NoDuplicates(txs[i].keys)
    ensures var (b', ss) := ProcessTransactions(run, b, txs);
      Total(b'.accounts) == Total(b.accounts) - Fees(txs, ss)
  {
    BatchEqualsSequence(run, b, txs);
    SequenceConserves(run, b, txs);
  }

  // ---- Totals after any writes -------------------------------------------------------------------

  lemma {:induction false} SameBalancesSameTotal(m: Accounts, m': Accounts)
    requires forall k :: Balance(m, k) == Balance(m', k)
    ensures Total(m) == Total(m')
    decreases |m| + |m'|
  {
    if m == map[] && m' == map[] {
    } else if m != map[] {
      var k :| k in m;
      assert Balance(m, k) == Balance(m', k);
      DropBoth(m, m', k);
      SameBalancesSameTotal(m - {k}, m' - {k});
      TotalAt(m, k);
      TotalDrop(m', k);
    } else {
      var k :| k in m';
      assert Balance(m, k) == Balance(m', k);
      DropBoth(m, m', k);
      SameBalancesSameTotal(m - {k}, m' - {k});
      TotalDrop(m, k);
      TotalAt(m', k);
    }
  }

  lemma DropBoth(m: Accounts, m': Accounts, k: Pubkey)
    requires forall k :: Balance(m, k) == Balance(m', k)
    ensures forall k' :: Balance(m - {k}, k') == Balance(m' - {k}, k')
  {
    forall k' ensures Balance(m - {k}, k') == Balance(m' - {k}, k') {
      assert Balance(m, k') == Balance(m', k');
    }
  }

  lemma {:induction false} TotalDrop(m: Accounts, k: Pubkey)
    ensures Total(m) == Balance(m, k) + Total(m - {k})
  {
    if k in m {
      TotalAt(m, k);
    } else {
      assert m - {k} == m;
    }
  }

  /** When balances differ at two keys at most, so do the totals, by as much. */
  lemma {:induction false} TotalOfChange(m: Accounts, m': Accounts, a: Pubkey, b: Pubkey)
    requires forall k :: k != a && k != b ==> Balance(m', k) == Balance(m, k)
    ensures Total(m') == Total(m) + Balance(m', a) - Balance(m, a) + if a == b then 0 else Balance(m', b) - Balance(m, b)
  {
    hide Total;
    var m1 := Put(m, a, Get(m', a));
    var m2 := Put(m1, b, Get(m', b));
    TotalPut(m, a, Get(m', a));
    TotalPut(m1, b, Get(m', b));
    SameBalancesSameTotal(m2, m');
  }

  /** A key ends with what was written at its last position. */
  lemma {:induction false} PutAllLast(m: Accounts, keys: seq<Pubkey>, accs: seq<Account>, n: nat, j: nat)
    requires j < n <= |keys| && n <= |accs| && forall i :: j < i < n ==> keys[i] != keys[j]
    ensures LeftBy(PutAll(m, keys, accs, n), keys[j], accs[j])
  {
    if j < n - 1 {
      PutAllLast(m, keys, accs, n - 1, j);
    }
  }

  /** The last position of a key. */
  function LastPosition(keys: seq<Pubkey>, k: Pubkey): (j: nat)
    requires k in keys
    ensures j < |keys| && keys[j] == k && forall i :: j < i < |keys| ==> keys[i] != k
  {
    var n := |keys| - 1;
    if keys[n] == k then n else LastPosition(keys[..n], k)
  }

  lemma {:induction false} StoredBalance(m: Accounts, keys: seq<Pubkey>, accs: seq<Account>, k: Pubkey)
    requires |keys| == |accs|
    ensures Balance(PutAll(m, keys, accs, |keys|), k) == if k in keys then accs[LastPosition(keys, k)].tokens else Balance(m, k)
  {
    if k in keys {
      PutAllLast(m, keys, accs, |keys|, LastPosition(keys, k));
    } else {
      PutAllFrame(m, keys, accs, |keys|, k);
    }
  }

  // ---- Conservation needs distinct keys --------------------------------------------------------

  /** A program that moves `d` tokens between two positions of its account list. */
  function Shift(i: nat, j: nat, d: int): Runtime {
    (tx: Transaction, accs: seq<Account>) => if i < j < |accs| then Done(Credit(Credit(accs, i, -d), j, d)) else Done(accs)
  }

  lemma {:induction false} CreditSum(accs: seq<Account>, i: nat, n: int)
    requires i < |accs|
    ensures SumTokens(Credit(accs, i, n)) == SumTokens(accs) + n
  {
    var last := |accs| - 1;
    var credited := Credit(accs, i, n);
    if i < last {
      CreditSum(accs[..last], i, n);
      assert credited[..last] == Credit(accs[..last], i, n);
    } else {
      assert credited[..last] == accs[..last];
    }
  }

  function Abs(n: int): nat { if n < 0 then -n else n }

  /** What each key of `tx` holds in the bank below: enough for the fee and for the shift. */
  function Stake(tx: Transaction): int { 2 * Abs(tx.fee) + 1 }

  ghost function Holders(tx: Transaction): Accounts {
    map k | k in tx.keys :: Account(Stake(tx), [], tx.programId)
  }

  ghost function HolderBank(tx: Transaction): Bank {
    Bank(Holders(tx), [tx.lastId], map[tx.lastId := map[]], 0)
  }

  lemma HoldersLoad(tx: Transaction)
    requires tx.keys != []
    ensures Loadable(HolderBank(tx), tx)
  {
    assert tx.keys[0] in tx.keys;
  }

  /** Whatever program shifts more than the fee from `i` to `j` is accepted on these accounts. */
  lemma ShiftAccepted(run: Runtime, tx: Transaction, i: nat, j: nat)
    requires i < j < |tx.keys|
    requires var pre, d := Fetch(Holders(tx), tx), Abs(tx.fee) + 1;
      run(tx, pre) == Done(Credit(Credit(pre, i, -d), j, d))
    ensures
      var pre, d := Fetch(Holders(tx), tx), Abs(tx.fee) + 1;
      Execute(run, tx, pre) == Executed(Okay, Credit(Credit(pre, i, -d), j, d))
  {
    hide SumTokens; hide VerifyFrom;
    var pre, d := Fetch(Holders(tx), tx), Abs(tx.fee) + 1;
    CreditSum(pre, i, -d);
    CreditSum(Credit(pre, i, -d), j, d);
    var post := Credit(Credit(pre, i, -d), j, d);
    forall k | 0 <= k < |pre| ensures VerifyTransaction(tx, pre[k].programId, pre[k].tokens, post[k]).Okay? {
      assert pre[k].programId == post[k].programId == tx.programId && post[k].tokens >= 0;
    }
    assert VerifyFrom(tx, pre, post, 0).Okay?;
  }

  /** With a key listed twice, some program's accepted transaction leaves more than the fee allows. */
  lemma RepeatedKeyMints(tx: Transaction) returns (run: Runtime, b: Bank)
    requires tx.keys != [] && !NoDuplicates(tx.keys)
    ensures KeepsSlice(run)
    ensures var (b', ss) := ProcessTransactions(run, b, [tx]);
      ss == [Okay] && Total(b'.accounts) > Total(b.accounts) - tx.fee
  {
    var i, i' :| 0 <= i < i' < |tx.keys| && tx.keys[i] == tx.keys[i'];
    var j := LastPosition(tx.keys, tx.keys[i]);
    run, b := Shift(i, j, Abs(tx.fee) + 1), HolderBank(tx);
    ShiftKeepsSlice(i, j, Abs(tx.fee) + 1);
    ShiftMints(tx, i, j);
  }

  lemma ShiftMints(tx: Transaction, i: nat, j: nat)
    requires i < j < |tx.keys| && tx.keys[i] == tx.keys[j] && j == LastPosition(tx.keys, tx.keys[j])
    ensures var (b', ss) := ProcessTransactions(Shift(i, j, Abs(tx.fee) + 1), HolderBank(tx), [tx]);
      ss == [Okay] && Total(b'.accounts) > Total(HolderBank(tx).accounts) - tx.fee
  {
    hide Total; hide ProcessTransactions; hide Execute; hide PutAll; hide Credit; hide Fetch; hide Holders; hide Loadable;
    var run, b := Shift(i, j, Abs(tx.fee) + 1), HolderBank(tx);
    HoldersLoad(tx);
    SingleOutcome(run, b, tx);
    ShiftAccepted(run, tx, i, j);
    ShiftGain(tx, i, j);
  }

  lemma ShiftKeepsSlice(i: nat, j: nat, d: int)
    ensures KeepsSlice(Shift(i, j, d))
  {
  }

  lemma ShiftGain(tx: Transaction, i: nat, j: nat)
    requires i < j < |tx.keys| && tx.keys[i] == tx.keys[j] && j == LastPosition(tx.keys, tx.keys[j])
    ensures
      var pre, d, m := Fetch(Holders(tx), tx), Abs(tx.fee) + 1, Holders(tx);
      Total(PutAll(m, tx.keys, Credit(Credit(pre, i, -d), j, d), |tx.keys|)) > Total(m) - tx.fee
  {
    hide Total; hide PutAll;
    var pre, d, m := Fetch(Holders(tx), tx), Abs(tx.fee) + 1, Holders(tx);
    var post := Credit(Credit(pre, i, -d), j, d);
    var m' := PutAll(m, tx.keys, post, |tx.keys|);
    forall k ensures k != tx.keys[0] && k != tx.keys[j] ==> Balance(m', k) == Balance(m, k) {
      StoredBalance(m, tx.keys, post, k);
    }
    StoredBalance(m, tx.keys, post, tx.keys[0]);
    StoredBalance(m, tx.keys, post, tx.keys[j]);
    TotalOfChange(m, m', tx.keys[0], tx.keys[j]);
  }

  /** One transaction costs its fee when accepted and nothing otherwise. */
  ghost predicate Conserves(run: Runtime, b: Bank, tx: Transaction)
    requires tx.keys != []
  {
    var (b', ss) := ProcessTransactions(run, b, [tx]);
    Total(b'.accounts) == Total(b.accounts) - if ss == [Okay] then tx.fee else 0
  }

  /** So conservation for every program and every bank is exactly a matter of distinct keys. */
  lemma ConservationNeedsDistinctKeys(tx: Transaction)
    requires tx.keys != []
    ensures NoDuplicates(tx.keys) <==> forall run: Runtime, b: Bank :: KeepsSlice(run) ==> Conserves(run, b, tx)
  {
    if NoDuplicates(tx.keys) {
      forall run: Runtime, b: Bank | KeepsSlice(run) ensures Conserves(run, b, tx) {
        OneTransactionConserves(run, b, tx);
      }
    } else {
      var run, b := RepeatedKeyMints(tx);
      assert !Conserves(run, b, tx);
    }
  }

  // ---- Positive balances -----------------------------------------------------------------------

  predicate Positive(m: Accounts) {
    forall k :: k in m ==> m[k].tokens > 0
  }

  lemma {:induction false} PutAllPositive(m: Accounts, keys: seq<Pubkey>, accs: seq<Account>, n: nat)
    requires n <= |keys| && n <= |accs| && Positive(m)
    requires forall i :: 0 <= i < |accs| ==> accs[i].tokens >= 0
    ensures Positive(PutAll(m, keys, accs, n))
  {
    if n > 0 {
      PutAllPositive(m, keys, accs, n - 1);
    }
  }

  /** Stored balances stay positive through any batch, conflicting keys and all. */
  lemma BatchKeepsPositive(run: Runtime, b: Bank, txs: seq<Transaction>)
    requires KeepsSlice(run) && Payers(txs) && Positive(b.accounts)
    ensures Positive(ProcessTransactions(run, b, txs).0.accounts)
  {
    hide Results; hide StoreAll; hide VerifyTransaction; hide KeepsSlice;
    var xs := Results(run, b, txs);
    forall i, j | 0 <= i < |xs| && xs[i].status.Okay? && 0 <= j < |xs[i].accounts|
      ensures xs[i].accounts[j].tokens >= 0
    {
      AcceptedAccounts(run, b, txs, i);
      CheckedWrite(txs[i], Fetch(b.accounts, txs[i])[j], xs[i].accounts[j]);
    }
    StoreAllPositive(b.accounts, txs, xs);
  }

  lemma {:induction false} StoreAllPositive(m: Accounts, txs: seq<Transaction>, xs: seq<Executed>)
    requires |txs| == |xs| && Positive(m)
    requires forall i, j :: 0 <= i < |xs| && xs[i].status.Okay? && 0 <= j < |xs[i].accounts| ==>
      xs[i].accounts[j].tokens >= 0
    ensures Positive(StoreAll(m, txs, xs))
  {
    if txs != [] {
      var n := |txs| - 1;
      StoreAllPositive(m, txs[..n], xs[..n]);
      if xs[n].status.Okay? {
        PutAllPositive(StoreAll(m, txs[..n], xs[..n]), txs[n].keys, xs[n].accounts,
          Min(|txs[n].keys|, |xs[n].accounts|));
      }
    }
  }

  /** What acceptance says: the program's accounts, each checked against the ones loaded at the start. */
  lemma AcceptedAccounts(run: Runtime, b: Bank, txs: seq<Transaction>, i: nat)
    requires KeepsSlice(run) && Payers(txs) && i < |txs| && Results(run, b, txs)[i].status.Okay?
    ensures
      var tx, x, pre := txs[i], Results(run, b, txs)[i], Fetch(b.accounts, txs[i]);
      |x.accounts| == |tx.keys| &&
      forall j :: 0 <= j < |tx.keys| ==>
        VerifyTransaction(tx, pre[j].programId, pre[j].tokens, x.accounts[j]).Okay?
  {
    var ls := LoadAll(b.accounts, b.sigs, txs).0;
    LoadedAreFetched(b.accounts, b.sigs, txs, i);
  }

  lemma {:induction false} LoadedAreFetched(accounts: Accounts, sigs: Sigs, txs: seq<Transaction>, i: nat)
    requires Payers(txs) && i < |txs|
    ensures var l := LoadAll(accounts, sigs, txs).0[i];
      l.Ok? ==> l.value == Fetch(accounts, txs[i])
  {
    var n := |txs| - 1;
    if i < n {
      LoadedAreFetched(accounts, sigs, txs[..n], i);
    }
  }

  // ---- Ownership -------------------------------------------------------------------------------

  ghost predicate Untouched(m: Accounts, m': Accounts, k: Pubkey) {
    (k in m' <==> k in m) && Get(m', k) == Get(m, k)
  }

  /** Transaction `tx` wrote `k` at position `j` of its keys, leaving account `a` there. */
  ghost predicate Wrote(txs: seq<Transaction>, xs: seq<Executed>, k: Pubkey, i: nat, j: nat) {
    i < |txs| && i < |xs| && xs[i].status.Okay? &&
    j < |txs[i].keys| && j < |xs[i].accounts| && txs[i].keys[j] == k
  }

  lemma {:induction false} PutAllWriter(m: Accounts, keys: seq<Pubkey>, accs: seq<Account>, n: nat, k: Pubkey)
    requires n <= |keys| && n <= |accs|
    ensures var m' := PutAll(m, keys, accs, n);
      Untouched(m, m', k) || exists j: nat :: j < n && keys[j] == k && LeftBy(m', k, accs[j])
  {
    if n > 0 {
      PutAllWriter(m, keys, accs, n - 1, k);
    }
  }

  /** After a batch an account is either untouched or what its last writer left. */
  lemma {:induction false} LastWriter(m: Accounts, txs: seq<Transaction>, xs: seq<Executed>, k: Pubkey)
    requires |txs| == |xs|
    ensures var m' := StoreAll(m, txs, xs);
      Untouched(m, m', k) ||
      exists i: nat, j: nat :: Wrote(txs, xs, k, i, j) && LeftBy(m', k, xs[i].accounts[j])
  {
    if txs != [] {
      var n := |txs| - 1;
      var before, m' := StoreAll(m, txs[..n], xs[..n]), StoreAll(m, txs, xs);
      LastWriter(m, txs[..n], xs[..n], k);
      if xs[n].status.Okay? {
        PutAllWriter(before, txs[n].keys, xs[n].accounts, Min(|txs[n].keys|, |xs[n].accounts|), k);
      }
      if Untouched(before, m', k) {
        if !Untouched(m, before, k) {
          var i: nat, j: nat :| Wrote(txs[..n], xs[..n], k, i, j) && LeftBy(before, k, xs[..n][i].accounts[j]);
          assert Wrote(txs, xs, k, i, j) && LeftBy(m', k, xs[i].accounts[j]);
        }
      } else {
        var j: nat :| j < Min(|txs[n].keys|, |xs[n].accounts|) && txs[n].keys[j] == k && LeftBy(m', k, xs[n].accounts[j]);
        assert Wrote(txs, xs, k, n, j);
      }
    }
  }

  /** Some accepted transaction of the batch ran under the account's owner or charged it a fee. */
  ghost predicate SpendingAllowed(b: Bank, txs: seq<Transaction>, xs: seq<Executed>, k: Pubkey) {
    exists i: nat, j: nat :: Wrote(txs, xs, k, i, j) &&
      (txs[i].programId == Get(b.accounts, k).programId || (j == 0 && txs[i].fee > 0))
  }

  ghost predicate Reassigned(b: Bank, txs: seq<Transaction>, xs: seq<Executed>, k: Pubkey) {
    Get(b.accounts, k).programId == SYSTEM_PROGRAM_ID &&
    exists i: nat, j: nat :: Wrote(txs, xs, k, i, j) && txs[i].programId == SYSTEM_PROGRAM_ID
  }

  /**
   * Ownership, for any programs and any batch, conflicting keys included: an account ends a batch
   * poorer only if some accepted transaction naming it ran under its owning program or charged it
   * the fee; and it ends under another owner only if the system program owned it and a system
   * transaction naming it was accepted.
   */
  lemma OnlyOwnersSpend(run: Runtime, b: Bank, txs: seq<Transaction>, k: Pubkey)
    requires KeepsSlice(run) && Payers(txs)
    ensures
      var xs := Results(run, b, txs);
      var after := ProcessTransactions(run, b, txs).0.accounts;
      (Balance(after, k) < Balance(b.accounts, k) ==> SpendingAllowed(b, txs, xs, k)) &&
      (k in after && after[k].programId != Get(b.accounts, k).programId ==> Reassigned(b, txs, xs, k))
  {
    hide StoreAll; hide Results; hide VerifyTransaction;
    var xs := Results(run, b, txs);
    var after := StoreAll(b.accounts, txs, xs);
    LastWriter(b.accounts, txs, xs, k);
    if !Untouched(b.accounts, after, k) {
      var i: nat, j: nat :| Wrote(txs, xs, k, i, j) && LeftBy(after, k, xs[i].accounts[j]);
      AcceptedAccounts(run, b, txs, i);
      CheckedWrite(txs[i], Fetch(b.accounts, txs[i])[j], xs[i].accounts[j]);
      assert Balance(after, k) == xs[i].accounts[j].tokens;
    }
  }

  /** What an accepted transaction leaves: each key as written at its last position, the rest alone. */
  lemma AcceptedWrites(run: Runtime, b: Bank, tx: Transaction)
    requires KeepsSlice(run) && tx.keys != [] && ProcessTransactions(run, b, [tx]).1 == [Okay]
    ensures
      var pre, after := Fetch(b.accounts, tx), ProcessTransactions(run, b, [tx]).0.accounts;
      run(tx, pre).Done? &&
      var post := run(tx, pre).accounts;
      |post| == |tx.keys| && (forall i :: 0 <= i < |post| ==> post[i].tokens >= 0) &&
      (forall k :: k in tx.keys ==> LeftBy(after, k, post[LastPosition(tx.keys, k)])) &&
      (forall k :: k !in tx.keys ==> Get(after, k) == Get(b.accounts, k))
  {
    hide PutAll; hide SumTokens; hide ProcessTransactions;
    SingleOutcome(run, b, tx);
    var pre := Fetch(b.accounts, tx);
    var x := Execute(run, tx, pre);
    var after := StoreOne(b.accounts, tx, x);
    assert |x.accounts| == |tx.keys|;
    forall i | 0 <= i < |x.accounts| ensures x.accounts[i].tokens >= 0 {
      assert VerifyTransaction(tx, pre[i].programId, pre[i].tokens, x.accounts[i]).Okay?;
    }
    forall k ensures k in tx.keys ==> LeftBy(after, k, x.accounts[LastPosition(tx.keys, k)]) {
      if k in tx.keys {
        PutAllLast(b.accounts, tx.keys, x.accounts, |tx.keys|, LastPosition(tx.keys, k));
      }
    }
    forall k ensures k !in tx.keys ==> Get(after, k) == Get(b.accounts, k) {
      if k !in tx.keys {
        PutAllFrame(b.accounts, tx.keys, x.accounts, |tx.keys|, k);
      }
    }
  }

  /** What the per-account check leaves possible. */
  lemma CheckedWrite(tx: Transaction, pre: Account, post: Account)
    requires VerifyTransaction(tx, pre.programId, pre.tokens, post).Okay?
    ensures post.tokens < pre.tokens ==> tx.programId == pre.programId
    ensures post.programId != pre.programId ==> tx.programId == SYSTEM_PROGRAM_ID == pre.programId
    ensures post.tokens >= 0
  {
  }
}
