/**
 * The transaction processor: accounts, the ring of recent entry ids, and the signatures seen under
 * each. The functions are the specification; the class at the end updates the same state in place.
 * Programs are any deterministic function of a transaction and its loaded accounts.
 */
module Processor {
  import opened Base

  const MAX_ENTRY_IDS: nat := 1024 * 16

  datatype Account = Account(tokens: int, userdata: seq<byte>, programId: Pubkey)

  const DEFAULT_ACCOUNT := Account(0, [], DEFAULT_PUBKEY)
  const SYSTEM_PROGRAM_ID := DEFAULT_PUBKEY

  datatype TxError =
    | AccountNotFound
    | InsufficientFundsForFee
    | DuplicateSignature
    | LastIdNotFound
    | LedgerVerificationFailed
    | UnbalancedTransaction
    | ResultWithNegativeTokens
    | UnknownContractId
    | ModifiedContractId
    | ExternalAccountTokenSpend
    | ProgramRuntimeError
    | ProgramPanic            // the program indexed past its accounts; nothing of this transaction is stored

  datatype Status = Okay | Failed(error: TxError)

  type Accounts = map<Pubkey, Account>
  type Sigs = map<Hash, map<Signature, Status>>

  /** What a program leaves: its accounts, or no effect and an error. */
  datatype Outcome = Done(accounts: seq<Account>) | Fault(error: TxError)
  type Runtime = (Transaction, seq<Account>) -> Outcome

  /** Programs change the accounts they are given; they cannot lengthen or shorten the slice. */
  ghost predicate KeepsSlice(run: Runtime) {
    forall tx: Transaction, accs: seq<Account> :: run(tx, accs).Done? ==> |run(tx, accs).accounts| == |accs|
  }

  datatype Bank = Bank(accounts: Accounts, ring: seq<Hash>, sigs: Sigs, count: nat)

  // ---- Entry ids and signatures ----------------------------------------------------------------

  function Register(b: Bank, id: Hash): Bank {
    var full := |b.ring| >= MAX_ENTRY_IDS;
    var ring := if full then b.ring[1..] else b.ring;
    var sigs := if full then b.sigs - {b.ring[0]} else b.sigs;
    b.(ring := ring + [id], sigs := sigs[id := map[]])
  }

  function RegisterAll(b: Bank, ids: seq<Hash>): Bank {
    if ids == [] then b else Register(RegisterAll(b, ids[..|ids| - 1]), ids[|ids| - 1])
  }

  function Reserve(sigs: Sigs, tx: Transaction): (Status, Sigs) {
    if tx.lastId !in sigs then (Failed(LastIdNotFound), sigs)
    else if tx.signature in sigs[tx.lastId] then (Failed(DuplicateSignature), sigs)
    else (Okay, sigs[tx.lastId := sigs[tx.lastId][tx.signature := Okay]])
  }

  function UpdateStatus(sigs: Sigs, tx: Transaction, s: Status): Sigs {
    if tx.lastId in sigs then sigs[tx.lastId := sigs[tx.lastId][tx.signature := s]] else sigs
  }

  function UpdateAll(sigs: Sigs, txs: seq<Transaction>, ss: seq<Status>): Sigs
    requires |txs| == |ss|
  {
    if txs == [] then sigs else
    var n := |txs| - 1;
    UpdateStatus(UpdateAll(sigs, txs[..n], ss[..n]), txs[n], ss[n])
  }

  // ---- Loading ---------------------------------------------------------------------------------

  function Get(accounts: Accounts, key: Pubkey): Account {
    if key in accounts then accounts[key] else DEFAULT_ACCOUNT
  }

  /** The transaction's accounts in key order, the fee already taken from the first. */
  function Fetch(accounts: Accounts, tx: Transaction): (accs: seq<Account>)
    ensures |accs| == |tx.keys|
  {
    seq(|tx.keys|, i requires 0 <= i < |tx.keys| =>
      var a := Get(accounts, tx.keys[i]);
      if i == 0 then a.(tokens := a.tokens - tx.fee) else a)
  }

  function LoadAccount(accounts: Accounts, sigs: Sigs, tx: Transaction): (Result<seq<Account>, TxError>, Sigs)
    requires tx.keys != []
  {
    if tx.keys[0] !in accounts then (Err(AccountNotFound), sigs)
    else if accounts[tx.keys[0]].tokens < tx.fee then (Err(InsufficientFundsForFee), sigs)
    else
      match Reserve(sigs, tx)
      case (Failed(e), sigs') => (Err(e), sigs')
      case (Okay, sigs') => (Ok(Fetch(accounts, tx)), sigs')
  }

  /** The source indexes `keys[0]` unconditionally. */
  predicate Payers(txs: seq<Transaction>) {
    forall i :: 0 <= i < |txs| ==> txs[i].keys != []
  }

  type Loaded = Result<seq<Account>, TxError>

  function LoadAll(accounts: Accounts, sigs: Sigs, txs: seq<Transaction>): (r: (seq<Loaded>, Sigs))
    requires Payers(txs)
    ensures |r.0| == |txs|
  {
    if txs == [] then ([], sigs) else
    var n := |txs| - 1;
    var (before, sigs1) := LoadAll(accounts, sigs, txs[..n]);
    var (l, sigs2) := LoadAccount(accounts, sigs1, txs[n]);
    (before + [l], sigs2)
  }

  // ---- Executing -------------------------------------------------------------------------------

  function SumTokens(accs: seq<Account>): int {
    if accs == [] then 0 else SumTokens(accs[..|accs| - 1]) + accs[|accs| - 1].tokens
  }

  function Credit(accs: seq<Account>, i: nat, n: int): (post: seq<Account>)
    requires i < |accs|
    ensures |post| == |accs|
  {
    accs[i := accs[i].(tokens := accs[i].tokens + n)]
  }

  function VerifyTransaction(tx: Transaction, preProgramId: Pubkey, preTokens: int, a: Account): Status {
    if !(preProgramId == a.programId || (tx.programId == SYSTEM_PROGRAM_ID && preProgramId == SYSTEM_PROGRAM_ID))
    then Failed(ModifiedContractId)
    else if tx.programId != a.programId && preTokens > a.tokens then Failed(ExternalAccountTokenSpend)
    else if a.tokens < 0 then Failed(ResultWithNegativeTokens)
    else Okay
  }

  /** The first account to fail its check decides. */
  function VerifyFrom(tx: Transaction, pre: seq<Account>, post: seq<Account>, i: nat): (s: Status)
    ensures s.Okay? <==> forall j :: i <= j < |pre| && j < |post| ==>
      VerifyTransaction(tx, pre[j].programId, pre[j].tokens, post[j]).Okay?
    decreases |pre| - i
  {
    if i >= |pre| || i >= |post| then Okay else
    match VerifyTransaction(tx, pre[i].programId, pre[i].tokens, post[i])
    case Failed(e) => Failed(e)
    case Okay => VerifyFrom(tx, pre, post, i + 1)
  }

  datatype Executed = Executed(status: Status, accounts: seq<Account>)

  function Execute(run: Runtime, tx: Transaction, pre: seq<Account>): Executed {
    match run(tx, pre)
    case Fault(e) => Executed(Failed(e), pre)
    case Done(post) =>
      match VerifyFrom(tx, pre, post, 0)
      case Failed(e) => Executed(Failed(e), post)
      case Okay =>
        if SumTokens(pre) != SumTokens(post) then Executed(Failed(UnbalancedTransaction), post)
        else Executed(Okay, post)
  }

  function ExecuteLoaded(run: Runtime, tx: Transaction, l: Loaded): Executed {
    match l
    case Err(e) => Executed(Failed(e), [])
    case Ok(pre) => Execute(run, tx, pre)
  }

  function ExecuteAll(run: Runtime, txs: seq<Transaction>, ls: seq<Loaded>): (xs: seq<Executed>)
    requires |txs| == |ls|
    ensures |xs| == |txs|
  {
    seq(|txs|, i requires 0 <= i < |txs| => ExecuteLoaded(run, txs[i], ls[i]))
  }

  function Statuses(xs: seq<Executed>): (ss: seq<Status>)
    ensures |ss| == |xs|
  {
    seq(|xs|, i requires 0 <= i < |xs| => xs[i].status)
  }

  // ---- Storing ---------------------------------------------------------------------------------

  /** Writes one account; an account with no tokens left is forgotten. */
  function Put(accounts: Accounts, key: Pubkey, a: Account): Accounts {
    if a.tokens == 0 then accounts - {key} else accounts[key := a]
  }

  function PutAll(accounts: Accounts, keys: seq<Pubkey>, accs: seq<Account>, n: nat): Accounts
    requires n <= |keys| && n <= |accs|
  {
    if n == 0 then accounts else Put(PutAll(accounts, keys, accs, n - 1), keys[n - 1], accs[n - 1])
  }

  function StoreOne(accounts: Accounts, tx: Transaction, x: Executed): Accounts {
    if x.status.Failed? then accounts
    else PutAll(accounts, tx.keys, x.accounts, Min(|tx.keys|, |x.accounts|))
  }

  function StoreAll(accounts: Accounts, txs: seq<Transaction>, xs: seq<Executed>): Accounts
    requires |txs| == |xs|
  {
    if txs == [] then accounts else
    var n := |txs| - 1;
    StoreOne(StoreAll(accounts, txs[..n], xs[..n]), txs[n], xs[n])
  }

  function CountOkay(ss: seq<Status>): nat {
    if ss == [] then 0 else CountOkay(ss[..|ss| - 1]) + if ss[|ss| - 1].Okay? then 1 else 0
  }

  // ---- Batches, entries ------------------------------------------------------------------------

  /** Everything a batch computes before it is stored. */
  function Results(run: Runtime, b: Bank, txs: seq<Transaction>): (xs: seq<Executed>)
    requires Payers(txs)
    ensures |xs| == |txs|
  {
    ExecuteAll(run, txs, LoadAll(b.accounts, b.sigs, txs).0)
  }

  function ProcessTransactions(run: Runtime, b: Bank, txs: seq<Transaction>): (r: (Bank, seq<Status>))
    requires Payers(txs)
    ensures |r.1| == |txs|
  {
    var xs := Results(run, b, txs);
    var ss := Statuses(xs);
    (Bank(
       StoreAll(b.accounts, txs, xs),
       b.ring,
       UpdateAll(LoadAll(b.accounts, b.sigs, txs).1, txs, ss),
       b.count + CountOkay(ss)),
     ss)
  }

  function FirstFailure(ss: seq<Status>): (s: Status)
    ensures s.Okay? <==> forall i :: 0 <= i < |ss| ==> ss[i].Okay?
  {
    if ss == [] then Okay else if ss[0].Failed? then ss[0] else FirstFailure(ss[1..])
  }

  /** A failed transaction leaves the batch applied and the entry's id unregistered. */
  function ProcessEntry(run: Runtime, b: Bank, e: Entry): (Bank, Status)
    requires Payers(e.transactions)
  {
    if e.transactions == [] then (Register(b, e.id), Okay) else
    var (b', ss) := ProcessTransactions(run, b, e.transactions);
    match FirstFailure(ss)
    case Failed(err) => (b', Failed(err))
    case Okay => (Register(b', e.id), Okay)
  }

  predicate AllPayers(es: seq<Entry>) {
    forall i :: 0 <= i < |es| ==> Payers(es[i].transactions)
  }

  /** Stops at the first entry that fails. */
  function ProcessEntries(run: Runtime, b: Bank, es: seq<Entry>): (Bank, Status)
    requires AllPayers(es)
  {
    if es == [] then (b, Okay) else
    var n := |es| - 1;
    var (b', s) := ProcessEntries(run, b, es[..n]);
    if s.Failed? then (b', s) else ProcessEntry(run, b', es[n])
  }

  // ---- The state in place ----------------------------------------------------------------------

  class TransactionProcessor {
    const run: Runtime
    var accounts: Accounts
    var lastIds: seq<Hash>
    var lastIdsSigs: Sigs
    var transactionCount: nat

    constructor (run: Runtime)
      ensures this.run == run && View() == Bank(map[], [], map[], 0)
    {
      this.run := run;
      accounts, lastIds, lastIdsSigs, transactionCount := map[], [], map[], 0;
    }

    ghost function View(): Bank
      reads this
    {
      Bank(accounts, lastIds, lastIdsSigs, transactionCount)
    }

    method RegisterEntryId(id: Hash)
      modifies this`lastIds, this`lastIdsSigs
      ensures View() == Register(old(View()), id)
    {
      if |lastIds| >= MAX_ENTRY_IDS {
        var oldest := lastIds[0];
        lastIds := lastIds[1..];
        lastIdsSigs := lastIdsSigs - {oldest};
      }
      lastIdsSigs := lastIdsSigs[id := map[]];
      lastIds := lastIds + [id];
    }

    method ReserveSignature(tx: Transaction) returns (s: Status)
      modifies this`lastIdsSigs
      ensures (s, lastIdsSigs) == Reserve(old(lastIdsSigs), tx)
    {
      if tx.lastId !in lastIdsSigs {
        return Failed(LastIdNotFound);
      }
      var signatures := lastIdsSigs[tx.lastId];
      if tx.signature in signatures {
        return Failed(DuplicateSignature);
      }
      lastIdsSigs := lastIdsSigs[tx.lastId := signatures[tx.signature := Okay]];
      s := Okay;
    }

    method LoadOne(tx: Transaction) returns (l: Loaded)
      requires tx.keys != []
      modifies this`lastIdsSigs
      ensures (l, lastIdsSigs) == LoadAccount(accounts, old(lastIdsSigs), tx)
    {
      if tx.keys[0] !in accounts {
        return Err(AccountNotFound);
      }
      if accounts[tx.keys[0]].tokens < tx.fee {
        return Err(InsufficientFundsForFee);
      }
      var called := seq(|tx.keys|, i requires 0 <= i < |tx.keys| reads this => Get(accounts, tx.keys[i]));
      var s := ReserveSignature(tx);
      if s.Failed? {
        return Err(s.error);
      }
      called := called[0 := called[0].(tokens := called[0].tokens - tx.fee)];
      assert called == Fetch(accounts, tx);
      l := Ok(called);
    }

    method LoadAccounts(txs: seq<Transaction>) returns (ls: seq<Loaded>)
      requires Payers(txs)
      modifies this`lastIdsSigs
      ensures (ls, lastIdsSigs) == LoadAll(accounts, old(lastIdsSigs), txs)
    {
      ls := [];
      for i := 0 to |txs|
        invariant (ls, lastIdsSigs) == LoadAll(accounts, old(lastIdsSigs), txs[..i])
      {
        assert txs[..i + 1][..i] == txs[..i];
        var l := LoadOne(txs[i]);
        ls := ls + [l];
      }
      assert txs[..|txs|] == txs;
    }

    method StoreAccounts(txs: seq<Transaction>, xs: seq<Executed>)
      requires |txs| == |xs|
      modifies this`accounts
      ensures accounts == StoreAll(old(accounts), txs, xs)
    {
      for i := 0 to |txs|
        invariant accounts == StoreAll(old(accounts), txs[..i], xs[..i])
      {
        assert txs[..i + 1][..i] == txs[..i] && xs[..i + 1][..i] == xs[..i];
        if xs[i].status.Failed? {
          continue;
        }
        var keys, accs := txs[i].keys, xs[i].accounts;
        ghost var before := accounts;
        for j := 0 to Min(|keys|, |accs|)
          invariant accounts == PutAll(before, keys, accs, j)
        {
          if accs[j].tokens == 0 {
            accounts := accounts - {keys[j]};
          } else {
            accounts := accounts[keys[j] := accs[j]];
          }
        }
      }
      assert txs[..|txs|] == txs && xs[..|xs|] == xs;
    }

    method UpdateTransactionStatuses(txs: seq<Transaction>, ss: seq<Status>)
      requires |txs| == |ss|
      modifies this`lastIdsSigs
      ensures lastIdsSigs == UpdateAll(old(lastIdsSigs), txs, ss)
    {
      for i := 0 to |txs|
        invariant lastIdsSigs == UpdateAll(old(lastIdsSigs), txs[..i], ss[..i])
      {
        assert txs[..i + 1][..i] == txs[..i] && ss[..i + 1][..i] == ss[..i];
        var tx := txs[i];
        if tx.lastId in lastIdsSigs {
          lastIdsSigs := lastIdsSigs[tx.lastId := lastIdsSigs[tx.lastId][tx.signature := ss[i]]];
        }
      }
      assert txs[..|txs|] == txs && ss[..|ss|] == ss;
    }

    /** Loads all, executes all, stores what succeeded, then records every status. */
    method ProcessBatch(txs: seq<Transaction>) returns (ss: seq<Status>)
      requires Payers(txs)
      modifies this
      ensures (View(), ss) == ProcessTransactions(run, old(View()), txs)
    {
      var ls := LoadAccounts(txs);
      var xs := ExecuteAll(run, txs, ls);
      ss := Statuses(xs);
      StoreAccounts(txs, xs);
      UpdateTransactionStatuses(txs, ss);
      var txCount := 0;
      for i := 0 to |ss|
        invariant txCount == CountOkay(ss[..i])
      {
        assert ss[..i + 1][..i] == ss[..i];
        if ss[i].Okay? {
          txCount := txCount + 1;
        }
      }
      assert ss[..|ss|] == ss;
      transactionCount := transactionCount + txCount;
    }

    method ProcessOneEntry(e: Entry) returns (s: Status)
      requires Payers(e.transactions)
      modifies this
      ensures (View(), s) == ProcessEntry(run, old(View()), e)
    {
      if e.transactions != [] {
        var ss := ProcessBatch(e.transactions);
        s := FirstFailure(ss);
        if s.Failed? {
          return;
        }
      }
      RegisterEntryId(e.id);
      s := Okay;
    }
  }
}
