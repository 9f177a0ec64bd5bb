/**
 * Which batches of contract calls keep escrow: exactly those of proper calls in which none lists a
 * contract that an earlier one can act on. The cancel and the witness of one plan are such a pair.
 */
module EscrowRaces {
  import opened Base
  import opened LittleEndian
  import opened Codecs
  import opened FinPlans
  import opened FinPlanProgram
  import opened Processor
  import opened Batches
  import opened BatchAccounts
  import opened Tokens
  import opened Programs
  import opened Escrow
  import opened EscrowRuns

  // ---- Two effects in one batch ----------------------------------------------------------------------

  /** Only `i` and `j` of the batch do anything to contracts. */
  ghost predicate OnlyThese(es: seq<Effect>, i: nat, j: nat) {
    forall m :: 0 <= m < |es| && m != i && m != j ==> es[m] == Nothing
  }

  lemma {:induction false} EnterTwo(book: Book, paid: Payouts, txs: seq<Transaction>, es: seq<Effect>, i: nat, j: nat, n: nat)
    requires n <= |txs| == |es| && i < j < |txs| && OnlyThese(es, i, j)
    ensures var r := EnterAll(book, paid, txs, es, n);
      (n <= i ==> r == Some((book, paid))) &&
      (i < n && r.Some? ==>
        Allowed(book, ContractKey(txs[i]), es[i]) &&
        var mid := Enter(book, ContractKey(txs[i]), txs[i].fee, es[i]);
        (n <= j ==> r.value.0 == mid) &&
        (n > j ==> Allowed(mid, ContractKey(txs[j]), es[j]) &&
                   r.value.0 == Enter(mid, ContractKey(txs[j]), txs[j].fee, es[j])))
  {
    if n > 0 {
      EnterTwo(book, paid, txs, es, i, j, n - 1);
      assert paid + [] == paid;
    }
  }

  /** A record and a backed account determine what the account holds. */
  lemma BackedSame(f: Formats, a: Account, book: Book, a': Account, book': Book, k: Pubkey)
    requires Backed(f, a, book, k) && Backed(f, a', book', k) && SameAt(book, book', k)
    ensures ContractIn(f, a) == ContractIn(f, a')
  {
  }

  /** `i` and `j` would each be accepted by itself, and nothing else of the batch can be loaded. */
  ghost predicate TwoAlone(r: Registry, b: Bank, txs: seq<Transaction>, i: nat, j: nat) {
    Payers(txs) && DistinctSignatures(txs) && i < j < |txs| &&
    (forall m :: 0 <= m < |txs| && m != i && m != j ==> !Loadable(b, txs[m])) &&
    ProcessTransactions(Dispatch(r), b, [txs[i]]).1 == [Okay] && ProcessTransactions(Dispatch(r), b, [txs[j]]).1 == [Okay]
  }

  lemma TwoAloneEffects(r: Registry, b: Bank, txs: seq<Transaction>, i: nat, j: nat)
    requires TwoAlone(r, b, txs, i, j)
    ensures var ss, es := ProcessTransactions(Dispatch(r), b, txs).1, Effects(r, b, txs);
      ss[i].Okay? && ss[j].Okay? && OnlyThese(es, i, j) &&
      (forall m :: j < m < |txs| ==> ss[m].Failed?) &&
      es[i] == Happened(r, b, txs[i]) && es[j] == Happened(r, b, txs[j])
  {
    hide ProcessTransactions; hide Dispatch; hide Happened; hide EffectOf; hide Fetch; hide DistinctSignatures;
    AcceptedInBatch(Dispatch(r), b, txs, i);
    AcceptedInBatch(Dispatch(r), b, txs, j);
    EffectIsHappened(r, b, txs, i);
    EffectIsHappened(r, b, txs, j);
    var ss := ProcessTransactions(Dispatch(r), b, txs).1;
    forall m | 0 <= m < |txs| && m != i && m != j ensures ss[m].Failed? {
      if ss[m].Okay? {
        AcceptedAlone(Dispatch(r), b, txs, m);
        assert false;
      }
    }
  }

  /** The batch went against the book, or left an account the book does not describe. */
  ghost predicate Breaks(r: Registry, b: Bank, book: Book, txs: seq<Transaction>)
    requires Payers(txs)
  {
    var entered := EnterAll(book, [], txs, Effects(r, b, txs), |txs|);
    entered.None? || !Inv(r.formats, ProcessTransactions(Dispatch(r), b, txs).0.accounts, entered.value.0)
  }

  /** A later transaction that only lists the contract stores it as it was before the earlier one acted. */
  lemma StaleCopyBreaks(r: Registry, b: Bank, book: Book, txs: seq<Transaction>, i: nat, j: nat)
    requires GoodFormats(r.formats) && KeepsSlice(r.other) && ForgesNothing(r.formats, r.other)
    requires TwoAlone(r, b, txs, i, j) && Inv(r.formats, b.accounts, book)
    requires Careful(r, b, book, txs[i]) && Careful(r, b, book, txs[j])
    requires var k := ContractKey(txs[i]);
      k in txs[j].keys && (Happened(r, b, txs[j]) == Nothing || ContractKey(txs[j]) != k) &&
      ContractIn(r.formats, Get(ProcessTransactions(Dispatch(r), b, [txs[i]]).0.accounts, k)) !=
        ContractIn(r.formats, Get(b.accounts, k))
    ensures Breaks(r, b, book, txs)
  {
    hide ProcessTransactions; hide Dispatch; hide Effects; hide Careful; hide GoodFormats; hide KeepsSlice; hide ForgesNothing;
    hide Happened; hide Allowed; hide Enter; hide Backed; hide EnterAll; hide Get; hide ContractIn;
    var f, k, es := r.formats, ContractKey(txs[i]), Effects(r, b, txs);
    TwoAloneEffects(r, b, txs, i, j);
    EnterTwo(book, [], txs, es, i, j, |txs|);
    TransactionKeepsEscrow(r, b, book, txs[i]);
    TransactionKeepsEscrow(r, b, book, txs[j]);
    DispatchKeepsSlice(r);
    BatchAccount(Dispatch(r), b, txs, k);
    var after := ProcessTransactions(Dispatch(r), b, txs).0.accounts;
    var one := ProcessTransactions(Dispatch(r), b, [txs[i]]).0.accounts;
    var two := ProcessTransactions(Dispatch(r), b, [txs[j]]).0.accounts;
    assert Get(after, k) == Get(two, k);
    var bookI, bookJ := Enter(book, k, txs[i].fee, es[i]), Enter(book, ContractKey(txs[j]), txs[j].fee, es[j]);
    assert Backed(f, Get(b.accounts, k), book, k) && Backed(f, Get(two, k), bookJ, k) && Backed(f, Get(one, k), bookI, k);
    EnterElsewhere(book, ContractKey(txs[j]), txs[j].fee, es[j], k);
    BackedSame(f, Get(b.accounts, k), book, Get(two, k), bookJ, k);
    var entered := EnterAll(book, [], txs, es, |txs|);
    if entered.Some? && Inv(f, after, entered.value.0) {
      EnterElsewhere(bookI, ContractKey(txs[j]), txs[j].fee, es[j], k);
      assert Backed(f, Get(after, k), entered.value.0, k);
      BackedSame(f, Get(one, k), bookI, Get(after, k), entered.value.0, k);
    }
  }

  // ---- The pairs that race --------------------------------------------------------------------------

  /** Some bank lets both calls run: neither payer is a contract acted on, and no contract is opened and witnessed at once. */
  predicate Compatible(f: Formats, t: Transaction, t': Transaction) {
    Acts(f, t) && CanRun(f, t) && CanRun(f, t') && t'.keys != [] && t.keys[1] != t.keys[0] && t.keys[1] != t'.keys[0] &&
    (Acts(f, t') ==>
      t'.keys[1] != t.keys[0] && t'.keys[1] != t'.keys[0] &&
      (t'.keys[1] == t.keys[1] ==> OpensContract(f, t) == OpensContract(f, t')))
  }

  /** `t'`, later in the batch, lists the contract `t` acts on. */
  predicate Stale(f: Formats, t: Transaction, t': Transaction) {
    Compatible(f, t, t') && t.keys[1] in t'.keys
  }

  ghost predicate BatchSafe(r: Registry, txs: seq<Transaction>)
    requires Payers(txs)
  {
    forall b: Bank, book: Book :: Inv(r.formats, b.accounts, book) ==> !Breaks(r, b, book, txs)
  }

  // ---- Without a race nothing breaks --------------------------------------------------------------------

  lemma HoldsUserdata(f: Formats, pre: Account, post: Account, e: Effect)
    requires ContractChange(f, pre, post, e) && e != Nothing
    ensures pre.userdata != [] && (e.Opened? <==> ContractIn(f, pre).None?)
  {
    if pre.userdata == [] {
      EmptyUserdataIsNoContract(f, pre);
    }
  }

  /** An accepted call: its payer holds no userdata; if it can act it does, on an account that holds some. */
  lemma AcceptedCallKeys(r: Registry, b: Bank, tx: Transaction)
    requires GoodFormats(r.formats) && KeepsSlice(r.other) && IsCall(tx) && tx.keys != []
    requires ProcessTransactions(Dispatch(r), b, [tx]).1 == [Okay]
    ensures Get(b.accounts, tx.keys[0]).userdata == [] && CanRun(r.formats, tx)
    ensures Happened(r, b, tx) != Nothing <==> Acts(r.formats, tx)
    ensures Acts(r.formats, tx) ==>
      Get(b.accounts, tx.keys[1]).userdata != [] &&
      (OpensContract(r.formats, tx) <==> ContractIn(r.formats, Get(b.accounts, tx.keys[1])).None?)
  {
    hide ProcessTransactions; hide Dispatch; hide GoodFormats; hide KeepsSlice; hide ContractIn; hide Process; hide Execute;
    var f, pre := r.formats, Fetch(b.accounts, tx);
    AcceptedCall(r, b, tx);
    AcceptedCanRun(r, b, tx);
    ProcessEffect(f, tx, pre);
    AcceptedActs(f, tx, pre);
    if Acts(f, tx) {
      HoldsUserdata(f, pre[1], Process(f, tx, pre).accounts[1], EffectOf(f, tx, pre));
    }
  }

  lemma AcceptedActs(f: Formats, tx: Transaction, pre: seq<Account>)
    requires |pre| == |tx.keys| && Process(f, tx, pre).Done?
    ensures EffectOf(f, tx, pre) != Nothing <==> Acts(f, tx)
  {
  }

  /** Two calls that are both accepted from one bank can run together. */
  lemma BothRunCompatible(r: Registry, b: Bank, t: Transaction, t': Transaction)
    requires GoodFormats(r.formats) && KeepsSlice(r.other) && IsCall(t) && IsCall(t') && t.keys != [] && t'.keys != []
    requires ProcessTransactions(Dispatch(r), b, [t]).1 == [Okay] && ProcessTransactions(Dispatch(r), b, [t']).1 == [Okay]
    requires Acts(r.formats, t)
    ensures Compatible(r.formats, t, t')
  {
    hide ProcessTransactions; hide Dispatch; hide GoodFormats; hide KeepsSlice; hide ContractIn; hide Happened;
    hide Acts; hide CanRun; hide OpensContract; hide Get;
    AcceptedCallKeys(r, b, t);
    AcceptedCallKeys(r, b, t');
    ActsHasContract(r.formats, t);
    ActsHasContract(r.formats, t');
  }

  lemma NoRaceIsClean(r: Registry, b: Bank, txs: seq<Transaction>)
    requires GoodFormats(r.formats) && KeepsSlice(r.other) && Payers(txs)
    requires forall i :: 0 <= i < |txs| ==> IsCall(txs[i])
    requires forall i, j :: 0 <= i < j < |txs| ==> !Stale(r.formats, txs[i], txs[j])
    ensures Clean(txs, ProcessTransactions(Dispatch(r), b, txs).1, Effects(r, b, txs))
  {
    hide ProcessTransactions; hide Dispatch; hide GoodFormats; hide KeepsSlice; hide Effects; hide ContractIn; hide Happened;
    hide Acts; hide CanRun; hide OpensContract; hide Get; hide VerifyPlan; hide RepeatsContract;
    var ss, es := ProcessTransactions(Dispatch(r), b, txs).1, Effects(r, b, txs);
    forall i, j | 0 <= i < j < |txs| && es[i] != Nothing && ss[j].Okay? ensures ContractKey(txs[i]) !in txs[j].keys {
      EffectIsHappened(r, b, txs, i);
      EffectIsHappened(r, b, txs, j);
      AcceptedAlone(Dispatch(r), b, txs, i);
      AcceptedAlone(Dispatch(r), b, txs, j);
      AcceptedCallKeys(r, b, txs[i]);
      BothRunCompatible(r, b, txs[i], txs[j]);
      ActsHasContract(r.formats, txs[i]);
      assert !Stale(r.formats, txs[i], txs[j]);
    }
  }

  lemma ActsHasContract(f: Formats, tx: Transaction)
    ensures Acts(f, tx) ==> |tx.keys| >= 2
  {
  }

  // ---- A bank in which both racers run ------------------------------------------------------------------

  /** Every call but a vote needs a second account. */
  predicate EnoughKeys(f: Formats, tx: Transaction) {
    |tx.keys| >= 2 || (|tx.keys| == 1 && f.instruction(tx.userdata).Some? && f.instruction(tx.userdata).value.NewVote?)
  }

  /** A call that leaves a readable plan or nothing, from a payer that owns enough. */
  ghost predicate Payable(r: Registry, b: Bank, tx: Transaction, cost: int) {
    IsCall(tx) && tx.keys != [] && Loadable(b, tx) && Positive(b.accounts) &&
    var a := Get(b.accounts, tx.keys[0]);
    a.userdata == [] && a.programId == BUDGET_PROGRAM_ID && a.tokens >= tx.fee + cost
  }

  lemma {:induction false} DoneIsAccepted(r: Registry, b: Bank, tx: Transaction, post: seq<Account>)
    requires IsCall(tx) && tx.keys != [] && Loadable(b, tx) && Process(r.formats, tx, Fetch(b.accounts, tx)) == Done(post)
    requires var pre := Fetch(b.accounts, tx);
      |post| == |pre| && SumTokens(post) == SumTokens(pre) &&
      forall i :: 0 <= i < |pre| ==> VerifyTransaction(tx, pre[i].programId, pre[i].tokens, post[i]).Okay?
    ensures ProcessTransactions(Dispatch(r), b, [tx]).1 == [Okay]
    ensures Happened(r, b, tx) == EffectOf(r.formats, tx, Fetch(b.accounts, tx))
  {
    hide ProcessTransactions; hide Process; hide Dispatch; hide SumTokens; hide VerifyTransaction; hide EffectOf; hide Fetch;
    var pre := Fetch(b.accounts, tx);
    CallRuns(r, tx, pre);
    SingleOutcome(Dispatch(r), b, tx);
    assert VerifyFrom(tx, pre, post, 0).Okay?;
  }

  /** A witness that the plan takes and still waits for another. */
  lemma WitnessAccepted(r: Registry, b: Bank, tx: Transaction, w: Witness, p: FinPlan)
    requires GoodFormats(r.formats) && Payable(r, b, tx, 0) && |tx.keys| >= 2
    requires r.formats.instruction(tx.userdata).Some? && WitnessOf(r.formats.instruction(tx.userdata).value) == Some(w)
    requires ContractIn(r.formats, Get(b.accounts, tx.keys[1])) == Some(Some(p)) && !ApplyWitness(p, w, tx.keys[0]).Pay?
    requires |Get(b.accounts, tx.keys[1]).userdata| >=
      8 + |r.formats.state.enc(FinPlanState(true, Some(ApplyWitness(p, w, tx.keys[0]))))|
    ensures ProcessTransactions(Dispatch(r), b, [tx]).1 == [Okay]
    ensures Happened(r, b, tx) == Witnessed((w, tx.keys[0]), ApplyWitness(p, w, tx.keys[0]))
  {
    hide SumTokens; hide Serialize; hide Deserialize; hide ApplyWitness; hide GoodFormats; hide ProcessTransactions;
    hide Dispatch;
    var f, pre := r.formats, Fetch(b.accounts, tx);
    var s := Deserialize(f, pre[1].userdata).value;
    var s' := s.(pending := Some(ApplyWitness(p, w, tx.keys[0])));
    assert Process(f, tx, pre) == SaveState(f, pre, s');
    assert s' == FinPlanState(true, Some(ApplyWitness(p, w, tx.keys[0])));
    EnoughRoom(f, s', pre[1].userdata);
    var post := SaveState(f, pre, s').accounts;
    SameTokensSameSum(pre, post);
    DoneIsAccepted(r, b, tx, post);
  }

  /** A new contract in an account that hosts none and has room for it. */
  lemma OpeningAccepted(r: Registry, b: Bank, tx: Transaction, ins: Instruction)
    requires GoodFormats(r.formats) && r.formats.instruction(tx.userdata) == Some(ins) && ins.NewContract? && !ins.plan.Pay?
    requires Payable(r, b, tx, ins.tokens) && |tx.keys| >= 2 && ins.tokens >= 0 && ContractIn(r.formats, Get(b.accounts, tx.keys[1])).None?
    requires |Get(b.accounts, tx.keys[1]).userdata| >= 8 + |r.formats.state.enc(FinPlanState(true, Some(ins.plan)))|
    ensures ProcessTransactions(Dispatch(r), b, [tx]).1 == [Okay]
    ensures Happened(r, b, tx) == Opened(ins.tokens, ins.plan)
  {
    hide SumTokens; hide Serialize; hide Deserialize; hide GoodFormats; hide ProcessTransactions; hide Dispatch;
    var f, pre := r.formats, Fetch(b.accounts, tx);
    var paid := Credit(Credit(pre, 0, -ins.tokens), 1, ins.tokens);
    var s' := FinPlanState(true, Some(ins.plan));
    assert Process(f, tx, pre) == SaveState(f, paid, s');
    EnoughRoom(f, s', paid[1].userdata);
    var post := SaveState(f, paid, s').accounts;
    CreditSum(pre, 0, -ins.tokens);
    CreditSum(Credit(pre, 0, -ins.tokens), 1, ins.tokens);
    SameTokensSameSum(paid, post);
    DoneIsAccepted(r, b, tx, post);
  }

  /** A vote, or a payment at once of what was deposited. */
  lemma IdleAccepted(r: Registry, b: Bank, tx: Transaction)
    requires CanRun(r.formats, tx) && !Acts(r.formats, tx)
    requires Payable(r, b, tx, Deposit(r.formats, tx)) && EnoughKeys(r.formats, tx)
    ensures ProcessTransactions(Dispatch(r), b, [tx]).1 == [Okay] && Happened(r, b, tx) == Nothing
  {
    hide SumTokens; hide ContractIn; hide ProcessTransactions; hide Dispatch; hide SaveState;
    var f, pre := r.formats, Fetch(b.accounts, tx);
    var ins := f.instruction(tx.userdata).value;
    if ins.NewVote? {
      DoneIsAccepted(r, b, tx, pre);
    } else {
      var post := Credit(Credit(pre, 0, -ins.tokens), 1, ins.plan.payment.tokens);
      CreditSum(pre, 0, -ins.tokens);
      CreditSum(Credit(pre, 0, -ins.tokens), 1, ins.plan.payment.tokens);
      DoneIsAccepted(r, b, tx, post);
    }
  }

  function Deposit(f: Formats, tx: Transaction): int {
    var ins := f.instruction(tx.userdata);
    if ins.Some? && ins.value.NewContract? then ins.value.tokens else 0
  }

  /** The condition that `tx` attests to, when it brings a witness. */
  function Asked(f: Formats, tx: Transaction): Condition
    requires tx.keys != []
  {
    if Witnesses(f, tx) then Attests(WitnessOf(f.instruction(tx.userdata).value).value, tx.keys[0]) else SignedBy(tx.keys[0])
  }

  /** A plan that waits for both racers. */
  function Joint(f: Formats, t: Transaction, t': Transaction): FinPlan
    requires t.keys != [] && t'.keys != []
  {
    And(Asked(f, t), Asked(f, t'), Payment(0, t.keys[0]))
  }

  /** What `tx` will write, when it acts. */
  function Wanted(f: Formats, tx: Transaction, p: FinPlan): FinPlanState
    requires tx.keys != []
  {
    if Witnesses(f, tx)
    then FinPlanState(true, Some(ApplyWitness(p, WitnessOf(f.instruction(tx.userdata).value).value, tx.keys[0])))
    else if OpensContract(f, tx) then FinPlanState(true, Some(f.instruction(tx.userdata).value.plan))
    else FinPlanState(true, None)
  }

  /** The account a racer acts on: the joint plan for a witness, blank for a new contract, room for both to write. */
  function Host(f: Formats, t: Transaction, t': Transaction, tx: Transaction): Account
    requires t.keys != [] && t'.keys != []
  {
    var p := Joint(f, t, t');
    var body := f.state.enc(FinPlanState(true, Some(p)));
    var blank := Zeros(8 + |f.state.enc(Wanted(f, t, p))| + |f.state.enc(Wanted(f, t', p))|);
    Account(1, if Witnesses(f, tx) then ToLE(|body|, 8) + body + blank else blank, BUDGET_PROGRAM_ID)
  }

  function Purse(f: Formats, t: Transaction, t': Transaction): Account {
    Account(Abs(t.fee) + Abs(t'.fee) + Abs(Deposit(f, t)) + Abs(Deposit(f, t')) + 1, [], BUDGET_PROGRAM_ID)
  }

  function RaceAccounts(f: Formats, t: Transaction, t': Transaction): Accounts
    requires t.keys != [] && t'.keys != [] && Acts(f, t)
  {
    var m := map[t.keys[0] := Purse(f, t, t'), t'.keys[0] := Purse(f, t, t'), t.keys[1] := Host(f, t, t', t)];
    if Acts(f, t') then m[t'.keys[1] := Host(f, t, t', t')] else m
  }

  function RaceBook(f: Formats, t: Transaction, t': Transaction): Book
    requires t.keys != [] && t'.keys != [] && Acts(f, t)
  {
    var c := Escrowed(Joint(f, t, t'), 0, [], None);
    var m: Book := if Witnesses(f, t) then map[t.keys[1] := c] else map[];
    if Acts(f, t') && Witnesses(f, t') then m[t'.keys[1] := c] else m
  }

  ghost function RaceBank(f: Formats, txs: seq<Transaction>, i: nat, j: nat): Bank
    requires Payers(txs) && i < |txs| && j < |txs| && Acts(f, txs[i])
  {
    Bank(RaceAccounts(f, txs[i], txs[j]), [], SpentBut(txs, i, j), 0)
  }

  lemma HostHolds(f: Formats, t: Transaction, t': Transaction, tx: Transaction)
    requires GoodFormats(f) && t.keys != [] && t'.keys != [] && f.state.valid(FinPlanState(true, Some(Joint(f, t, t'))))
    ensures ContractIn(f, Host(f, t, t', tx)) == if Witnesses(f, tx) then Some(Some(Joint(f, t, t'))) else None
    ensures tx == t || tx == t' ==> |Host(f, t, t', tx).userdata| >= 8 + |f.state.enc(Wanted(f, tx, Joint(f, t, t')))|
  {
    hide GoodFormats; hide ApplyWitness; hide Witnesses; hide OpensContract; hide Wanted; hide Joint;
    var p := Joint(f, t, t');
    var room := 8 + |f.state.enc(Wanted(f, t, p))| + |f.state.enc(Wanted(f, t', p))|;
    if Witnesses(f, tx) {
      WaitingReads(f, FinPlanState(true, Some(p)), Zeros(room));
    } else {
      BlankIsNoContract(f, Host(f, t, t', tx), room);
    }
  }

  lemma RaceReads(f: Formats, t: Transaction, t': Transaction)
    requires Compatible(f, t, t')
    ensures var m := RaceAccounts(f, t, t');
      Positive(m) && Get(m, t.keys[0]) == Purse(f, t, t') && Get(m, t'.keys[0]) == Purse(f, t, t') &&
      t.keys[0] in m && t'.keys[0] in m &&
      Get(m, t.keys[1]) == Host(f, t, t', t) && (Acts(f, t') ==> Get(m, t'.keys[1]) == Host(f, t, t', t'))
  {
    hide Joint; hide Wanted;
  }

  lemma RaceInv(f: Formats, t: Transaction, t': Transaction)
    requires GoodFormats(f) && Compatible(f, t, t')
    requires f.state.valid(FinPlanState(true, Some(Joint(f, t, t'))))
    ensures Inv(f, RaceAccounts(f, t, t'), RaceBook(f, t, t'))
  {
    hide GoodFormats; hide ContractIn; hide Host; hide Wanted; hide Purse;
    var m, book, p := RaceAccounts(f, t, t'), RaceBook(f, t, t'), Joint(f, t, t');
    RaceReads(f, t, t');
    HostHolds(f, t, t', t);
    HostHolds(f, t, t', t');
    HostTokens(f, t, t');
    assert Reduce(p, []) == p;
    forall k ensures Backed(f, Get(m, k), book, k) {
      if k != t.keys[1] && !(Acts(f, t') && k == t'.keys[1]) {
        EmptyUserdataIsNoContract(f, Get(m, k));
      }
    }
  }

  lemma HostTokens(f: Formats, t: Transaction, t': Transaction)
    requires t.keys != [] && t'.keys != []
    ensures Host(f, t, t', t).tokens == 1 && Host(f, t, t', t').tokens == 1 && Purse(f, t, t').userdata == []
  {
  }

  /** A racer whose contract is such a host is accepted: a witness is taken, a contract opened, or nothing happens. */
  lemma HostedRuns(r: Registry, b: Bank, t: Transaction, t': Transaction, tx: Transaction)
    requires GoodFormats(r.formats) && t.keys != [] && t'.keys != [] && (tx == t || tx == t')
    requires r.formats.state.valid(FinPlanState(true, Some(Joint(r.formats, t, t'))))
    requires CanRun(r.formats, tx) && EnoughKeys(r.formats, tx) && Payable(r, b, tx, Abs(Deposit(r.formats, tx)))
    requires Acts(r.formats, tx) ==> Get(b.accounts, tx.keys[1]) == Host(r.formats, t, t', tx)
    ensures ProcessTransactions(Dispatch(r), b, [tx]).1 == [Okay]
    ensures Happened(r, b, tx) == RaceEffect(r.formats, t, t', tx)
  {
    hide ProcessTransactions; hide Dispatch; hide GoodFormats; hide Host; hide ContractIn; hide ApplyWitness;
    hide Loadable; hide Positive; hide Happened;
    var f, p := r.formats, Joint(r.formats, t, t');
    HostHolds(f, t, t', tx);
    if Witnesses(f, tx) {
      TakesWitness(f, t, t', tx);
    }
    if !Acts(f, tx) {
      IdleAccepted(r, b, tx);
    } else if Witnesses(f, tx) {
      WitnessAccepted(r, b, tx, WitnessOf(f.instruction(tx.userdata).value).value, p);
    } else {
      OpeningAccepted(r, b, tx, f.instruction(tx.userdata).value);
    }
  }

  lemma RacerRuns(r: Registry, b: Bank, t: Transaction, t': Transaction, tx: Transaction)
    requires GoodFormats(r.formats) && Compatible(r.formats, t, t') && |t'.keys| >= 2
    requires r.formats.state.valid(FinPlanState(true, Some(Joint(r.formats, t, t'))))
    requires tx == t || tx == t'
    requires IsCall(tx) && Loadable(b, tx) && b.accounts == RaceAccounts(r.formats, t, t')
    ensures ProcessTransactions(Dispatch(r), b, [tx]).1 == [Okay]
    ensures Happened(r, b, tx) == RaceEffect(r.formats, t, t', tx)
  {
    hide ProcessTransactions; hide Dispatch; hide GoodFormats; hide Host; hide RaceAccounts; hide Happened;
    hide RaceEffect; hide Joint;
    hide Loadable; hide Positive;
    RaceReads(r.formats, t, t');
    assert Payable(r, b, tx, Abs(Deposit(r.formats, tx)));
    HostedRuns(r, b, t, t', tx);
  }

  function RaceEffect(f: Formats, t: Transaction, t': Transaction, tx: Transaction): Effect
    requires t.keys != [] && t'.keys != [] && tx.keys != []
  {
    var ins := f.instruction(tx.userdata);
    if !Acts(f, tx) then Nothing
    else if OpensContract(f, tx) then Opened(ins.value.tokens, ins.value.plan)
    else
      var w := WitnessOf(ins.value).value;
      Witnessed((w, tx.keys[0]), ApplyWitness(Joint(f, t, t'), w, tx.keys[0]))
  }

  lemma TakesWitness(f: Formats, t: Transaction, t': Transaction, tx: Transaction)
    requires t.keys != [] && t'.keys != [] && (tx == t || tx == t') && Witnesses(f, tx)
    ensures var w := WitnessOf(f.instruction(tx.userdata).value).value;
      ApplyWitness(Joint(f, t, t'), w, tx.keys[0]).After?
  {
  }

  // ---- With a race something breaks ---------------------------------------------------------------------

  /** The first effect on a contract of that bank changes what its account holds. */
  lemma ChangesContract(f: Formats, t: Transaction, t': Transaction, a: Account, a': Account, k: Pubkey, e: Effect)
    requires t.keys != [] && t'.keys != [] && Acts(f, t) && e == RaceEffect(f, t, t', t) && k == t.keys[1]
    requires var book := RaceBook(f, t, t');
      Allowed(book, k, e) && Backed(f, a, book, k) && Backed(f, a', Enter(book, k, t.fee, e), k)
    ensures ContractIn(f, a) != ContractIn(f, a')
  {
    hide ContractIn;
    if e.Witnessed? {
      TakesWitness(f, t, t', t);
      assert RaceBook(f, t, t')[k].history + [e.t] == [e.t];
      ReduceOne(Joint(f, t, t'), e.t);
      assert Reduce(Joint(f, t, t'), []) == Joint(f, t, t');
    }
  }

  lemma {:induction false} ReduceOne(p: FinPlan, x: Testimony)
    ensures Reduce(p, [x]) == ApplyWitness(p, x.0, x.1)
  {
    assert [x][1..] == [];
  }

  /** Two openings of one account, or two witnesses that together settle the plan while each only reduces it. */
  lemma SameContractForbidden(f: Formats, t: Transaction, t': Transaction, a: Account)
    requires t.keys != [] && t'.keys != [] && Acts(f, t) && Acts(f, t') && t.keys[1] == t'.keys[1]
    requires OpensContract(f, t) == OpensContract(f, t')
    requires var k, e, e' := t.keys[1], RaceEffect(f, t, t', t), RaceEffect(f, t, t', t');
      Allowed(RaceBook(f, t, t'), k, e)
    ensures
      var k, e, e' := t.keys[1], RaceEffect(f, t, t', t), RaceEffect(f, t, t', t');
      var mid := Enter(RaceBook(f, t, t'), k, t.fee, e);
      !Allowed(mid, k, e') || !Backed(f, a, Enter(mid, k, t'.fee, e'), k)
  {
    hide ContractIn;
    var p, e, e' := Joint(f, t, t'), RaceEffect(f, t, t', t), RaceEffect(f, t, t', t');
    if e.Witnessed? {
      BothSettle(f, t, t');
      assert [] + [e.t] + [e'.t] == [e.t, e'.t];
    }
  }

  lemma BothSettle(f: Formats, t: Transaction, t': Transaction)
    requires t.keys != [] && t'.keys != [] && Acts(f, t) && Acts(f, t') && Witnesses(f, t) && Witnesses(f, t')
    ensures Reduce(Joint(f, t, t'), [RaceEffect(f, t, t', t).t, RaceEffect(f, t, t', t').t]).Pay?
  {
    var p, x, x' := Joint(f, t, t'), RaceEffect(f, t, t', t).t, RaceEffect(f, t, t', t').t;
    assert Satisfied(p.first, x.0, x.1) && Satisfied(p.second, x'.0, x'.1);
    assert [x, x'][1..] == [x'];
    ReduceOne(ApplyWitness(p, x.0, x.1), x');
  }

  /** A batch of calls, with plans the format can write. */
  ghost predicate CallBatch(r: Registry, txs: seq<Transaction>) {
    GoodFormats(r.formats) && KeepsSlice(r.other) && ForgesNothing(r.formats, r.other) &&
    Payers(txs) && DistinctSignatures(txs) && (forall i :: 0 <= i < |txs| ==> IsCall(txs[i])) &&
    (forall i, j :: 0 <= i <= j < |txs| ==> r.formats.state.valid(FinPlanState(true, Some(Joint(r.formats, txs[i], txs[j])))))
  }

  ghost predicate AllProper(f: Formats, txs: seq<Transaction>) {
    forall i :: 0 <= i < |txs| ==> Proper(f, txs[i])
  }

  lemma RaceIsTwoAlone(r: Registry, txs: seq<Transaction>, i: nat, j: nat)
    requires CallBatch(r, txs) && AllProper(r.formats, txs) && i < j < |txs| && Stale(r.formats, txs[i], txs[j])
    ensures
      var f, t, t' := r.formats, txs[i], txs[j];
      var b := RaceBank(f, txs, i, j);
      TwoAlone(r, b, txs, i, j) && Inv(f, b.accounts, RaceBook(f, t, t')) &&
      Happened(r, b, t) == RaceEffect(f, t, t', t) && Happened(r, b, t') == RaceEffect(f, t, t', t')
  {
    hide ProcessTransactions; hide Dispatch; hide GoodFormats; hide KeepsSlice; hide ForgesNothing; hide Joint;
    hide Acts; hide Inv;
    hide RaceBook; hide RaceAccounts; hide RaceEffect; hide Happened; hide Get; hide SpentBut;
    hide RepeatsContract; hide VerifyPlan;
    var f, t, t' := r.formats, txs[i], txs[j];
    ActsHasContract(f, t);
    var b := RaceBank(f, txs, i, j);
    RaceInv(f, t, t');
    RaceReads(f, t, t');
    forall m | 0 <= m < |txs| && m != i && m != j ensures !Loadable(b, txs[m]) {
      SpentExactly(txs, i, j, m);
    }
    SpentExactly(txs, i, j, i);
    SpentExactly(txs, i, j, j);
    PurseIsEnough(f, t, t', b.accounts);
    RacerRuns(r, b, t, t', t);
    RacerRuns(r, b, t, t', t');
  }

  lemma PurseIsEnough(f: Formats, t: Transaction, t': Transaction, m: Accounts)
    requires t.keys != [] && t'.keys != [] && t.keys[0] in m && t'.keys[0] in m
    requires Get(m, t.keys[0]) == Purse(f, t, t') && Get(m, t'.keys[0]) == Purse(f, t, t')
    ensures t.fee <= m[t.keys[0]].tokens && t'.fee <= m[t'.keys[0]].tokens
  {
  }

  lemma RaceBreaks(r: Registry, txs: seq<Transaction>, i: nat, j: nat)
    requires CallBatch(r, txs) && AllProper(r.formats, txs) && i < j < |txs| && Stale(r.formats, txs[i], txs[j])
    ensures Inv(r.formats, RaceBank(r.formats, txs, i, j).accounts, RaceBook(r.formats, txs[i], txs[j]))
    ensures Breaks(r, RaceBank(r.formats, txs, i, j), RaceBook(r.formats, txs[i], txs[j]), txs)
  {
    hide ProcessTransactions; hide Dispatch; hide Effects; hide GoodFormats; hide KeepsSlice; hide ForgesNothing;
    hide Happened; hide Allowed; hide Enter; hide Backed; hide EnterAll; hide Get; hide ContractIn; hide RaceBank;
    hide RaceBook; hide RaceEffect; hide Joint; hide VerifyPlan; hide RepeatsContract;
    var f, t, t' := r.formats, txs[i], txs[j];
    var b, book, k := RaceBank(f, txs, i, j), RaceBook(f, t, t'), t.keys[1];
    RaceIsTwoAlone(r, txs, i, j);
    assert Careful(r, b, book, t) && Careful(r, b, book, t');
    if Acts(f, t') && t'.keys[1] == k {
      var es, after := Effects(r, b, txs), ProcessTransactions(Dispatch(r), b, txs).0.accounts;
      TwoAloneEffects(r, b, txs, i, j);
      EnterTwo(book, [], txs, es, i, j, |txs|);
      TransactionKeepsEscrow(r, b, book, t);
      SameContractForbidden(f, t, t', Get(after, k));
    } else {
      TransactionKeepsEscrow(r, b, book, t);
      IdleHasNoEffect(f, t, t');
      var one := ProcessTransactions(Dispatch(r), b, [t]).0.accounts;
      assert Backed(f, Get(b.accounts, k), book, k);
      assert Backed(f, Get(one, k), Enter(book, k, t.fee, Happened(r, b, t)), k);
      ChangesContract(f, t, t', Get(b.accounts, k), Get(one, k), k, Happened(r, b, t));
      StaleCopyBreaks(r, b, book, txs, i, j);
    }
  }

  lemma IdleHasNoEffect(f: Formats, t: Transaction, t': Transaction)
    requires t.keys != [] && t'.keys != []
    ensures !Acts(f, t') ==> RaceEffect(f, t, t', t') == Nothing
    ensures Acts(f, t') ==> ContractKey(t') == t'.keys[1]
  {
  }

  // ---- One call that breaks by itself ------------------------------------------------------------------

  lemma {:induction false} EnterOne(book: Book, paid: Payouts, txs: seq<Transaction>, es: seq<Effect>, i: nat, n: nat)
    requires n <= |txs| == |es| && i < |txs| && OnlyThese(es, i, i)
    ensures var r := EnterAll(book, paid, txs, es, n);
      (n <= i ==> r == Some((book, paid))) &&
      (i < n && r.Some? ==>
        Allowed(book, ContractKey(txs[i]), es[i]) && r.value.0 == Enter(book, ContractKey(txs[i]), txs[i].fee, es[i]))
  {
    if n > 0 {
      EnterOne(book, paid, txs, es, i, n - 1);
      assert paid + [] == paid;
    }
  }

  /** In that bank, with itself for a rival, the call is the only one accepted. */
  lemma LoneCall(r: Registry, txs: seq<Transaction>, i: nat)
    requires CallBatch(r, txs) && i < |txs| && Compatible(r.formats, txs[i], txs[i])
    ensures
      var f, t := r.formats, txs[i];
      var b := RaceBank(f, txs, i, i);
      var (b', ss) := ProcessTransactions(Dispatch(r), b, txs);
      Inv(f, b.accounts, RaceBook(f, t, t)) && ProcessTransactions(Dispatch(r), b, [t]).1 == [Okay] &&
      OnlyThese(Effects(r, b, txs), i, i) && Effects(r, b, txs)[i] == Happened(r, b, t) == RaceEffect(f, t, t, t) &&
      Get(b'.accounts, t.keys[1]) == Get(ProcessTransactions(Dispatch(r), b, [t]).0.accounts, t.keys[1])
  {
    hide ProcessTransactions; hide Dispatch; hide GoodFormats; hide KeepsSlice; hide ForgesNothing; hide Joint; hide Inv;
    hide RaceBook; hide RaceAccounts; hide RaceEffect; hide Happened; hide Get; hide SpentBut; hide EffectOf; hide Fetch;
    var f, t := r.formats, txs[i];
    var b := RaceBank(f, txs, i, i);
    RaceInv(f, t, t);
    RaceReads(f, t, t);
    SpentExactly(txs, i, i, i);
    PurseIsEnough(f, t, t, b.accounts);
    RacerRuns(r, b, t, t, t);
    AcceptedInBatch(Dispatch(r), b, txs, i);
    EffectIsHappened(r, b, txs, i);
    DispatchKeepsSlice(r);
    BatchAccount(Dispatch(r), b, txs, t.keys[1]);
    var ss := ProcessTransactions(Dispatch(r), b, txs).1;
    forall m | 0 <= m < |txs| && m != i ensures ss[m].Failed? {
      SpentExactly(txs, i, i, m);
      if ss[m].Okay? {
        AcceptedAlone(Dispatch(r), b, txs, m);
        assert false;
      }
    }
  }

  /** What it leaves of its contract: the stale copy, if the contract is listed again, else the account it wrote. */
  lemma LoneCallLeaves(r: Registry, b: Bank, t: Transaction)
    requires GoodFormats(r.formats) && KeepsSlice(r.other) && IsCall(t) && Compatible(r.formats, t, t)
    requires b.accounts == RaceAccounts(r.formats, t, t) && ProcessTransactions(Dispatch(r), b, [t]).1 == [Okay]
    requires Happened(r, b, t) == RaceEffect(r.formats, t, t, t)
    ensures
      var k := t.keys[1];
      var a, a' := Get(b.accounts, k), Get(ProcessTransactions(Dispatch(r), b, [t]).0.accounts, k);
      if RepeatsContract(t.keys) then ContractIn(r.formats, a') == ContractIn(r.formats, a)
      else OpensContract(r.formats, t) ==> a'.tokens == Deposit(r.formats, t) + 1
  {
    hide ProcessTransactions; hide Process; hide Dispatch; hide ContractIn; hide GoodFormats; hide KeepsSlice;
    hide RaceAccounts;
    var f, k, pre := r.formats, t.keys[1], Fetch(b.accounts, t);
    var after := ProcessTransactions(Dispatch(r), b, [t]).0.accounts;
    RaceReads(f, t, t);
    HostTokens(f, t, t);
    AcceptedCall(r, b, t);
    AcceptedCanRun(r, b, t);
    ProcessEffect(f, t, pre);
    AcceptedActs(f, t, pre);
    var post, j := Process(f, t, pre).accounts, LastPosition(t.keys, k);
    if RepeatsContract(t.keys) {
      LaterPosition(t.keys);
      assert post[j].userdata == pre[j].userdata && post[j].tokens >= 1;
      SameUserdataSameContract(f, pre[j], post[j]);
    } else if OpensContract(f, t) {
      if j != 1 {
        ListedAgain(t.keys);
      }
      assert post[1].tokens == pre[1].tokens + Deposit(f, t);
    }
  }

  lemma {:induction false} LaterPosition(keys: seq<Pubkey>)
    requires RepeatsContract(keys)
    ensures LastPosition(keys, keys[1]) >= 2
  {
    var i :| 0 <= i < |keys[2..]| && keys[2..][i] == keys[1];
    assert keys[i + 2] == keys[1];
  }

  lemma ImproperBreaks(r: Registry, txs: seq<Transaction>, i: nat)
    requires CallBatch(r, txs) && i < |txs| && !Proper(r.formats, txs[i])
    ensures Compatible(r.formats, txs[i], txs[i])
    ensures Inv(r.formats, RaceBank(r.formats, txs, i, i).accounts, RaceBook(r.formats, txs[i], txs[i]))
    ensures Breaks(r, RaceBank(r.formats, txs, i, i), RaceBook(r.formats, txs[i], txs[i]), txs)
  {
    hide ProcessTransactions; hide Dispatch; hide Effects; hide GoodFormats; hide KeepsSlice; hide ForgesNothing;
    hide Allowed; hide Enter; hide Backed; hide EnterAll; hide Get; hide ContractIn; hide Acts; hide CanRun;
    hide RaceBook; hide RaceEffect; hide Joint; hide VerifyPlan; hide RepeatsContract; hide RaceAccounts;
    hide SpentBut; hide Happened;
    var f, t := r.formats, txs[i];
    ActsHasContract(f, t);
    var b, book, k := RaceBank(f, txs, i, i), RaceBook(f, t, t), t.keys[1];
    LoneCall(r, txs, i);
    LoneCallLeaves(r, b, t);
    var es, after := Effects(r, b, txs), ProcessTransactions(Dispatch(r), b, txs).0.accounts;
    EnterOne(book, [], txs, es, i, |txs|);
    var entered := EnterAll(book, [], txs, es, |txs|);
    if entered.Some? && Inv(f, after, entered.value.0) {
      assert Backed(f, Get(b.accounts, k), book, k) && Backed(f, Get(after, k), entered.value.0, k);
      ChangesContract(f, t, t, Get(b.accounts, k), Get(after, k), k, es[i]);
      if !RepeatsContract(t.keys) {
        UnverifiedIsUnbacked(f, t, Get(after, k), book);
      }
    }
  }

  lemma UnverifiedIsUnbacked(f: Formats, t: Transaction, a: Account, book: Book)
    requires Acts(f, t) && CanRun(f, t) && OpensContract(f, t) && a.tokens == Deposit(f, t) + 1
    requires Allowed(book, t.keys[1], RaceEffect(f, t, t, t))
    requires Backed(f, a, Enter(book, t.keys[1], t.fee, RaceEffect(f, t, t, t)), t.keys[1])
    ensures VerifyPlan(f, t)
  {
    hide ContractIn;
  }

  /**
   * A batch of contract calls keeps escrow in every bank exactly when each call is proper and none
   * lists a contract that an earlier one of the batch can act on beside it.
   */
  lemma BatchSafeExactly(r: Registry, txs: seq<Transaction>)
    requires CallBatch(r, txs)
    ensures BatchSafe(r, txs) <==>
      AllProper(r.formats, txs) && forall i, j :: 0 <= i < j < |txs| ==> !Stale(r.formats, txs[i], txs[j])
  {
    hide ProcessTransactions; hide Dispatch; hide Effects; hide GoodFormats; hide KeepsSlice; hide ForgesNothing;
    hide Inv; hide EnterAll; hide Stale; hide RaceBank; hide RaceBook; hide Joint; hide Proper; hide Clean;
    hide DistinctSignatures;
    if i :| 0 <= i < |txs| && !Proper(r.formats, txs[i]) {
      ImproperBreaks(r, txs, i);
    } else if i, j :| 0 <= i < j < |txs| && Stale(r.formats, txs[i], txs[j]) {
      RaceBreaks(r, txs, i, j);
    } else {
      forall b: Bank, book: Book | Inv(r.formats, b.accounts, book) ensures !Breaks(r, b, book, txs) {
        NoRaceIsClean(r, b, txs);
        BatchKeepsEscrow(r, b, book, [], txs);
      }
    }
  }

  // ---- One deposit paid twice ------------------------------------------------------------------------

  /** Any two calls that would each settle one contract both do, in one batch; no book allows the second. */
  lemma BothSettlementsPay(r: Registry, b: Bank, t: Transaction, t': Transaction, w: Witness, w': Witness, x: Payment, x': Payment)
    requires GoodFormats(r.formats) && KeepsSlice(r.other) && !SamePair(t, t')
    requires ReadyToSettle(r, b, t, w, x) && ReadyToSettle(r, b, t', w', x') && t.keys[1] == t'.keys[1]
    ensures
      var txs := [t, t'];
      Payers(txs) && ProcessTransactions(Dispatch(r), b, txs).1 == [Okay, Okay] &&
      Effects(r, b, txs) == [Settled((w, t.keys[0]), x), Settled((w', t'.keys[0]), x')] &&
      forall book: Book, paid: Payouts :: EnterAll(book, paid, txs, Effects(r, b, txs), 2).None?
  {
    hide ProcessTransactions; hide Dispatch; hide GoodFormats; hide KeepsSlice; hide ReadyToSettle; hide Happened; hide Effects;
    var txs := [t, t'];
    HasThreeKeys(r, b, t, w, x);
    HasThreeKeys(r, b, t', w', x');
    assert txs[0] == t && txs[1] == t';
    SettlementAccepted(r, b, t, w, x);
    SettlementAccepted(r, b, t', w', x');
    TwoAloneEffects(r, b, txs, 0, 1);
    var es := Effects(r, b, txs);
    assert es == [es[0], es[1]];
    forall book: Book, paid: Payouts ensures EnterAll(book, paid, txs, es, 2).None? {
      EnterTwo(book, paid, txs, es, 0, 1, 2);
    }
  }

  lemma HasThreeKeys(r: Registry, b: Bank, tx: Transaction, w: Witness, x: Payment)
    requires ReadyToSettle(r, b, tx, w, x)
    ensures |tx.keys| >= 3
  {
  }

  /** What the settling call alone leaves at each key that no later position repeats. */
  lemma SettlementStores(r: Registry, b: Bank, tx: Transaction, w: Witness, x: Payment)
    requires GoodFormats(r.formats) && KeepsSlice(r.other) && ReadyToSettle(r, b, tx, w, x)
    requires |tx.keys| == 3 && tx.keys[2] != tx.keys[1]
    ensures var after := ProcessTransactions(Dispatch(r), b, [tx]).0.accounts;
      Balance(after, tx.keys[1]) == Balance(b.accounts, tx.keys[1]) - x.tokens &&
      Balance(after, tx.keys[2]) == Balance(b.accounts, tx.keys[2]) + x.tokens
  {
    hide ProcessTransactions; hide Process; hide Dispatch; hide ContractIn; hide GoodFormats; hide KeepsSlice;
    SettlementAccepted(r, b, tx, w, x);
    AcceptedCall(r, b, tx);
    SettlingCall(r, b, tx, w, x);
    assert tx.keys[1] in tx.keys && tx.keys[2] in tx.keys;
    assert LastPosition(tx.keys, tx.keys[1]) == 1 && LastPosition(tx.keys, tx.keys[2]) == 2;
  }

  /**
   * The witness's call on `[witness, c, to]` and the payer's cancel on `[from, c, from]`, in one
   * batch: both are accepted, `to` and `from` each gain the amount, and the contract loses it once.
   */
  lemma CancelRacesWitness(
    r: Registry, b: Bank, t: Transaction, t': Transaction, w: Witness, c: Pubkey, to: Pubkey, from: Pubkey, n: int)
    requires GoodFormats(r.formats) && KeepsSlice(r.other) && !SamePair(t, t') && to != from && c != to && c != from
    requires ReadyToSettle(r, b, t, w, Payment(n, to)) && |t.keys| == 3 && t.keys[1] == c
    requires ReadyToSettle(r, b, t', SignatureWitness, Payment(n, from)) && t'.keys == [from, c, from]
    ensures
      var (b', ss) := ProcessTransactions(Dispatch(r), b, [t, t']);
      ss == [Okay, Okay] && Balance(b'.accounts, to) == Balance(b.accounts, to) + n &&
      Balance(b'.accounts, from) == Balance(b.accounts, from) + n && Balance(b'.accounts, c) == Balance(b.accounts, c) - n
  {
    hide ProcessTransactions; hide Dispatch; hide GoodFormats; hide KeepsSlice; hide Get; hide Effects;
    hide EnterAll; hide ContractIn;
    var txs := [t, t'];
    assert t.keys == [t.keys[0], c, to];
    BothSettlementsPay(r, b, t, t', w, SignatureWitness, Payment(n, to), Payment(n, from));
    SettlementStores(r, b, t, w, Payment(n, to));
    SettlementStores(r, b, t', SignatureWitness, Payment(n, from));
    DispatchKeepsSlice(r);
    BatchAccount(Dispatch(r), b, txs, to);
    BatchAccount(Dispatch(r), b, txs, from);
    BatchAccount(Dispatch(r), b, txs, c);
    assert to in txs[0].keys && from in txs[1].keys && c in txs[1].keys && to !in txs[1].keys;
  }

  /** The cancellable plan as the source builds it. */
  function Cancellable(w: Witness, key: Pubkey, to: Pubkey, from: Pubkey, n: int): FinPlan {
    Or(Attests(w, key), Payment(n, to), SignedBy(from), Payment(n, from))
  }

  ghost function CancellableBank(f: Formats, t: Transaction, t': Transaction, plan: FinPlan, n: int): Bank
    requires |t.keys| >= 3 && t'.keys != []
  {
    var body := f.state.enc(FinPlanState(true, Some(plan)));
    var userdata := ToLE(|body|, 8) + body + Zeros(|f.state.enc(FinPlanState(true, None))|);
    var purse := Account(Abs(t.fee) + Abs(t'.fee) + 1, [], BUDGET_PROGRAM_ID);
    Bank(map[t.keys[0] := purse, t'.keys[0] := purse, t.keys[1] := Account(n + 1, userdata, BUDGET_PROGRAM_ID)],
         [], map[t.lastId := map[]][t'.lastId := map[]], 0)
  }

  /** Such a bank exists for every cancellable plan, meeting the invariant, with both calls proper. */
  lemma RaceHappens(r: Registry, t: Transaction, t': Transaction, w: Witness, c: Pubkey, to: Pubkey, from: Pubkey, n: nat)
    requires GoodFormats(r.formats) && IsCall(t) && IsCall(t') && to != from && c != to && c != from
    requires |t.keys| == 3 && t.keys[1..] == [c, to] && t'.keys == [from, c, from] && t.keys[0] !in {c, from}
    requires r.formats.instruction(t.userdata).Some? && WitnessOf(r.formats.instruction(t.userdata).value) == Some(w)
    requires r.formats.instruction(t'.userdata) == Some(ApplySignature)
    requires var plan := Cancellable(w, t.keys[0], to, from, n); r.formats.state.valid(FinPlanState(true, Some(plan)))
    ensures
      var plan := Cancellable(w, t.keys[0], to, from, n);
      var b := CancellableBank(r.formats, t, t', plan, n);
      ReadyToSettle(r, b, t, w, Payment(n, to)) && ReadyToSettle(r, b, t', SignatureWitness, Payment(n, from)) &&
      Inv(r.formats, b.accounts, map[c := Escrowed(plan, n, [], None)]) &&
      Proper(r.formats, t) && Proper(r.formats, t')
  {
    hide Faithful; hide GoodFormats;
    var f, plan := r.formats, Cancellable(w, t.keys[0], to, from, n);
    var b := CancellableBank(f, t, t', plan, n);
    assert t.keys[1] == t.keys[1..][0] && t.keys[2] == t.keys[1..][1];
    WaitingReads(f, FinPlanState(true, Some(plan)), Zeros(|f.state.enc(FinPlanState(true, None))|));
    assert ContractIn(f, b.accounts[c]) == Some(Some(plan));
    assert ApplyWitness(plan, w, t.keys[0]) == Pay(Payment(n, to));
    assert ApplyWitness(plan, SignatureWitness, from) == Pay(Payment(n, from));
    assert Reduce(plan, []) == plan;
    var book := map[c := Escrowed(plan, n, [], None)];
    forall k ensures Backed(f, Get(b.accounts, k), book, k) {
      if k != c {
        EmptyUserdataIsNoContract(f, Get(b.accounts, k));
      }
    }
    assert t.keys[2..] == [to] && t'.keys[2..] == [from];
  }
}
