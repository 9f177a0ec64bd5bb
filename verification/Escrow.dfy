/**
 * Escrow, one transaction at a time: a pending contract holds what its plan pays, each contract
 * account hosts one plan, and it pays at most once; and exactly which transactions put that at risk.
 */
module Escrow {
  import opened Base
  import opened Codecs
  import opened LittleEndian
  import opened FinPlans
  import opened FinPlanProgram
  import opened Processor
  import opened Batches
  import opened Tokens
  import opened Programs
  import opened Transfers

  // ---- What one call does to the contract account ------------------------------------------------

  datatype Effect =
    | Nothing
    | Opened(deposit: int, plan: FinPlan)
    | Witnessed(t: Testimony, plan: FinPlan)          // still pending, as `plan`
    | Settled(t: Testimony, payment: Payment)

  /** The live contract in an account, if any: its pending plan, or None once paid. */
  function ContractIn(f: Formats, a: Account): Option<Option<FinPlan>> {
    match Deserialize(f, a.userdata)
    case Some(s) => if s.initialized then Some(s.pending) else None
    case None => None
  }

  function WitnessOf(ins: Instruction): Option<Witness> {
    match ins
    case ApplyTimestamp(dt) => Some(TimeWitness(dt))
    case ApplySignature => Some(SignatureWitness)
    case _ => None
  }

  function EffectOf(f: Formats, tx: Transaction, accs: seq<Account>): Effect
    requires |tx.keys| == |accs|
  {
    if f.instruction(tx.userdata).None? || |accs| < 2 then Nothing else
    var ins := f.instruction(tx.userdata).value;
    if ins.NewContract? then (if ins.plan.Pay? then Nothing else Opened(ins.tokens, ins.plan)) else
    match WitnessOf(ins)
    case None => Nothing
    case Some(w) =>
      match ContractIn(f, accs[1])
      case Some(Some(plan)) =>
        var p := ApplyWitness(plan, w, tx.keys[0]);
        if p.Pay? then Settled((w, tx.keys[0]), p.payment) else Witnessed((w, tx.keys[0]), p)
      case _ => Nothing
  }

  predicate OpensContract(f: Formats, tx: Transaction) {
    var ins := f.instruction(tx.userdata);
    ins.Some? && ins.value.NewContract? && !ins.value.plan.Pay?
  }

  predicate Witnesses(f: Formats, tx: Transaction) {
    var ins := f.instruction(tx.userdata);
    ins.Some? && WitnessOf(ins.value).Some?
  }

  /** A call that can change a contract. */
  predicate Acts(f: Formats, tx: Transaction) {
    |tx.keys| >= 2 && (OpensContract(f, tx) || Witnesses(f, tx))
  }

  /** Calls refused in every bank: unreadable, with a negative deposit, or paying at once what was not deposited. */
  predicate CanRun(f: Formats, tx: Transaction) {
    match f.instruction(tx.userdata)
    case None => false
    case Some(NewContract(tokens, plan)) => tokens >= 0 && (plan.Pay? ==> plan.payment.tokens == tokens)
    case _ => true
  }

  lemma EffectActs(f: Formats, tx: Transaction, accs: seq<Account>)
    requires |accs| == |tx.keys| && EffectOf(f, tx, accs) != Nothing
    ensures Acts(f, tx) && (EffectOf(f, tx, accs).Opened? ==> OpensContract(f, tx))
  {
  }

  /** The contract account before and after, by effect. */
  ghost predicate ContractChange(f: Formats, pre: Account, post: Account, e: Effect) {
    match e
    case Nothing => post.userdata == pre.userdata && post.tokens >= pre.tokens
    case Opened(deposit, plan) =>
      deposit >= 0 && !plan.Pay? && ContractIn(f, pre).None? && pre.userdata != [] &&
      ContractIn(f, post) == Some(Some(plan)) && post.tokens == pre.tokens + deposit
    case Witnessed(t, plan) =>
      !plan.Pay? && post.tokens == pre.tokens && ContractIn(f, post) == Some(Some(plan)) &&
      exists p :: ContractIn(f, pre) == Some(Some(p)) && plan == ApplyWitness(p, t.0, t.1)
    case Settled(t, x) =>
      post.tokens == pre.tokens - x.tokens && ContractIn(f, post) == Some(None) &&
      exists p :: ContractIn(f, pre) == Some(Some(p)) && Pay(x) == ApplyWitness(p, t.0, t.1)
  }

  /** Accounts other than the contract: payers lose, others never do, userdata is left alone. */
  ghost predicate OthersUntouched(pre: seq<Account>, post: seq<Account>, e: Effect) {
    |pre| == |post| && |pre| > 0 && pre[0].userdata == [] &&
    (forall i :: 0 <= i < |pre| && (i != 1 || e.Nothing?) ==> post[i].userdata == pre[i].userdata) &&
    (forall i :: 2 <= i < |pre| ==> post[i].tokens >= pre[i].tokens || (e.Settled? && e.payment.tokens < 0))
  }

  /** Account `i` has `n` tokens more, or fewer. */
  predicate Gained(pre: seq<Account>, post: seq<Account>, i: nat, n: int)
    requires |pre| == |post|
  {
    i < |pre| && post[i].tokens == pre[i].tokens + n
  }

  /**
   * Where a successful call moves tokens: a settlement takes the payment from the contract and gives
   * it to the third key, which is the one the plan pays; a deposit, or a payment at once, goes from
   * the first account to the second; nothing else moves any.
   */
  ghost predicate TokensMove(f: Formats, tx: Transaction, pre: seq<Account>, post: seq<Account>, e: Effect) {
    |pre| == |post| == |tx.keys| &&
    match e
    case Settled(_, x) =>
      |pre| >= 3 && x.to == tx.keys[2] && Gained(pre, post, 1, -x.tokens) && Gained(pre, post, 2, x.tokens) &&
      forall i :: 0 <= i < |pre| && i != 1 && i != 2 ==> Gained(pre, post, i, 0)
    case Witnessed(_, _) => forall i :: 0 <= i < |pre| ==> Gained(pre, post, i, 0)
    case _ =>
      match f.instruction(tx.userdata)
      case Some(NewContract(tokens, plan)) =>
        Gained(pre, post, 0, -tokens) && Gained(pre, post, 1, if plan.Pay? then plan.payment.tokens else tokens) &&
        forall i :: 2 <= i < |pre| ==> Gained(pre, post, i, 0)
      case _ => forall i :: 0 <= i < |pre| ==> Gained(pre, post, i, 0)
  }

  lemma SaveStateEffect(f: Formats, accs: seq<Account>, s: FinPlanState)
    requires GoodFormats(f) && f.state.valid(s) && |accs| >= 2 && SaveState(f, accs, s).Done?
    ensures var post := SaveState(f, accs, s).accounts;
      |post| == |accs| && post[1].tokens == accs[1].tokens && Deserialize(f, post[1].userdata) == Some(s) &&
      accs[1].userdata != [] && forall i :: 0 <= i < |accs| && i != 1 ==> post[i] == accs[i]
  {
    StateRoundTrip(f, s, accs[1].userdata);
  }

  lemma OpenEffect(f: Formats, tx: Transaction, accs: seq<Account>, ins: Instruction)
    requires GoodFormats(f) && CanRun(f, tx) && |tx.keys| == |accs|
    requires f.instruction(tx.userdata) == Some(ins) && ins.NewContract? && Process(f, tx, accs).Done?
    ensures var post := Process(f, tx, accs).accounts;
      |accs| >= 2 && OthersUntouched(accs, post, EffectOf(f, tx, accs)) &&
      ContractChange(f, accs[1], post[1], EffectOf(f, tx, accs)) &&
      TokensMove(f, tx, accs, post, EffectOf(f, tx, accs))
  {
    hide Serialize; hide Deserialize; hide Faithful;
    if !ins.plan.Pay? {
      var paid := Credit(Credit(accs, 0, -ins.tokens), 1, ins.tokens);
      SaveStateEffect(f, paid, FinPlanState(true, Some(ins.plan)));
    }
  }

  lemma WitnessEffect(f: Formats, tx: Transaction, accs: seq<Account>, ins: Instruction)
    requires GoodFormats(f) && |tx.keys| == |accs|
    requires f.instruction(tx.userdata) == Some(ins) && WitnessOf(ins).Some? && Process(f, tx, accs).Done?
    ensures var post := Process(f, tx, accs).accounts;
      |accs| >= 2 && OthersUntouched(accs, post, EffectOf(f, tx, accs)) &&
      ContractChange(f, accs[1], post[1], EffectOf(f, tx, accs)) &&
      TokensMove(f, tx, accs, post, EffectOf(f, tx, accs))
  {
    hide Serialize; hide Deserialize; hide ApplyWitness; hide Faithful;
    var w := WitnessOf(ins).value;
    var s := Deserialize(f, accs[1].userdata).value;
    ReadStateIsValid(f, accs[1].userdata);
    assert s == FinPlanState(true, Some(s.pending.value));
    var p := ApplyWitness(s.pending.value, w, tx.keys[0]);
    if p.Pay? {
      var x := p.payment;
      SaveStateEffect(f, Credit(Credit(accs, 1, -x.tokens), 2, x.tokens), s.(pending := None));
    } else {
      SaveStateEffect(f, accs, s.(pending := Some(p)));
    }
  }

  /** Every successful call, on any accounts. */
  lemma ProcessEffect(f: Formats, tx: Transaction, accs: seq<Account>)
    requires GoodFormats(f) && CanRun(f, tx) && |tx.keys| == |accs| && Process(f, tx, accs).Done?
    ensures var post := Process(f, tx, accs).accounts;
      OthersUntouched(accs, post, EffectOf(f, tx, accs)) && TokensMove(f, tx, accs, post, EffectOf(f, tx, accs)) &&
      (|accs| >= 2 ==> ContractChange(f, accs[1], post[1], EffectOf(f, tx, accs))) &&
      (|accs| < 2 ==> EffectOf(f, tx, accs) == Nothing)
  {
    var ins := f.instruction(tx.userdata).value;
    match ins
    case NewContract(_, _) => OpenEffect(f, tx, accs, ins);
    case ApplyTimestamp(_) => WitnessEffect(f, tx, accs, ins);
    case ApplySignature => WitnessEffect(f, tx, accs, ins);
    case NewVote(_, _) =>
  }

  // ---- Exactly when a call succeeds, and when it panics ---------------------------------------------------

  /** Room for the state and the length before it. */
  predicate Room(f: Formats, a: Account, s: FinPlanState) {
    |a.userdata| >= 8 + |f.state.enc(s)|
  }

  /** Room enough by the size check, which forgets the length, but not for both. */
  predicate TightRoom(f: Formats, a: Account, s: FinPlanState) {
    |f.state.enc(s)| <= |a.userdata| < 8 + |f.state.enc(s)|
  }

  predicate Succeeds(f: Formats, tx: Transaction, accs: seq<Account>)
    requires |tx.keys| == |accs|
  {
    |accs| >= 1 && accs[0].userdata == [] &&
    match f.instruction(tx.userdata)
    case None => false
    case Some(NewVote(_, _)) => true
    case Some(NewContract(tokens, plan)) =>
      0 <= tokens <= accs[0].tokens && |accs| >= 2 &&
      (plan.Pay? || (ContractIn(f, accs[1]).None? && Room(f, accs[1], FinPlanState(true, Some(plan)))))
    case Some(ins) =>
      |accs| >= 2 &&
      match ContractIn(f, accs[1])
      case Some(Some(plan)) =>
        (match ApplyWitness(plan, WitnessOf(ins).value, tx.keys[0])
         case Pay(x) => |accs| >= 3 && tx.keys[2] == x.to && Room(f, accs[1], FinPlanState(true, None))
         case p => Room(f, accs[1], FinPlanState(true, Some(p))))
      case _ => false
  }

  predicate Panicking(f: Formats, tx: Transaction, accs: seq<Account>)
    requires |tx.keys| == |accs|
  {
    f.instruction(tx.userdata).Some? &&
    (accs == [] || (accs[0].userdata == [] &&
      match f.instruction(tx.userdata).value
      case NewVote(_, _) => false
      case NewContract(tokens, plan) =>
        0 <= tokens <= accs[0].tokens &&
        (|accs| < 2 || (!plan.Pay? && ContractIn(f, accs[1]).None? && TightRoom(f, accs[1], FinPlanState(true, Some(plan)))))
      case ins =>
        |accs| < 2 ||
        match ContractIn(f, accs[1])
        case Some(Some(plan)) =>
          (match ApplyWitness(plan, WitnessOf(ins).value, tx.keys[0])
           case Pay(x) => |accs| < 3 || (tx.keys[2] == x.to && TightRoom(f, accs[1], FinPlanState(true, None)))
           case p => TightRoom(f, accs[1], FinPlanState(true, Some(p))))
        case _ => false))
  }

  /**
   * A call succeeds exactly when its payer is no contract and can pay, the contract is there or not as
   * it should be, a payment goes to the third account, and the state fits with its length; it panics
   * exactly for want of an account it uses, or of the last few bytes of room; otherwise it is refused.
   */
  lemma CallOutcome(f: Formats, tx: Transaction, accs: seq<Account>)
    requires |tx.keys| == |accs|
    ensures Process(f, tx, accs).Done? <==> Succeeds(f, tx, accs)
    ensures Process(f, tx, accs) == Fault(ProgramPanic) <==> Panicking(f, tx, accs)
    ensures Process(f, tx, accs).Fault? ==> Process(f, tx, accs).error in {ProgramPanic, ProgramRuntimeError}
  {
    hide Deserialize; hide ApplyWitness;
    ContractStates(f, accs);
  }

  lemma ContractStates(f: Formats, accs: seq<Account>)
    ensures |accs| >= 2 ==>
      var s := Deserialize(f, accs[1].userdata);
      (s.Some? && s.value.initialized <==> ContractIn(f, accs[1]).Some?) &&
      (s.Some? && s.value.initialized ==> s.value == FinPlanState(true, ContractIn(f, accs[1]).value))
  {
    hide Deserialize;
  }

  // ---- The escrow book -----------------------------------------------------------------------------

  /** One contract from opening on: its plan, what it was funded with, every witness, and its payout. */
  datatype Escrowed = Escrowed(original: FinPlan, amount: int, history: seq<Testimony>, paid: Option<Payment>)

  type Book = map<Pubkey, Escrowed>

  /** A contract may be opened only once, and acted on only until it has paid. */
  predicate Allowed(book: Book, k: Pubkey, e: Effect) {
    match e
    case Nothing => true
    case Opened(_, _) => k !in book
    case Witnessed(_, _) => k in book && book[k].paid.None?
    case Settled(_, _) => k in book && book[k].paid.None?
  }

  function Enter(book: Book, k: Pubkey, fee: int, e: Effect): Book
    requires Allowed(book, k, e)
  {
    match e
    case Nothing => book
    case Opened(deposit, plan) => book[k := Escrowed(plan, deposit - fee, [], None)]
    case Witnessed(t, _) => book[k := book[k].(history := book[k].history + [t])]
    case Settled(t, x) => book[k := book[k].(history := book[k].history + [t], paid := Some(x))]
  }

  /** The book's record of `k` and the account agree, and a pending contract is fully funded. */
  ghost predicate Backed(f: Formats, a: Account, book: Book, k: Pubkey) {
    if k !in book then ContractIn(f, a).None? else
    var c := book[k];
    c.amount >= 0 && Verify(c.original, c.amount) &&
    match c.paid
    case None =>
      !Reduce(c.original, c.history).Pay? && ContractIn(f, a) == Some(Some(Reduce(c.original, c.history))) &&
      a.tokens > c.amount
    case Some(x) => ContractIn(f, a) == Some(None) && Reduce(c.original, c.history) == Pay(x) && a.tokens > 0
  }

  ghost predicate Inv(f: Formats, accounts: Accounts, book: Book) {
    Positive(accounts) && forall k :: Backed(f, Get(accounts, k), book, k)
  }

  lemma EmptyUserdataIsNoContract(f: Formats, a: Account)
    requires a.userdata == []
    ensures ContractIn(f, a).None?
  {
  }

  lemma ContractChangeBacked(f: Formats, pre: Account, post: Account, book: Book, k: Pubkey, fee: int, e: Effect)
    requires Backed(f, pre, book, k) && ContractChange(f, pre, post, e)
    requires e.Opened? ==> 0 <= fee <= e.deposit && Verify(e.plan, e.deposit - fee) && pre.tokens > 0
    ensures Allowed(book, k, e) && Backed(f, post, Enter(book, k, fee, e), k)
    ensures e.Settled? ==> e.payment.tokens == book[k].amount
  {
    hide ContractIn;
    match e
    case Nothing => SameUserdataSameContract(f, pre, post);
    case Opened(deposit, plan) =>
      assert Reduce(plan, []) == plan;
    case Witnessed(t, plan) =>
      ReduceSnoc(book[k].original, book[k].history, t);
    case Settled(t, x) =>
      ReduceSnoc(book[k].original, book[k].history, t);
      ReduceKeepsAmount(book[k].original, book[k].history + [t], book[k].amount);
  }

  lemma SameUserdataSameContract(f: Formats, pre: Account, post: Account)
    requires pre.userdata == post.userdata
    ensures ContractIn(f, pre) == ContractIn(f, post)
  {
  }

  // ---- Through the processor -----------------------------------------------------------------------

  predicate IsCall(tx: Transaction) { tx.programId == BUDGET_PROGRAM_ID }

  lemma CallRuns(r: Registry, tx: Transaction, accs: seq<Account>)
    requires IsCall(tx) && |tx.keys| == |accs|
    ensures Dispatch(r)(tx, accs) == Process(r.formats, tx, accs)
  {
    assert BUDGET_PROGRAM_ID.bytes[0] == 1 && SYSTEM_PROGRAM_ID.bytes[0] == 0;
    assert !IsSystem(tx.programId);
  }

  /** What the processor leaves after an accepted contract transaction, any keys repeated or not. */
  lemma AcceptedCall(r: Registry, b: Bank, tx: Transaction)
    requires IsCall(tx) && tx.keys != [] && KeepsSlice(r.other)
    requires ProcessTransactions(Dispatch(r), b, [tx]).1 == [Okay]
    ensures
      var pre := Fetch(b.accounts, tx);
      Process(r.formats, tx, pre).Done? &&
      Stored(b.accounts, tx, Process(r.formats, tx, pre).accounts, ProcessTransactions(Dispatch(r), b, [tx]).0.accounts)
  {
    hide ProcessTransactions; hide Process; hide KeepsSlice; hide Dispatch;
    CallRuns(r, tx, Fetch(b.accounts, tx));
    DispatchKeepsSlice(r);
    AcceptedWrites(Dispatch(r), b, tx);
  }

  /** Each key holds what was written at its last position; other keys are as before. */
  ghost predicate Stored(m: Accounts, tx: Transaction, post: seq<Account>, after: Accounts) {
    |post| == |tx.keys| && (forall i :: 0 <= i < |post| ==> post[i].tokens >= 0) &&
    (forall k :: k in tx.keys ==> LeftBy(after, k, post[LastPosition(tx.keys, k)])) &&
    (forall k :: k !in tx.keys ==> Get(after, k) == Get(m, k))
  }

  /** The effect of a transaction on a contract: none when it failed or was no contract call. */
  function Happened(r: Registry, b: Bank, tx: Transaction): Effect
    requires tx.keys != []
  {
    if IsCall(tx) && ProcessTransactions(Dispatch(r), b, [tx]).1 == [Okay]
    then EffectOf(r.formats, tx, Fetch(b.accounts, tx)) else Nothing
  }

  function ContractKey(tx: Transaction): Pubkey {
    if |tx.keys| >= 2 then tx.keys[1] else DEFAULT_PUBKEY
  }

  /** The contract account is listed again, so that a stale copy of it is stored last. */
  predicate RepeatsContract(keys: seq<Pubkey>) {
    |keys| >= 3 && keys[0] != keys[1] && Overwritten(keys, 1)
  }

  /**
   * A call that can act on a contract other than its payer lists it once, and opens it only with a
   * plan that passes `verify_plan`, which the processor itself never asks.
   */
  predicate Proper(f: Formats, tx: Transaction) {
    Acts(f, tx) && CanRun(f, tx) && tx.keys[0] != tx.keys[1] ==>
      !RepeatsContract(tx.keys) && (OpensContract(f, tx) ==> VerifyPlan(f, tx))
  }

  /** A payment at once is balanced only when it pays what was deposited. */
  lemma AcceptedCanRun(r: Registry, b: Bank, tx: Transaction)
    requires IsCall(tx) && tx.keys != [] && ProcessTransactions(Dispatch(r), b, [tx]).1 == [Okay]
    ensures CanRun(r.formats, tx)
  {
    hide ProcessTransactions; hide Dispatch; hide SumTokens; hide ContractIn; hide VerifyFrom; hide SaveState;
    var f, pre := r.formats, Fetch(b.accounts, tx);
    SingleOutcome(Dispatch(r), b, tx);
    CallRuns(r, tx, pre);
    var ins := f.instruction(tx.userdata).value;
    if ins.NewContract? && ins.plan.Pay? {
      CreditSum(pre, 0, -ins.tokens);
      CreditSum(Credit(pre, 0, -ins.tokens), 1, ins.plan.payment.tokens);
    }
  }

  /** A key the transaction does not act on as its contract stays backed. */
  lemma BystanderBacked(f: Formats, a: Account, a': Account, book: Book, k: Pubkey)
    requires Backed(f, a, book, k) && a'.userdata == a.userdata && (k !in book || a'.tokens >= a.tokens)
    ensures Backed(f, a', book, k)
  {
    SameUserdataSameContract(f, a, a');
  }

  lemma FailedChangesNothing(run: Runtime, b: Bank, tx: Transaction)
    requires tx.keys != [] && ProcessTransactions(run, b, [tx]).1 != [Okay]
    ensures ProcessTransactions(run, b, [tx]).0.accounts == b.accounts
  {
    SingleOutcome(run, b, tx);
  }

  /** Account `i` of an accepted call, other than the contract, is still backed afterwards. */
  lemma OtherKeyBacked(f: Formats, pre: seq<Account>, post: seq<Account>, e: Effect, a: Account, book: Book, k: Pubkey, i: nat)
    requires OthersUntouched(pre, post, e) && i < |pre| && i != 1
    requires a.userdata == pre[i].userdata && (i != 0 ==> a == pre[i]) && Backed(f, a, book, k)
    requires e.Settled? ==> e.payment.tokens >= 0
    ensures Backed(f, post[i], book, k)
    ensures i == 0 ==> k !in book
  {
    hide ContractIn; hide Backed;
    if i == 0 {
      EmptyUserdataIsNoContract(f, a);
      EmptyUserdataIsNoContract(f, post[0]);
      NotInBook(f, a, post[0], book, k);
    } else {
      BystanderBacked(f, a, post[i], book, k);
    }
  }

  lemma NotInBook(f: Formats, a: Account, a': Account, book: Book, k: Pubkey)
    requires Backed(f, a, book, k) && ContractIn(f, a).None? && ContractIn(f, a').None?
    ensures k !in book && Backed(f, a', book, k)
  {
  }

  lemma StoredPositive(r: Registry, b: Bank, tx: Transaction)
    requires tx.keys != [] && Positive(b.accounts) && KeepsSlice(r.other)
    ensures Positive(ProcessTransactions(Dispatch(r), b, [tx]).0.accounts)
  {
    DispatchKeepsSlice(r);
    BatchKeepsPositive(Dispatch(r), b, [tx]);
  }

  /** An emptied account is as good as its last contents when it held no contract or still has tokens. */
  lemma StoredAccount(f: Formats, after: Accounts, k: Pubkey, a: Account, book: Book)
    requires LeftBy(after, k, a) && Backed(f, a, book, k)
    ensures Backed(f, Get(after, k), book, k)
  {
    if a.tokens == 0 {
      BackedHasTokens(f, a, book, k);
      EmptyUserdataIsNoContract(f, DEFAULT_ACCOUNT);
    }
  }

  lemma SameRecord(f: Formats, a: Account, book: Book, book': Book, k: Pubkey)
    requires Backed(f, a, book, k) && (k in book <==> k in book') && (k in book ==> book[k] == book'[k])
    ensures Backed(f, a, book', k)
  {
  }

  lemma BackedHasTokens(f: Formats, a: Account, book: Book, k: Pubkey)
    requires Backed(f, a, book, k)
    ensures k in book ==> a.tokens > 0
  {
  }

  // ---- Contract transactions -------------------------------------------------------------------------

  /** Whatever happened was allowed by the book; a payout is exactly what the contract was funded to pay. */
  lemma ContractKeyBacked(f: Formats, b: Bank, tx: Transaction, book: Book)
    requires GoodFormats(f) && CanRun(f, tx) && Proper(f, tx) && Inv(f, b.accounts, book)
    requires |tx.keys| >= 2 && Process(f, tx, Fetch(b.accounts, tx)).Done?
    ensures
      var pre := Fetch(b.accounts, tx);
      var e := EffectOf(f, tx, pre);
      var k := tx.keys[1];
      |Process(f, tx, pre).accounts| == |tx.keys| &&
      Allowed(book, k, e) && Backed(f, Process(f, tx, pre).accounts[1], Enter(book, k, tx.fee, e), k) &&
      (e.Settled? ==> e.payment.tokens == book[k].amount >= 0)
  {
    hide Process; hide ContractIn;
    var pre := Fetch(b.accounts, tx);
    var e := EffectOf(f, tx, pre);
    var k := tx.keys[1];
    ProcessEffect(f, tx, pre);
    assert Backed(f, Get(b.accounts, k), book, k);
    if e.Opened? {
      EffectActs(f, tx, pre);
      assert pre[1].userdata != pre[0].userdata;
    }
    ContractChangeBacked(f, pre[1], Process(f, tx, pre).accounts[1], book, k, tx.fee, e);
  }

  /** When the payer is also listed as the contract, a call can only leave contracts alone. */
  lemma SelfCallDoesNothing(f: Formats, tx: Transaction, b: Bank)
    requires GoodFormats(f) && CanRun(f, tx) && |tx.keys| >= 2 && tx.keys[0] == tx.keys[1]
    requires Process(f, tx, Fetch(b.accounts, tx)).Done?
    ensures EffectOf(f, tx, Fetch(b.accounts, tx)) == Nothing
  {
    hide Process; hide ContractIn;
    var pre := Fetch(b.accounts, tx);
    ProcessEffect(f, tx, pre);
    assert pre[1].userdata == pre[0].userdata == [];
    EmptyUserdataIsNoContract(f, pre[1]);
  }

  lemma AcceptedKeepsEscrow(f: Formats, b: Bank, book: Book, tx: Transaction, after: Accounts)
    requires GoodFormats(f) && tx.keys != [] && CanRun(f, tx) && Proper(f, tx) && Inv(f, b.accounts, book) && Positive(after)
    requires Process(f, tx, Fetch(b.accounts, tx)).Done?
    requires Stored(b.accounts, tx, Process(f, tx, Fetch(b.accounts, tx)).accounts, after)
    ensures var e := EffectOf(f, tx, Fetch(b.accounts, tx));
      Allowed(book, ContractKey(tx), e) && Inv(f, after, Enter(book, ContractKey(tx), tx.fee, e)) &&
      (e.Settled? ==> e.payment.tokens == book[ContractKey(tx)].amount)
  {
    hide Process; hide ContractIn; hide Positive; hide Backed; hide LeftBy; hide GoodFormats; hide VerifyPlan; hide CanRun;
    var pre := Fetch(b.accounts, tx);
    var post := Process(f, tx, pre).accounts;
    var e := EffectOf(f, tx, pre);
    ProcessEffect(f, tx, pre);
    if |tx.keys| >= 2 {
      ContractKeyBacked(f, b, tx, book);
    }
    var book' := Enter(book, ContractKey(tx), tx.fee, e);
    forall k ensures Backed(f, Get(after, k), book', k) {
      KeyKeepsBacking(f, b, book, tx, after, k);
    }
  }

  lemma KeyKeepsBacking(f: Formats, b: Bank, book: Book, tx: Transaction, after: Accounts, k: Pubkey)
    requires GoodFormats(f) && tx.keys != [] && CanRun(f, tx) && Proper(f, tx) && Inv(f, b.accounts, book)
    requires Process(f, tx, Fetch(b.accounts, tx)).Done?
    requires Stored(b.accounts, tx, Process(f, tx, Fetch(b.accounts, tx)).accounts, after)
    requires Allowed(book, ContractKey(tx), EffectOf(f, tx, Fetch(b.accounts, tx)))
    ensures Backed(f, Get(after, k), Enter(book, ContractKey(tx), tx.fee, EffectOf(f, tx, Fetch(b.accounts, tx))), k)
  {
    hide Process; hide ContractIn; hide Positive; hide Backed; hide LeftBy; hide GoodFormats; hide VerifyPlan;
    hide CanRun; hide EffectOf;
    var pre := Fetch(b.accounts, tx);
    var post := Process(f, tx, pre).accounts;
    var e := EffectOf(f, tx, pre);
    var book' := Enter(book, ContractKey(tx), tx.fee, e);
    ProcessEffect(f, tx, pre);
    assert Backed(f, Get(b.accounts, k), book, k);
    if k !in tx.keys {
      SameRecord(f, Get(b.accounts, k), book, book', k);
    } else {
      var j := LastPosition(tx.keys, k);
      if |tx.keys| >= 2 {
        ContractKeyBacked(f, b, tx, book);
      }
      if j == 1 {
        StoredAccount(f, after, k, post[1], book');
      } else {
        OtherKeyBacked(f, pre, post, e, Get(b.accounts, k), book, k, j);
        if |tx.keys| >= 2 && k == tx.keys[1] && e != Nothing {
          EffectActs(f, tx, pre);
          if tx.keys[0] != tx.keys[1] {
            ListedAgain(tx.keys);
          }
          SelfCallDoesNothing(f, tx, b);
        }
        SameRecord(f, post[j], book, book', k);
        StoredAccount(f, after, k, post[j], book');
      }
    }
  }

  lemma {:induction false} ListedAgain(keys: seq<Pubkey>)
    requires |keys| >= 2 && LastPosition(keys, keys[1]) != 1 && !RepeatsContract(keys)
    ensures keys[0] == keys[1]
  {
    var j := LastPosition(keys, keys[1]);
    assert j > 1 && keys[2..][j - 2] == keys[1];
  }

  // ---- System transactions -----------------------------------------------------------------------------

  /** What an account of the book must hold more than. */
  function Need(c: Escrowed): int { if c.paid.None? then c.amount else 0 }

  /**
   * Everything a caller must look at before a system transaction: a contract that pays or is drawn
   * on keeps enough, and none is the target of a CreateAccount that goes ahead.
   */
  ghost predicate Spares(r: Registry, b: Bank, book: Book, tx: Transaction) {
    var ins, pre := r.system(tx.userdata), Fetch(b.accounts, tx);
    forall k :: k in book && k in tx.keys ==>
      var j := LastPosition(tx.keys, k);
      (j == 0 ==> Balance(b.accounts, k) - tx.fee - Moved(ins, pre) > Need(book[k])) &&
      (j == 1 ==> Balance(b.accounts, k) + Moved(ins, pre) > Need(book[k]) &&
                  !(ins.Some? && ins.value.CreateAccount? && Opens(pre, ins.value.space)))
  }

  lemma BlankIsNoContract(f: Formats, a: Account, n: nat)
    requires a.userdata == Zeros(n)
    ensures ContractIn(f, a).None?
  {
    if n >= 8 {
      assert a.userdata[..8] == Zeros(8);
      ZeroLength();
    }
  }

  lemma ZeroLength()
    ensures FromLE(Zeros(8)) == 0
  {
    ToLEZero(8);
    FromToLE(0, 8);
  }

  lemma {:induction false} ToLEZero(n: nat)
    ensures ToLE(0, n) == Zeros(n)
  {
    if n > 0 {
      ToLEZero(n - 1);
    }
  }

  /** A system instruction leaves each account's userdata, or blanks that of an account it opens. */
  lemma SystemUserdata(ins: Option<SystemInstruction>, accs: seq<Account>, i: nat)
    requires System(ins, accs).Done? && i < |accs|
    ensures var post := System(ins, accs).accounts;
      |post| == |accs| &&
      if i == 1 && ins.Some? && ins.value.CreateAccount? && Opens(accs, ins.value.space)
      then post[i].userdata == Zeros(ins.value.space) else post[i].userdata == accs[i].userdata
  {
  }

  lemma BackedExactly(f: Formats, a: Account, a': Account, book: Book, k: Pubkey)
    requires k in book && Backed(f, a, book, k) && ContractIn(f, a') == ContractIn(f, a)
    ensures Backed(f, a', book, k) <==> a'.tokens > Need(book[k])
  {
  }

  lemma UnbackedWithoutContract(f: Formats, a: Account, book: Book, k: Pubkey)
    requires k in book && ContractIn(f, a).None?
    ensures !Backed(f, a, book, k)
  {
  }

  /** One key through an accepted system transaction: still backed exactly when it was spared. */
  lemma {:induction false} SystemKeyBacked(r: Registry, b: Bank, book: Book, tx: Transaction, after: Accounts, k: Pubkey)
    requires tx.keys != [] && Inv(r.formats, b.accounts, book)
    requires System(r.system(tx.userdata), Fetch(b.accounts, tx)).Done?
    requires Stored(b.accounts, tx, System(r.system(tx.userdata), Fetch(b.accounts, tx)).accounts, after)
    ensures Backed(r.formats, Get(after, k), book, k) <==>
      (k in book && k in tx.keys ==>
        var ins, pre, j := r.system(tx.userdata), Fetch(b.accounts, tx), LastPosition(tx.keys, k);
        (j == 0 ==> Balance(b.accounts, k) - tx.fee - Moved(ins, pre) > Need(book[k])) &&
        (j == 1 ==> Balance(b.accounts, k) + Moved(ins, pre) > Need(book[k]) &&
                    !(ins.Some? && ins.value.CreateAccount? && Opens(pre, ins.value.space))))
  {
    hide System; hide ContractIn; hide Positive; hide Backed; hide Moved; hide Opens;
    var f, ins, pre := r.formats, r.system(tx.userdata), Fetch(b.accounts, tx);
    var a := Get(b.accounts, k);
    assert Backed(f, a, book, k);
    if k in tx.keys {
      var j := LastPosition(tx.keys, k);
      var post := System(ins, pre).accounts;
      SystemMoves(ins, pre);
      SystemUserdata(ins, pre, j);
      if j == 1 && ins.Some? && ins.value.CreateAccount? && Opens(pre, ins.value.space) {
        BlankIsNoContract(f, post[1], ins.value.space);
        EmptyUserdataIsNoContract(f, DEFAULT_ACCOUNT);
        if k in book {
          UnbackedWithoutContract(f, Get(after, k), book, k);
        } else {
          NoContractIsBacked(f, Get(after, k), book, k);
        }
      } else {
        SameUserdataSameContract(f, a, post[j]);
        KeptKeyBacked(f, a, post[j], book, k, after);
      }
      if j >= 2 && k in book {
        BackedExactly(f, a, a, book, k);
      }
    }
  }

  lemma NoContractIsBacked(f: Formats, a: Account, book: Book, k: Pubkey)
    requires k !in book
    ensures Backed(f, a, book, k) <==> ContractIn(f, a).None?
  {
  }

  lemma KeptKeyBacked(f: Formats, a: Account, a': Account, book: Book, k: Pubkey, after: Accounts)
    requires Backed(f, a, book, k) && ContractIn(f, a') == ContractIn(f, a) && LeftBy(after, k, a') && a'.tokens >= 0
    ensures k in book ==> (Backed(f, Get(after, k), book, k) <==> a'.tokens > Need(book[k]))
    ensures k !in book ==> Backed(f, Get(after, k), book, k)
  {
    hide ContractIn;
    EmptyUserdataIsNoContract(f, DEFAULT_ACCOUNT);
    if k in book {
      BackedExactly(f, a, a', book, k);
      NeedIsNatural(f, a, book, k);
    }
  }

  lemma NeedIsNatural(f: Formats, a: Account, book: Book, k: Pubkey)
    requires k in book && Backed(f, a, book, k)
    ensures Need(book[k]) >= 0
  {
  }

  /** An accepted system transaction keeps every contract backed exactly when it spares them. */
  lemma SystemKeepsEscrowExactly(r: Registry, b: Bank, book: Book, tx: Transaction)
    requires KeepsSlice(r.other) && tx.keys != [] && tx.programId == SYSTEM_PROGRAM_ID && Inv(r.formats, b.accounts, book)
    requires ProcessTransactions(Dispatch(r), b, [tx]).1 == [Okay]
    ensures Inv(r.formats, ProcessTransactions(Dispatch(r), b, [tx]).0.accounts, book) <==> Spares(r, b, book, tx)
  {
    hide ProcessTransactions; hide System; hide Dispatch; hide Backed; hide Moved; hide Opens; hide KeepsSlice; hide LeftBy;
    var after := ProcessTransactions(Dispatch(r), b, [tx]).0.accounts;
    StoredPositive(r, b, tx);
    DispatchKeepsSlice(r);
    AcceptedWrites(Dispatch(r), b, tx);
    SystemRuns(r, tx, Fetch(b.accounts, tx));
    if Inv(r.formats, after, book) {
      forall k | k in book && k in tx.keys
        ensures var ins, pre, j := r.system(tx.userdata), Fetch(b.accounts, tx), LastPosition(tx.keys, k);
          (j == 0 ==> Balance(b.accounts, k) - tx.fee - Moved(ins, pre) > Need(book[k])) &&
          (j == 1 ==> Balance(b.accounts, k) + Moved(ins, pre) > Need(book[k]) &&
                      !(ins.Some? && ins.value.CreateAccount? && Opens(pre, ins.value.space)))
      {
        SystemKeyBacked(r, b, book, tx, after, k);
        assert Backed(r.formats, Get(after, k), book, k);
      }
    }
    if Spares(r, b, book, tx) {
      forall k ensures Backed(r.formats, Get(after, k), book, k) {
        SystemKeyBacked(r, b, book, tx, after, k);
      }
    }
  }

  /**
   * For contracts owned by the contract program it comes down to two things: no contract pays the
   * fee, and none is the target of a CreateAccount without space.
   */
  lemma OwnedContractsAreSpared(r: Registry, b: Bank, book: Book, tx: Transaction)
    requires KeepsSlice(r.other) && tx.keys != [] && tx.programId == SYSTEM_PROGRAM_ID && Inv(r.formats, b.accounts, book)
    requires ProcessTransactions(Dispatch(r), b, [tx]).1 == [Okay]
    requires forall k :: k in book && k in tx.keys ==> Get(b.accounts, k).programId == BUDGET_PROGRAM_ID
    requires tx.fee > 0 ==> tx.keys[0] !in book
    requires var ins := r.system(tx.userdata);
      ins.Some? && ins.value.CreateAccount? && ins.value.space == 0 && |tx.keys| >= 2 ==> tx.keys[1] !in book
    ensures Spares(r, b, book, tx)
  {
    hide ProcessTransactions; hide Dispatch; hide KeepsSlice; hide SumTokens;
    SingleOutcome(Dispatch(r), b, tx);
    var ins, pre := r.system(tx.userdata), Fetch(b.accounts, tx);
    SystemRuns(r, tx, pre);
    var x := Execute(Dispatch(r), tx, pre);
    assert BUDGET_PROGRAM_ID.bytes[0] == 1 && SYSTEM_PROGRAM_ID.bytes[0] == 0;
    forall k | k in book && k in tx.keys
      ensures var j := LastPosition(tx.keys, k);
        (j == 0 ==> Balance(b.accounts, k) - tx.fee - Moved(ins, pre) > Need(book[k])) &&
        (j == 1 ==> Balance(b.accounts, k) + Moved(ins, pre) > Need(book[k]) &&
                    !(ins.Some? && ins.value.CreateAccount? && Opens(pre, ins.value.space)))
    {
      OwnedContractSpared(r, b, book, tx, x.accounts, k);
    }
  }

  lemma {:induction false} OwnedContractSpared(r: Registry, b: Bank, book: Book, tx: Transaction, post: seq<Account>, k: Pubkey)
    requires System(r.system(tx.userdata), Fetch(b.accounts, tx)) == Done(post)
    requires Inv(r.formats, b.accounts, book) && k in book && k in tx.keys
    requires tx.programId == SYSTEM_PROGRAM_ID && Get(b.accounts, k).programId == BUDGET_PROGRAM_ID
    requires VerifyFrom(tx, Fetch(b.accounts, tx), post, 0).Okay? && BUDGET_PROGRAM_ID != SYSTEM_PROGRAM_ID
    requires tx.fee > 0 ==> tx.keys[0] !in book
    requires var ins := r.system(tx.userdata);
      ins.Some? && ins.value.CreateAccount? && ins.value.space == 0 && |tx.keys| >= 2 ==> tx.keys[1] !in book
    ensures var ins, pre, j := r.system(tx.userdata), Fetch(b.accounts, tx), LastPosition(tx.keys, k);
      (j == 0 ==> Balance(b.accounts, k) - tx.fee - Moved(ins, pre) > Need(book[k])) &&
      (j == 1 ==> Balance(b.accounts, k) + Moved(ins, pre) > Need(book[k]) &&
                  !(ins.Some? && ins.value.CreateAccount? && Opens(pre, ins.value.space)))
  {
    hide ContractIn; hide VerifyFrom; hide Positive;
    var ins, pre, j := r.system(tx.userdata), Fetch(b.accounts, tx), LastPosition(tx.keys, k);
    var a := Get(b.accounts, k);
    assert Backed(r.formats, a, book, k);
    BackedExactly(r.formats, a, a, book, k);
    SystemMoves(ins, pre);
    if j < |post| {
      assert VerifyTransaction(tx, pre[j].programId, pre[j].tokens, post[j]).Okay?;
    }
    if a.userdata == [] {
      EmptyUserdataIsNoContract(r.formats, a);
      UnbackedWithoutContract(r.formats, a, book, k);
    }
  }

  /** The second does happen: an accepted CreateAccount without space empties a contract account. */
  lemma ContractWiped(r: Registry, b: Bank, book: Book, tx: Transaction)
    requires tx.programId == SYSTEM_PROGRAM_ID && |tx.keys| == 2 && Loadable(b, tx) && Inv(r.formats, b.accounts, book)
    requires tx.keys[1] in book && IsSystem(Get(b.accounts, tx.keys[0]).programId)
    requires r.system(tx.userdata) == Some(CreateAccount(0, 0, Get(b.accounts, tx.keys[1]).programId))
    ensures
      var (b', ss) := ProcessTransactions(Dispatch(r), b, [tx]);
      ss == [Okay] && Get(b'.accounts, tx.keys[1]).userdata == [] && !Inv(r.formats, b'.accounts, book)
  {
    hide ProcessTransactions; hide Dispatch; hide ContractIn; hide Positive;
    var c := tx.keys[1];
    assert Backed(r.formats, Get(b.accounts, c), book, c);
    BackedHasTokens(r.formats, Get(b.accounts, c), book, c);
    AccountCreated(r, b, tx, 0, 0, Get(b.accounts, c).programId);
    var after := ProcessTransactions(Dispatch(r), b, [tx]).0.accounts;
    EmptyUserdataIsNoContract(r.formats, Get(after, c));
    UnbackedWithoutContract(r.formats, Get(after, c), book, c);
  }

  // ---- Other programs ------------------------------------------------------------------------------

  /** A program that writes nothing that would read as a live contract. */
  ghost predicate ForgesNothing(f: Formats, run: Runtime) {
    forall tx: Transaction, accs: seq<Account>, i: nat ::
      run(tx, accs).Done? && i < |accs| && i < |run(tx, accs).accounts| ==>
        run(tx, accs).accounts[i].userdata == accs[i].userdata || ContractIn(f, run(tx, accs).accounts[i]).None?
  }

  lemma OtherKeepsEscrow(r: Registry, b: Bank, book: Book, tx: Transaction)
    requires KeepsSlice(r.other) && ForgesNothing(r.formats, r.other) && tx.keys != [] && Inv(r.formats, b.accounts, book)
    requires !IsCall(tx) && tx.programId != SYSTEM_PROGRAM_ID && forall k :: k in tx.keys ==> k !in book
    requires ProcessTransactions(Dispatch(r), b, [tx]).1 == [Okay]
    ensures Inv(r.formats, ProcessTransactions(Dispatch(r), b, [tx]).0.accounts, book)
  {
    hide ProcessTransactions; hide KeepsSlice; hide ContractIn; hide Backed; hide Process; hide System;
    var f, pre, after := r.formats, Fetch(b.accounts, tx), ProcessTransactions(Dispatch(r), b, [tx]).0.accounts;
    StoredPositive(r, b, tx);
    DispatchKeepsSlice(r);
    AcceptedWrites(Dispatch(r), b, tx);
    assert Dispatch(r)(tx, pre) == r.other(tx, pre);
    forall k ensures Backed(f, Get(after, k), book, k) {
      assert Backed(f, Get(b.accounts, k), book, k);
      if k in tx.keys {
        var j := LastPosition(tx.keys, k);
        var a := r.other(tx, pre).accounts[j];
        NoContractIsBacked(f, Get(b.accounts, k), book, k);
        if a.userdata == pre[j].userdata {
          SameUserdataSameContract(f, Get(b.accounts, k), a);
        }
        EmptyUserdataIsNoContract(f, DEFAULT_ACCOUNT);
        NoContractIsBacked(f, Get(after, k), book, k);
      }
    }
  }

  // ---- One transaction of any program ------------------------------------------------------------

  /** What each kind of transaction must respect, looked up before it is processed. */
  ghost predicate Careful(r: Registry, b: Bank, book: Book, tx: Transaction)
    requires tx.keys != []
  {
    if IsCall(tx) then Proper(r.formats, tx)
    else if tx.programId == SYSTEM_PROGRAM_ID then ProcessTransactions(Dispatch(r), b, [tx]).1 == [Okay] ==> Spares(r, b, book, tx)
    else forall k :: k in tx.keys ==> k !in book
  }

  /** One transaction, processed by itself. */
  lemma TransactionKeepsEscrow(r: Registry, b: Bank, book: Book, tx: Transaction)
    requires GoodFormats(r.formats) && KeepsSlice(r.other) && ForgesNothing(r.formats, r.other)
    requires tx.keys != [] && Careful(r, b, book, tx) && Inv(r.formats, b.accounts, book)
    ensures var e := Happened(r, b, tx);
      Allowed(book, ContractKey(tx), e) &&
      Inv(r.formats, ProcessTransactions(Dispatch(r), b, [tx]).0.accounts, Enter(book, ContractKey(tx), tx.fee, e)) &&
      (e.Settled? ==> e.payment.tokens == book[ContractKey(tx)].amount)
  {
    hide ProcessTransactions; hide Process; hide Inv; hide Spares; hide Proper; hide KeepsSlice; hide GoodFormats;
    hide Dispatch;
    hide ForgesNothing;
    var after := ProcessTransactions(Dispatch(r), b, [tx]).0.accounts;
    if ProcessTransactions(Dispatch(r), b, [tx]).1 != [Okay] {
      FailedChangesNothing(Dispatch(r), b, tx);
    } else if IsCall(tx) {
      AcceptedCall(r, b, tx);
      AcceptedCanRun(r, b, tx);
      InvIsPositive(r.formats, b.accounts, book);
      StoredPositive(r, b, tx);
      AcceptedKeepsEscrow(r.formats, b, book, tx, after);
    } else if tx.programId == SYSTEM_PROGRAM_ID {
      SystemKeepsEscrowExactly(r, b, book, tx);
    } else {
      OtherKeepsEscrow(r, b, book, tx);
    }
  }

  lemma InvIsPositive(f: Formats, m: Accounts, book: Book)
    requires Inv(f, m, book)
    ensures Positive(m)
  {
  }

  // ---- Payment at once -------------------------------------------------------------------------------

  /** The payer is no contract and can part with the deposit, which is what the plan pays out. */
  predicate PaysAtOnce(m: Accounts, tx: Transaction, tokens: int, x: Payment)
    requires |tx.keys| == 2
  {
    var from, to := Get(m, tx.keys[0]), Get(m, tx.keys[1]);
    from.userdata == [] && 0 <= tokens <= from.tokens - tx.fee && x.tokens == tokens &&
    (tokens > 0 ==> from.programId == BUDGET_PROGRAM_ID) && to.tokens + tokens >= 0
  }

  /**
   * A contract that is due at once is a payment: it is accepted exactly when it can be loaded and
   * paid, and then moves the deposit from the first account to the second, which need not be the one
   * its plan names; from an account to itself it makes the deposit from nothing and charges no fee.
   */
  lemma PaidAtOnce(r: Registry, b: Bank, tx: Transaction, tokens: int, x: Payment)
    requires IsCall(tx) && |tx.keys| == 2 && r.formats.instruction(tx.userdata) == Some(NewContract(tokens, Pay(x)))
    ensures
      var (b', ss) := ProcessTransactions(Dispatch(r), b, [tx]);
      var from, to := tx.keys[0], tx.keys[1];
      |ss| == 1 && (ss[0].Okay? <==> Loadable(b, tx) && PaysAtOnce(b.accounts, tx, tokens, x)) &&
      (ss[0].Failed? ==> b'.accounts == b.accounts) &&
      (ss[0].Okay? ==>
        Balance(b'.accounts, from) == Balance(b.accounts, from) + (if from == to then tokens else -tokens - tx.fee) &&
        Balance(b'.accounts, to) == Balance(b.accounts, to) + tokens &&
        forall k :: k !in tx.keys ==> Get(b'.accounts, k) == Get(b.accounts, k))
  {
    hide ProcessTransactions; hide Dispatch; hide SumTokens; hide PutAll; hide VerifyFrom; hide ContractIn; hide Loadable;
    SingleOutcome(Dispatch(r), b, tx);
    var f, pre := r.formats, Fetch(b.accounts, tx);
    CallRuns(r, tx, pre);
    if pre[0].userdata == [] && 0 <= tokens <= pre[0].tokens {
      var post := Credit(Credit(pre, 0, -tokens), 1, x.tokens);
      assert Process(f, tx, pre) == Done(post);
      CreditSum(pre, 0, -tokens);
      CreditSum(Credit(pre, 0, -tokens), 1, x.tokens);
      assert VerifyFrom(tx, pre, post, 0).Okay? <==>
        VerifyTransaction(tx, pre[0].programId, pre[0].tokens, post[0]).Okay? &&
        VerifyTransaction(tx, pre[1].programId, pre[1].tokens, post[1]).Okay?;
      PutTwo(b.accounts, tx.keys, post);
      assert tx.keys[0] in tx.keys && tx.keys[1] in tx.keys;
    }
  }

  // ---- A contract key listed twice -------------------------------------------------------------------

  /** A witness transaction that settles the contract at its second key, and can be loaded. */
  ghost predicate ReadyToSettle(r: Registry, b: Bank, tx: Transaction, w: Witness, x: Payment) {
    var f := r.formats;
    IsCall(tx) && |tx.keys| >= 3 && Loadable(b, tx) && Positive(b.accounts) &&
    f.instruction(tx.userdata).Some? && WitnessOf(f.instruction(tx.userdata).value) == Some(w) &&
    Get(b.accounts, tx.keys[0]).userdata == [] &&
    var a := Get(b.accounts, tx.keys[1]);
    a.programId == BUDGET_PROGRAM_ID && 0 <= x.tokens < a.tokens && x.to == tx.keys[2] &&
    |a.userdata| >= 8 + |f.state.enc(FinPlanState(true, None))| &&
    exists plan :: ContractIn(f, a) == Some(Some(plan)) && ApplyWitness(plan, w, tx.keys[0]) == Pay(x)
  }

  /** What the settling call leaves. */
  ghost predicate SettledAccounts(f: Formats, pre: seq<Account>, post: seq<Account>, x: Payment) {
    |pre| == |post| >= 3 && ContractIn(f, post[1]) == Some(None) &&
    post[1].tokens == pre[1].tokens - x.tokens && post[1].programId == pre[1].programId &&
    post[2] == pre[2].(tokens := pre[2].tokens + x.tokens) &&
    forall i :: 0 <= i < |pre| && i != 1 && i != 2 ==> post[i] == pre[i]
  }

  lemma SettlingCall(r: Registry, b: Bank, tx: Transaction, w: Witness, x: Payment)
    requires GoodFormats(r.formats) && ReadyToSettle(r, b, tx, w, x)
    ensures var f, pre := r.formats, Fetch(b.accounts, tx);
      Process(f, tx, pre).Done? && SettledAccounts(f, pre, Process(f, tx, pre).accounts, x) &&
      SumTokens(Process(f, tx, pre).accounts) == SumTokens(pre) &&
      EffectOf(f, tx, pre) == Settled((w, tx.keys[0]), x)
  {
    hide SumTokens; hide Serialize; hide Deserialize; hide ApplyWitness; hide Faithful; hide Loadable; hide Positive;
    var f, pre := r.formats, Fetch(b.accounts, tx);
    var s := Deserialize(f, pre[1].userdata).value;
    ReadStateIsValid(f, pre[1].userdata);
    var paid := Credit(Credit(pre, 1, -x.tokens), 2, x.tokens);
    assert Process(f, tx, pre) == SaveState(f, paid, s.(pending := None));
    EnoughRoom(f, FinPlanState(true, None), paid[1].userdata);
    SaveStateEffect(f, paid, FinPlanState(true, None));
    CreditSum(pre, 1, -x.tokens);
    CreditSum(Credit(pre, 1, -x.tokens), 2, x.tokens);
    SameTokensSameSum(paid, Process(f, tx, pre).accounts);
  }

  lemma EnoughRoom(f: Formats, s: FinPlanState, buf: seq<byte>)
    requires |buf| >= 8 + |f.state.enc(s)|
    ensures Serialize(f, s, buf).Wrote?
  {
  }

  lemma SettlementAccepted(r: Registry, b: Bank, tx: Transaction, w: Witness, x: Payment)
    requires GoodFormats(r.formats) && KeepsSlice(r.other) && ReadyToSettle(r, b, tx, w, x)
    ensures ProcessTransactions(Dispatch(r), b, [tx]).1 == [Okay]
    ensures Happened(r, b, tx) == Settled((w, tx.keys[0]), x)
  {
    hide ProcessTransactions; hide Process; hide Dispatch; hide ContractIn; hide SumTokens; hide VerifyFrom; hide GoodFormats;
    var f, pre := r.formats, Fetch(b.accounts, tx);
    SettlingCall(r, b, tx, w, x);
    CallRuns(r, tx, pre);
    var post := Process(f, tx, pre).accounts;
    SingleOutcome(Dispatch(r), b, tx);
    forall i | 0 <= i < |pre| ensures VerifyTransaction(tx, pre[i].programId, pre[i].tokens, post[i]).Okay? {
      assert i > 0 ==> pre[i] == Get(b.accounts, tx.keys[i]);
    }
    assert VerifyFrom(tx, pre, post, 0).Okay?;
  }

  /** The stale copy stored last leaves the contract as it was, with no fewer tokens, though it has paid. */
  lemma RepeatLeavesPending(r: Registry, b: Bank, tx: Transaction, w: Witness, x: Payment)
    requires GoodFormats(r.formats) && KeepsSlice(r.other) && ReadyToSettle(r, b, tx, w, x) && RepeatsContract(tx.keys)
    ensures var c, after := tx.keys[1], ProcessTransactions(Dispatch(r), b, [tx]).0.accounts;
      Get(after, c).userdata == Get(b.accounts, c).userdata && Get(after, c).programId == Get(b.accounts, c).programId &&
      Get(after, c).tokens >= Get(b.accounts, c).tokens &&
      Get(after, tx.keys[0]).userdata == [] &&
      Get(after, tx.keys[0]).tokens >= Get(b.accounts, tx.keys[0]).tokens - (if tx.fee > 0 then tx.fee else 0)
  {
    hide ProcessTransactions; hide Process; hide Dispatch; hide ContractIn; hide GoodFormats; hide KeepsSlice;
    SettlementAccepted(r, b, tx, w, x);
    AcceptedCall(r, b, tx);
    SettlingCall(r, b, tx, w, x);
    var j := LastPosition(tx.keys, tx.keys[1]);
    assert tx.keys[1] in tx.keys[2..] && j >= 2 by {
      var i :| 0 <= i < |tx.keys[2..]| && tx.keys[2..][i] == tx.keys[1];
      assert tx.keys[i + 2] == tx.keys[1];
    }
    assert tx.keys[0] in tx.keys && LastPosition(tx.keys, tx.keys[0]) != 1;
  }

  /** So the same settlement, signed again, is accepted again and pays the same contract out twice. */
  lemma PaidTwice(r: Registry, b: Bank, tx: Transaction, again: Signature, w: Witness, x: Payment)
    requires GoodFormats(r.formats) && KeepsSlice(r.other) && ReadyToSettle(r, b, tx, w, x) && RepeatsContract(tx.keys)
    requires again != tx.signature && again !in b.sigs[tx.lastId]
    requires Balance(b.accounts, tx.keys[0]) > 2 * Abs(tx.fee)
    ensures
      var b', tx' := ProcessTransactions(Dispatch(r), b, [tx]).0, tx.(signature := again);
      Happened(r, b, tx) == Settled((w, tx.keys[0]), x) && Happened(r, b', tx') == Settled((w, tx.keys[0]), x) &&
      ContractKey(tx') == ContractKey(tx)
  {
    hide ProcessTransactions; hide Process; hide Dispatch; hide GoodFormats; hide KeepsSlice; hide ApplyWitness;
    hide ContractIn;
    SettlementAccepted(r, b, tx, w, x);
    RepeatLeavesPending(r, b, tx, w, x);
    StoredPositive(r, b, tx);
    SignaturesAfter(Dispatch(r), b, tx);
    var b', tx' := ProcessTransactions(Dispatch(r), b, [tx]).0, tx.(signature := again);
    SameUserdataSameContract(r.formats, Get(b.accounts, tx.keys[1]), Get(b'.accounts, tx.keys[1]));
    var plan :| ContractIn(r.formats, Get(b.accounts, tx.keys[1])) == Some(Some(plan)) && ApplyWitness(plan, w, tx.keys[0]) == Pay(x);
    assert ContractIn(r.formats, Get(b'.accounts, tx.keys[1])) == Some(Some(plan));
    assert ReadyToSettle(r, b', tx', w, x);
    SettlementAccepted(r, b', tx', w, x);
  }

  lemma SignaturesAfter(run: Runtime, b: Bank, tx: Transaction)
    requires tx.keys != [] && Loadable(b, tx)
    ensures var sigs := ProcessTransactions(run, b, [tx]).0.sigs;
      tx.lastId in sigs && sigs[tx.lastId].Keys == b.sigs[tx.lastId].Keys + {tx.signature}
  {
    hide ProcessTransactions; hide ExecuteLoaded; hide StoreOne;
    SingleBatch(run, b, tx);
  }

  /** After a settlement the contract is spent, in every bank that meets the invariant. */
  ghost predicate SpendsContract(r: Registry, tx: Transaction)
    requires |tx.keys| >= 2
  {
    forall b: Bank, book: Book :: Inv(r.formats, b.accounts, book) && Happened(r, b, tx).Settled? ==>
      ContractIn(r.formats, Get(ProcessTransactions(Dispatch(r), b, [tx]).0.accounts, tx.keys[1])) == Some(None)
  }

  function Attests(w: Witness, key: Pubkey): Condition {
    match w case TimeWitness(dt) => AtTime(dt, key) case SignatureWitness => SignedBy(key)
  }

  /** A bank holding one contract, waiting for just the witness that `tx` brings. */
  ghost function Waiting(f: Formats, tx: Transaction, plan: FinPlan): Bank
    requires |tx.keys| >= 3
  {
    var body := f.state.enc(FinPlanState(true, Some(plan)));
    var userdata := ToLE(|body|, 8) + body + Zeros(|f.state.enc(FinPlanState(true, None))|);
    Bank(map[tx.keys[0] := Account(Abs(tx.fee) + 1, [], BUDGET_PROGRAM_ID),
             tx.keys[1] := Account(2, userdata, BUDGET_PROGRAM_ID)],
         [tx.lastId], map[tx.lastId := map[]], 0)
  }

  lemma WaitingIsReady(r: Registry, tx: Transaction, w: Witness)
    requires GoodFormats(r.formats) && IsCall(tx) && |tx.keys| >= 3 && tx.keys[0] != tx.keys[1]
    requires r.formats.instruction(tx.userdata).Some? && WitnessOf(r.formats.instruction(tx.userdata).value) == Some(w)
    requires var plan := FinPlan.After(Attests(w, tx.keys[0]), Payment(1, tx.keys[2]));
      r.formats.state.valid(FinPlanState(true, Some(plan)))
    ensures
      var plan := FinPlan.After(Attests(w, tx.keys[0]), Payment(1, tx.keys[2]));
      var b := Waiting(r.formats, tx, plan);
      ReadyToSettle(r, b, tx, w, Payment(1, tx.keys[2])) &&
      Inv(r.formats, b.accounts, map[tx.keys[1] := Escrowed(plan, 1, [], None)])
  {
    hide Faithful;
    var f := r.formats;
    var plan := FinPlan.After(Attests(w, tx.keys[0]), Payment(1, tx.keys[2]));
    var b := Waiting(f, tx, plan);
    var s := FinPlanState(true, Some(plan));
    var a := b.accounts[tx.keys[1]];
    WaitingReads(f, s, Zeros(|f.state.enc(FinPlanState(true, None))|));
    assert ContractIn(f, a) == Some(Some(plan));
    assert ApplyWitness(plan, w, tx.keys[0]) == Pay(Payment(1, tx.keys[2]));
    assert Reduce(plan, []) == plan;
    var book := map[tx.keys[1] := Escrowed(plan, 1, [], None)];
    forall k ensures Backed(f, Get(b.accounts, k), book, k) {
      if k != tx.keys[1] {
        EmptyUserdataIsNoContract(f, Get(b.accounts, k));
      }
    }
  }

  lemma WaitingReads(f: Formats, s: FinPlanState, room: seq<byte>)
    requires GoodFormats(f) && f.state.valid(s)
    ensures Deserialize(f, ToLE(|f.state.enc(s)|, 8) + f.state.enc(s) + room) == Some(s)
  {
    var body := f.state.enc(s);
    var b := ToLE(|body|, 8) + body + room;
    FromToLE(|body|, 8);
    assert b[..8] == ToLE(|body|, 8) && b[8..8 + |body|] == body && body + [] == body;
    assert f.state.dec(body + []) == Some((s, |body|));
  }

  /**
   * A settling transaction spends its contract in every bank exactly when the contract's key is not
   * listed again after the second place. The source's cancel call, with the payer as third key, is
   * fine; a list that ends in the contract's key is not.
   */
  lemma PaysOnceExactly(r: Registry, tx: Transaction, w: Witness)
    requires GoodFormats(r.formats) && KeepsSlice(r.other) && IsCall(tx) && |tx.keys| >= 3
    requires r.formats.instruction(tx.userdata).Some? && WitnessOf(r.formats.instruction(tx.userdata).value) == Some(w)
    requires var plan := FinPlan.After(Attests(w, tx.keys[0]), Payment(1, tx.keys[2]));
      r.formats.state.valid(FinPlanState(true, Some(plan)))
    ensures SpendsContract(r, tx) <==> !RepeatsContract(tx.keys)
  {
    hide ProcessTransactions; hide Process; hide Dispatch; hide GoodFormats; hide KeepsSlice; hide ContractIn; hide Inv;
    hide RepeatsContract; hide EffectOf;
    if RepeatsContract(tx.keys) {
      var plan := FinPlan.After(Attests(w, tx.keys[0]), Payment(1, tx.keys[2]));
      var b, x := Waiting(r.formats, tx, plan), Payment(1, tx.keys[2]);
      DistinctThen(tx.keys);
      WaitingIsReady(r, tx, w);
      SettlementAccepted(r, b, tx, w, x);
      RepeatLeavesPending(r, b, tx, w, x);
      var after := ProcessTransactions(Dispatch(r), b, [tx]).0.accounts;
      SameUserdataSameContract(r.formats, Get(b.accounts, tx.keys[1]), Get(after, tx.keys[1]));
      assert ContractIn(r.formats, Get(after, tx.keys[1])) != Some(None);
    } else {
      forall b: Bank, book: Book | Inv(r.formats, b.accounts, book) && Happened(r, b, tx).Settled?
        ensures ContractIn(r.formats, Get(ProcessTransactions(Dispatch(r), b, [tx]).0.accounts, tx.keys[1])) == Some(None)
      {
        SettledIsSpent(r, b, book, tx, w);
      }
    }
  }

  lemma DistinctThen(keys: seq<Pubkey>)
    requires RepeatsContract(keys)
    ensures |keys| >= 3 && keys[0] != keys[1]
  {
  }

  lemma SettledIsSpent(r: Registry, b: Bank, book: Book, tx: Transaction, w: Witness)
    requires GoodFormats(r.formats) && KeepsSlice(r.other) && |tx.keys| >= 3 && !RepeatsContract(tx.keys)
    requires r.formats.instruction(tx.userdata).Some? && WitnessOf(r.formats.instruction(tx.userdata).value) == Some(w)
    requires Inv(r.formats, b.accounts, book) && Happened(r, b, tx).Settled?
    ensures ContractIn(r.formats, Get(ProcessTransactions(Dispatch(r), b, [tx]).0.accounts, tx.keys[1])) == Some(None)
  {
    hide ProcessTransactions; hide Process; hide Dispatch; hide GoodFormats; hide KeepsSlice; hide ContractIn; hide Inv;
    hide RepeatsContract; hide EffectOf;
    var after := ProcessTransactions(Dispatch(r), b, [tx]).0.accounts;
    AcceptedCall(r, b, tx);
    InvIsPositive(r.formats, b.accounts, book);
    StoredPositive(r, b, tx);
    AcceptedKeepsEscrow(r.formats, b, book, tx, after);
    var book' := Enter(book, tx.keys[1], tx.fee, Happened(r, b, tx));
    BookedAndPaid(r.formats, after, book', tx.keys[1]);
  }

  lemma BookedAndPaid(f: Formats, m: Accounts, book: Book, k: Pubkey)
    requires Inv(f, m, book) && k in book && book[k].paid.Some?
    ensures ContractIn(f, Get(m, k)) == Some(None)
  {
    assert Backed(f, Get(m, k), book, k);
  }
}
