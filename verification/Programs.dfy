/** The contract program: plans held in an account's userdata, with the tokens they will pay. */
module FinPlanProgram {
  import opened Base
  import opened LittleEndian
  import opened Codecs
  import opened FinPlans
  import opened Processor

  const BUDGET_PROGRAM_ID := Pubkey([1] + Zeros(31))

  datatype Instruction =
    | NewContract(tokens: int, plan: FinPlan)
    | ApplyTimestamp(dt: int)
    | ApplySignature
    | NewVote(version: nat, contactInfoVersion: nat)

  datatype FinPlanState = FinPlanState(initialized: bool, pending: Option<FinPlan>)

  /** How contract states are written and instructions read. */
  datatype Formats = Formats(state: Codec<FinPlanState>, instruction: seq<byte> -> Option<Instruction>)

  /**
   * States read back as written, though one may have several spellings; they take at least a flag
   * and a tag, and fit the 8-byte frame; an instruction carries only plans that can be written, and
   * reducing or finishing one keeps it so.
   */
  ghost predicate GoodFormats(f: Formats) {
    Faithful(f.state) &&
    (forall s: FinPlanState :: f.state.valid(s) ==> 2 <= |f.state.enc(s)| < Pow256(8)) &&
    (forall b: seq<byte> :: f.instruction(b).Some? && f.instruction(b).value.NewContract? ==>
      f.state.valid(FinPlanState(true, Some(f.instruction(b).value.plan)))) &&
    (forall p: FinPlan, w: Witness, from: Pubkey :: f.state.valid(FinPlanState(true, Some(p))) ==>
      f.state.valid(FinPlanState(true, Some(ApplyWitness(p, w, from))))) &&
    (forall p: FinPlan :: f.state.valid(FinPlanState(true, Some(p))) ==> f.state.valid(FinPlanState(true, None)))
  }

  // ---- Userdata ----------------------------------------------------------------------------------

  datatype Serialized = Wrote(buf: seq<byte>) | TooSmall | Panics

  /** Length, then state, over the front of the buffer. The size check forgets the length's own 8 bytes. */
  function Serialize(f: Formats, s: FinPlanState, buf: seq<byte>): Serialized {
    var body := f.state.enc(s);
    if |buf| < |body| then TooSmall
    else if |buf| < 8 + |body| then Panics
    else Wrote(ToLE(|body|, 8) + body + buf[8 + |body|..])
  }

  function Deserialize(f: Formats, buf: seq<byte>): Option<FinPlanState> {
    if |buf| < 8 then None else
    var len := FromLE(buf[..8]);
    if len < 2 || |buf| < 8 + len then None else
    match f.state.dec(buf[8..8 + len])
    case None => None
    case Some((s, _)) => Some(s)
  }

  /** What was serialised reads back, and the buffer keeps its size. */
  lemma StateRoundTrip(f: Formats, s: FinPlanState, buf: seq<byte>)
    requires GoodFormats(f) && f.state.valid(s) && Serialize(f, s, buf).Wrote?
    ensures var b := Serialize(f, s, buf).buf; |b| == |buf| && Deserialize(f, b) == Some(s)
  {
    var body := f.state.enc(s);
    var b := Serialize(f, s, buf).buf;
    FromToLE(|body|, 8);
    assert b[..8] == ToLE(|body|, 8);
    assert b[8..8 + |body|] == body;
    assert body + [] == body;
    assert f.state.dec(body + []) == Some((s, |body|));
  }

  lemma ReadStateIsValid(f: Formats, buf: seq<byte>)
    requires GoodFormats(f) && Deserialize(f, buf).Some?
    ensures f.state.valid(Deserialize(f, buf).value)
  {
    assert f.state.dec(buf[8..8 + FromLE(buf[..8])]).Some?;
  }

  // ---- Instructions ------------------------------------------------------------------------------

  const FAULT := Fault(ProgramRuntimeError)
  const PANIC := Fault(ProgramPanic)

  /** Rewrites account 1's userdata with the state. */
  function SaveState(f: Formats, accs: seq<Account>, s: FinPlanState): Outcome
    requires |accs| >= 2
  {
    match Serialize(f, s, accs[1].userdata)
    case TooSmall => FAULT
    case Panics => PANIC
    case Wrote(b) => Done(accs[1 := accs[1].(userdata := b)])
  }

  /** `apply_signature` and `apply_timestamp`: reduce the plan; pay if that settles it. */
  function ApplyToContract(f: Formats, tx: Transaction, accs: seq<Account>, w: Witness): Outcome
    requires |tx.keys| == |accs|
  {
    if |accs| < 2 then PANIC else
    match Deserialize(f, accs[1].userdata)
    case None => FAULT
    case Some(s) =>
      if s.pending.None? || !s.initialized then FAULT else
      var p := ApplyWitness(s.pending.value, w, tx.keys[0]);
      match FinalPayment(p)
      case None => SaveState(f, accs, s.(pending := Some(p)))
      case Some(x) =>
        if |accs| < 3 then PANIC
        else if x.to != tx.keys[2] then FAULT
        else SaveState(f, Credit(Credit(accs, 1, -x.tokens), 2, x.tokens), s.(pending := None))
  }

  function OpenContract(f: Formats, accs: seq<Account>, tokens: int, plan: FinPlan): Outcome {
    if |accs| < 2 then PANIC else
    match FinalPayment(plan)
    case Some(x) => Done(Credit(accs, 1, x.tokens))
    case None =>
      var existing := Deserialize(f, accs[1].userdata);
      if existing.Some? && existing.value.initialized then FAULT
      else SaveState(f, Credit(accs, 1, tokens), FinPlanState(true, Some(plan)))
  }

  /** `FinPlanState::process_transaction`: debits, then credits. */
  function Process(f: Formats, tx: Transaction, accs: seq<Account>): Outcome
    requires |tx.keys| == |accs|
  {
    match f.instruction(tx.userdata)
    case None => FAULT
    case Some(ins) =>
      if accs == [] then PANIC
      else if accs[0].userdata != [] then FAULT
      else
        match ins
        case NewContract(tokens, plan) =>
          if tokens < 0 || accs[0].tokens < tokens then FAULT
          else OpenContract(f, Credit(accs, 0, -tokens), tokens, plan)
        case ApplyTimestamp(dt) => ApplyToContract(f, tx, accs, TimeWitness(dt))
        case ApplySignature => ApplyToContract(f, tx, accs, SignatureWitness)
        case NewVote(_, _) => Done(accs)
  }

  /** `verify_plan`. */
  predicate VerifyPlan(f: Formats, tx: Transaction) {
    match f.instruction(tx.userdata)
    case Some(NewContract(tokens, plan)) => 0 <= tx.fee <= tokens && Verify(plan, tokens - tx.fee)
    case _ => true
  }

  /**
   * The same, in place on the transaction's accounts. On an error some of them may already have
   * been changed; the caller then discards them.
   */
  method ProcessInPlace(f: Formats, tx: Transaction, accounts: array<Account>) returns (failure: Option<TxError>)
    requires accounts.Length == |tx.keys|
    modifies accounts
    ensures failure.None? ==> Process(f, tx, old(accounts[..])) == Done(accounts[..])
    ensures failure.Some? ==> Process(f, tx, old(accounts[..])) == Fault(failure.value)
  {
    var decoded := f.instruction(tx.userdata);
    if decoded.None? {
      return Some(ProgramRuntimeError);
    }
    var ins := decoded.value;
    if accounts.Length == 0 {
      return Some(ProgramPanic);
    }
    if accounts[0].userdata != [] {
      return Some(ProgramRuntimeError);
    }
    if ins.NewContract? {
      if ins.tokens < 0 || accounts[0].tokens < ins.tokens {
        return Some(ProgramRuntimeError);
      }
      accounts[0] := accounts[0].(tokens := accounts[0].tokens - ins.tokens);
      assert accounts[..] == Credit(old(accounts[..]), 0, -ins.tokens);
      failure := OpenInPlace(f, accounts, ins.tokens, ins.plan);
    } else if ins.ApplyTimestamp? {
      failure := ApplyInPlace(f, tx, accounts, TimeWitness(ins.dt));
    } else if ins.ApplySignature? {
      failure := ApplyInPlace(f, tx, accounts, SignatureWitness);
    } else {
      failure := None;
    }
  }

  method SaveInPlace(f: Formats, accounts: array<Account>, s: FinPlanState) returns (failure: Option<TxError>)
    requires accounts.Length >= 2
    modifies accounts
    ensures failure.None? ==> SaveState(f, old(accounts[..]), s) == Done(accounts[..])
    ensures failure.Some? ==> SaveState(f, old(accounts[..]), s) == Fault(failure.value)
  {
    hide Serialize;
    match Serialize(f, s, accounts[1].userdata) {
      case TooSmall => return Some(ProgramRuntimeError);
      case Panics => return Some(ProgramPanic);
      case Wrote(b) =>
        ghost var before := accounts[..];
        accounts[1] := accounts[1].(userdata := b);
        assert accounts[..] == before[1 := before[1].(userdata := b)];
        return None;
    }
  }

  method OpenInPlace(f: Formats, accounts: array<Account>, tokens: int, plan: FinPlan) returns (failure: Option<TxError>)
    modifies accounts
    ensures failure.None? ==> OpenContract(f, old(accounts[..]), tokens, plan) == Done(accounts[..])
    ensures failure.Some? ==> OpenContract(f, old(accounts[..]), tokens, plan) == Fault(failure.value)
  {
    hide Deserialize; hide SaveState;
    if accounts.Length < 2 {
      return Some(ProgramPanic);
    }
    if plan.Pay? {
      accounts[1] := accounts[1].(tokens := accounts[1].tokens + plan.payment.tokens);
      assert accounts[..] == Credit(old(accounts[..]), 1, plan.payment.tokens);
      return None;
    }
    var existing := Deserialize(f, accounts[1].userdata);
    if existing.Some? && existing.value.initialized {
      return Some(ProgramRuntimeError);
    }
    accounts[1] := accounts[1].(tokens := accounts[1].tokens + tokens);
    assert accounts[..] == Credit(old(accounts[..]), 1, tokens);
    failure := SaveInPlace(f, accounts, FinPlanState(true, Some(plan)));
  }

  method ApplyInPlace(f: Formats, tx: Transaction, accounts: array<Account>, w: Witness) returns (failure: Option<TxError>)
    requires accounts.Length == |tx.keys|
    modifies accounts
    ensures failure.None? ==> ApplyToContract(f, tx, old(accounts[..]), w) == Done(accounts[..])
    ensures failure.Some? ==> ApplyToContract(f, tx, old(accounts[..]), w) == Fault(failure.value)
  {
    hide Deserialize; hide SaveState; hide ApplyWitness;
    if accounts.Length < 2 {
      return Some(ProgramPanic);
    }
    var read := Deserialize(f, accounts[1].userdata);
    if read.None? || read.value.pending.None? || !read.value.initialized {
      return Some(ProgramRuntimeError);
    }
    var s := read.value;
    var plan := ApplyWitness(s.pending.value, w, tx.keys[0]);
    if plan.Pay? {
      var x := plan.payment;
      if accounts.Length < 3 {
        return Some(ProgramPanic);
      }
      if x.to != tx.keys[2] {
        return Some(ProgramRuntimeError);
      }
      accounts[1] := accounts[1].(tokens := accounts[1].tokens - x.tokens);
      accounts[2] := accounts[2].(tokens := accounts[2].tokens + x.tokens);
      assert accounts[..] == Credit(Credit(old(accounts[..]), 1, -x.tokens), 2, x.tokens);
      failure := SaveInPlace(f, accounts, s.(pending := None));
    } else {
      failure := SaveInPlace(f, accounts, s.(pending := Some(plan)));
    }
  }

  lemma ProcessKeepsSlice(f: Formats, tx: Transaction, accs: seq<Account>)
    requires |tx.keys| == |accs| && Process(f, tx, accs).Done?
    ensures |Process(f, tx, accs).accounts| == |accs|
  {
  }
}

/** The system program, and the choice of program by id. */
module Programs {
  import opened Base
  import opened Processor
  import opened Tokens
  import opened FinPlanProgram

  datatype SystemInstruction =
    | CreateAccount(tokens: int, space: nat, programId: Pubkey)
    | Assign(programId: Pubkey)
    | Move(tokens: int)

  predicate IsSystem(id: Pubkey) { id == SYSTEM_PROGRAM_ID }

  /** `SystemProgram::process_transaction`; unreadable instructions do nothing. */
  function System(ins: Option<SystemInstruction>, accs: seq<Account>): Outcome {
    match ins
    case None => Done(accs)
    case Some(CreateAccount(tokens, space, id)) =>
      if accs == [] then PANIC
      else if !IsSystem(accs[0].programId) then Done(accs)
      else if |accs| < 2 then PANIC
      else if space > 0 && (accs[1].userdata != [] || !IsSystem(accs[1].programId)) then Done(accs)
      else
        var paid := Credit(accs, 0, -tokens);
        Done(paid[1 := Account(paid[1].tokens + tokens, Zeros(space), id)])
    case Some(Assign(id)) =>
      if accs == [] then PANIC
      else if !IsSystem(accs[0].programId) then Done(accs)
      else Done(accs[0 := accs[0].(programId := id)])
    case Some(Move(tokens)) =>
      if |accs| < 2 then PANIC else Done(Credit(Credit(accs, 0, -tokens), 1, tokens))
  }

  /** The system program panics exactly for want of an account it uses, and fails in no other way. */
  lemma SystemPanics(ins: Option<SystemInstruction>, accs: seq<Account>)
    ensures System(ins, accs).Fault? ==> System(ins, accs) == PANIC
    ensures System(ins, accs).Fault? <==>
      ins.Some? &&
      (|accs| == 0 || (|accs| == 1 &&
        (ins.value.Move? || (ins.value.CreateAccount? && accs[0].programId == SYSTEM_PROGRAM_ID))))
  {
  }

  /** The same, in place. */
  method SystemInPlace(ins: Option<SystemInstruction>, accounts: array<Account>) returns (failure: Option<TxError>)
    modifies accounts
    ensures failure.None? ==> System(ins, old(accounts[..])) == Done(accounts[..])
    ensures failure.Some? ==> System(ins, old(accounts[..])) == Fault(failure.value)
  {
    failure := None;
    if ins.None? {
      return;
    }
    if accounts.Length == 0 || (ins.value.Move? && accounts.Length < 2) {
      return Some(ProgramPanic);
    }
    ghost var before := accounts[..];
    match ins.value {
      case CreateAccount(tokens, space, id) =>
        if !IsSystem(accounts[0].programId) {
          return;
        }
        if accounts.Length < 2 {
          return Some(ProgramPanic);
        }
        if space > 0 && (accounts[1].userdata != [] || !IsSystem(accounts[1].programId)) {
          return;
        }
        accounts[0] := accounts[0].(tokens := accounts[0].tokens - tokens);
        accounts[1] := Account(accounts[1].tokens + tokens, Zeros(space), id);
        assert accounts[..] == Credit(before, 0, -tokens)[1 := accounts[1]];
      case Assign(id) =>
        if !IsSystem(accounts[0].programId) {
          return;
        }
        accounts[0] := accounts[0].(programId := id);
        assert accounts[..] == before[0 := before[0].(programId := id)];
      case Move(tokens) =>
        accounts[0] := accounts[0].(tokens := accounts[0].tokens - tokens);
        accounts[1] := accounts[1].(tokens := accounts[1].tokens + tokens);
        assert accounts[..] == Credit(Credit(before, 0, -tokens), 1, tokens);
    }
  }

  lemma {:induction false} SameTokensSameSum(a: seq<Account>, b: seq<Account>)
    requires |a| == |b| && forall i :: 0 <= i < |a| ==> a[i].tokens == b[i].tokens
    ensures SumTokens(a) == SumTokens(b)
  {
    if a != [] {
      var n := |a| - 1;
      SameTokensSameSum(a[..n], b[..n]);
    }
  }

  /** No system instruction makes or destroys tokens, so none is ever refused as unbalanced. */
  lemma {:induction false} SystemBalances(ins: Option<SystemInstruction>, accs: seq<Account>)
    requires System(ins, accs).Done?
    ensures var post := System(ins, accs).accounts;
      |post| == |accs| && SumTokens(post) == SumTokens(accs) &&
      forall i :: 2 <= i < |accs| ==> post[i] == accs[i]
  {
    hide SumTokens;
    var post := System(ins, accs).accounts;
    match ins
    case None =>
    case Some(CreateAccount(tokens, space, id)) =>
      if |accs| >= 2 {
        CreditSum(accs, 0, -tokens);
        CreditSum(Credit(accs, 0, -tokens), 1, tokens);
        if post != accs {
          SameTokensSameSum(post, Credit(Credit(accs, 0, -tokens), 1, tokens));
        }
      }
    case Some(Assign(id)) => SameTokensSameSum(post, accs);
    case Some(Move(tokens)) =>
      CreditSum(accs, 0, -tokens);
      CreditSum(Credit(accs, 0, -tokens), 1, tokens);
  }

  /** Reads system instructions; every other program is `other`. */
  datatype Registry = Registry(formats: Formats, system: seq<byte> -> Option<SystemInstruction>, other: Runtime)

  /** The dispatch of `execute_transaction`. */
  function Dispatch(r: Registry): Runtime {
    (tx: Transaction, accs: seq<Account>) =>
      if IsSystem(tx.programId) then System(r.system(tx.userdata), accs)
      else if tx.programId == BUDGET_PROGRAM_ID then
        if |tx.keys| == |accs| then Process(r.formats, tx, accs) else PANIC
      else r.other(tx, accs)
  }

  /** The real programs meet what the processor's laws ask of a runtime. */
  lemma DispatchKeepsSlice(r: Registry)
    requires KeepsSlice(r.other)
    ensures KeepsSlice(Dispatch(r))
  {
    var run := Dispatch(r);
    forall tx: Transaction, accs: seq<Account> | run(tx, accs).Done?
      ensures |run(tx, accs).accounts| == |accs|
    {
      if IsSystem(tx.programId) {
        SystemBalances(r.system(tx.userdata), accs);
      } else if tx.programId == BUDGET_PROGRAM_ID {
        ProcessKeepsSlice(r.formats, tx, accs);
      }
    }
  }
}

/** System transactions from the wire to the stored balances, on any list of keys. */
module Transfers {
  import opened Base
  import opened Processor
  import opened Batches
  import opened Tokens
  import opened FinPlanProgram
  import opened Programs

  // ---- What an instruction moves -----------------------------------------------------------------

  /** CreateAccount goes ahead: a system-owned payer, and nothing in the way at the new account. */
  predicate Opens(accs: seq<Account>, space: nat) {
    |accs| >= 2 && IsSystem(accs[0].programId) && (space == 0 || (accs[1].userdata == [] && IsSystem(accs[1].programId)))
  }

  /** Tokens taken from the first account and given to the second. */
  function Moved(ins: Option<SystemInstruction>, accs: seq<Account>): int {
    match ins
    case Some(Move(n)) => if |accs| >= 2 then n else 0
    case Some(CreateAccount(n, space, _)) => if Opens(accs, space) then n else 0
    case _ => 0
  }

  lemma SystemMoves(ins: Option<SystemInstruction>, accs: seq<Account>)
    requires System(ins, accs).Done?
    ensures var post, n := System(ins, accs).accounts, Moved(ins, accs);
      |post| == |accs| && (|accs| < 2 ==> n == 0) &&
      (|accs| >= 1 ==> post[0].tokens == accs[0].tokens - n) && (|accs| >= 2 ==> post[1].tokens == accs[1].tokens + n) &&
      forall i :: 2 <= i < |accs| ==> post[i] == accs[i]
  {
  }

  lemma SystemRuns(r: Registry, tx: Transaction, accs: seq<Account>)
    requires tx.programId == SYSTEM_PROGRAM_ID
    ensures Dispatch(r)(tx, accs) == System(r.system(tx.userdata), accs)
  {
    assert IsSystem(tx.programId);
  }

  // ---- The total, exactly ------------------------------------------------------------------------

  /** A later copy of the same key overwrites what is written at `i`. */
  predicate Overwritten(keys: seq<Pubkey>, i: nat) {
    i < |keys| && keys[i] in keys[i + 1..]
  }

  /** By how much an accepted system transaction changes the total of all balances. */
  function TotalChange(tx: Transaction, n: int): int {
    (if |tx.keys| >= 2 && !Overwritten(tx.keys, 1) then n else 0) - (if Overwritten(tx.keys, 0) then 0 else tx.fee + n)
  }

  lemma {:induction false} StoredTotal(m: Accounts, tx: Transaction, post: seq<Account>, n: int)
    requires |post| == |tx.keys| > 0 && (|post| < 2 ==> n == 0)
    requires var pre := Fetch(m, tx);
      post[0].tokens == pre[0].tokens - n && (|pre| >= 2 ==> post[1].tokens == pre[1].tokens + n) &&
      forall i :: 2 <= i < |pre| ==> post[i] == pre[i]
    ensures Total(PutAll(m, tx.keys, post, |tx.keys|)) == Total(m) + TotalChange(tx, n)
  {
    hide Total; hide PutAll;
    var keys := tx.keys;
    var m' := PutAll(m, keys, post, |keys|);
    var a, b := keys[0], if |keys| >= 2 then keys[1] else keys[0];
    forall k ensures k != a && k != b ==> Balance(m', k) == Balance(m, k) {
      StoredBalance(m, keys, post, k);
    }
    StoredBalance(m, keys, post, a);
    StoredBalance(m, keys, post, b);
    assert Overwritten(keys, 0) <==> LastPosition(keys, a) > 0;
    assert |keys| >= 2 ==> (Overwritten(keys, 1) <==> LastPosition(keys, b) > 1);
    TotalOfChange(m, m', a, b);
  }

  /**
   * What a system transaction does to the total of all balances, for every instruction and any
   * keys, repeated or not: nothing when refused; else exactly the change the repeats leave.
   */
  lemma SystemTotal(r: Registry, b: Bank, tx: Transaction)
    requires tx.programId == SYSTEM_PROGRAM_ID && tx.keys != []
    ensures
      var (b', ss) := ProcessTransactions(Dispatch(r), b, [tx]);
      var n := Moved(r.system(tx.userdata), Fetch(b.accounts, tx));
      |ss| == 1 && Total(b'.accounts) == Total(b.accounts) + if ss[0].Okay? then TotalChange(tx, n) else 0
  {
    hide ProcessTransactions; hide Total; hide PutAll; hide TotalChange; hide Moved; hide System; hide Dispatch;
    hide VerifyFrom; hide SumTokens;
    SingleOutcome(Dispatch(r), b, tx);
    var pre := Fetch(b.accounts, tx);
    SystemRuns(r, tx, pre);
    var x := Execute(Dispatch(r), tx, pre);
    if Loadable(b, tx) && x.status.Okay? {
      SystemMoves(r.system(tx.userdata), pre);
      StoredTotal(b.accounts, tx, x.accounts, Moved(r.system(tx.userdata), pre));
    }
  }

  const NO_FORMATS := Formats(Codecs.Codec(_ => false, _ => [], _ => None), _ => None)

  /** Programs that read every instruction as a transfer of `n`. */
  function Mover(n: int): Registry {
    Registry(NO_FORMATS, _ => Some(Move(n)), (tx: Transaction, accs: seq<Account>) => Done(accs))
  }

  /** The node's own transfer instruction, of more than the fee, on a bank that can afford it. */
  lemma {:induction false} TransferAccepted(tx: Transaction)
    requires tx.programId == SYSTEM_PROGRAM_ID && |tx.keys| >= 2
    ensures ProcessTransactions(Dispatch(Mover(Abs(tx.fee) + 1)), HolderBank(tx), [tx]).1 == [Okay]
  {
    hide ProcessTransactions; hide Dispatch; hide PutAll; hide Fetch; hide Execute; hide Credit;
    var n := Abs(tx.fee) + 1;
    var r, b := Mover(n), HolderBank(tx);
    var pre := Fetch(b.accounts, tx);
    SingleOutcome(Dispatch(r), b, tx);
    SystemRuns(r, tx, pre);
    HoldersLoad(tx);
    assert System(Some(Move(n)), pre) == Done(Credit(Credit(pre, 0, -n), 1, n));
    ShiftAccepted(Dispatch(r), tx, 0, 1);
  }

  /**
   * System transactions conserve tokens, whatever they say and whatever the bank, exactly when the
   * first two keys are both overwritten by later copies or neither is, and, if they are, no fee is
   * asked.
   */
  lemma SystemConservesExactly(tx: Transaction)
    requires tx.programId == SYSTEM_PROGRAM_ID && tx.keys != []
    ensures (forall r: Registry, b: Bank :: Conserves(Dispatch(r), b, tx)) <==>
      (Overwritten(tx.keys, 0) <==> Overwritten(tx.keys, 1)) && (Overwritten(tx.keys, 0) ==> tx.fee == 0)
  {
    hide ProcessTransactions; hide Total; hide Dispatch; hide Overwritten;
    if (Overwritten(tx.keys, 0) <==> Overwritten(tx.keys, 1)) && (Overwritten(tx.keys, 0) ==> tx.fee == 0) {
      forall r: Registry, b: Bank ensures Conserves(Dispatch(r), b, tx) {
        SystemTotal(r, b, tx);
        OneKeyMovesNothing(r.system(tx.userdata), Fetch(b.accounts, tx));
      }
    } else {
      OverwrittenNeedsTwo(tx.keys);
      TransferAccepted(tx);
      var r, b := Mover(Abs(tx.fee) + 1), HolderBank(tx);
      SystemTotal(r, b, tx);
      assert !Conserves(Dispatch(r), b, tx);
    }
  }

  lemma OneKeyMovesNothing(ins: Option<SystemInstruction>, accs: seq<Account>)
    ensures |accs| < 2 ==> Moved(ins, accs) == 0
  {
  }

  lemma OverwrittenNeedsTwo(keys: seq<Pubkey>)
    ensures Overwritten(keys, 0) || Overwritten(keys, 1) ==> |keys| >= 2
  {
  }

  /** For a program that is not built in, conservation whatever it does is exactly distinct keys. */
  lemma LoadedProgramsConserveExactly(tx: Transaction)
    requires tx.programId != SYSTEM_PROGRAM_ID && tx.programId != BUDGET_PROGRAM_ID && tx.keys != []
    ensures NoDuplicates(tx.keys) <==>
      forall r: Registry, b: Bank :: KeepsSlice(r.other) ==> Conserves(Dispatch(r), b, tx)
  {
    hide ProcessTransactions; hide Total; hide Conserves; hide NoDuplicates; hide KeepsSlice;
    if NoDuplicates(tx.keys) {
      forall r: Registry, b: Bank | KeepsSlice(r.other) ensures Conserves(Dispatch(r), b, tx) {
        ConservationNeedsDistinctKeys(tx);
        SameProgramSameFate(r, b, tx);
      }
    } else {
      var run, b := RepeatedKeyMints(tx);
      var r := Registry(NO_FORMATS, _ => None, run);
      SameProgramSameFate(r, b, tx);
      assert !Conserves(run, b, tx) by { Unconserved(run, b, tx); }
    }
  }

  lemma Unconserved(run: Runtime, b: Bank, tx: Transaction)
    requires tx.keys != []
    requires var (b', ss) := ProcessTransactions(run, b, [tx]);
      ss == [Okay] && Total(b'.accounts) > Total(b.accounts) - tx.fee
    ensures !Conserves(run, b, tx)
  {
  }

  lemma SameProgramSameFate(r: Registry, b: Bank, tx: Transaction)
    requires tx.programId != SYSTEM_PROGRAM_ID && tx.programId != BUDGET_PROGRAM_ID && tx.keys != []
    ensures ProcessTransactions(Dispatch(r), b, [tx]) == ProcessTransactions(r.other, b, [tx])
    ensures Conserves(Dispatch(r), b, tx) <==> Conserves(r.other, b, tx)
  {
    hide ProcessTransactions; hide Total; hide StoreOne; hide VerifyFrom;
    SingleBatch(Dispatch(r), b, tx);
    SingleBatch(r.other, b, tx);
    assert Dispatch(r)(tx, Fetch(b.accounts, tx)) == r.other(tx, Fetch(b.accounts, tx));
  }

  // ---- Transfers -----------------------------------------------------------------------------------

  /** Neither side goes below zero, and whoever loses tokens is owned by the system program. */
  predicate Movable(m: Accounts, tx: Transaction, n: int)
    requires |tx.keys| == 2
  {
    var from, to := Get(m, tx.keys[0]), Get(m, tx.keys[1]);
    0 <= from.tokens - tx.fee - n && 0 <= to.tokens + n &&
    (n > 0 ==> IsSystem(from.programId)) && (n < 0 ==> IsSystem(to.programId))
  }

  lemma MoveExecutes(run: Runtime, tx: Transaction, pre: seq<Account>, n: int)
    requires tx.programId == SYSTEM_PROGRAM_ID && |pre| == 2
    requires run(tx, pre) == System(Some(Move(n)), pre)
    ensures
      var x := Execute(run, tx, pre);
      x.accounts == [pre[0].(tokens := pre[0].tokens - n), pre[1].(tokens := pre[1].tokens + n)] &&
      (x.status.Okay? <==>
        0 <= pre[0].tokens - n && 0 <= pre[1].tokens + n &&
        (n > 0 ==> IsSystem(pre[0].programId)) && (n < 0 ==> IsSystem(pre[1].programId)))
  {
    hide SumTokens;
    SystemBalances(Some(Move(n)), pre);
    var post := System(Some(Move(n)), pre).accounts;
    assert post == [pre[0].(tokens := pre[0].tokens - n), pre[1].(tokens := pre[1].tokens + n)];
    assert VerifyFrom(tx, pre, post, 0).Okay? <==>
      VerifyTransaction(tx, pre[0].programId, pre[0].tokens, post[0]).Okay? &&
      VerifyTransaction(tx, pre[1].programId, pre[1].tokens, post[1]).Okay?;
  }

  lemma {:induction false} PutTwo(m: Accounts, keys: seq<Pubkey>, accs: seq<Account>)
    requires |keys| == |accs| == 2
    ensures PutAll(m, keys, accs, 2) == Put(Put(m, keys[0], accs[0]), keys[1], accs[1])
  {
    assert PutAll(m, keys, accs, 1) == Put(PutAll(m, keys, accs, 0), keys[0], accs[0]);
  }

  /**
   * A transfer is accepted exactly when it can be loaded and moved, and otherwise changes no
   * account. Between two accounts the payer is then down by amount and fee and the other up by the
   * amount. From an account to itself the account is up by the amount, made from nothing, and no
   * fee is charged. Nobody else is touched.
   */
  lemma TransferMovesTokens(r: Registry, b: Bank, tx: Transaction, n: int)
    requires tx.programId == SYSTEM_PROGRAM_ID && r.system(tx.userdata) == Some(Move(n)) && |tx.keys| == 2
    ensures
      var (b', ss) := ProcessTransactions(Dispatch(r), b, [tx]);
      var from, to := tx.keys[0], tx.keys[1];
      |ss| == 1 && (ss[0].Okay? <==> Loadable(b, tx) && Movable(b.accounts, tx, n)) &&
      (ss[0].Okay? ==>
        Balance(b'.accounts, from) == Balance(b.accounts, from) + (if from == to then n else -n - tx.fee) &&
        Balance(b'.accounts, to) == Balance(b.accounts, to) + n &&
        Total(b'.accounts) == Total(b.accounts) + (if from == to then n else -tx.fee) &&
        forall k :: k !in tx.keys ==> Get(b'.accounts, k) == Get(b.accounts, k)) &&
      (ss[0].Failed? ==> b'.accounts == b.accounts)
  {
    hide ProcessTransactions; hide Execute; hide PutAll; hide Total; hide Dispatch;
    SingleOutcome(Dispatch(r), b, tx);
    var pre := Fetch(b.accounts, tx);
    SystemRuns(r, tx, pre);
    MoveExecutes(Dispatch(r), tx, pre, n);
    SystemTotal(r, b, tx);
    TwoKeys(tx.keys);
    var x := Execute(Dispatch(r), tx, pre);
    if Loadable(b, tx) && x.status.Okay? {
      PutTwo(b.accounts, tx.keys, x.accounts);
      assert tx.keys[0] in tx.keys && tx.keys[1] in tx.keys;
    }
  }

  /** And it happens: on some bank a transfer from an account to itself is accepted and makes tokens. */
  lemma SelfTransferMints(tx: Transaction)
    requires tx.programId == SYSTEM_PROGRAM_ID && |tx.keys| == 2 && tx.keys[0] == tx.keys[1]
    ensures
      var n, b := Abs(tx.fee) + 1, HolderBank(tx);
      var (b', ss) := ProcessTransactions(Dispatch(Mover(n)), b, [tx]);
      ss == [Okay] && Total(b'.accounts) == Total(b.accounts) + n
  {
    hide ProcessTransactions; hide Dispatch; hide Total;
    TransferAccepted(tx);
    TransferMovesTokens(Mover(Abs(tx.fee) + 1), HolderBank(tx), tx, Abs(tx.fee) + 1);
  }

  lemma TwoKeys(keys: seq<Pubkey>)
    requires |keys| == 2
    ensures (Overwritten(keys, 0) <==> keys[0] == keys[1]) && !Overwritten(keys, 1)
  {
    assert keys[1..] == [keys[1]] && keys[2..] == [];
  }

  // ---- Assigning an owner ------------------------------------------------------------------------------

  /**
   * Assign, on any keys: it is accepted whenever it can be loaded; the first account, if it is the
   * system program's, then belongs to the program asked for and pays the fee, unless it is listed
   * again, when it stays as it was; no other account changes.
   */
  lemma OwnerAssigned(r: Registry, b: Bank, tx: Transaction, id: Pubkey)
    requires tx.programId == SYSTEM_PROGRAM_ID && r.system(tx.userdata) == Some(Assign(id)) && tx.keys != [] && Positive(b.accounts)
    ensures
      var (b', ss) := ProcessTransactions(Dispatch(r), b, [tx]);
      var k, a := tx.keys[0], Get(b.accounts, tx.keys[0]);
      |ss| == 1 && (ss[0].Okay? <==> Loadable(b, tx)) &&
      (forall j :: j != k ==> Get(b'.accounts, j) == Get(b.accounts, j)) &&
      (ss[0].Failed? || k in tx.keys[1..] ==> Get(b'.accounts, k) == a) &&
      (ss[0].Okay? && k !in tx.keys[1..] ==>
        LeftBy(b'.accounts, k, a.(tokens := a.tokens - tx.fee, programId := if IsSystem(a.programId) then id else a.programId)))
  {
    hide ProcessTransactions; hide Dispatch; hide SumTokens; hide PutAll; hide VerifyFrom;
    SingleOutcome(Dispatch(r), b, tx);
    var pre := Fetch(b.accounts, tx);
    SystemRuns(r, tx, pre);
    var post := System(Some(Assign(id)), pre).accounts;
    SameTokensSameSum(pre, post);
    assert forall i :: 0 <= i < |pre| ==> post[i] == pre[i] || (i == 0 && post[0] == pre[0].(programId := id));
    if Loadable(b, tx) {
      assert VerifyFrom(tx, pre, post, 0).Okay?;
      forall j ensures
        if j in tx.keys then LeftBy(PutAll(b.accounts, tx.keys, post, |tx.keys|), j, post[LastPosition(tx.keys, j)])
        else Get(PutAll(b.accounts, tx.keys, post, |tx.keys|), j) == Get(b.accounts, j)
      {
        if j in tx.keys {
          PutAllLast(b.accounts, tx.keys, post, |tx.keys|, LastPosition(tx.keys, j));
        } else {
          PutAllFrame(b.accounts, tx.keys, post, |tx.keys|, j);
        }
      }
      assert tx.keys[0] in tx.keys;
      FirstOnly(tx.keys);
    }
  }

  lemma {:induction false} FirstOnly(keys: seq<Pubkey>)
    requires keys != []
    ensures LastPosition(keys, keys[0]) == 0 <==> keys[0] !in keys[1..]
  {
    var j := LastPosition(keys, keys[0]);
    if j > 0 {
      assert keys[1..][j - 1] == keys[0];
    }
    if keys[0] in keys[1..] {
      var i :| 0 <= i < |keys[1..]| && keys[1..][i] == keys[0];
      assert keys[i + 1] == keys[0];
    }
  }

  // ---- Opening accounts ----------------------------------------------------------------------------

  /** The second account after a CreateAccount of `n` tokens. */
  function Opened(pre: seq<Account>, n: int, space: nat, id: Pubkey): Account
    requires |pre| == 2
  {
    if Opens(pre, space) then Account(pre[1].tokens + n, Zeros(space), id) else pre[1]
  }

  /** When it goes ahead, both sides stay non-negative, only a free account changes owner or is drawn on. */
  predicate Openable(pre: seq<Account>, n: int, space: nat, id: Pubkey)
    requires |pre| == 2
  {
    if Opens(pre, space) then
      0 <= pre[0].tokens - n && 0 <= pre[1].tokens + n &&
      (id == pre[1].programId || IsSystem(pre[1].programId)) && (n < 0 ==> IsSystem(id))
    else 0 <= pre[0].tokens && 0 <= pre[1].tokens
  }

  lemma CreateExecutes(run: Runtime, tx: Transaction, pre: seq<Account>, n: int, space: nat, id: Pubkey)
    requires tx.programId == SYSTEM_PROGRAM_ID && |pre| == 2
    requires run(tx, pre) == System(Some(CreateAccount(n, space, id)), pre)
    ensures
      var x := Execute(run, tx, pre);
      x.accounts == [pre[0].(tokens := pre[0].tokens - if Opens(pre, space) then n else 0), Opened(pre, n, space, id)] &&
      (x.status.Okay? <==> Openable(pre, n, space, id))
  {
    hide SumTokens;
    var ins := Some(CreateAccount(n, space, id));
    SystemBalances(ins, pre);
    var post := System(ins, pre).accounts;
    assert post == [pre[0].(tokens := pre[0].tokens - if Opens(pre, space) then n else 0), Opened(pre, n, space, id)];
    assert VerifyFrom(tx, pre, post, 0).Okay? <==>
      VerifyTransaction(tx, pre[0].programId, pre[0].tokens, post[0]).Okay? &&
      VerifyTransaction(tx, pre[1].programId, pre[1].tokens, post[1]).Okay?;
  }

  /**
   * CreateAccount on any two keys, in use or not: accepted exactly when it can be loaded and leaves
   * both sides sound. It goes ahead only for a system-owned payer and, if space is asked for, an
   * empty system-owned account; else only the fee is charged. An account left without tokens is not
   * kept.
   */
  lemma AccountCreated(r: Registry, b: Bank, tx: Transaction, n: int, space: nat, id: Pubkey)
    requires tx.programId == SYSTEM_PROGRAM_ID && r.system(tx.userdata) == Some(CreateAccount(n, space, id))
    requires |tx.keys| == 2
    ensures
      var (b', ss) := ProcessTransactions(Dispatch(r), b, [tx]);
      var pre := Fetch(b.accounts, tx);
      var left := Opened(pre, n, space, id);
      |ss| == 1 && (ss[0].Okay? <==> Loadable(b, tx) && Openable(pre, n, space, id)) &&
      (ss[0].Okay? ==>
        LeftBy(b'.accounts, tx.keys[1], left) &&
        (tx.keys[0] != tx.keys[1] ==>
          Balance(b'.accounts, tx.keys[0]) ==
            Balance(b.accounts, tx.keys[0]) - tx.fee - if Opens(pre, space) then n else 0) &&
        forall k :: k !in tx.keys ==> Get(b'.accounts, k) == Get(b.accounts, k)) &&
      (ss[0].Failed? ==> b'.accounts == b.accounts)
  {
    hide ProcessTransactions; hide Execute; hide PutAll; hide Dispatch;
    SingleOutcome(Dispatch(r), b, tx);
    var pre := Fetch(b.accounts, tx);
    SystemRuns(r, tx, pre);
    CreateExecutes(Dispatch(r), tx, pre, n, space, id);
    var x := Execute(Dispatch(r), tx, pre);
    if Loadable(b, tx) && x.status.Okay? {
      PutTwo(b.accounts, tx.keys, x.accounts);
      assert tx.keys[0] in tx.keys && tx.keys[1] in tx.keys;
    }
  }
}
