/**
 * Where payouts go and what earned them: a settlement pays the account its plan names, a payout was
 * signed for in the run, and exactly which batches let every payout arrive.
 */
module EscrowPayouts {
  import opened Base
  import opened LittleEndian
  import opened FinPlans
  import opened FinPlanProgram
  import opened Processor
  import opened Batches
  import opened BatchAccounts
  import opened Tokens
  import opened Programs
  import opened Escrow
  import opened EscrowRuns
  import opened EscrowRaces

  // ---- One settlement ----------------------------------------------------------------------------------

  /**
   * A settlement processed by itself names its payee third, and raises that account by exactly the
   * payment, unless the payee is listed again, when a copy from before is stored over it.
   */
  lemma PaymentArrives(r: Registry, b: Bank, tx: Transaction)
    requires GoodFormats(r.formats) && KeepsSlice(r.other) && tx.keys != [] && Happened(r, b, tx).Settled?
    ensures
      var x, after := Happened(r, b, tx).payment, ProcessTransactions(Dispatch(r), b, [tx]).0.accounts;
      |tx.keys| >= 3 && x.to == tx.keys[2] &&
      Balance(after, x.to) == Balance(b.accounts, x.to) + if x.to in tx.keys[3..] then 0 else x.tokens
  {
    hide ProcessTransactions; hide Process; hide Dispatch; hide ContractIn; hide GoodFormats; hide KeepsSlice; hide EffectOf;
    hide ContractChange; hide OthersUntouched;
    var pre := Fetch(b.accounts, tx);
    AcceptedCall(r, b, tx);
    AcceptedCanRun(r, b, tx);
    ProcessEffect(r.formats, tx, pre);
    var j := LastPosition(tx.keys, tx.keys[2]);
    LastIsLater(tx.keys);
    assert Gained(pre, Process(r.formats, tx, pre).accounts, j, if j == 2 then Happened(r, b, tx).payment.tokens else 0);
    assert tx.keys[2] in tx.keys;
  }

  lemma {:induction false} LastIsLater(keys: seq<Pubkey>)
    requires |keys| >= 3
    ensures var j := LastPosition(keys, keys[2]); j >= 2 && (j > 2 <==> keys[2] in keys[3..])
  {
    var j := LastPosition(keys, keys[2]);
    if j > 2 {
      assert keys[3..][j - 3] == keys[2];
    }
    if keys[2] in keys[3..] {
      var i :| 0 <= i < |keys[3..]| && keys[3..][i] == keys[2];
      assert keys[i + 3] == keys[2];
    }
  }

  // ---- In a batch ------------------------------------------------------------------------------------

  /** The payee's balance is up by the payment after the batch. */
  ghost predicate Arrives(r: Registry, b: Bank, txs: seq<Transaction>, x: Payment)
    requires Payers(txs)
  {
    Balance(ProcessTransactions(Dispatch(r), b, txs).0.accounts, x.to) == Balance(b.accounts, x.to) + x.tokens
  }

  /** Nothing accepted later in the batch lists the payee, and neither does the rest of the call itself. */
  ghost predicate Undisturbed(txs: seq<Transaction>, ss: seq<Status>, i: nat)
    requires i < |txs| == |ss|
  {
    |txs[i].keys| >= 3 && txs[i].keys[2] !in txs[i].keys[3..] &&
    forall j :: i < j < |txs| && ss[j].Okay? ==> txs[i].keys[2] !in txs[j].keys
  }

  /**
   * A payout in a batch arrives in full when undisturbed; otherwise the payee's account is as the
   * last that lists it would leave it alone, and the payment has no part in it.
   */
  lemma {:induction false} PayoutArrivesOrIsLost(r: Registry, b: Bank, txs: seq<Transaction>, i: nat)
    requires GoodFormats(r.formats) && KeepsSlice(r.other) && Payers(txs) && i < |txs| && Effects(r, b, txs)[i].Settled?
    ensures
      var x, ss := Effects(r, b, txs)[i].payment, ProcessTransactions(Dispatch(r), b, txs).1;
      |txs[i].keys| >= 3 && x.to == txs[i].keys[2] && ss[i].Okay? &&
      var last := LastLister(txs, ss, x.to, |txs|);
      last.Some? && i <= last.value &&
      (last.value == i && x.to !in txs[i].keys[3..] ==> Arrives(r, b, txs, x)) &&
      (last.value == i && x.to in txs[i].keys[3..] ==> Arrives(r, b, txs, x.(tokens := 0))) &&
      Get(ProcessTransactions(Dispatch(r), b, txs).0.accounts, x.to) ==
        Get(ProcessTransactions(Dispatch(r), b, [txs[last.value]]).0.accounts, x.to) &&
      (Undisturbed(txs, ss, i) ==> Arrives(r, b, txs, x))
  {
    hide ProcessTransactions; hide Dispatch; hide GoodFormats; hide KeepsSlice; hide Effects; hide Happened; hide Get;
    EffectIsHappened(r, b, txs, i);
    PaymentArrives(r, b, txs[i]);
    DispatchKeepsSlice(r);
    BatchAccount(Dispatch(r), b, txs, Effects(r, b, txs)[i].payment.to);
  }

  // ---- Over runs -------------------------------------------------------------------------------------

  /** The trail when event `n` of the run comes. */
  function Before(r: Registry, b: Bank, evs: seq<Event>, n: nat): Option<Trail>
    requires AllPay(evs) && n <= |evs|
  {
    RunEscrow(r, b, evs[..n])
  }

  /** Transaction `i` of batch `n` of the run. */
  predicate IsIn(evs: seq<Event>, n: nat, i: nat) {
    n < |evs| && evs[n].Batch? && i < |evs[n].txs|
  }

  /** It settled contract `p.0` with payment `p.1`, and the payee's balance rose by just that much. */
  ghost predicate PaidInFull(r: Registry, b: Bank, evs: seq<Event>, n: nat, i: nat, p: (Pubkey, Payment))
    requires AllPay(evs)
  {
    IsIn(evs, n, i) && Before(r, b, evs, n).Some? &&
    var txs, bank := evs[n].txs, Before(r, b, evs, n).value.bank;
    Effects(r, bank, txs)[i].Settled? && Effects(r, bank, txs)[i].payment == p.1 && ContractKey(txs[i]) == p.0 &&
    |txs[i].keys| >= 3 && txs[i].keys[2] == p.1.to && Arrives(r, bank, txs, p.1)
  }

  /** In every batch of the run the settlements are undisturbed. */
  ghost predicate UndisturbedRun(r: Registry, b: Bank, evs: seq<Event>)
    requires AllPay(evs)
  {
    forall n: nat, i: nat :: IsIn(evs, n, i) && Before(r, b, evs, n).Some? ==>
      var txs, bank := evs[n].txs, Before(r, b, evs, n).value.bank;
      Effects(r, bank, txs)[i].Settled? ==> Undisturbed(txs, ProcessTransactions(Dispatch(r), bank, txs).1, i)
  }

  lemma {:induction false} NewPayouts(book: Book, paid: Payouts, txs: seq<Transaction>, es: seq<Effect>, n: nat, p: (Pubkey, Payment))
    requires n <= |txs| == |es| && EnterAll(book, paid, txs, es, n).Some? && p in EnterAll(book, paid, txs, es, n).value.1
    ensures p in paid || exists i :: 0 <= i < n && es[i].Settled? && p == (ContractKey(txs[i]), es[i].payment)
  {
    if n > 0 && p in EnterAll(book, paid, txs, es, n - 1).value.1 {
      NewPayouts(book, paid, txs, es, n - 1, p);
    }
  }

  lemma {:induction false} StillBefore(r: Registry, b: Bank, evs: seq<Event>, n: nat)
    requires AllPay(evs) && n < |evs|
    ensures AllPay(evs[..|evs| - 1]) && Before(r, b, evs[..|evs| - 1], n) == Before(r, b, evs, n)
  {
    assert evs[..|evs| - 1][..n] == evs[..n];
  }

  /** Every payout of a run raised the balance of the account its plan named, by exactly the payment. */
  lemma {:induction false} PayoutsArrive(r: Registry, b: Bank, evs: seq<Event>, p: (Pubkey, Payment))
    requires GoodFormats(r.formats) && KeepsSlice(r.other) && AllPay(evs) && UndisturbedRun(r, b, evs)
    requires RunEscrow(r, b, evs).Some? && p in RunEscrow(r, b, evs).value.payouts
    ensures exists n: nat, i: nat :: PaidInFull(r, b, evs, n, i, p)
  {
    hide ProcessTransactions; hide Effects; hide EnterAll; hide Dispatch; hide GoodFormats; hide KeepsSlice;
    hide Arrives; hide Register;
    hide Undisturbed;
    var n := |evs| - 1;
    var s := RunEscrow(r, b, evs[..n]).value;
    if p in s.payouts {
      UndisturbedEarlier(r, b, evs);
      PayoutsArrive(r, b, evs[..n], p);
      var m: nat, i: nat :| PaidInFull(r, b, evs[..n], m, i, p);
      StillBefore(r, b, evs, m);
      assert PaidInFull(r, b, evs, m, i, p);
    } else {
      var txs := evs[n].txs;
      var es := Effects(r, s.bank, txs);
      NewPayouts(s.book, s.payouts, txs, es, |txs|, p);
      var i :| 0 <= i < |txs| && es[i].Settled? && p == (ContractKey(txs[i]), es[i].payment);
      assert IsIn(evs, n, i) && Before(r, b, evs, n) == Some(s);
      PayoutArrivesOrIsLost(r, s.bank, txs, i);
      assert PaidInFull(r, b, evs, n, i, p);
    }
  }

  lemma {:induction false} UndisturbedEarlier(r: Registry, b: Bank, evs: seq<Event>)
    requires AllPay(evs) && evs != [] && UndisturbedRun(r, b, evs)
    ensures UndisturbedRun(r, b, evs[..|evs| - 1])
  {
    hide ProcessTransactions; hide Effects; hide Dispatch; hide RunEscrow; hide Undisturbed;
    var m := |evs| - 1;
    forall n: nat, i: nat | IsIn(evs[..m], n, i) && Before(r, b, evs[..m], n).Some?
      ensures var txs, bank := evs[n].txs, Before(r, b, evs[..m], n).value.bank;
        Effects(r, bank, txs)[i].Settled? ==> Undisturbed(txs, ProcessTransactions(Dispatch(r), bank, txs).1, i)
    {
      StillBefore(r, b, evs, n);
      assert IsIn(evs, n, i);
    }
  }

  // ---- What earned a payout --------------------------------------------------------------------------

  /** An accepted contract call of the run, on contract `k`. */
  ghost predicate CallOn(r: Registry, b: Bank, evs: seq<Event>, n: nat, i: nat, k: Pubkey)
    requires AllPay(evs)
  {
    IsIn(evs, n, i) && Before(r, b, evs, n).Some? &&
    var txs, bank := evs[n].txs, Before(r, b, evs, n).value.bank;
    IsCall(txs[i]) && |txs[i].keys| >= 2 && txs[i].keys[1] == k && ProcessTransactions(Dispatch(r), bank, txs).1[i].Okay?
  }

  /** The call is `key`'s signature, or `key` saying that a time not before `dt` has come. */
  predicate Answers(f: Formats, tx: Transaction, c: Condition)
    requires tx.keys != []
  {
    match c
    case SignedBy(key) => tx.keys[0] == key && f.instruction(tx.userdata) == Some(ApplySignature)
    case AtTime(dt, key) =>
      tx.keys[0] == key &&
      match f.instruction(tx.userdata) case Some(ApplyTimestamp(now)) => dt <= now case _ => false
  }

  ghost predicate Attested(r: Registry, b: Bank, evs: seq<Event>, k: Pubkey, c: Condition)
    requires AllPay(evs)
  {
    exists n: nat, i: nat :: CallOn(r, b, evs, n, i, k) && Answers(r.formats, evs[n].txs[i], c)
  }

  /** Where a testimony in the book came from. */
  ghost predicate Brought(r: Registry, b: Bank, evs: seq<Event>, k: Pubkey, t: Testimony)
    requires AllPay(evs)
  {
    exists n: nat, i: nat :: CallOn(r, b, evs, n, i, k) && Brings(r.formats, evs[n].txs[i], t)
  }

  predicate Brings(f: Formats, tx: Transaction, t: Testimony)
    requires tx.keys != []
  {
    tx.keys[0] == t.1 && f.instruction(tx.userdata).Some? && WitnessOf(f.instruction(tx.userdata).value) == Some(t.0)
  }

  lemma {:induction false} NewTestimony(
    book: Book, paid: Payouts, txs: seq<Transaction>, es: seq<Effect>, n: nat, k: Pubkey, t: Testimony)
    requires n <= |txs| == |es| && EnterAll(book, paid, txs, es, n).Some?
    requires k in EnterAll(book, paid, txs, es, n).value.0 && t in EnterAll(book, paid, txs, es, n).value.0[k].history
    ensures (k in book && t in book[k].history) ||
      exists i :: 0 <= i < n && ContractKey(txs[i]) == k && (es[i].Settled? || es[i].Witnessed?) && es[i].t == t
  {
    if n > 0 {
      var mid := EnterAll(book, paid, txs, es, n - 1).value.0;
      if k in mid && t in mid[k].history {
        NewTestimony(book, paid, txs, es, n - 1, k, t);
      } else {
        assert ContractKey(txs[n - 1]) == k;
      }
    }
  }

  lemma EffectBrings(r: Registry, b: Bank, txs: seq<Transaction>, i: nat)
    requires Payers(txs) && i < |txs| && (Effects(r, b, txs)[i].Settled? || Effects(r, b, txs)[i].Witnessed?)
    ensures Brings(r.formats, txs[i], Effects(r, b, txs)[i].t)
  {
    hide ProcessTransactions; hide ContractIn; hide ApplyWitness; hide Dispatch;
  }

  lemma {:induction false} HistoryWasBrought(r: Registry, b: Bank, evs: seq<Event>, k: Pubkey, t: Testimony)
    requires AllPay(evs) && RunEscrow(r, b, evs).Some?
    requires k in RunEscrow(r, b, evs).value.book && t in RunEscrow(r, b, evs).value.book[k].history
    ensures Brought(r, b, evs, k, t)
  {
    hide ProcessTransactions; hide Effects; hide EnterAll; hide Dispatch; hide Register; hide Brings; hide ContractKey;
    var n := |evs| - 1;
    var s := RunEscrow(r, b, evs[..n]).value;
    if k in s.book && t in s.book[k].history {
      HistoryWasBrought(r, b, evs[..n], k, t);
      var m: nat, i: nat :| CallOn(r, b, evs[..n], m, i, k) && Brings(r.formats, evs[..n][m].txs[i], t);
      StillBefore(r, b, evs, m);
      assert CallOn(r, b, evs, m, i, k);
    } else {
      var txs := evs[n].txs;
      var es := Effects(r, s.bank, txs);
      NewTestimony(s.book, s.payouts, txs, es, |txs|, k, t);
      var i :| 0 <= i < |txs| && ContractKey(txs[i]) == k && (es[i].Settled? || es[i].Witnessed?) && es[i].t == t;
      EffectIsHappened(r, s.bank, txs, i);
      EffectBrings(r, s.bank, txs, i);
      ContractKeyIs(txs[i]);
      assert IsIn(evs, n, i) && Before(r, b, evs, n) == Some(s);
      assert CallOn(r, b, evs, n, i, k);
    }
  }

  lemma ContractKeyIs(tx: Transaction)
    ensures |tx.keys| >= 2 ==> ContractKey(tx) == tx.keys[1]
  {
  }

  lemma MetWasAttested(r: Registry, b: Bank, evs: seq<Event>, k: Pubkey, c: Condition, t: Testimony)
    requires AllPay(evs) && Brought(r, b, evs, k, t) && Meets(c, t)
    ensures Attested(r, b, evs, k, c)
  {
    hide ProcessTransactions; hide RunEscrow; hide Dispatch;
    var n: nat, i: nat :| CallOn(r, b, evs, n, i, k) && Brings(r.formats, evs[n].txs[i], t);
    assert Answers(r.formats, evs[n].txs[i], c) by {
      WitnessIs(r.formats.instruction(evs[n].txs[i].userdata).value);
    }
  }

  lemma WitnessIs(ins: Instruction)
    ensures WitnessOf(ins) == Some(SignatureWitness) <==> ins == ApplySignature
    ensures forall dt :: WitnessOf(ins) == Some(TimeWitness(dt)) <==> ins == ApplyTimestamp(dt)
  {
  }

  /**
   * A payout was earned in the run itself: for each condition that led to it there is an accepted
   * call on that contract by the key the condition names, its signature or a late enough time.
   */
  lemma {:induction false} PayoutWasEarned(r: Registry, b: Bank, evs: seq<Event>, k: Pubkey)
    requires GoodFormats(r.formats) && KeepsSlice(r.other) && ForgesNothing(r.formats, r.other)
    requires AllPay(evs) && CarefulRun(r, b, evs) && Inv(r.formats, b.accounts, map[])
    requires RunEscrow(r, b, evs).Some? && k in RunEscrow(r, b, evs).value.book
    requires RunEscrow(r, b, evs).value.book[k].paid.Some?
    ensures
      var c := RunEscrow(r, b, evs).value.book[k];
      match c.original
      case Pay(x) => c.paid == Some(x)
      case After(cond, x) => c.paid == Some(x) && Attested(r, b, evs, k, cond)
      case Or(cond0, x0, cond1, x1) =>
        (c.paid == Some(x0) && Attested(r, b, evs, k, cond0)) || (c.paid == Some(x1) && Attested(r, b, evs, k, cond1))
      case And(cond0, cond1, x) =>
        c.paid == Some(x) && Attested(r, b, evs, k, cond0) && Attested(r, b, evs, k, cond1)
  {
    hide RunEscrow; hide CarefulRun; hide Inv; hide GoodFormats; hide KeepsSlice; hide ForgesNothing; hide Attested;
    hide Meets; hide Brought;
    PayoutsAreJustified(r, b, evs, k);
    var c := RunEscrow(r, b, evs).value.book[k];
    forall i, cond | 0 <= i < |c.history| && Meets(cond, c.history[i]) ensures Attested(r, b, evs, k, cond) {
      HistoryWasBrought(r, b, evs, k, c.history[i]);
      MetWasAttested(r, b, evs, k, cond, c.history[i]);
    }
  }

  // ---- Exactly which batches let every payout arrive ----------------------------------------------------

  predicate CanSettle(f: Formats, t: Transaction) {
    Witnesses(f, t) && |t.keys| >= 3 && t.keys[0] != t.keys[1]
  }

  /** The payee is listed again by the call itself. */
  predicate Diverted(f: Formats, t: Transaction) {
    CanSettle(f, t) && t.keys[2] in t.keys[3..]
  }

  /** `t'`, later in the batch, lists the payee of `t`, and some bank lets both run. */
  predicate Crossed(f: Formats, t: Transaction, t': Transaction) {
    CanSettle(f, t) && Compatible(f, t, t') && EnoughKeys(f, t') && t.keys[2] in t'.keys
  }

  predicate PayeesApart(f: Formats, txs: seq<Transaction>) {
    (forall i :: 0 <= i < |txs| ==> !Diverted(f, txs[i])) &&
    (forall i, j :: 0 <= i < j < |txs| ==> !Crossed(f, txs[i], txs[j]))
  }

  ghost predicate AllArrive(r: Registry, txs: seq<Transaction>)
    requires Payers(txs)
  {
    forall b: Bank, book: Book, i: nat :: Inv(r.formats, b.accounts, book) && i < |txs| && Effects(r, b, txs)[i].Settled? ==>
      Arrives(r, b, txs, Effects(r, b, txs)[i].payment)
  }

  lemma AcceptedHasKeys(r: Registry, b: Bank, tx: Transaction)
    requires KeepsSlice(r.other) && IsCall(tx) && tx.keys != [] && ProcessTransactions(Dispatch(r), b, [tx]).1 == [Okay]
    ensures EnoughKeys(r.formats, tx)
  {
    hide ProcessTransactions; hide Dispatch; hide KeepsSlice;
    AcceptedCall(r, b, tx);
  }

  lemma ApartIsUndisturbed(r: Registry, b: Bank, txs: seq<Transaction>, i: nat)
    requires GoodFormats(r.formats) && KeepsSlice(r.other) && Payers(txs) && PayeesApart(r.formats, txs)
    requires (forall j :: 0 <= j < |txs| ==> IsCall(txs[j])) && i < |txs| && Effects(r, b, txs)[i].Settled?
    ensures Undisturbed(txs, ProcessTransactions(Dispatch(r), b, txs).1, i)
  {
    hide ProcessTransactions; hide Dispatch; hide GoodFormats; hide KeepsSlice; hide Effects; hide Happened; hide Arrives;
    hide Compatible; hide EnoughKeys; hide Get;
    var f, t, ss := r.formats, txs[i], ProcessTransactions(Dispatch(r), b, txs).1;
    EffectIsHappened(r, b, txs, i);
    AcceptedAlone(Dispatch(r), b, txs, i);
    PaymentArrives(r, b, t);
    SettlesIsCanSettle(r, b, t);
    assert !Diverted(f, t);
    forall j | i < j < |txs| && ss[j].Okay? ensures t.keys[2] !in txs[j].keys {
      AcceptedAlone(Dispatch(r), b, txs, j);
      BothRunCompatible(r, b, t, txs[j]);
      AcceptedHasKeys(r, b, txs[j]);
      assert !Crossed(f, t, txs[j]);
    }
  }

  lemma SettlesIsCanSettle(r: Registry, b: Bank, t: Transaction)
    requires GoodFormats(r.formats) && KeepsSlice(r.other) && t.keys != [] && Happened(r, b, t).Settled? && |t.keys| >= 3
    ensures CanSettle(r.formats, t) && Acts(r.formats, t)
  {
    hide ProcessTransactions; hide Dispatch; hide GoodFormats; hide KeepsSlice; hide ContractIn; hide ApplyWitness;
    AcceptedCallKeys(r, b, t);
  }

  /** Over runs of contract calls, the keys of each batch decide that every payout arrives. */
  lemma {:induction false} CallPayoutsArrive(r: Registry, b: Bank, evs: seq<Event>)
    requires GoodFormats(r.formats) && KeepsSlice(r.other) && AllPay(evs)
    requires forall n :: 0 <= n < |evs| && evs[n].Batch? ==>
      (forall i :: 0 <= i < |evs[n].txs| ==> IsCall(evs[n].txs[i])) && PayeesApart(r.formats, evs[n].txs)
    ensures UndisturbedRun(r, b, evs)
    ensures RunEscrow(r, b, evs).Some? ==>
      forall p :: p in RunEscrow(r, b, evs).value.payouts ==> exists n: nat, i: nat :: PaidInFull(r, b, evs, n, i, p)
  {
    hide ProcessTransactions; hide Effects; hide Dispatch; hide RunEscrow; hide Undisturbed; hide PayeesApart;
    hide GoodFormats; hide KeepsSlice;
    hide PaidInFull;
    forall n: nat, i: nat | IsIn(evs, n, i) && Before(r, b, evs, n).Some?
      ensures var txs, bank := evs[n].txs, Before(r, b, evs, n).value.bank;
        Effects(r, bank, txs)[i].Settled? ==> Undisturbed(txs, ProcessTransactions(Dispatch(r), bank, txs).1, i)
    {
      if Effects(r, Before(r, b, evs, n).value.bank, evs[n].txs)[i].Settled? {
        ApartIsUndisturbed(r, Before(r, b, evs, n).value.bank, evs[n].txs, i);
      }
    }
    if RunEscrow(r, b, evs).Some? {
      forall p | p in RunEscrow(r, b, evs).value.payouts ensures exists n: nat, i: nat :: PaidInFull(r, b, evs, n, i, p) {
        PayoutsArrive(r, b, evs, p);
      }
    }
  }

  // ---- The bank in which a payout is lost -------------------------------------------------------------

  /** More than any fee or deposit of the two. */
  function Big(f: Formats, t: Transaction, t': Transaction): nat {
    Abs(t.fee) + Abs(t'.fee) + Abs(Deposit(f, t)) + Abs(Deposit(f, t')) + 1
  }

  function Owed(f: Formats, t: Transaction, t': Transaction): FinPlan
    requires |t.keys| >= 3
  {
    FinPlan.After(Asked(f, t), Payment(Big(f, t, t'), t.keys[2]))
  }

  function Vault(f: Formats, t: Transaction, t': Transaction): Account
    requires |t.keys| >= 3
  {
    var body := f.state.enc(FinPlanState(true, Some(Owed(f, t, t'))));
    Account(Big(f, t, t') + 1, ToLE(|body|, 8) + body + Zeros(|f.state.enc(FinPlanState(true, None))|), BUDGET_PROGRAM_ID)
  }

  predicate HasOwnHost(f: Formats, t: Transaction, t': Transaction)
    requires |t.keys| >= 3
  {
    Acts(f, t') && t'.keys[1] != t.keys[1]
  }

  function VaultAccounts(f: Formats, t: Transaction, t': Transaction): Accounts
    requires |t.keys| >= 3 && t'.keys != []
  {
    var m := map[t.keys[0] := Purse(f, t, t'), t'.keys[0] := Purse(f, t, t'), t.keys[1] := Vault(f, t, t')];
    if HasOwnHost(f, t, t') then m[t'.keys[1] := Host(f, t', t', t')] else m
  }

  function VaultBook(f: Formats, t: Transaction, t': Transaction): Book
    requires |t.keys| >= 3 && t'.keys != []
  {
    var m := map[t.keys[1] := Escrowed(Owed(f, t, t'), Big(f, t, t'), [], None)];
    if HasOwnHost(f, t, t') && Witnesses(f, t') then m[t'.keys[1] := Escrowed(Joint(f, t', t'), 0, [], None)] else m
  }

  /** The two can run side by side, on contracts of their own unless they are one call. */
  predicate SideBySide(f: Formats, t: Transaction, t': Transaction) {
    CanSettle(f, t) && Compatible(f, t, t') && (t' == t || (Acts(f, t') ==> t'.keys[1] != t.keys[1]))
  }

  lemma VaultReads(f: Formats, t: Transaction, t': Transaction)
    requires SideBySide(f, t, t')
    ensures var m := VaultAccounts(f, t, t');
      Positive(m) && t.keys[0] in m && t'.keys[0] in m &&
      Get(m, t.keys[0]) == Purse(f, t, t') && Get(m, t'.keys[0]) == Purse(f, t, t') && Get(m, t.keys[1]) == Vault(f, t, t') &&
      (HasOwnHost(f, t, t') ==> Get(m, t'.keys[1]) == Host(f, t', t', t'))
  {
    hide Joint; hide Wanted; hide Owed;
  }

  lemma VaultHolds(f: Formats, t: Transaction, t': Transaction)
    requires GoodFormats(f) && |t.keys| >= 3 && f.state.valid(FinPlanState(true, Some(Owed(f, t, t'))))
    ensures ContractIn(f, Vault(f, t, t')) == Some(Some(Owed(f, t, t')))
    ensures |Vault(f, t, t').userdata| >= 8 + |f.state.enc(FinPlanState(true, None))| && Vault(f, t, t').tokens == Big(f, t, t') + 1
  {
    hide GoodFormats; hide Owed;
    WaitingReads(f, FinPlanState(true, Some(Owed(f, t, t'))), Zeros(|f.state.enc(FinPlanState(true, None))|));
  }

  lemma VaultInv(f: Formats, t: Transaction, t': Transaction)
    requires GoodFormats(f) && SideBySide(f, t, t') && f.state.valid(FinPlanState(true, Some(Owed(f, t, t'))))
    requires f.state.valid(FinPlanState(true, Some(Joint(f, t', t'))))
    ensures Inv(f, VaultAccounts(f, t, t'), VaultBook(f, t, t'))
  {
    hide GoodFormats; hide ContractIn; hide Host; hide Vault; hide Purse; hide Wanted;
    var m, book := VaultAccounts(f, t, t'), VaultBook(f, t, t');
    VaultReads(f, t, t');
    VaultHolds(f, t, t');
    HostHolds(f, t', t', t');
    HostTokens(f, t', t');
    HostTokens(f, t, t');
    assert Reduce(Owed(f, t, t'), []) == Owed(f, t, t');
    assert Reduce(Joint(f, t', t'), []) == Joint(f, t', t');
    forall k ensures Backed(f, Get(m, k), book, k) {
      if k != t.keys[1] && !(HasOwnHost(f, t, t') && k == t'.keys[1]) {
        EmptyUserdataIsNoContract(f, Get(m, k));
      }
    }
  }

  /** In that bank the first call settles. */
  lemma VaultSettles(r: Registry, b: Bank, t: Transaction, t': Transaction)
    requires GoodFormats(r.formats) && KeepsSlice(r.other) && IsCall(t) && SideBySide(r.formats, t, t')
    requires r.formats.state.valid(FinPlanState(true, Some(Owed(r.formats, t, t'))))
    requires Loadable(b, t) && b.accounts == VaultAccounts(r.formats, t, t')
    ensures ProcessTransactions(Dispatch(r), b, [t]).1 == [Okay]
    ensures Happened(r, b, t).Settled? && Happened(r, b, t).payment == Payment(Big(r.formats, t, t'), t.keys[2])
  {
    hide ProcessTransactions; hide Dispatch; hide GoodFormats; hide KeepsSlice; hide Vault; hide VaultAccounts;
    hide ContractIn; hide Big;
    hide Loadable; hide Positive; hide Happened;
    var f, x := r.formats, Payment(Big(r.formats, t, t'), t.keys[2]);
    var w := WitnessOf(f.instruction(t.userdata).value).value;
    VaultReads(f, t, t');
    VaultHolds(f, t, t');
    VaultIsProgram(f, t, t');
    assert ApplyWitness(Owed(f, t, t'), w, t.keys[0]) == Pay(x);
    assert ReadyToSettle(r, b, t, w, x);
    SettlementAccepted(r, b, t, w, x);
  }

  lemma VaultIsProgram(f: Formats, t: Transaction, t': Transaction)
    requires |t.keys| >= 3
    ensures Vault(f, t, t').programId == BUDGET_PROGRAM_ID && Purse(f, t, t').userdata == [] && Big(f, t, t') >= 0
  {
  }

  /** A call that settles nothing changes no balance by as much as that. */
  lemma SmallChange(r: Registry, b: Bank, t: Transaction, tx: Transaction, k: Pubkey)
    requires GoodFormats(r.formats) && KeepsSlice(r.other) && IsCall(tx) && tx.keys != []
    requires ProcessTransactions(Dispatch(r), b, [tx]).1 == [Okay] && !Happened(r, b, tx).Settled?
    ensures Balance(ProcessTransactions(Dispatch(r), b, [tx]).0.accounts, k) < Balance(b.accounts, k) + Big(r.formats, t, tx)
  {
    hide ProcessTransactions; hide Process; hide Dispatch; hide ContractIn; hide GoodFormats; hide KeepsSlice; hide EffectOf;
    hide ContractChange; hide OthersUntouched;
    var f, pre := r.formats, Fetch(b.accounts, tx);
    AcceptedCall(r, b, tx);
    AcceptedCanRun(r, b, tx);
    ProcessEffect(f, tx, pre);
    if k in tx.keys {
      MovesNoMoreThanDeposit(f, tx, pre, Process(f, tx, pre).accounts, EffectOf(f, tx, pre), LastPosition(tx.keys, k));
    }
  }

  lemma MovesNoMoreThanDeposit(f: Formats, tx: Transaction, pre: seq<Account>, post: seq<Account>, e: Effect, j: nat)
    requires TokensMove(f, tx, pre, post, e) && !e.Settled? && CanRun(f, tx) && j < |pre|
    ensures post[j].tokens <= pre[j].tokens + Abs(Deposit(f, tx))
  {
    var ins := f.instruction(tx.userdata).value;
    if !e.Witnessed? && ins.NewContract? && j < 2 {
      assert Gained(pre, post, 0, -ins.tokens);
    } else {
      assert Gained(pre, post, j, 0);
    }
  }

  /** Plans the format can write, for the banks below. */
  ghost predicate CanOwe(r: Registry, txs: seq<Transaction>) {
    forall i, j :: 0 <= i <= j < |txs| && |txs[i].keys| >= 3 ==>
      r.formats.state.valid(FinPlanState(true, Some(Owed(r.formats, txs[i], txs[j]))))
  }

  ghost function VaultBank(f: Formats, txs: seq<Transaction>, i: nat, j: nat): Bank
    requires Payers(txs) && i < |txs| && j < |txs| && |txs[i].keys| >= 3
  {
    Bank(VaultAccounts(f, txs[i], txs[j]), [], SpentBut(txs, i, j), 0)
  }

  lemma VaultLoads(r: Registry, txs: seq<Transaction>, i: nat, j: nat, m: nat)
    requires CallBatch(r, txs) && i < |txs| && j < |txs| && m < |txs| && SideBySide(r.formats, txs[i], txs[j])
    ensures Loadable(VaultBank(r.formats, txs, i, j), txs[m]) ==> m == i || m == j
    ensures Loadable(VaultBank(r.formats, txs, i, j), txs[i]) && Loadable(VaultBank(r.formats, txs, i, j), txs[j])
  {
    hide SpentBut; hide VaultAccounts; hide GoodFormats; hide KeepsSlice; hide ForgesNothing; hide Joint;
    SpentExactly(txs, i, j, m);
    SpentExactly(txs, i, j, i);
    SpentExactly(txs, i, j, j);
    VaultReads(r.formats, txs[i], txs[j]);
    PurseIsEnough(r.formats, txs[i], txs[j], VaultBank(r.formats, txs, i, j).accounts);
  }

  lemma DivertedIsLost(r: Registry, txs: seq<Transaction>, i: nat)
    requires CallBatch(r, txs) && CanOwe(r, txs) && i < |txs| && Diverted(r.formats, txs[i])
    ensures
      var b := VaultBank(r.formats, txs, i, i);
      Inv(r.formats, b.accounts, VaultBook(r.formats, txs[i], txs[i])) &&
      Effects(r, b, txs)[i].Settled? && !Arrives(r, b, txs, Effects(r, b, txs)[i].payment)
  {
    hide ProcessTransactions; hide Dispatch; hide GoodFormats; hide KeepsSlice; hide ForgesNothing; hide Effects; hide Happened;
    hide VaultAccounts; hide VaultBook; hide SpentBut; hide Owed; hide Joint; hide Inv; hide Get; hide Loadable;
    var f, t := r.formats, txs[i];
    var b := VaultBank(f, txs, i, i);
    assert SideBySide(f, t, t);
    VaultInv(f, t, t);
    VaultLoads(r, txs, i, i, i);
    VaultSettles(r, b, t, t);
    AcceptedInBatch(Dispatch(r), b, txs, i);
    EffectIsHappened(r, b, txs, i);
    PayoutArrivesOrIsLost(r, b, txs, i);
    var ss := ProcessTransactions(Dispatch(r), b, txs).1;
    var last := LastLister(txs, ss, t.keys[2], |txs|).value;
    if last != i {
      VaultLoads(r, txs, i, i, last);
      AcceptedAlone(Dispatch(r), b, txs, last);
    }
  }

  lemma CrossedIsLost(r: Registry, txs: seq<Transaction>, i: nat, j: nat)
    requires CallBatch(r, txs) && CanOwe(r, txs) && i < j < |txs| && Crossed(r.formats, txs[i], txs[j])
    requires !Stale(r.formats, txs[i], txs[j])
    ensures
      var b := VaultBank(r.formats, txs, i, j);
      Inv(r.formats, b.accounts, VaultBook(r.formats, txs[i], txs[j])) &&
      Effects(r, b, txs)[i].Settled? && !Arrives(r, b, txs, Effects(r, b, txs)[i].payment)
  {
    hide ProcessTransactions; hide Dispatch; hide GoodFormats; hide KeepsSlice; hide ForgesNothing; hide Effects; hide Happened;
    hide VaultAccounts; hide VaultBook; hide SpentBut; hide Owed; hide Joint; hide Inv; hide Get; hide Loadable;
    var f, t, t' := r.formats, txs[i], txs[j];
    var b := VaultBank(f, txs, i, j);
    SafeIsSideBySide(f, t, t');
    VaultInv(f, t, t');
    VaultLoads(r, txs, i, j, i);
    VaultSettles(r, b, t, t');
    RivalRuns(r, b, t, t');
    forall m | 0 <= m < |txs| && m != i && m != j ensures !Loadable(b, txs[m]) {
      VaultLoads(r, txs, i, j, m);
    }
    TwoAloneEffects(r, b, txs, i, j);
    PayoutArrivesOrIsLost(r, b, txs, i);
    assert LastLister(txs, ProcessTransactions(Dispatch(r), b, txs).1, t.keys[2], |txs|) == Some(j);
    SmallChange(r, b, t, t', t.keys[2]);
  }

  lemma SafeIsSideBySide(f: Formats, t: Transaction, t': Transaction)
    requires Crossed(f, t, t') && !Stale(f, t, t')
    ensures SideBySide(f, t, t')
  {
  }

  /** The second call is accepted there too, and settles nothing. */
  lemma RivalRuns(r: Registry, b: Bank, t: Transaction, t': Transaction)
    requires GoodFormats(r.formats) && IsCall(t') && SideBySide(r.formats, t, t') && t != t' && EnoughKeys(r.formats, t')
    requires r.formats.state.valid(FinPlanState(true, Some(Joint(r.formats, t', t'))))
    requires Loadable(b, t') && b.accounts == VaultAccounts(r.formats, t, t')
    ensures ProcessTransactions(Dispatch(r), b, [t']).1 == [Okay] && !Happened(r, b, t').Settled?
  {
    hide ProcessTransactions; hide Dispatch; hide GoodFormats; hide Host; hide VaultAccounts; hide Happened; hide Joint;
    hide Loadable; hide Positive;
    VaultReads(r.formats, t, t');
    assert Payable(r, b, t', Abs(Deposit(r.formats, t')));
    HostedRuns(r, b, t', t', t');
  }

  /**
   * In a batch of contract calls that keeps escrow, every payout arrives in every bank exactly when
   * no call lists its payee again, and none lists the payee of an earlier one that can settle beside it.
   */
  lemma PayoutsArriveExactly(r: Registry, txs: seq<Transaction>)
    requires CallBatch(r, txs) && CanOwe(r, txs) && BatchSafe(r, txs)
    ensures AllArrive(r, txs) <==> PayeesApart(r.formats, txs)
  {
    hide ProcessTransactions; hide Dispatch; hide Effects; hide GoodFormats; hide KeepsSlice; hide ForgesNothing;
    hide Arrives; hide Inv;
    hide BatchSafe; hide Stale; hide Diverted; hide Crossed; hide Joint; hide AllProper; hide CanOwe; hide DistinctSignatures;
    BatchSafeExactly(r, txs);
    if i :| 0 <= i < |txs| && Diverted(r.formats, txs[i]) {
      DivertedIsLost(r, txs, i);
      DivertedHasPayee(r.formats, txs[i]);
      assert Inv(r.formats, VaultBank(r.formats, txs, i, i).accounts, VaultBook(r.formats, txs[i], txs[i]));
    } else if i, j :| 0 <= i < j < |txs| && Crossed(r.formats, txs[i], txs[j]) {
      CrossedIsLost(r, txs, i, j);
      CrossedHasPayee(r.formats, txs[i], txs[j]);
      assert Inv(r.formats, VaultBank(r.formats, txs, i, j).accounts, VaultBook(r.formats, txs[i], txs[j]));
    } else {
      forall b: Bank, book: Book, i: nat | Inv(r.formats, b.accounts, book) && i < |txs| && Effects(r, b, txs)[i].Settled?
        ensures Arrives(r, b, txs, Effects(r, b, txs)[i].payment)
      {
        ApartIsUndisturbed(r, b, txs, i);
        PayoutArrivesOrIsLost(r, b, txs, i);
      }
    }
  }

  lemma DivertedHasPayee(f: Formats, t: Transaction)
    requires Diverted(f, t)
    ensures |t.keys| >= 3
  {
  }

  lemma CrossedHasPayee(f: Formats, t: Transaction, t': Transaction)
    requires Crossed(f, t, t')
    ensures |t.keys| >= 3
  {
  }

  /** Two contracts settled for one payee in one batch: both pay, and the payee has only the second payment. */
  lemma FirstPayoutIsLost(r: Registry, b: Bank, t: Transaction, t': Transaction, w: Witness, w': Witness, x: Payment, x': Payment)
    requires GoodFormats(r.formats) && KeepsSlice(r.other) && DistinctSignatures([t, t']) && x.to == x'.to
    requires ReadyToSettle(r, b, t, w, x) && ReadyToSettle(r, b, t', w', x') && |t.keys| == |t'.keys| == 3
    requires t.keys[1] !in t'.keys && x.to !in {t.keys[1], t'.keys[1]}
    ensures
      var (b', ss) := ProcessTransactions(Dispatch(r), b, [t, t']);
      ss == [Okay, Okay] && Balance(b'.accounts, x.to) == Balance(b.accounts, x.to) + x'.tokens &&
      Balance(b'.accounts, t.keys[1]) == Balance(b.accounts, t.keys[1]) - x.tokens &&
      Balance(b'.accounts, t'.keys[1]) == Balance(b.accounts, t'.keys[1]) - x'.tokens
  {
    hide ProcessTransactions; hide Dispatch; hide GoodFormats; hide KeepsSlice; hide Get; hide Happened; hide ContractIn;
    hide Loadable;
    var txs := [t, t'];
    assert txs[0] == t && txs[1] == t';
    SettlementAccepted(r, b, t, w, x);
    SettlementAccepted(r, b, t', w', x');
    SettlementStores(r, b, t, w, x);
    SettlementStores(r, b, t', w', x');
    AcceptedInBatch(Dispatch(r), b, txs, 0);
    AcceptedInBatch(Dispatch(r), b, txs, 1);
    var ss := ProcessTransactions(Dispatch(r), b, txs).1;
    assert ss == [ss[0], ss[1]];
    DispatchKeepsSlice(r);
    BatchAccount(Dispatch(r), b, txs, x.to);
    BatchAccount(Dispatch(r), b, txs, t.keys[1]);
    BatchAccount(Dispatch(r), b, txs, t'.keys[1]);
    assert t.keys[1] in txs[0].keys && t'.keys[1] in txs[1].keys && x.to in txs[1].keys;
  }
}
