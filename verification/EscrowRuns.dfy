/**
 * Escrow over whole batches. Every transaction of a batch is loaded from the accounts as they were
 * before it, so a later one that lists a contract an earlier one has acted on stores a stale copy.
 */
module EscrowRuns {
  import opened Base
  import opened FinPlans
  import opened FinPlanProgram
  import opened Processor
  import AtMostOnce
  import opened BatchAccounts
  import opened Tokens
  import opened Programs
  import opened Escrow

  // ---- What a batch enters in the book ---------------------------------------------------------------

  /** The effect of each transaction, from the accounts the batch started with. */
  function Effects(r: Registry, b: Bank, txs: seq<Transaction>): (es: seq<Effect>)
    requires Payers(txs)
    ensures |es| == |txs|
  {
    var ss := ProcessTransactions(Dispatch(r), b, txs).1;
    seq(|txs|, i requires 0 <= i < |txs| =>
      if IsCall(txs[i]) && ss[i].Okay? then EffectOf(r.formats, txs[i], Fetch(b.accounts, txs[i])) else Nothing)
  }

  type Payouts = seq<(Pubkey, Payment)>

  /** Enters the first `n` effects in order; None when the book forbids one. */
  function EnterAll(book: Book, paid: Payouts, txs: seq<Transaction>, es: seq<Effect>, n: nat): Option<(Book, Payouts)>
    requires n <= |txs| == |es|
  {
    if n == 0 then Some((book, paid)) else
    match EnterAll(book, paid, txs, es, n - 1)
    case None => None
    case Some((book', paid')) =>
      var k, e := ContractKey(txs[n - 1]), es[n - 1];
      if !Allowed(book', k, e) then None
      else Some((Enter(book', k, txs[n - 1].fee, e), paid' + if e.Settled? then [(k, e.payment)] else []))
  }

  /** No accepted transaction lists a contract that an earlier one of the batch has acted on. */
  ghost predicate Clean(txs: seq<Transaction>, ss: seq<Status>, es: seq<Effect>)
    requires |txs| == |ss| == |es|
  {
    forall i, j :: 0 <= i < j < |txs| && es[i] != Nothing && ss[j].Okay? ==> ContractKey(txs[i]) !in txs[j].keys
  }

  predicate SameAt(a: Book, b: Book, k: Pubkey) {
    (k in a <==> k in b) && (k in a ==> a[k] == b[k])
  }

  predicate PaysItsAmount(book: Book, k: Pubkey, e: Effect) {
    k in book && e.Settled? && e.payment.tokens == book[k].amount
  }

  lemma EnterSame(a: Book, b: Book, k: Pubkey, fee: int, e: Effect)
    requires SameAt(a, b, k) && Allowed(b, k, e)
    ensures Allowed(a, k, e) && SameAt(Enter(a, k, fee, e), Enter(b, k, fee, e), k)
    ensures forall k' :: k' != k || e == Nothing ==> SameAt(Enter(a, k, fee, e), a, k')
  {
  }

  /** In a clean batch every contract gets at most one effect, as if it were the only one. */
  lemma {:induction false} EntersEach(book: Book, paid: Payouts, txs: seq<Transaction>, ss: seq<Status>, es: seq<Effect>, n: nat)
    requires n <= |txs| == |ss| == |es| && Clean(txs, ss, es)
    requires forall i :: 0 <= i < |es| && es[i] != Nothing ==> ss[i].Okay? && ContractKey(txs[i]) in txs[i].keys
    requires forall i :: 0 <= i < |es| ==> Allowed(book, ContractKey(txs[i]), es[i])
    requires forall i :: 0 <= i < |es| && es[i].Settled? ==> PaysItsAmount(book, ContractKey(txs[i]), es[i])
    ensures EnterAll(book, paid, txs, es, n).Some?
    ensures var book' := EnterAll(book, paid, txs, es, n).value.0;
      (forall i :: 0 <= i < n && es[i] != Nothing ==>
        SameAt(book', Enter(book, ContractKey(txs[i]), txs[i].fee, es[i]), ContractKey(txs[i]))) &&
      (forall k :: Untold(txs, es, n, k) ==> SameAt(book', book, k))
    ensures PaidOnce(book, paid) ==>
      var (book', paid') := EnterAll(book, paid, txs, es, n).value; PaidOnce(book', paid')
  {
    if n > 0 {
      EntersEach(book, paid, txs, ss, es, n - 1);
      var (mid, paid1) := EnterAll(book, paid, txs, es, n - 1).value;
      var t, e := txs[n - 1], es[n - 1];
      var k := ContractKey(t);
      if e != Nothing {
        assert Untold(txs, es, n - 1, k);
        EnterSame(mid, book, k, t.fee, e);
      } else {
        assert Enter(mid, k, t.fee, e) == mid;
      }
      var (book', paid') := EnterAll(book, paid, txs, es, n).value;
      forall i | 0 <= i < n - 1 && es[i] != Nothing
        ensures SameAt(book', Enter(book, ContractKey(txs[i]), txs[i].fee, es[i]), ContractKey(txs[i]))
      {
        assert e != Nothing ==> ContractKey(txs[i]) != k;
        assert SameAt(book', mid, ContractKey(txs[i]));
      }
      forall k' | Untold(txs, es, n, k') ensures SameAt(book', book, k') {
        assert Untold(txs, es, n - 1, k') && (e == Nothing || k != k');
        assert SameAt(book', mid, k');
      }
      if PaidOnce(book, paid) {
        PaidOnceStep(mid, paid1, book', paid', k, t.fee, e);
      }
    }
  }

  /** No effect among the first `n` is on `k`. */
  ghost predicate Untold(txs: seq<Transaction>, es: seq<Effect>, n: nat, k: Pubkey)
    requires n <= |txs| == |es|
  {
    forall i :: 0 <= i < n && es[i] != Nothing ==> ContractKey(txs[i]) != k
  }

  /** Payouts and the book tell the same story: at most one per contract, for exactly its amount. */
  ghost predicate PaidOnce(book: Book, paid: Payouts) {
    (forall i, j :: 0 <= i < j < |paid| ==> paid[i].0 != paid[j].0) &&
    (forall i :: 0 <= i < |paid| ==>
      var (k, x) := paid[i]; k in book && book[k].paid == Some(x) && x.tokens == book[k].amount) &&
    (forall k :: k in book && book[k].paid.Some? ==> (k, book[k].paid.value) in paid)
  }

  lemma PaidOnceStep(book: Book, paid: Payouts, book': Book, paid': Payouts, k: Pubkey, fee: int, e: Effect)
    requires PaidOnce(book, paid) && Allowed(book, k, e) && book' == Enter(book, k, fee, e)
    requires paid' == paid + (if e.Settled? then [(k, e.payment)] else [])
    requires e.Settled? ==> e.payment.tokens == book[k].amount
    ensures PaidOnce(book', paid')
  {
    if e.Settled? {
      assert forall i :: 0 <= i < |paid| ==> paid[i].0 != k;
    }
  }

  // ---- A careful batch keeps escrow ------------------------------------------------------------------

  lemma EffectIsHappened(r: Registry, b: Bank, txs: seq<Transaction>, i: nat)
    requires Payers(txs) && i < |txs|
    ensures var e, ss := Effects(r, b, txs)[i], ProcessTransactions(Dispatch(r), b, txs).1;
      (ss[i].Okay? ==> e == Happened(r, b, txs[i])) &&
      (e != Nothing ==> ss[i].Okay? && IsCall(txs[i]) && |txs[i].keys| >= 2 && ContractKey(txs[i]) in txs[i].keys)
  {
    hide ProcessTransactions; hide ContractIn; hide ApplyWitness;
    if ProcessTransactions(Dispatch(r), b, txs).1[i].Okay? {
      AcceptedAlone(Dispatch(r), b, txs, i);
    }
  }

  /**
   * A batch of any programs' transactions, each careful by itself, none listing a contract that an
   * earlier one has acted on: everything that happened was allowed, and every contract is still
   * backed.
   */
  lemma {:induction false} BatchKeepsEscrow(r: Registry, b: Bank, book: Book, paid: Payouts, txs: seq<Transaction>)
    requires GoodFormats(r.formats) && KeepsSlice(r.other) && ForgesNothing(r.formats, r.other)
    requires Payers(txs) && Inv(r.formats, b.accounts, book) && CarefulBatch(r, b, book, txs)
    ensures
      var es, after := Effects(r, b, txs), ProcessTransactions(Dispatch(r), b, txs).0.accounts;
      EnterAll(book, paid, txs, es, |txs|).Some? &&
      var (book', paid') := EnterAll(book, paid, txs, es, |txs|).value;
      Inv(r.formats, after, book') && (PaidOnce(book, paid) ==> PaidOnce(book', paid'))
  {
    hide ProcessTransactions; hide Dispatch; hide Effects; hide Careful; hide GoodFormats; hide KeepsSlice; hide ForgesNothing;
    hide Happened; hide PaidOnce; hide Allowed; hide Enter; hide Clean; hide Backed; hide EnterAll;
    var (b', ss) := ProcessTransactions(Dispatch(r), b, txs);
    var es := Effects(r, b, txs);
    forall i | 0 <= i < |txs|
      ensures es[i] != Nothing ==> ss[i].Okay? && ContractKey(txs[i]) in txs[i].keys
      ensures Allowed(book, ContractKey(txs[i]), es[i])
      ensures es[i].Settled? ==> PaysItsAmount(book, ContractKey(txs[i]), es[i])
    {
      EffectIsHappened(r, b, txs, i);
      TransactionKeepsEscrow(r, b, book, txs[i]);
      NothingIsAllowed(book, ContractKey(txs[i]), es[i]);
    }
    EntersEach(book, paid, txs, ss, es, |txs|);
    var book' := EnterAll(book, paid, txs, es, |txs|).value.0;
    DispatchKeepsSlice(r);
    BatchKeepsPositive(Dispatch(r), b, txs);
    forall k ensures Backed(r.formats, Get(b'.accounts, k), book', k) {
      KeyStaysBacked(r, b, book, paid, txs, k);
    }
  }

  lemma NothingIsAllowed(book: Book, k: Pubkey, e: Effect)
    ensures Allowed(book, k, Nothing)
    ensures Allowed(book, k, e) && e.Settled? ==> k in book
  {
  }

  ghost predicate CarefulBatch(r: Registry, b: Bank, book: Book, txs: seq<Transaction>)
    requires Payers(txs)
  {
    (forall i :: 0 <= i < |txs| ==> Careful(r, b, book, txs[i])) &&
    Clean(txs, ProcessTransactions(Dispatch(r), b, txs).1, Effects(r, b, txs))
  }

  lemma {:induction false} KeyStaysBacked(r: Registry, b: Bank, book: Book, paid: Payouts, txs: seq<Transaction>, k: Pubkey)
    requires GoodFormats(r.formats) && KeepsSlice(r.other) && ForgesNothing(r.formats, r.other)
    requires Payers(txs) && Inv(r.formats, b.accounts, book) && CarefulBatch(r, b, book, txs)
    requires var es := Effects(r, b, txs);
      EnterAll(book, paid, txs, es, |txs|).Some? &&
      var book' := EnterAll(book, paid, txs, es, |txs|).value.0;
      (forall i :: 0 <= i < |txs| && es[i] != Nothing ==>
        Allowed(book, ContractKey(txs[i]), es[i]) &&
        SameAt(book', Enter(book, ContractKey(txs[i]), txs[i].fee, es[i]), ContractKey(txs[i]))) &&
      (forall k :: Untold(txs, es, |txs|, k) ==> SameAt(book', book, k))
    ensures Backed(r.formats, Get(ProcessTransactions(Dispatch(r), b, txs).0.accounts, k),
      EnterAll(book, paid, txs, Effects(r, b, txs), |txs|).value.0, k)
  {
    hide ProcessTransactions; hide Dispatch; hide Effects; hide Careful; hide GoodFormats; hide KeepsSlice; hide ForgesNothing;
    hide Happened; hide Allowed; hide Enter; hide Backed; hide EnterAll; hide Get;
    var es, ss := Effects(r, b, txs), ProcessTransactions(Dispatch(r), b, txs).1;
    var book' := EnterAll(book, paid, txs, es, |txs|).value.0;
    DispatchKeepsSlice(r);
    BatchAccount(Dispatch(r), b, txs, k);
    forall i | 0 <= i < |txs| && es[i] != Nothing ensures ss[i].Okay? && ContractKey(txs[i]) in txs[i].keys {
      EffectIsHappened(r, b, txs, i);
    }
    match LastLister(txs, ss, k, |txs|)
    case None =>
      assert Untold(txs, es, |txs|, k);
      assert Backed(r.formats, Get(b.accounts, k), book, k);
      SameRecord(r.formats, Get(b.accounts, k), book, book', k);
    case Some(i) =>
      EffectIsHappened(r, b, txs, i);
      TransactionKeepsEscrow(r, b, book, txs[i]);
      var alone := Get(ProcessTransactions(Dispatch(r), b, [txs[i]]).0.accounts, k);
      var book1 := Enter(book, ContractKey(txs[i]), txs[i].fee, es[i]);
      assert Backed(r.formats, alone, book1, k);
      if es[i] == Nothing || ContractKey(txs[i]) != k {
        EnterElsewhere(book, ContractKey(txs[i]), txs[i].fee, es[i], k);
        assert Untold(txs, es, |txs|, k);
      }
      SameRecord(r.formats, alone, book1, book', k);
  }

  lemma EnterElsewhere(book: Book, k: Pubkey, fee: int, e: Effect, k': Pubkey)
    requires Allowed(book, k, e) && (e == Nothing || k != k')
    ensures SameAt(Enter(book, k, fee, e), book, k')
  {
  }

  // ---- Runs ------------------------------------------------------------------------------------------

  type Event = AtMostOnce.Event

  datatype Trail = Trail(bank: Bank, book: Book, payouts: Payouts)

  predicate AllPay(evs: seq<Event>) {
    forall i :: 0 <= i < |evs| && evs[i].Batch? ==> Payers(evs[i].txs)
  }

  /** One event: a batch of transactions, or an entry id registered between batches. */
  function Advance(r: Registry, s: Trail, ev: Event): Option<Trail>
    requires ev.Batch? ==> Payers(ev.txs)
  {
    match ev
    case NewId(id) => Some(s.(bank := Register(s.bank, id)))
    case Batch(txs) =>
      match EnterAll(s.book, s.payouts, txs, Effects(r, s.bank, txs), |txs|)
      case None => None
      case Some((book, payouts)) => Some(Trail(ProcessTransactions(Dispatch(r), s.bank, txs).0, book, payouts))
  }

  /** The bank, the book and the payouts after a run; None would mean the book forbade what happened. */
  function RunEscrow(r: Registry, b: Bank, evs: seq<Event>): Option<Trail>
    requires AllPay(evs)
  {
    if evs == [] then Some(Trail(b, map[], [])) else
    var n := |evs| - 1;
    match RunEscrow(r, b, evs[..n])
    case None => None
    case Some(s) => Advance(r, s, evs[n])
  }

  ghost predicate CarefulRun(r: Registry, b: Bank, evs: seq<Event>)
    requires AllPay(evs)
  {
    evs == [] ||
    var n := |evs| - 1;
    CarefulRun(r, b, evs[..n]) &&
    (RunEscrow(r, b, evs[..n]).Some? && evs[n].Batch? ==>
      CarefulBatch(r, RunEscrow(r, b, evs[..n]).value.bank, RunEscrow(r, b, evs[..n]).value.book, evs[n].txs))
  }

  /**
   * Escrow safety over any run of batches of all programs' transactions, with ids registered in
   * between, each batch careful, from a bank with no live contract: nothing the book forbids ever
   * happens (no second plan in an account, no step after payment); every pending contract is unpaid,
   * not already due, and holds more than it will pay; each contract pays at most once, exactly its
   * deposit less the fee.
   */
  lemma {:induction false} EscrowSafety(r: Registry, b: Bank, evs: seq<Event>)
    requires GoodFormats(r.formats) && KeepsSlice(r.other) && ForgesNothing(r.formats, r.other)
    requires AllPay(evs) && CarefulRun(r, b, evs) && Inv(r.formats, b.accounts, map[])
    ensures RunEscrow(r, b, evs).Some?
    ensures var s := RunEscrow(r, b, evs).value; Inv(r.formats, s.bank.accounts, s.book) && PaidOnce(s.book, s.payouts)
  {
    hide ProcessTransactions; hide Inv; hide Effects; hide GoodFormats; hide CarefulBatch; hide KeepsSlice;
    hide ForgesNothing; hide Dispatch; hide EnterAll; hide Register;
    if evs != [] {
      var n := |evs| - 1;
      EscrowSafety(r, b, evs[..n]);
      var s := RunEscrow(r, b, evs[..n]).value;
      match evs[n]
      case Batch(txs) => BatchKeepsEscrow(r, s.bank, s.book, s.payouts, txs);
      case NewId(id) => RegisterKeepsAccounts(s.bank, id);
    }
  }

  lemma RegisterKeepsAccounts(b: Bank, id: Hash)
    ensures Register(b, id).accounts == b.accounts
  {
  }

  /** And a payout was earned: the witnesses the plan asked for were all there, from the keys it named. */
  lemma {:induction false} PayoutsAreJustified(r: Registry, b: Bank, evs: seq<Event>, k: Pubkey)
    requires GoodFormats(r.formats) && KeepsSlice(r.other) && ForgesNothing(r.formats, r.other)
    requires AllPay(evs) && CarefulRun(r, b, evs) && Inv(r.formats, b.accounts, map[])
    requires RunEscrow(r, b, evs).Some? && k in RunEscrow(r, b, evs).value.book
    requires RunEscrow(r, b, evs).value.book[k].paid.Some?
    ensures var c := RunEscrow(r, b, evs).value.book[k]; Justified(c.original, c.history, c.paid.value)
  {
    hide RunEscrow; hide CarefulRun;
    EscrowSafety(r, b, evs);
    var s := RunEscrow(r, b, evs).value;
    assert Backed(r.formats, Get(s.bank.accounts, k), s.book, k);
    WitnessSoundness(s.book[k].original, s.book[k].history);
  }

  /** What can be read off a batch of calls: no later one lists an earlier one's contract. */
  predicate NoneListedLater(txs: seq<Transaction>) {
    forall i, j :: 0 <= i < j < |txs| && |txs[i].keys| >= 2 ==> txs[i].keys[1] !in txs[j].keys
  }

  predicate ProperCalls(f: Formats, txs: seq<Transaction>) {
    (forall i :: 0 <= i < |txs| ==> IsCall(txs[i]) && Proper(f, txs[i])) && NoneListedLater(txs)
  }

  /** Batches of contract calls alone need no looking up: their plans and keys decide. */
  lemma {:induction false} CallsAreCareful(r: Registry, b: Bank, evs: seq<Event>)
    requires AllPay(evs) && forall n :: 0 <= n < |evs| && evs[n].Batch? ==> ProperCalls(r.formats, evs[n].txs)
    ensures CarefulRun(r, b, evs)
  {
    hide RunEscrow; hide ProperCalls; hide CarefulBatch;
    if evs != [] {
      var n := |evs| - 1;
      CallsAreCareful(r, b, evs[..n]);
      if RunEscrow(r, b, evs[..n]).Some? && evs[n].Batch? {
        var s := RunEscrow(r, b, evs[..n]).value;
        CallBatchIsCareful(r, s.bank, s.book, evs[n].txs);
      }
    }
  }

  lemma CallBatchIsCareful(r: Registry, b: Bank, book: Book, txs: seq<Transaction>)
    requires Payers(txs) && ProperCalls(r.formats, txs)
    ensures CarefulBatch(r, b, book, txs)
  {
    hide ProcessTransactions; hide Effects; hide Proper;
    var es := Effects(r, b, txs);
    forall i, j | 0 <= i < j < |txs| && es[i] != Nothing ensures ContractKey(txs[i]) !in txs[j].keys {
      EffectIsHappened(r, b, txs, i);
    }
  }
}
