/**
 * One concrete layout for contract states and instructions that meets what the contract program
 * asks of a format. It covers every plan whose numbers and keys fit their fields, and a date may be
 * spelled with either of two zone marks, as text dates may.
 */
module ContractFormat {
  import opened Base
  import opened LittleEndian
  import opened Codecs
  import opened EntryFormat
  import opened FinPlans
  import opened FinPlanProgram

  // ---- Formats with several spellings --------------------------------------------------------------

  datatype Either<+A, +B> = Left(left: A) | Right(right: B)

  function SumDec<A, B>(a: Codec<A>, b: Codec<B>, bs: seq<byte>): Option<(Either<A, B>, nat)> {
    if bs == [] then None
    else if bs[0] == 0 then
      match a.dec(bs[1..])
      case None => None
      case Some((x, n)) => Some((Left(x), n + 1))
    else if bs[0] == 1 then
      match b.dec(bs[1..])
      case None => None
      case Some((y, n)) => Some((Right(y), n + 1))
    else None
  }

  function SumEnc<A, B>(a: Codec<A>, b: Codec<B>, e: Either<A, B>): seq<byte> {
    match e case Left(x) => [0] + a.enc(x) case Right(y) => [1] + b.enc(y)
  }

  function SumValid<A, B>(a: Codec<A>, b: Codec<B>, e: Either<A, B>): bool {
    match e case Left(x) => a.valid(x) case Right(y) => b.valid(y)
  }

  /** A tag octet, then one of the two. */
  function Sum<A, B>(a: Codec<A>, b: Codec<B>): Codec<Either<A, B>> {
    Codec(e => SumValid(a, b, e), e => SumEnc(a, b, e), bs => SumDec(a, b, bs))
  }

  lemma SumFaithful<A(!new), B(!new)>(a: Codec<A>, b: Codec<B>)
    requires Faithful(a) && Faithful(b)
    ensures Faithful(Sum(a, b))
  {
    var c := Sum(a, b);
    forall e: Either<A, B>, rest: seq<byte> | c.valid(e)
      ensures c.dec(c.enc(e) + rest) == Some((e, |c.enc(e)|))
    {
      match e
      case Left(x) => assert ([0] + a.enc(x) + rest)[1..] == a.enc(x) + rest;
      case Right(y) => assert ([1] + b.enc(y) + rest)[1..] == b.enc(y) + rest;
    }
    forall bs: seq<byte> | c.dec(bs).Some? ensures var (e, n) := c.dec(bs).value; c.valid(e) && n <= |bs| {
      assert SumDec(a, b, bs).Some?;
    }
  }

  lemma PairFaithful<A(!new), B(!new)>(a: Codec<A>, b: Codec<B>)
    requires Faithful(a) && Faithful(b)
    ensures Faithful(Pair(a, b))
  {
    var c := Pair(a, b);
    forall p: (A, B), rest: seq<byte> | c.valid(p)
      ensures c.dec(c.enc(p) + rest) == Some((p, |c.enc(p)|))
    {
      AppendDrop(a.enc(p.0), b.enc(p.1), rest);
      assert a.dec(a.enc(p.0) + (b.enc(p.1) + rest)) == Some((p.0, |a.enc(p.0)|));
      assert b.dec(b.enc(p.1) + rest) == Some((p.1, |b.enc(p.1)|));
    }
    forall bs: seq<byte> | c.dec(bs).Some? ensures var (e, n) := c.dec(bs).value; c.valid(e) && n <= |bs| {
      assert PairDec(a, b, bs).Some?;
    }
  }

  lemma IsoFaithful<A(!new), B(!new)>(c: Codec<A>, to: A -> B, from: B -> A)
    requires Faithful(c)
    requires forall x: A :: from(to(x)) == x
    requires forall y: B :: to(from(y)) == y
    ensures Faithful(Iso(c, to, from))
  {
    var d := Iso(c, to, from);
    forall y: B, rest: seq<byte> | d.valid(y) ensures d.dec(d.enc(y) + rest) == Some((y, |d.enc(y)|)) {
      assert c.dec(c.enc(from(y)) + rest) == Some((from(y), |c.enc(from(y))|));
    }
    forall bs: seq<byte> | d.dec(bs).Some? ensures var (e, n) := d.dec(bs).value; d.valid(e) && n <= |bs| {
      assert c.dec(bs).Some?;
    }
  }

  lemma CanonicalIsFaithful<T(!new)>(c: Codec<T>)
    requires Canonical(c)
    ensures Faithful(c)
  {
  }

  /** No encoding is longer than `n`. */
  ghost predicate Within<T(!new)>(c: Codec<T>, n: nat) {
    forall e: T :: c.valid(e) ==> |c.enc(e)| <= n
  }

  lemma SumWithin<A(!new), B(!new)>(a: Codec<A>, b: Codec<B>, n: nat)
    requires Within(a, n) && Within(b, n)
    ensures Within(Sum(a, b), n + 1)
  {
  }

  lemma PairWithin<A(!new), B(!new)>(a: Codec<A>, b: Codec<B>, n: nat, m: nat)
    requires Within(a, n) && Within(b, m)
    ensures Within(Pair(a, b), n + m)
  {
    forall p: (A, B) | Pair(a, b).valid(p) ensures |Pair(a, b).enc(p)| <= n + m {
      assert |a.enc(p.0)| <= n && |b.enc(p.1)| <= m;
    }
  }

  lemma IsoWithin<A(!new), B(!new)>(c: Codec<A>, to: A -> B, from: B -> A, n: nat)
    requires Within(c, n)
    ensures Within(Iso(c, to, from), n)
  {
  }

  // ---- Dates, conditions, payments -----------------------------------------------------------------

  function DateDec(bs: seq<byte>): Option<(int, nat)> {
    if |bs| < 9 || bs[8] > 1 then None else
    match I64Dec(bs) case None => None case Some((dt, _)) => Some((dt, 9))
  }

  /** An instant and a zone mark: written with mark 0, read with mark 0 or 1. */
  function Date(): Codec<int> {
    Codec(FitsI64, i => ToLE(ToTwos(i), 8) + [0], DateDec)
  }

  lemma DateFaithful()
    ensures Faithful(Date()) && Within(Date(), 9)
  {
    forall i: int, rest: seq<byte> | Date().valid(i)
      ensures Date().dec(Date().enc(i) + rest) == Some((i, |Date().enc(i)|))
    {
      I64ReadsBack(i, [0] + rest);
      assert ToLE(ToTwos(i), 8) + [0] + rest == ToLE(ToTwos(i), 8) + ([0] + rest);
    }
    forall bs: seq<byte> | Date().dec(bs).Some?
      ensures var (e, n) := Date().dec(bs).value; Date().valid(e) && n <= |bs|
    {
      I64OneEncoding(bs);
    }
  }

  function PaymentCodec(): Codec<Payment> {
    Iso(Pair(I64(), PubkeyCodec()), (p: (int, Pubkey)) => Payment(p.0, p.1), (x: Payment) => (x.tokens, x.to))
  }

  function ConditionTo(e: Either<(int, Pubkey), Pubkey>): Condition {
    match e case Left(p) => AtTime(p.0, p.1) case Right(k) => SignedBy(k)
  }

  function ConditionFrom(c: Condition): Either<(int, Pubkey), Pubkey> {
    match c case AtTime(dt, k) => Left((dt, k)) case SignedBy(k) => Right(k)
  }

  function ConditionCodec(): Codec<Condition> {
    Iso(Sum(Pair(Date(), PubkeyCodec()), PubkeyCodec()), ConditionTo, ConditionFrom)
  }

  lemma KeyFaithful()
    ensures Faithful(PubkeyCodec()) && Within(PubkeyCodec(), 32)
  {
    FixedCanonical(32);
    IsoCanonical(Fixed(32), (s: seq<byte>) => Pubkey(s), (k: Pubkey) => k.bytes);
    CanonicalIsFaithful(PubkeyCodec());
  }

  lemma NumberFaithful()
    ensures Faithful(I64()) && Within(I64(), 8)
  {
    I64Canonical();
    CanonicalIsFaithful(I64());
  }

  lemma PaymentFaithful()
    ensures Faithful(PaymentCodec()) && Within(PaymentCodec(), 40)
  {
    hide Faithful; hide Within; hide I64; hide PubkeyCodec; hide Pair; hide Iso;
    NumberFaithful();
    KeyFaithful();
    PairFaithful(I64(), PubkeyCodec());
    PairWithin(I64(), PubkeyCodec(), 8, 32);
    IsoFaithful(Pair(I64(), PubkeyCodec()), (p: (int, Pubkey)) => Payment(p.0, p.1), (x: Payment) => (x.tokens, x.to));
    IsoWithin(Pair(I64(), PubkeyCodec()), (p: (int, Pubkey)) => Payment(p.0, p.1), (x: Payment) => (x.tokens, x.to), 40);
  }

  lemma ConditionFaithful()
    ensures Faithful(ConditionCodec()) && Within(ConditionCodec(), 42)
  {
    hide Faithful; hide Within; hide Date; hide PubkeyCodec; hide Pair; hide Iso; hide Sum;
    DateFaithful();
    KeyFaithful();
    PairFaithful(Date(), PubkeyCodec());
    PairWithin(Date(), PubkeyCodec(), 9, 32);
    SumFaithful(Pair(Date(), PubkeyCodec()), PubkeyCodec());
    Wider(PubkeyCodec(), 32, 41);
    SumWithin(Pair(Date(), PubkeyCodec()), PubkeyCodec(), 41);
    IsoFaithful(Sum(Pair(Date(), PubkeyCodec()), PubkeyCodec()), ConditionTo, ConditionFrom);
    IsoWithin(Sum(Pair(Date(), PubkeyCodec()), PubkeyCodec()), ConditionTo, ConditionFrom, 42);
  }

  lemma Wider<T(!new)>(c: Codec<T>, n: nat, m: nat)
    requires Within(c, n) && n <= m
    ensures Within(c, m)
  {
  }

  // ---- Plans and states ----------------------------------------------------------------------------

  type One = (Condition, Payment)
  type Two = (Condition, One)
  type PlanFields = Either<Either<Payment, One>, Either<(One, One), Two>>

  function OneCodec(): Codec<One> { Pair(ConditionCodec(), PaymentCodec()) }
  function TwoCodec(): Codec<Two> { Pair(ConditionCodec(), OneCodec()) }

  function PlanTo(e: PlanFields): FinPlan {
    match e
    case Left(Left(x)) => Pay(x)
    case Left(Right(o)) => After(o.0, o.1)
    case Right(Left(p)) => Or(p.0.0, p.0.1, p.1.0, p.1.1)
    case Right(Right(t)) => And(t.0, t.1.0, t.1.1)
  }

  function PlanFrom(p: FinPlan): PlanFields {
    match p
    case Pay(x) => Left(Left(x))
    case After(c, x) => Left(Right((c, x)))
    case Or(c0, x0, c1, x1) => Right(Left(((c0, x0), (c1, x1))))
    case And(c0, c1, x) => Right(Right((c0, (c1, x))))
  }

  function PlanFieldsCodec(): Codec<PlanFields> {
    Sum(Sum(PaymentCodec(), OneCodec()), Sum(Pair(OneCodec(), OneCodec()), TwoCodec()))
  }

  function PlanCodec(): Codec<FinPlan> {
    Iso(PlanFieldsCodec(), PlanTo, PlanFrom)
  }

  lemma PlanFaithful()
    ensures Faithful(PlanCodec()) && Within(PlanCodec(), 166)
  {
    hide Faithful; hide Within; hide ConditionCodec; hide PaymentCodec; hide Pair; hide Iso; hide Sum;
    PaymentFaithful();
    ConditionFaithful();
    PairFaithful(ConditionCodec(), PaymentCodec());
    PairWithin(ConditionCodec(), PaymentCodec(), 42, 40);
    PairFaithful(ConditionCodec(), OneCodec());
    PairWithin(ConditionCodec(), OneCodec(), 42, 82);
    PairFaithful(OneCodec(), OneCodec());
    PairWithin(OneCodec(), OneCodec(), 82, 82);
    SumFaithful(PaymentCodec(), OneCodec());
    Wider(PaymentCodec(), 40, 82);
    SumWithin(PaymentCodec(), OneCodec(), 82);
    SumFaithful(Pair(OneCodec(), OneCodec()), TwoCodec());
    Wider(TwoCodec(), 124, 164);
    SumWithin(Pair(OneCodec(), OneCodec()), TwoCodec(), 164);
    SumFaithful(Sum(PaymentCodec(), OneCodec()), Sum(Pair(OneCodec(), OneCodec()), TwoCodec()));
    Wider(Sum(PaymentCodec(), OneCodec()), 83, 165);
    SumWithin(Sum(PaymentCodec(), OneCodec()), Sum(Pair(OneCodec(), OneCodec()), TwoCodec()), 165);
    IsoFaithful(PlanFieldsCodec(), PlanTo, PlanFrom);
    IsoWithin(PlanFieldsCodec(), PlanTo, PlanFrom, 166);
  }

  datatype Nil = Nil

  function Unit(): Codec<Nil> {
    Codec(_ => true, _ => [], _ => Some((Nil, 0)))
  }

  type StateFields = (Either<Nil, Nil>, Either<Nil, FinPlan>)

  function StateTo(e: StateFields): FinPlanState {
    FinPlanState(e.0.Right?, match e.1 case Left(_) => None case Right(p) => Some(p))
  }

  function StateFrom(s: FinPlanState): StateFields {
    (if s.initialized then Right(Nil) else Left(Nil), match s.pending case None => Left(Nil) case Some(p) => Right(p))
  }

  function StateFieldsCodec(): Codec<StateFields> {
    Pair(Sum(Unit(), Unit()), Sum(Unit(), PlanCodec()))
  }

  function StateCodec(): Codec<FinPlanState> {
    Iso(StateFieldsCodec(), StateTo, StateFrom)
  }

  lemma UnitFaithful()
    ensures Faithful(Unit()) && Within(Unit(), 0)
  {
    forall e: Nil, rest: seq<byte> ensures Unit().dec(Unit().enc(e) + rest) == Some((e, |Unit().enc(e)|)) {
      OnlyNil(e);
    }
  }

  lemma OnlyNil(e: Nil)
    ensures e == Nil
  {
    match e case Nil =>
  }

  lemma StateFaithful()
    ensures Faithful(StateCodec()) && Within(StateCodec(), 168)
  {
    hide Faithful; hide Within; hide PlanCodec; hide Unit; hide Pair; hide Iso; hide Sum;
    UnitFaithful();
    PlanFaithful();
    SumFaithful(Unit(), Unit());
    SumWithin(Unit(), Unit(), 0);
    SumFaithful(Unit(), PlanCodec());
    Wider(Unit(), 0, 166);
    SumWithin(Unit(), PlanCodec(), 166);
    PairFaithful(Sum(Unit(), Unit()), Sum(Unit(), PlanCodec()));
    PairWithin(Sum(Unit(), Unit()), Sum(Unit(), PlanCodec()), 1, 167);
    StatesMatch();
    IsoFaithful(StateFieldsCodec(), StateTo, StateFrom);
    IsoWithin(StateFieldsCodec(), StateTo, StateFrom, 168);
  }

  lemma StatesMatch()
    ensures forall x: StateFields :: StateFrom(StateTo(x)) == x
    ensures forall y: FinPlanState :: StateTo(StateFrom(y)) == y
  {
    forall x: StateFields ensures StateFrom(StateTo(x)) == x {
      assert x == (x.0, x.1);
      OnlyNil(if x.0.Left? then x.0.left else x.0.right);
      OnlyNil(if x.1.Left? then x.1.left else Nil);
    }
  }

  // ---- The instance --------------------------------------------------------------------------------

  predicate PaymentFits(x: Payment) { FitsI64(x.tokens) && |x.to.bytes| == 32 }
  predicate ConditionFits(c: Condition) { |c.key.bytes| == 32 && (c.AtTime? ==> FitsI64(c.dt)) }

  /** Every number and key of the plan fits its field. */
  predicate PlanFits(p: FinPlan) {
    match p
    case Pay(x) => PaymentFits(x)
    case After(c, x) => ConditionFits(c) && PaymentFits(x)
    case Or(c0, x0, c1, x1) => ConditionFits(c0) && PaymentFits(x0) && ConditionFits(c1) && PaymentFits(x1)
    case And(c0, c1, x) => ConditionFits(c0) && ConditionFits(c1) && PaymentFits(x)
  }

  function ReadInstruction(b: seq<byte>): Option<Instruction> {
    if b == [] then None
    else if b[0] == 0 then
      match Pair(I64(), PlanCodec()).dec(b[1..]) case None => None case Some((p, _)) => Some(NewContract(p.0, p.1))
    else if b[0] == 1 then
      match Date().dec(b[1..]) case None => None case Some((dt, _)) => Some(ApplyTimestamp(dt))
    else if b[0] == 2 then Some(ApplySignature)
    else None
  }

  function Layout(): Formats {
    Formats(StateCodec(), ReadInstruction)
  }

  lemma PaymentValid(x: Payment)
    ensures PaymentCodec().valid(x) <==> PaymentFits(x)
  {
  }

  lemma KeyValid(k: Pubkey)
    ensures PubkeyCodec().valid(k) <==> |k.bytes| == 32
  {
  }

  lemma ConditionValid(c: Condition)
    ensures ConditionCodec().valid(c) <==> ConditionFits(c)
  {
    hide PubkeyCodec;
    KeyValid(c.key);
    var timed := Pair(Date(), PubkeyCodec());
    assert ConditionCodec().valid(c) == SumValid(timed, PubkeyCodec(), ConditionFrom(c));
  }

  lemma OneValid(c: Condition, x: Payment)
    ensures OneCodec().valid((c, x)) <==> ConditionFits(c) && PaymentFits(x)
  {
    hide ConditionCodec; hide PaymentCodec;
    ConditionValid(c);
    PaymentValid(x);
  }

  lemma PlanValid(p: FinPlan)
    ensures PlanCodec().valid(p) <==> PlanFits(p)
  {
    hide ConditionCodec; hide PaymentCodec; hide OneCodec; hide TwoCodec;
    var left, right := Sum(PaymentCodec(), OneCodec()), Sum(Pair(OneCodec(), OneCodec()), TwoCodec());
    assert PlanCodec().valid(p) == SumValid(left, right, PlanFrom(p));
    match p
    case Pay(x) => PaymentValid(x);
    case After(c, x) => OneValid(c, x);
    case Or(c0, x0, c1, x1) => OneValid(c0, x0); OneValid(c1, x1);
    case And(c0, c1, x) => TwoValid(c0, c1, x);
  }

  lemma TwoValid(c0: Condition, c1: Condition, x: Payment)
    ensures TwoCodec().valid((c0, (c1, x))) <==> ConditionFits(c0) && ConditionFits(c1) && PaymentFits(x)
  {
    hide ConditionCodec; hide OneCodec;
    ConditionValid(c0);
    OneValid(c1, x);
  }

  lemma StateValid(s: FinPlanState)
    ensures StateCodec().valid(s) <==> (s.pending.Some? ==> PlanFits(s.pending.value))
    ensures |StateCodec().enc(s)| >= 2
  {
    hide PlanCodec;
    var flag, plan := Sum(Unit(), Unit()), Sum(Unit(), PlanCodec());
    var f := StateFrom(s);
    assert StateCodec().valid(s) == (SumValid(Unit(), Unit(), f.0) && SumValid(Unit(), PlanCodec(), f.1));
    assert StateCodec().enc(s) == SumEnc(Unit(), Unit(), f.0) + SumEnc(Unit(), PlanCodec(), f.1);
    if s.pending.Some? {
      PlanValid(s.pending.value);
    }
  }

  lemma ReductionFits(p: FinPlan, w: Witness, from: Pubkey)
    requires PlanFits(p)
    ensures PlanFits(ApplyWitness(p, w, from))
  {
  }

  lemma InstructionPlansFit(b: seq<byte>)
    requires ReadInstruction(b).Some? && ReadInstruction(b).value.NewContract?
    ensures PlanFits(ReadInstruction(b).value.plan)
  {
    hide PlanCodec;
    PlanFaithful();
    var n := I64Dec(b[1..]).value.1;
    assert PlanCodec().dec(b[1..][n..]).Some?;
    PlanValid(ReadInstruction(b).value.plan);
  }

  /** The layout meets every demand, for all plans that fit their fields. */
  lemma LayoutIsGood()
    ensures GoodFormats(Layout())
  {
    hide StateCodec; hide ReadInstruction; hide Pow256;
    StateFaithful();
    SmallFrame();
    forall s: FinPlanState | Layout().state.valid(s) ensures 2 <= |Layout().state.enc(s)| < Pow256(8) {
      StateValid(s);
    }
    forall b: seq<byte> | Layout().instruction(b).Some? && Layout().instruction(b).value.NewContract?
      ensures Layout().state.valid(FinPlanState(true, Some(Layout().instruction(b).value.plan)))
    {
      InstructionPlansFit(b);
      StateValid(FinPlanState(true, Some(Layout().instruction(b).value.plan)));
    }
    forall p: FinPlan, w: Witness, from: Pubkey | Layout().state.valid(FinPlanState(true, Some(p)))
      ensures Layout().state.valid(FinPlanState(true, Some(ApplyWitness(p, w, from))))
    {
      StateValid(FinPlanState(true, Some(p)));
      ReductionFits(p, w, from);
      StateValid(FinPlanState(true, Some(ApplyWitness(p, w, from))));
    }
    StateValid(FinPlanState(true, None));
  }

  lemma SmallFrame()
    ensures 168 < Pow256(8)
  {
    assert Pow256(3) == 0x100_0000;
  }

  /** And it does not have one spelling only: a date with the other zone mark reads as the same date. */
  lemma DatesHaveTwoSpellings(dt: int)
    requires FitsI64(dt)
    ensures
      var z, offset := ToLE(ToTwos(dt), 8) + [0], ToLE(ToTwos(dt), 8) + [1];
      z != offset && Date().dec(z) == Date().dec(offset) == Some((dt, 9))
  {
    var bs := ToLE(ToTwos(dt), 8);
    I64ReadsBack(dt, [0]);
    I64ReadsBack(dt, [1]);
    assert (bs + [0])[8] == 0 && (bs + [1])[8] == 1;
  }
}
