/** Fixed-width little-endian integers, as both the ledger files and blob headers store them. */
module LittleEndian {
  import opened Base

  function Pow256(k: nat): (p: nat)
    ensures p > 0
  {
    if k == 0 then 1 else 256 * Pow256(k - 1)
  }

  function ToLE(n: nat, k: nat): (b: seq<byte>)
    ensures |b| == k
  {
    if k == 0 then [] else [n % 256] + ToLE(n / 256, k - 1)
  }

  function FromLE(b: seq<byte>): nat {
    if b == [] then 0 else b[0] + 256 * FromLE(b[1..])
  }

  lemma {:induction false} FromToLE(n: nat, k: nat)
    requires n < Pow256(k)
    ensures FromLE(ToLE(n, k)) == n
  {
    if k > 0 {
      FromToLE(n / 256, k - 1);
      assert ToLE(n, k)[1..] == ToLE(n / 256, k - 1);
    }
  }

  /** Byte `i` is the digit of weight 256 to the `i`: the lowest comes first. */
  lemma {:induction false} ToLEDigit(n: nat, k: nat, i: nat)
    requires i < k
    ensures ToLE(n, k)[i] == (n / Pow256(i)) % 256
  {
    if i > 0 {
      ToLEDigit(n / 256, k - 1, i - 1);
      DivTwice(n, Pow256(i - 1));
    }
  }

  lemma DivTwice(n: nat, p: nat)
    requires p > 0
    ensures n / (256 * p) == n / 256 / p
  {
    var m := n / 256;
    var q := m / p;
    assert n == 256 * m + n % 256 && m == p * q + m % p;
    var rest := 256 * (m % p) + n % 256;
    assert n == (256 * p) * q + rest by {
      assert 256 * (p * q) == (256 * p) * q;
    }
    assert 0 <= rest < 256 * p;
    QuotientIs(n, 256 * p, q, rest);
  }

  lemma AtLeastOnce(d: nat, m: nat)
    requires m >= 1
    ensures d * m >= d
  {
  }

  lemma QuotientIs(n: nat, d: nat, q: nat, r: nat)
    requires d > 0 && r < d && n == d * q + r
    ensures n / d == q
  {
    var q' := n / d;
    assert n == d * q' + n % d;
    if q > q' {
      assert d * q == d * q' + d * (q - q');
      AtLeastOnce(d, q - q');
    } else if q < q' {
      assert d * q' == d * q + d * (q' - q);
      AtLeastOnce(d, q' - q);
    }
  }

  lemma {:induction false} ToFromLE(b: seq<byte>)
    ensures FromLE(b) < Pow256(|b|)
    ensures ToLE(FromLE(b), |b|) == b
  {
    if b != [] {
      ToFromLE(b[1..]);
      var n := FromLE(b);
      assert n % 256 == b[0] && n / 256 == FromLE(b[1..]);
    }
  }
}

/**
 * Serialisation formats. A codec writes a value with `enc` and reads one from the front of a byte
 * stream with `dec`, which also says how many bytes it used; whatever follows is left unread.
 */
module Codecs {
  import opened Base
  import opened LittleEndian

  datatype Codec<!T> = Codec(
    valid: T -> bool,
    enc: T -> seq<byte>,
    dec: seq<byte> -> Option<(T, nat)>)

  /** Reading back what was written, in front of anything, yields it and uses exactly its bytes. */
  ghost predicate ReadsBack<T(!new)>(c: Codec<T>) {
    forall e: T, rest: seq<byte> :: c.valid(e) ==> c.dec(c.enc(e) + rest) == Some((e, |c.enc(e)|))
  }

  /** Every value has one encoding: what was read is exactly what writing it again would give. */
  ghost predicate OneEncoding<T(!new)>(c: Codec<T>) {
    forall b: seq<byte> :: c.dec(b).Some? ==>
      var (e, n) := c.dec(b).value; c.valid(e) && n <= |b| && b[..n] == c.enc(e)
  }

  ghost predicate Canonical<T(!new)>(c: Codec<T>) {
    ReadsBack(c) && OneEncoding(c)
  }

  /** Reading yields only valid values, from bytes that are there; there may be several spellings of one. */
  ghost predicate Faithful<T(!new)>(c: Codec<T>) {
    ReadsBack(c) &&
    forall b: seq<byte> :: c.dec(b).Some? ==> var (e, n) := c.dec(b).value; c.valid(e) && n <= |b|
  }

  lemma ReadOne<T(!new)>(c: Codec<T>, e: T, rest: seq<byte>)
    requires Canonical(c) && c.valid(e)
    ensures c.dec(c.enc(e) + rest) == Some((e, |c.enc(e)|))
  {
  }

  lemma OneSpelling<T(!new)>(c: Codec<T>, b: seq<byte>)
    requires Canonical(c) && c.dec(b).Some?
    ensures var (e, n) := c.dec(b).value; c.valid(e) && n <= |b| && b[..n] == c.enc(e)
  {
  }

  /** The result of reading depends only on the bytes used. */
  lemma DecodeIsLocal<T(!new)>(c: Codec<T>, b: seq<byte>, b': seq<byte>)
    requires Canonical(c) && c.dec(b).Some?
    requires c.dec(b).value.1 <= |b'| && b'[..c.dec(b).value.1] == b[..c.dec(b).value.1]
    ensures c.dec(b') == c.dec(b)
  {
    var (e, n) := c.dec(b).value;
    assert b' == c.enc(e) + b'[n..];
  }

  lemma ReadablePrefixIsWhole<T(!new)>(c: Codec<T>, e: T, n: nat)
    requires Canonical(c) && c.valid(e) && n <= |c.enc(e)|
    requires c.dec(c.enc(e)[..n]).Some?
    ensures n == |c.enc(e)|
  {
    var whole := c.enc(e);
    DecodeIsLocal(c, whole[..n], whole);
    assert whole == c.enc(e) + [];
    assert c.dec(c.enc(e) + []) == Some((e, |whole|));
  }

  /** A torn write is always noticed: no strict prefix of an encoding can be read. */
  lemma StrictPrefixNeverDecodes<T(!new)>(c: Codec<T>, e: T, n: nat)
    requires Canonical(c) && c.valid(e) && n < |c.enc(e)|
    ensures c.dec(c.enc(e)[..n]) == None
  {
    if c.dec(c.enc(e)[..n]).Some? {
      ReadablePrefixIsWhole(c, e, n);
    }
  }

  // ---- Building blocks -------------------------------------------------------------------------

  function U64(): Codec<nat> {
    Codec(
      n => n < Pow256(8),
      n => ToLE(n, 8),
      (b: seq<byte>) => if |b| < 8 then None else Some((FromLE(b[..8]), 8)))
  }

  lemma U64Canonical()
    ensures Canonical(U64())
  {
    forall n: nat, rest: seq<byte> | U64().valid(n)
      ensures U64().dec(U64().enc(n) + rest) == Some((n, |U64().enc(n)|))
    {
      FromToLE(n, 8);
      assert (ToLE(n, 8) + rest)[..8] == ToLE(n, 8);
    }
    forall b: seq<byte> | U64().dec(b).Some?
      ensures var (e, n) := U64().dec(b).value; U64().valid(e) && n <= |b| && b[..n] == U64().enc(e)
    {
      ToFromLE(b[..8]);
    }
  }

  const U64_LIMIT: nat := 0x1_0000_0000_0000_0000

  lemma EightBytes()
    ensures Pow256(8) == U64_LIMIT
  {
    assert Pow256(4) == 0x1_0000_0000;
  }

  /** Two's complement, 64 bits. */
  function ToTwos(i: int): nat {
    i % U64_LIMIT
  }

  function FromTwos(n: nat): int {
    if n < U64_LIMIT / 2 then n else n - U64_LIMIT
  }

  predicate FitsI64(i: int) {
    -(U64_LIMIT / 2) <= i < U64_LIMIT / 2
  }

  function I64Dec(b: seq<byte>): Option<(int, nat)> {
    if |b| < 8 then None else Some((FromTwos(FromLE(b[..8])), 8))
  }

  function I64(): Codec<int> {
    Codec(FitsI64, i => ToLE(ToTwos(i), 8), I64Dec)
  }

  lemma I64ReadsBack(i: int, rest: seq<byte>)
    requires FitsI64(i)
    ensures I64Dec(ToLE(ToTwos(i), 8) + rest) == Some((i, 8))
  {
    EightBytes();
    var n := ToTwos(i);
    FromToLE(n, 8);
    assert (ToLE(n, 8) + rest)[..8] == ToLE(n, 8);
  }

  lemma I64OneEncoding(b: seq<byte>)
    requires |b| >= 8
    ensures var i := FromTwos(FromLE(b[..8])); FitsI64(i) && ToLE(ToTwos(i), 8) == b[..8]
  {
    EightBytes();
    ToFromLE(b[..8]);
    var n := FromLE(b[..8]);
    assert ToTwos(FromTwos(n)) == n;
  }

  lemma I64Canonical()
    ensures Canonical(I64())
  {
    forall i: int, rest: seq<byte> | I64().valid(i)
      ensures I64().dec(I64().enc(i) + rest) == Some((i, |I64().enc(i)|))
    {
      I64ReadsBack(i, rest);
    }
    forall b: seq<byte> | I64().dec(b).Some?
      ensures var (e, n) := I64().dec(b).value; I64().valid(e) && n <= |b| && b[..n] == I64().enc(e)
    {
      I64OneEncoding(b);
    }
  }

  function Fixed(n: nat): Codec<seq<byte>> {
    Codec(
      (s: seq<byte>) => |s| == n,
      (s: seq<byte>) => s,
      (b: seq<byte>) => if |b| < n then None else Some((b[..n], n)))
  }

  lemma FixedCanonical(n: nat)
    ensures Canonical(Fixed(n))
  {
    forall e: seq<byte>, rest: seq<byte> | Fixed(n).valid(e)
      ensures Fixed(n).dec(Fixed(n).enc(e) + rest) == Some((e, |Fixed(n).enc(e)|))
    {
      assert (e + rest)[..n] == e;
    }
  }

  function Octet(): Codec<byte> {
    Codec(b => true, (b: byte) => [b], (b: seq<byte>) => if b == [] then None else Some((b[0], 1)))
  }

  lemma OctetCanonical()
    ensures Canonical(Octet())
  {
  }

  function PairDec<A, B>(a: Codec<A>, b: Codec<B>, bs: seq<byte>): Option<((A, B), nat)> {
    match a.dec(bs)
    case None => None
    case Some((x, n)) =>
      if n > |bs| then None else
      match b.dec(bs[n..])
      case None => None
      case Some((y, m)) => Some(((x, y), n + m))
  }

  function Pair<A, B>(a: Codec<A>, b: Codec<B>): Codec<(A, B)> {
    Codec(
      (p: (A, B)) => a.valid(p.0) && b.valid(p.1),
      (p: (A, B)) => a.enc(p.0) + b.enc(p.1),
      bs => PairDec(a, b, bs))
  }

  lemma PairReadsBack<A(!new), B(!new)>(a: Codec<A>, b: Codec<B>, p: (A, B), rest: seq<byte>)
    requires Canonical(a) && Canonical(b) && Pair(a, b).valid(p)
    ensures Pair(a, b).dec(Pair(a, b).enc(p) + rest) == Some((p, |Pair(a, b).enc(p)|))
  {
    hide Canonical;
    var x, y := a.enc(p.0), b.enc(p.1);
    AppendDrop(x, y, rest);
    ReadOne(a, p.0, y + rest);
    ReadOne(b, p.1, rest);
    assert p == (p.0, p.1);
  }

  lemma PairOneEncoding<A(!new), B(!new)>(a: Codec<A>, b: Codec<B>, bs: seq<byte>)
    requires Canonical(a) && Canonical(b) && Pair(a, b).dec(bs).Some?
    ensures var (e, n) := Pair(a, b).dec(bs).value;
      Pair(a, b).valid(e) && n <= |bs| && bs[..n] == Pair(a, b).enc(e)
  {
    hide Canonical;
    OneSpelling(a, bs);
    var (x, n) := a.dec(bs).value;
    OneSpelling(b, bs[n..]);
    var (y, m) := b.dec(bs[n..]).value;
    assert bs[..n + m] == bs[..n] + bs[n..][..m];
  }

  lemma PairCanonical<A(!new), B(!new)>(a: Codec<A>, b: Codec<B>)
    requires Canonical(a) && Canonical(b)
    ensures Canonical(Pair(a, b))
  {
    forall p: (A, B), rest: seq<byte> | Pair(a, b).valid(p)
      ensures Pair(a, b).dec(Pair(a, b).enc(p) + rest) == Some((p, |Pair(a, b).enc(p)|))
    {
      PairReadsBack(a, b, p, rest);
    }
    forall bs: seq<byte> | Pair(a, b).dec(bs).Some?
      ensures var (e, n) := Pair(a, b).dec(bs).value;
        Pair(a, b).valid(e) && n <= |bs| && bs[..n] == Pair(a, b).enc(e)
    {
      PairOneEncoding(a, b, bs);
    }
  }

  function Iso<A, B>(c: Codec<A>, to: A -> B, from: B -> A): Codec<B> {
    Codec(
      (y: B) => c.valid(from(y)),
      (y: B) => c.enc(from(y)),
      (bs: seq<byte>) =>
        match c.dec(bs)
        case None => None
        case Some((x, n)) => Some((to(x), n)))
  }

  lemma IsoCanonical<A(!new), B(!new)>(c: Codec<A>, to: A -> B, from: B -> A)
    requires Canonical(c)
    requires forall x: A :: from(to(x)) == x
    requires forall y: B :: to(from(y)) == y
    ensures Canonical(Iso(c, to, from))
  {
    var d := Iso(c, to, from);
    forall y: B, rest: seq<byte> | d.valid(y)
      ensures d.dec(d.enc(y) + rest) == Some((y, |d.enc(y)|))
    {
      assert c.dec(c.enc(from(y)) + rest) == Some((from(y), |c.enc(from(y))|));
    }
    forall bs: seq<byte> | d.dec(bs).Some?
      ensures var (e, n) := d.dec(bs).value; d.valid(e) && n <= |bs| && bs[..n] == d.enc(e)
    {
      var (x, n) := c.dec(bs).value;
      assert from(to(x)) == x;
    }
  }

  // ---- Counted lists ---------------------------------------------------------------------------

  function EncAll<T>(c: Codec<T>, xs: seq<T>): seq<byte> {
    if xs == [] then [] else c.enc(xs[0]) + EncAll(c, xs[1..])
  }

  function DecAll<T>(c: Codec<T>, n: nat, bs: seq<byte>): (r: Option<(seq<T>, nat)>) {
    if n == 0 then Some(([], 0)) else
    match c.dec(bs)
    case None => None
    case Some((x, k)) =>
      if k > |bs| then None else
      match DecAll(c, n - 1, bs[k..])
      case None => None
      case Some((xs, m)) => Some(([x] + xs, k + m))
  }

  lemma AppendDrop<T>(h: seq<T>, t: seq<T>, rest: seq<T>)
    ensures h + t + rest == h + (t + rest) && (h + t + rest)[|h|..] == t + rest
  {
  }

  lemma {:induction false} DecAllReadsBack<T(!new)>(c: Codec<T>, xs: seq<T>, rest: seq<byte>)
    requires Canonical(c) && forall x :: x in xs ==> c.valid(x)
    ensures DecAll(c, |xs|, EncAll(c, xs) + rest) == Some((xs, |EncAll(c, xs)|))
  {
    hide Canonical;
    if xs != [] {
      var h, t := c.enc(xs[0]), EncAll(c, xs[1..]);
      var bs := EncAll(c, xs) + rest;
      DecAllReadsBack(c, xs[1..], rest);
      assert EncAll(c, xs) == h + t;
      AppendDrop(h, t, rest);
      ReadOne(c, xs[0], t + rest);
      assert DecAll(c, |xs| - 1, bs[|h|..]) == Some((xs[1..], |t|));
      assert DecAll(c, |xs|, bs) == Some(([xs[0]] + xs[1..], |h| + |t|));
      assert xs == [xs[0]] + xs[1..];
    }
  }

  lemma {:induction false} DecAllOneEncoding<T(!new)>(c: Codec<T>, n: nat, bs: seq<byte>)
    requires Canonical(c) && DecAll(c, n, bs).Some?
    ensures
      var (xs, m) := DecAll(c, n, bs).value;
      |xs| == n && m <= |bs| && bs[..m] == EncAll(c, xs) && forall x :: x in xs ==> c.valid(x)
  {
    hide Canonical;
    if n > 0 {
      OneSpelling(c, bs);
      var (x, k) := c.dec(bs).value;
      DecAllOneEncoding(c, n - 1, bs[k..]);
      var (xs, m) := DecAll(c, n - 1, bs[k..]).value;
      assert bs[..k + m] == bs[..k] + bs[k..][..m];
      assert ([x] + xs)[1..] == xs;
    }
  }

  function ListDec<T>(c: Codec<T>, bs: seq<byte>): Option<(seq<T>, nat)> {
    if |bs| < 8 then None else
    match DecAll(c, FromLE(bs[..8]), bs[8..])
    case None => None
    case Some((xs, m)) => Some((xs, 8 + m))
  }

  function List<T>(c: Codec<T>): Codec<seq<T>> {
    Codec(
      (xs: seq<T>) => |xs| < Pow256(8) && forall i :: 0 <= i < |xs| ==> c.valid(xs[i]),
      (xs: seq<T>) => ToLE(|xs|, 8) + EncAll(c, xs),
      bs => ListDec(c, bs))
  }

  lemma ListReadsBack<T(!new)>(c: Codec<T>, xs: seq<T>, rest: seq<byte>)
    requires Canonical(c) && List(c).valid(xs)
    ensures List(c).dec(List(c).enc(xs) + rest) == Some((xs, |List(c).enc(xs)|))
  {
    hide Canonical; hide Pow256; hide ToLE; hide FromLE; hide DecAll;
    var count, body := ToLE(|xs|, 8), EncAll(c, xs);
    var bs := count + body + rest;
    FromToLE(|xs|, 8);
    assert bs[..8] == count;
    assert bs[8..] == body + rest;
    assert forall x :: x in xs ==> c.valid(x);
    DecAllReadsBack(c, xs, rest);
    assert ListDec(c, bs) == Some((xs, 8 + |body|));
  }

  lemma ListOneEncoding<T(!new)>(c: Codec<T>, bs: seq<byte>)
    requires Canonical(c) && List(c).dec(bs).Some?
    ensures
      var (xs, n) := List(c).dec(bs).value;
      List(c).valid(xs) && n <= |bs| && bs[..n] == List(c).enc(xs)
  {
    hide Canonical; hide Pow256; hide ToLE; hide FromLE; hide DecAll;
    var n := FromLE(bs[..8]);
    ToFromLE(bs[..8]);
    DecAllOneEncoding(c, n, bs[8..]);
    var (xs, m) := DecAll(c, n, bs[8..]).value;
    assert bs[..8 + m] == bs[..8] + bs[8..][..m];
  }

  lemma ListCanonical<T(!new)>(c: Codec<T>)
    requires Canonical(c)
    ensures Canonical(List(c))
  {
    forall xs: seq<T>, rest: seq<byte> | List(c).valid(xs)
      ensures List(c).dec(List(c).enc(xs) + rest) == Some((xs, |List(c).enc(xs)|))
    {
      ListReadsBack(c, xs, rest);
    }
    forall bs: seq<byte> | List(c).dec(bs).Some?
      ensures var (e, n) := List(c).dec(bs).value; List(c).valid(e) && n <= |bs| && bs[..n] == List(c).enc(e)
    {
      ListOneEncoding(c, bs);
    }
  }
}

/** The byte layout of an entry, field by field, in the order the structures declare them. */
module EntryFormat {
  import opened Base
  import opened LittleEndian
  import opened Codecs

  function HashCodec(): Codec<Hash> {
    Iso(Fixed(32), (s: seq<byte>) => Hash(s), (h: Hash) => h.bytes)
  }

  function PubkeyCodec(): Codec<Pubkey> {
    Iso(Fixed(32), (s: seq<byte>) => Pubkey(s), (k: Pubkey) => k.bytes)
  }

  function SignatureCodec(): Codec<Signature> {
    Iso(Fixed(64), (s: seq<byte>) => Signature(s), (g: Signature) => g.bytes)
  }

  type TxFields = (Signature, (seq<Pubkey>, (Pubkey, (Hash, (int, seq<byte>)))))

  function TxFieldsCodec(): Codec<TxFields> {
    Pair(SignatureCodec(),
      Pair(List(PubkeyCodec()), Pair(PubkeyCodec(), Pair(HashCodec(), Pair(I64(), List(Octet()))))))
  }

  function TxOf(f: TxFields): Transaction {
    Transaction(f.0, f.1.0, f.1.1.0, f.1.1.1.0, f.1.1.1.1.0, f.1.1.1.1.1)
  }

  function FieldsOfTx(t: Transaction): TxFields {
    (t.signature, (t.keys, (t.programId, (t.lastId, (t.fee, t.userdata)))))
  }

  function TxCodec(): Codec<Transaction> {
    Iso(TxFieldsCodec(), TxOf, FieldsOfTx)
  }

  type EntryFields = (nat, (Hash, seq<Transaction>))

  function EntryOf(f: EntryFields): Entry { Entry(f.0, f.1.0, f.1.1) }

  function FieldsOfEntry(e: Entry): EntryFields { (e.numHashes, (e.id, e.transactions)) }

  function EntryCodec(): Codec<Entry> {
    Iso(Pair(U64(), Pair(HashCodec(), List(TxCodec()))), EntryOf, FieldsOfEntry)
  }

  lemma TxCanonical()
    ensures Canonical(TxCodec())
  {
    FixedCanonical(32);
    FixedCanonical(64);
    IsoCanonical(Fixed(32), (s: seq<byte>) => Hash(s), (h: Hash) => h.bytes);
    IsoCanonical(Fixed(32), (s: seq<byte>) => Pubkey(s), (k: Pubkey) => k.bytes);
    IsoCanonical(Fixed(64), (s: seq<byte>) => Signature(s), (g: Signature) => g.bytes);
    ListCanonical(PubkeyCodec());
    OctetCanonical();
    ListCanonical(Octet());
    I64Canonical();
    PairCanonical(I64(), List(Octet()));
    PairCanonical(HashCodec(), Pair(I64(), List(Octet())));
    PairCanonical(PubkeyCodec(), Pair(HashCodec(), Pair(I64(), List(Octet()))));
    PairCanonical(List(PubkeyCodec()), Pair(PubkeyCodec(), Pair(HashCodec(), Pair(I64(), List(Octet())))));
    PairCanonical(SignatureCodec(),
      Pair(List(PubkeyCodec()), Pair(PubkeyCodec(), Pair(HashCodec(), Pair(I64(), List(Octet()))))));
    IsoCanonical(TxFieldsCodec(), TxOf, FieldsOfTx);
  }

  /** The ledger's entry format reads back what it wrote and has no second spelling of any entry. */
  lemma EntryCanonical()
    ensures Canonical(EntryCodec())
  {
    TxCanonical();
    FixedCanonical(32);
    IsoCanonical(Fixed(32), (s: seq<byte>) => Hash(s), (h: Hash) => h.bytes);
    U64Canonical();
    ListCanonical(TxCodec());
    PairCanonical(HashCodec(), List(TxCodec()));
    PairCanonical(U64(), Pair(HashCodec(), List(TxCodec())));
    IsoCanonical(Pair(U64(), Pair(HashCodec(), List(TxCodec()))), EntryOf, FieldsOfEntry);
  }

  // ---- Sizes -----------------------------------------------------------------------------------

  function TxSize(t: Transaction): nat {
    64 + 8 + 32 * |t.keys| + 32 + 32 + 8 + 8 + |t.userdata|
  }

  function TxsSize(txs: seq<Transaction>): nat {
    if txs == [] then 0 else TxsSize(txs[..|txs| - 1]) + TxSize(txs[|txs| - 1])
  }

  /** `serialized_size` of an entry: count, id and list length, then the transactions. */
  function SerializedSize(e: Entry): nat {
    8 + 32 + 8 + TxsSize(e.transactions)
  }

  ghost predicate Sized<T(!new)>(c: Codec<T>, size: T -> nat) {
    forall e: T :: c.valid(e) ==> |c.enc(e)| == size(e)
  }

  lemma PairSized<A(!new), B(!new)>(a: Codec<A>, sa: A -> nat, b: Codec<B>, sb: B -> nat, s: ((A, B)) -> nat)
    requires Sized(a, sa) && Sized(b, sb)
    requires forall p: (A, B) :: s(p) == sa(p.0) + sb(p.1)
    ensures Sized(Pair(a, b), s)
  {
  }

  lemma IsoSized<A(!new), B(!new)>(c: Codec<A>, sc: A -> nat, to: A -> B, from: B -> A, s: B -> nat)
    requires Sized(c, sc) && forall y: B :: s(y) == sc(from(y))
    ensures Sized(Iso(c, to, from), s)
  {
  }

  lemma {:induction false} EncAllSize<T>(c: Codec<T>, xs: seq<T>, n: nat)
    requires forall x :: x in xs ==> |c.enc(x)| == n
    ensures |EncAll(c, xs)| == n * |xs|
  {
    if xs != [] {
      EncAllSize(c, xs[1..], n);
    }
  }

  lemma ListSized<T(!new)>(c: Codec<T>, sc: T -> nat, n: nat, s: seq<T> -> nat)
    requires Sized(c, sc) && forall x: T :: sc(x) == n
    requires forall xs: seq<T> :: s(xs) == 8 + n * |xs|
    ensures Sized(List(c), s)
  {
    forall xs: seq<T> | List(c).valid(xs) ensures |List(c).enc(xs)| == s(xs) {
      assert forall x :: x in xs ==> c.valid(x);
      EncAllSize(c, xs, n);
    }
  }

  function HashSize(h: Hash): nat { 32 }
  function KeySize(k: Pubkey): nat { 32 }
  function SignatureSize(g: Signature): nat { 64 }
  function OctetSize(b: byte): nat { 1 }
  function IntSize(i: int): nat { 8 }
  function CountSize(n: nat): nat { 8 }
  function KeysSize(keys: seq<Pubkey>): nat { 8 + 32 * |keys| }
  function DataSize(data: seq<byte>): nat { 8 + |data| }
  function PayloadSize(p: (int, seq<byte>)): nat { 8 + DataSize(p.1) }
  function DatedSize(p: (Hash, (int, seq<byte>))): nat { 32 + PayloadSize(p.1) }
  function CallSize(p: (Pubkey, (Hash, (int, seq<byte>)))): nat { 32 + DatedSize(p.1) }
  function SignedSize(p: (seq<Pubkey>, (Pubkey, (Hash, (int, seq<byte>))))): nat { KeysSize(p.0) + CallSize(p.1) }
  function TxFieldsSize(f: TxFields): nat { 64 + SignedSize(f.1) }

  lemma IdentifiersSized()
    ensures Sized(HashCodec(), HashSize) && Sized(PubkeyCodec(), KeySize) && Sized(SignatureCodec(), SignatureSize)
  {
  }

  lemma CallSized()
    ensures Sized(Pair(PubkeyCodec(), Pair(HashCodec(), Pair(I64(), List(Octet())))), CallSize)
  {
    IdentifiersSized();
    ListSized(Octet(), OctetSize, 1, DataSize);
    PairSized(I64(), IntSize, List(Octet()), DataSize, PayloadSize);
    PairSized(HashCodec(), HashSize, Pair(I64(), List(Octet())), PayloadSize, DatedSize);
    PairSized(PubkeyCodec(), KeySize, Pair(HashCodec(), Pair(I64(), List(Octet()))), DatedSize, CallSize);
  }

  lemma TxFieldsSized()
    ensures Sized(TxFieldsCodec(), TxFieldsSize)
  {
    IdentifiersSized();
    CallSized();
    var call := Pair(PubkeyCodec(), Pair(HashCodec(), Pair(I64(), List(Octet()))));
    ListSized(PubkeyCodec(), KeySize, 32, KeysSize);
    PairSized(List(PubkeyCodec()), KeysSize, call, CallSize, SignedSize);
    PairSized(SignatureCodec(), SignatureSize, Pair(List(PubkeyCodec()), call), SignedSize, TxFieldsSize);
  }

  lemma TxSized()
    ensures Sized(TxCodec(), TxSize)
  {
    TxFieldsSized();
    IsoSized(TxFieldsCodec(), TxFieldsSize, TxOf, FieldsOfTx, TxSize);
  }

  lemma {:induction false} TxsSizeIsEncodedLength(c: Codec<Transaction>, txs: seq<Transaction>)
    requires Sized(c, TxSize) && forall t :: t in txs ==> c.valid(t)
    ensures |EncAll(c, txs)| == TxsSize(txs)
  {
    if txs != [] {
      TxsSizeIsEncodedLength(c, txs[1..]);
      TxsSizeCons(txs);
      assert txs[0] in txs;
    }
  }

  lemma {:induction false} TxsSizeCons(txs: seq<Transaction>)
    requires txs != []
    ensures TxsSize(txs) == TxSize(txs[0]) + TxsSize(txs[1..])
  {
    if |txs| > 1 {
      var last := |txs| - 1;
      TxsSizeCons(txs[..last]);
      assert txs[..last][1..] == txs[1..][..last - 1];
      assert txs[1..][last - 1] == txs[last];
    }
  }

  function BlockSize(txs: seq<Transaction>): nat { 8 + TxsSize(txs) }
  function StampedSize(p: (Hash, seq<Transaction>)): nat { 32 + BlockSize(p.1) }
  function EntryFieldsSize(f: EntryFields): nat { 8 + StampedSize(f.1) }

  lemma TxListSized(c: Codec<Transaction>)
    requires Sized(c, TxSize)
    ensures Sized(List(c), BlockSize)
  {
    forall txs: seq<Transaction> | List(c).valid(txs) ensures |List(c).enc(txs)| == BlockSize(txs) {
      assert forall t :: t in txs ==> c.valid(t);
      TxsSizeIsEncodedLength(c, txs);
    }
  }

  // ---- The bytes themselves ----------------------------------------------------------------------------

  function Keys(keys: seq<Pubkey>): seq<byte> {
    if keys == [] then [] else keys[0].bytes + Keys(keys[1..])
  }

  /** A signed amount is written as its 64-bit two's complement. */
  function Amount(i: int): nat
    requires FitsI64(i)
  {
    if i < 0 then i + U64_LIMIT else i
  }

  lemma {:induction false} KeysAre(keys: seq<Pubkey>)
    ensures EncAll(PubkeyCodec(), keys) == Keys(keys)
  {
    if keys != [] {
      KeysAre(keys[1..]);
    }
  }

  lemma {:induction false} OctetsAre(bs: seq<byte>)
    ensures EncAll(Octet(), bs) == bs
  {
    if bs != [] {
      OctetsAre(bs[1..]);
      assert [bs[0]] + bs[1..] == bs;
    }
  }

  lemma PairEnc<A, B>(a: Codec<A>, b: Codec<B>, p: (A, B))
    ensures Pair(a, b).enc(p) == a.enc(p.0) + b.enc(p.1)
  {
  }

  lemma {:induction false} ListEnc<T>(c: Codec<T>, xs: seq<T>)
    ensures List(c).enc(xs) == ToLE(|xs|, 8) + EncAll(c, xs)
  {
  }

  lemma ScalarsEnc(g: Signature, k: Pubkey, h: Hash, i: int)
    requires FitsI64(i)
    ensures SignatureCodec().enc(g) == g.bytes && PubkeyCodec().enc(k) == k.bytes && HashCodec().enc(h) == h.bytes
    ensures I64().enc(i) == ToLE(Amount(i), 8)
  {
    assert ToTwos(i) == Amount(i);
  }

  /** A transaction on the wire: signature, keys, program, last id, fee, userdata, lists with their lengths before them. */
  lemma TxLayout(t: Transaction)
    requires FitsI64(t.fee)
    ensures TxCodec().enc(t) ==
      t.signature.bytes + (ToLE(|t.keys|, 8) + Keys(t.keys) + (t.programId.bytes + (t.lastId.bytes +
      (ToLE(Amount(t.fee), 8) + (ToLE(|t.userdata|, 8) + t.userdata)))))
  {
    var f := FieldsOfTx(t);
    assert TxCodec().enc(t) == TxFieldsCodec().enc(f);
    hide ToLE; hide TxCodec; hide Pair; hide List; hide I64; hide PubkeyCodec; hide HashCodec; hide SignatureCodec;
    hide Octet; hide EncAll;
    var payload, keys := Pair(I64(), List(Octet())), List(PubkeyCodec());
    var dated := Pair(HashCodec(), payload);
    var call := Pair(PubkeyCodec(), dated);
    PairEnc(SignatureCodec(), Pair(keys, call), f);
    PairEnc(keys, call, f.1);
    PairEnc(PubkeyCodec(), dated, f.1.1);
    PairEnc(HashCodec(), payload, f.1.1.1);
    PairEnc(I64(), List(Octet()), f.1.1.1.1);
    ListEnc(PubkeyCodec(), t.keys);
    ListEnc(Octet(), t.userdata);
    ScalarsEnc(t.signature, t.programId, t.lastId, t.fee);
    KeysAre(t.keys);
    OctetsAre(t.userdata);
  }

  function Frames(txs: seq<Transaction>): seq<byte> {
    if txs == [] then [] else TxCodec().enc(txs[0]) + Frames(txs[1..])
  }

  lemma {:induction false} FramesAre(txs: seq<Transaction>)
    ensures EncAll(TxCodec(), txs) == Frames(txs)
  {
    hide TxCodec;
    if txs != [] {
      FramesAre(txs[1..]);
    }
  }

  /** An entry on the wire: hash count, id, number of transactions, transactions. */
  lemma EntryLayout(e: Entry)
    ensures EntryCodec().enc(e) == ToLE(e.numHashes, 8) + (e.id.bytes + (ToLE(|e.transactions|, 8) + Frames(e.transactions)))
  {
    var f := FieldsOfEntry(e);
    var block := List(TxCodec());
    assert EntryCodec().enc(e) == Pair(U64(), Pair(HashCodec(), block)).enc(f);
    assert U64().enc(f.0) == ToLE(e.numHashes, 8) && HashCodec().enc(f.1.0) == e.id.bytes;
    hide ToLE; hide TxCodec; hide Pair; hide List; hide U64; hide HashCodec; hide EncAll;
    PairEnc(U64(), Pair(HashCodec(), block), f);
    PairEnc(HashCodec(), block, f.1);
    ListEnc(TxCodec(), e.transactions);
    FramesAre(e.transactions);
  }

  /** The size the packer computes is the number of bytes the entry really takes. */
  lemma EntrySized()
    ensures Sized(EntryCodec(), SerializedSize)
  {
    TxSized();
    IdentifiersSized();
    TxListSized(TxCodec());
    PairSized(HashCodec(), HashSize, List(TxCodec()), BlockSize, StampedSize);
    PairSized(U64(), CountSize, Pair(HashCodec(), List(TxCodec())), StampedSize, EntryFieldsSize);
    IsoSized(Pair(U64(), Pair(HashCodec(), List(TxCodec()))), EntryFieldsSize, EntryOf, FieldsOfEntry, SerializedSize);
  }
}
