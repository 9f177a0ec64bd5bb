/**
 * The on-disk ledger: a data file of length-prefixed entries beside an index file holding one
 * 8-byte offset per entry. Everything is stated for any canonical entry codec `c`.
 */
module LedgerFiles {
  import opened Base
  import opened LittleEndian
  import opened Codecs

  const SIZEOF_U64: nat := 8

  // ---- Reading ---------------------------------------------------------------------------------

  function U64At(index: seq<byte>, at: nat): Option<nat> {
    if at + SIZEOF_U64 > |index| then None else Some(FromLE(index[at..at + SIZEOF_U64]))
  }

  /**
   * Reads the length at `at`, then one entry from at most that many of the bytes that follow.
   * The second component is how many bytes the entry used; the length itself is only a limit.
   */
  function EntryAt<E>(c: Codec<E>, data: seq<byte>, at: nat): Option<(E, nat)> {
    if at + SIZEOF_U64 > |data| then None else
    var len := FromLE(data[at..at + SIZEOF_U64]);
    var body := data[at + SIZEOF_U64..];
    c.dec(if len < |body| then body[..len] else body)
  }

  /** `LedgerWindow::get_entry`: through the index. */
  function GetEntry<E>(c: Codec<E>, index: seq<byte>, data: seq<byte>, i: nat): Option<E> {
    match U64At(index, i * SIZEOF_U64)
    case None => None
    case Some(offset) =>
      match EntryAt(c, data, offset)
      case None => None
      case Some((e, _)) => Some(e)
  }

  /** What reading the data file from `pos` to the first failure sees. */
  datatype Scan<+E> = Scan(entries: seq<E>, offsets: seq<nat>, end: nat)

  function ScanFrom<E>(c: Codec<E>, data: seq<byte>, pos: nat): (s: Scan<E>)
    requires pos <= |data|
    ensures |s.entries| == |s.offsets| && pos <= s.end <= |data|
    ensures forall i :: 0 <= i < |s.offsets| ==> pos <= s.offsets[i] < |data|
    decreases |data| - pos
  {
    match EntryAt(c, data, pos)
    case None => Scan([], [], pos)
    case Some((e, n)) =>
      if pos + SIZEOF_U64 + n > |data| then Scan([], [], pos) else
      var rest := ScanFrom(c, data, pos + SIZEOF_U64 + n);
      Scan([e] + rest.entries, [pos] + rest.offsets, rest.end)
  }

  lemma EntryAtStaysInside<E(!new)>(c: Codec<E>, data: seq<byte>, at: nat)
    requires Canonical(c) && EntryAt(c, data, at).Some?
    ensures
      var (e, n) := EntryAt(c, data, at).value;
      c.valid(e) && at + SIZEOF_U64 + n <= |data| && n == |c.enc(e)|
  {
    var len := FromLE(data[at..at + SIZEOF_U64]);
    var body := data[at + SIZEOF_U64..];
    var limited := if len < |body| then body[..len] else body;
    var (e, n) := c.dec(limited).value;
    assert limited[..n] == c.enc(e);
  }

  lemma ScanStep<E(!new)>(c: Codec<E>, data: seq<byte>, pos: nat)
    requires Canonical(c) && pos <= |data|
    ensures EntryAt(c, data, pos).None? ==> ScanFrom(c, data, pos) == Scan([], [], pos)
    ensures EntryAt(c, data, pos).Some? ==>
      var (e, n) := EntryAt(c, data, pos).value;
      var next := pos + SIZEOF_U64 + n;
      next <= |data| && n == |c.enc(e)| &&
      var rest := ScanFrom(c, data, next);
      ScanFrom(c, data, pos) == Scan([e] + rest.entries, [pos] + rest.offsets, rest.end)
  {
    if EntryAt(c, data, pos).Some? {
      EntryAtStaysInside(c, data, pos);
    }
  }

  // ---- The index file --------------------------------------------------------------------------

  function EncodeOffsets(os: seq<nat>): (b: seq<byte>)
    ensures |b| == SIZEOF_U64 * |os|
  {
    if os == [] then [] else ToLE(os[0], 8) + EncodeOffsets(os[1..])
  }

  lemma {:induction false} OffsetReadsBack(os: seq<nat>, i: nat)
    requires i < |os| && os[i] < Pow256(8)
    ensures U64At(EncodeOffsets(os), i * SIZEOF_U64) == Some(os[i])
  {
    var b := EncodeOffsets(os);
    if i == 0 {
      assert b[0..8] == ToLE(os[0], 8);
      FromToLE(os[0], 8);
    } else {
      OffsetReadsBack(os[1..], i - 1);
      var t := EncodeOffsets(os[1..]);
      assert b[8..] == t;
      assert b[i * 8..i * 8 + 8] == t[(i - 1) * 8..(i - 1) * 8 + 8];
    }
  }

  lemma {:induction false} EncodeOffsetsConcat(xs: seq<nat>, ys: seq<nat>)
    ensures EncodeOffsets(xs + ys) == EncodeOffsets(xs) + EncodeOffsets(ys)
  {
    if xs == [] {
      assert xs + ys == ys;
    } else {
      EncodeOffsetsConcat(xs[1..], ys);
      assert (xs + ys)[1..] == xs[1..] + ys && (xs + ys)[0] == xs[0];
      var h, a, b := ToLE(xs[0], 8), EncodeOffsets(xs[1..]), EncodeOffsets(ys);
      assert EncodeOffsets(xs + ys) == h + EncodeOffsets(xs[1..] + ys);
      assert h + (a + b) == (h + a) + b;
    }
  }

  // ---- The verifier ----------------------------------------------------------------------------

  /** From `at` on, the index lists exactly where a reader starting at `pos` finds entries, to the end. */
  ghost predicate Agrees<E>(c: Codec<E>, index: seq<byte>, at: nat, data: seq<byte>, pos: nat) {
    at <= |index| && pos <= |data| &&
    index[at..] == EncodeOffsets(ScanFrom(c, data, pos).offsets) && ScanFrom(c, data, pos).end == |data|
  }

  ghost predicate Sound<E>(c: Codec<E>, index: seq<byte>, data: seq<byte>) {
    Agrees(c, index, 0, data, 0)
  }

  lemma WordAt(index: seq<byte>, at: nat)
    requires at + SIZEOF_U64 <= |index|
    ensures U64At(index, at).Some?
    ensures index[at..] == ToLE(U64At(index, at).value, 8) + index[at + SIZEOF_U64..]
  {
    hide Pow256; hide ToLE; hide FromLE;
    ToFromLE(index[at..at + 8]);
    assert index[at..] == index[at..at + 8] + index[at + 8..];
  }

  lemma {:induction false} SameWord(n: nat, m: nat, xs: seq<byte>, ys: seq<byte>)
    requires n < Pow256(8) && m < Pow256(8)
    ensures ToLE(n, 8) + xs == ToLE(m, 8) + ys <==> n == m && xs == ys
  {
    hide Pow256; hide ToLE; hide FromLE;
    FromToLE(n, 8);
    FromToLE(m, 8);
    assert (ToLE(n, 8) + xs)[..8] == ToLE(n, 8) && (ToLE(m, 8) + ys)[..8] == ToLE(m, 8);
    assert (ToLE(n, 8) + xs)[8..] == xs && (ToLE(m, 8) + ys)[8..] == ys;
  }

  lemma WordBound(index: seq<byte>, at: nat)
    requires at + SIZEOF_U64 <= |index|
    ensures U64At(index, at).value < Pow256(8)
  {
    ToFromLE(index[at..at + 8]);
  }

  lemma AgreesStep<E(!new)>(c: Codec<E>, index: seq<byte>, at: nat, data: seq<byte>, pos: nat)
    requires Canonical(c) && |data| < Pow256(8)
    requires at + SIZEOF_U64 <= |index| && pos <= |data|
    ensures U64At(index, at).Some?
    ensures Agrees(c, index, at, data, pos) ==> U64At(index, at) == Some(pos) && EntryAt(c, data, pos).Some?
    ensures U64At(index, at) == Some(pos) && EntryAt(c, data, pos).Some? ==>
      var (e, n) := EntryAt(c, data, pos).value;
      n == |c.enc(e)| && pos + SIZEOF_U64 + n <= |data| &&
      (Agrees(c, index, at, data, pos) <==> Agrees(c, index, at + SIZEOF_U64, data, pos + SIZEOF_U64 + n))
  {
    hide EntryAt; hide ScanFrom; hide Pow256; hide ToLE; hide U64At; hide Canonical;
    ScanStep(c, data, pos);
    WordAt(index, at);
    WordBound(index, at);
    var word := U64At(index, at).value;
    if EntryAt(c, data, pos).Some? {
      var os := ScanFrom(c, data, pos).offsets;
      SameWord(word, pos, index[at + 8..], EncodeOffsets(os[1..]));
    }
  }

  /**
   * `verify_ledger`. It accepts exactly when the index is the list of places at which a sequential
   * reader finds entries and that reader reaches the end of the data file.
   */
  method VerifyLedger<E(!new)>(c: Codec<E>, index: seq<byte>, data: seq<byte>) returns (ok: bool)
    requires Canonical(c) && |data| < Pow256(8)
    ensures ok <==> Sound(c, index, data)
  {
    hide Agrees; hide EntryAt; hide U64At; hide Pow256;
    var indexLen := |index|;
    assert Sound(c, index, data) <==> Agrees(c, index, 0, data, 0);
    if indexLen % SIZEOF_U64 != 0 {
      if Agrees(c, index, 0, data, 0) {
        AgreesMeansWholeWords(c, index, data);
      }
      return false;
    }
    var lastDataOffset: nat, indexOffset: nat, dataRead: nat, lastLen: nat := 0, 0, 0, 0;
    while indexOffset < indexLen
      invariant indexOffset <= indexLen && indexOffset % SIZEOF_U64 == 0
      invariant lastDataOffset + lastLen == dataRead <= |data|
      invariant Sound(c, index, data) <==> Agrees(c, index, indexOffset, data, dataRead)
    {
      AgreesStep(c, index, indexOffset, data, dataRead);
      var dataOffset := U64At(index, indexOffset).value;
      if lastDataOffset + lastLen != dataOffset {
        return false;
      }
      match EntryAt(c, data, dataOffset) {
        case None => return false;
        case Some((e, n)) =>
          lastLen := |c.enc(e)| + SIZEOF_U64;
      }
      lastDataOffset := dataOffset;
      dataRead := dataRead + lastLen;
      indexOffset := indexOffset + SIZEOF_U64;
    }
    ok := dataRead == |data|;
    EndOfIndex(c, index, data, dataRead);
  }

  lemma AgreesMeansWholeWords<E>(c: Codec<E>, index: seq<byte>, data: seq<byte>)
    requires Agrees(c, index, 0, data, 0)
    ensures |index| % SIZEOF_U64 == 0
  {
    assert index[0..] == index;
  }

  lemma EndOfIndex<E(!new)>(c: Codec<E>, index: seq<byte>, data: seq<byte>, pos: nat)
    requires Canonical(c) && pos <= |data|
    ensures Agrees(c, index, |index|, data, pos) <==> pos == |data|
  {
    var s := ScanFrom(c, data, pos);
    assert index[|index|..] == [];
    if s.offsets == [] && EntryAt(c, data, pos).Some? {
      EntryAtStaysInside(c, data, pos);
    }
  }

  lemma {:induction false} ScanEntryIsIndexed<E(!new)>(c: Codec<E>, data: seq<byte>, pos: nat, i: nat)
    requires pos <= |data| && i < |ScanFrom(c, data, pos).entries|
    ensures
      var s := ScanFrom(c, data, pos);
      EntryAt(c, data, s.offsets[i]).Some? && EntryAt(c, data, s.offsets[i]).value.0 == s.entries[i]
    decreases i
  {
    if i > 0 {
      ScanEntryIsIndexed(c, data, pos + SIZEOF_U64 + EntryAt(c, data, pos).value.1, i - 1);
    }
  }

  /**
   * Verifier soundness: on accepted files, whatever bytes they hold, random access and the
   * sequential reader agree entry for entry, and both know the same number of entries.
   */
  lemma {:induction false} VerifiedIndexMatchesReader<E(!new)>(c: Codec<E>, index: seq<byte>, data: seq<byte>, i: nat)
    requires |data| < Pow256(8) && Sound(c, index, data)
    ensures var es := ScanFrom(c, data, 0).entries;
      |index| == SIZEOF_U64 * |es| &&
      GetEntry(c, index, data, i) == if i < |es| then Some(es[i]) else None
  {
    var s := ScanFrom(c, data, 0);
    assert index == index[0..];
    if i < |s.entries| {
      OffsetReadsBack(s.offsets, i);
      ScanEntryIsIndexed(c, data, 0, i);
    }
  }

  // ---- The writer ------------------------------------------------------------------------------

  function Frame<E>(c: Codec<E>, e: E): seq<byte> {
    ToLE(|c.enc(e)|, 8) + c.enc(e)
  }

  function DataOf<E>(c: Codec<E>, es: seq<E>): seq<byte> {
    if es == [] then [] else DataOf(c, es[..|es| - 1]) + Frame(c, es[|es| - 1])
  }

  function OffsetsOf<E>(c: Codec<E>, es: seq<E>): (os: seq<nat>)
    ensures |os| == |es|
  {
    if es == [] then [] else OffsetsOf(c, es[..|es| - 1]) + [|DataOf(c, es[..|es| - 1])|]
  }

  function IndexOf<E>(c: Codec<E>, es: seq<E>): seq<byte> {
    EncodeOffsets(OffsetsOf(c, es))
  }

  ghost predicate Writable<E>(c: Codec<E>, es: seq<E>) {
    (forall e :: e in es ==> c.valid(e)) && |DataOf(c, es)| < Pow256(8)
  }

  lemma {:induction false} DataOfPrefix<E>(c: Codec<E>, es: seq<E>, k: nat)
    requires k <= |es|
    ensures |DataOf(c, es[..k])| <= |DataOf(c, es)| && DataOf(c, es)[..|DataOf(c, es[..k])|] == DataOf(c, es[..k])
    ensures OffsetsOf(c, es)[..k] == OffsetsOf(c, es[..k])
  {
    if k < |es| {
      var init := es[..|es| - 1];
      DataOfPrefix(c, init, k);
      assert init[..k] == es[..k];
      assert OffsetsOf(c, es)[..k] == OffsetsOf(c, init)[..k];
      assert DataOf(c, es)[..|DataOf(c, init)|] == DataOf(c, init);
    } else {
      assert es[..k] == es;
    }
  }

  lemma WritablePrefix<E>(c: Codec<E>, es: seq<E>, k: nat)
    requires k <= |es| && Writable(c, es)
    ensures Writable(c, es[..k])
  {
    DataOfPrefix(c, es, k);
  }

  lemma {:induction false} WritableSize<E>(c: Codec<E>, es: seq<E>)
    requires Writable(c, es)
    ensures |DataOf(c, es)| < Pow256(8)
  {
  }

  lemma IndexOfPrefix<E>(c: Codec<E>, es: seq<E>, k: nat)
    requires k <= |es|
    ensures IndexOf(c, es)[..SIZEOF_U64 * k] == IndexOf(c, es[..k])
  {
    DataOfPrefix(c, es, k);
    var os := OffsetsOf(c, es);
    assert os == os[..k] + os[k..];
    EncodeOffsetsConcat(os[..k], os[k..]);
  }

  /** Entry `j` of a written data file starts at offset `j` of its index and fills one frame. */
  lemma {:induction false} FrameInData<E>(c: Codec<E>, es: seq<E>, j: nat)
    requires j < |es|
    ensures
      var at := |DataOf(c, es[..j])|;
      var end := |DataOf(c, es[..j + 1])|;
      OffsetsOf(c, es)[j] == at && end == at + |Frame(c, es[j])| <= |DataOf(c, es)| &&
      DataOf(c, es)[at..end] == Frame(c, es[j])
  {
    var pre := es[..j + 1];
    assert pre[..|pre| - 1] == es[..j];
    DataOfPrefix(c, es, j + 1);
    var at, end := |DataOf(c, es[..j])|, |DataOf(c, pre)|;
    assert DataOf(c, es)[at..end] == DataOf(c, es)[..end][at..];
    assert OffsetsOf(c, es)[j] == OffsetsOf(c, es)[..j + 1][j];
  }

  /** A whole frame reads back, whatever follows it. */
  lemma WholeFrameReads<E(!new)>(c: Codec<E>, data: seq<byte>, at: nat, e: E)
    requires Canonical(c) && c.valid(e) && |c.enc(e)| < Pow256(8)
    requires at + |Frame(c, e)| <= |data| && data[at..at + |Frame(c, e)|] == Frame(c, e)
    ensures EntryAt(c, data, at) == Some((e, |c.enc(e)|))
  {
    var len := |c.enc(e)|;
    var frame := data[at..at + 8 + len];
    Slices(data, at, at + 8 + len, 8);
    FromToLE(len, 8);
    var body := data[at + 8..];
    assert body[..len] == data[at + 8..at + 8 + len] == c.enc(e);
    assert c.enc(e) == c.enc(e) + [];
    assert |body| == len ==> body == body[..len];
  }

  /** A frame cut short, even inside its length, does not. */
  lemma TornFrameFails<E(!new)>(c: Codec<E>, data: seq<byte>, at: nat, e: E)
    requires Canonical(c) && c.valid(e) && |c.enc(e)| < Pow256(8)
    requires |data| < at + |Frame(c, e)|
    requires at <= |data| ==> data[at..] == Frame(c, e)[..|data| - at]
    ensures EntryAt(c, data, at) == None
  {
    if at + 8 <= |data| {
      hide ToLE; hide FromLE; hide Canonical; hide Pow256;
      var len := |c.enc(e)|;
      TornPieces(ToLE(len, 8), c.enc(e), data, at);
      FromToLE(len, 8);
      StrictPrefixNeverDecodes(c, e, |data| - at - 8);
    }
  }

  lemma TornPieces<T>(head: seq<T>, body: seq<T>, data: seq<T>, at: nat)
    requires at + |head| <= |data| <= at + |head| + |body| && data[at..] == (head + body)[..|data| - at]
    ensures data[at..at + |head|] == head && data[at + |head|..] == body[..|data| - at - |head|]
  {
    var n := |head|;
    assert data[at..][..n] == data[at..at + n] && data[at..][n..] == data[at + n..];
    assert (head + body)[..|data| - at][..n] == head;
    assert (head + body)[..|data| - at][n..] == body[..|data| - at - n];
  }

  lemma NothingAtEnd<E>(c: Codec<E>, data: seq<byte>)
    ensures EntryAt(c, data, |data|) == None
  {
  }

  lemma HeadTail<T>(s: seq<T>, k: nat)
    requires k < |s|
    ensures s[k..] == [s[k]] + s[k + 1..]
  {
  }

  lemma Slices<T>(s: seq<T>, a: nat, b: nat, n: nat)
    requires a + n <= b <= |s|
    ensures s[a..b][..n] == s[a..a + n] && s[a..b][n..] == s[a + n..b]
  {
  }

  lemma SliceOfTake<T>(s: seq<T>, q: nat, a: nat, b: nat)
    requires a <= b <= q <= |s|
    ensures s[..q][a..b] == s[a..b] && s[..q][..a] == s[..a]
  {
  }

  /** Entry `j` is readable from the first `q` bytes exactly when those bytes hold it whole. */
  lemma TornEntry<E(!new)>(c: Codec<E>, es: seq<E>, q: nat, j: nat)
    requires Canonical(c) && Writable(c, es) && j < |es| && q <= |DataOf(c, es)|
    ensures
      EntryAt(c, DataOf(c, es)[..q], |DataOf(c, es[..j])|) ==
        if |DataOf(c, es[..j + 1])| <= q then Some((es[j], |c.enc(es[j])|)) else None
  {
    hide Pow256; hide ToLE; hide EntryAt; hide OffsetsOf;
    FrameInData(c, es, j);
    var d := DataOf(c, es);
    var at, end := |DataOf(c, es[..j])|, |DataOf(c, es[..j + 1])|;
    if end <= q {
      SliceOfTake(d, q, at, end);
      WholeFrameReads(c, d[..q], at, es[j]);
    } else {
      if at <= q {
        SliceOfTake(d, q, at, q);
        Slices(d, at, end, q - at);
      }
      TornFrameFails(c, d[..q], at, es[j]);
    }
  }

  /** Reading a written ledger from entry `k` on yields exactly the rest of what was written. */
  lemma {:induction false} ScanOfWritten<E(!new)>(c: Codec<E>, es: seq<E>, k: nat)
    requires Canonical(c) && Writable(c, es) && k <= |es|
    ensures |DataOf(c, es[..k])| <= |DataOf(c, es)|
    ensures ScanFrom(c, DataOf(c, es), |DataOf(c, es[..k])|) ==
      Scan(es[k..], OffsetsOf(c, es)[k..], |DataOf(c, es)|)
    decreases |es| - k
  {
    hide Pow256; hide ToLE; hide EntryAt; hide DataOf; hide OffsetsOf; hide ScanFrom;
    var d := DataOf(c, es);
    DataOfPrefix(c, es, k);
    assert d[..|d|] == d;
    if k == |es| {
      assert es[..k] == es;
      NothingAtEnd(c, d);
      ScanStep(c, d, |d|);
    } else {
      TornEntry(c, es, |d|, k);
      FrameInData(c, es, k);
      ScanStep(c, d, |DataOf(c, es[..k])|);
      ScanOfWritten(c, es, k + 1);
      HeadTail(es, k);
      HeadTail(OffsetsOf(c, es), k);
    }
  }

  lemma {:induction false} WrittenIsSound<E(!new)>(c: Codec<E>, es: seq<E>)
    requires Canonical(c) && Writable(c, es)
    ensures Sound(c, IndexOf(c, es), DataOf(c, es))
    ensures ScanFrom(c, DataOf(c, es), 0).entries == es
  {
    ScanOfWritten(c, es, 0);
    assert es[..0] == [] && es[0..] == es;
    assert OffsetsOf(c, es)[0..] == OffsetsOf(c, es);
    assert IndexOf(c, es)[0..] == IndexOf(c, es);
  }

  // ---- Crash recovery --------------------------------------------------------------------------

  /** How many of the first `m` offsets remain once unreadable ones are pulled off the end. */
  function Survivors<E>(c: Codec<E>, index: seq<byte>, data: seq<byte>, m: nat): (k: nat)
    requires SIZEOF_U64 * m <= |index|
    ensures k <= m
    ensures k > 0 ==>
      U64At(index, SIZEOF_U64 * (k - 1)).Some? &&
      EntryAt(c, data, U64At(index, SIZEOF_U64 * (k - 1)).value).Some?
  {
    if m == 0 then 0
    else if EntryAt(c, data, U64At(index, SIZEOF_U64 * (m - 1)).value).Some? then m
    else Survivors(c, index, data, m - 1)
  }

  datatype Files = Files(index: seq<byte>, data: seq<byte>)

  /** Files left by a recovery, and whether it succeeded, for arbitrary bytes. */
  function Recovered<E>(c: Codec<E>, f: Files): (r: (Files, bool)) {
    var k := Survivors(c, f.index, f.data, |f.index| / SIZEOF_U64);
    if k == 0 then (Files([], f.data), false) else
    var offset := U64At(f.index, SIZEOF_U64 * (k - 1)).value;
    var end := offset + SIZEOF_U64 + |c.enc(EntryAt(c, f.data, offset).value.0)|;
    (Files(f.index[..SIZEOF_U64 * k], if end <= |f.data| then f.data[..end] else f.data), true)
  }

  lemma U64AtPrefix(index: seq<byte>, n: nat, at: nat)
    requires at + SIZEOF_U64 <= n <= |index|
    ensures U64At(index[..n], at) == U64At(index, at)
  {
    SliceOfTake(index, n, at, at + 8);
  }

  lemma {:induction false} SurvivorsOfPrefix<E>(c: Codec<E>, index: seq<byte>, data: seq<byte>, n: nat, m: nat)
    requires SIZEOF_U64 * m <= n <= |index|
    ensures Survivors(c, index[..n], data, m) == Survivors(c, index, data, m)
  {
    hide EntryAt; hide U64At;
    if m > 0 {
      U64AtPrefix(index, n, 8 * (m - 1));
      SurvivorsOfPrefix(c, index, data, n, m - 1);
    }
  }

  /** A ragged tail of the index makes no difference to what recovery leaves. */
  lemma RaggedTail<E>(c: Codec<E>, f: Files)
    ensures Recovered(c, Files(f.index[..|f.index| - |f.index| % SIZEOF_U64], f.data)) == Recovered(c, f)
  {
    hide EntryAt; hide Survivors;
    var m := |f.index| / SIZEOF_U64;
    SurvivorsOfPrefix(c, f.index, f.data, 8 * m, m);
    var k := Survivors(c, f.index, f.data, m);
    if k > 0 {
      SliceOfTake(f.index, 8 * m, 8 * (k - 1), 8 * k);
      SliceOfTake(f.index, 8 * m, 8 * k, 8 * k);
    }
  }

  lemma {:induction false} RecoveredByCount<E>(c: Codec<E>, f: Files, g: Files, k: nat)
    requires g.data == f.data && |g.index| <= |f.index| && g.index == f.index[..|g.index|]
    requires SIZEOF_U64 * k <= |g.index|
    requires Survivors(c, f.index, f.data, |f.index| / SIZEOF_U64) == k
    requires Survivors(c, g.index, g.data, |g.index| / SIZEOF_U64) == k
    ensures Recovered(c, f) == Recovered(c, g)
  {
    hide EntryAt; hide Survivors; hide U64At;
    if k > 0 {
      U64AtPrefix(f.index, |g.index|, 8 * (k - 1));
      SliceOfTake(f.index, |g.index|, 8 * k, 8 * k);
    }
  }

  /** One turn of the recovery loop: either the last offset stands, or it makes no difference. */
  lemma RecoveryStep<E(!new)>(c: Codec<E>, f: Files)
    requires |f.index| % SIZEOF_U64 == 0 && |f.index| >= SIZEOF_U64
    ensures U64At(f.index, |f.index| - SIZEOF_U64).Some?
    ensures var r := EntryAt(c, f.data, U64At(f.index, |f.index| - SIZEOF_U64).value);
      if r.None? then Recovered(c, f) == Recovered(c, Files(f.index[..|f.index| - SIZEOF_U64], f.data))
      else
        var end := U64At(f.index, |f.index| - SIZEOF_U64).value + SIZEOF_U64 + |c.enc(r.value.0)|;
        Recovered(c, f) == (Files(f.index, if end <= |f.data| then f.data[..end] else f.data), true)
  {
    hide EntryAt; hide FromLE;
    var m := |f.index| / SIZEOF_U64;
    var short := 8 * (m - 1);
    assert f.index[..8 * m] == f.index;
    if EntryAt(c, f.data, U64At(f.index, |f.index| - SIZEOF_U64).value).None? {
      SurvivorsOfPrefix(c, f.index, f.data, short, m - 1);
      var g := Files(f.index[..short], f.data);
      RecoveredByCount(c, f, g, Survivors(c, f.index, f.data, m - 1));
    }
  }

  lemma NothingToRecover<E>(c: Codec<E>, f: Files)
    requires f.index == []
    ensures Recovered(c, f) == (f, false)
  {
  }

  /** Files as `LedgerWriter` leaves them after writing `es`. */
  function Written<E>(c: Codec<E>, es: seq<E>): Files {
    Files(IndexOf(c, es), DataOf(c, es))
  }

  /** Number of entries wholly inside the first `q` bytes of the data file. */
  function WholeEntries<E>(c: Codec<E>, es: seq<E>, q: nat): (k: nat)
    ensures k <= |es|
  {
    if es == [] then 0
    else if |DataOf(c, es)| <= q then |es|
    else WholeEntries(c, es[..|es| - 1], q)
  }

  lemma {:induction false} WholeEntriesExact<E>(c: Codec<E>, es: seq<E>, q: nat, k: nat)
    requires k <= |es|
    ensures k <= WholeEntries(c, es, q) <==> |DataOf(c, es[..k])| <= q
  {
    if es != [] {
      var init := es[..|es| - 1];
      if |DataOf(c, es)| <= q {
        DataOfPrefix(c, es, k);
      } else if k < |es| {
        WholeEntriesExact(c, init, q, k);
        assert init[..k] == es[..k];
      } else {
        assert es[..k] == es;
      }
    }
  }

  lemma {:induction false} SurvivorsOfTorn<E(!new)>(c: Codec<E>, es: seq<E>, p: nat, q: nat, m: nat)
    requires Canonical(c) && Writable(c, es) && q <= |DataOf(c, es)|
    requires SIZEOF_U64 * m <= p <= |IndexOf(c, es)|
    ensures var w := WholeEntries(c, es, q);
      Survivors(c, IndexOf(c, es)[..p], DataOf(c, es)[..q], m) == if m < w then m else w
  {
    hide Pow256; hide ToLE; hide EntryAt; hide DataOf; hide OffsetsOf; hide WholeEntries; hide EncodeOffsets; hide U64At;
    if m > 0 {
      FrameInData(c, es, m - 1);
      OffsetReadsBack(OffsetsOf(c, es), m - 1);
      U64AtPrefix(IndexOf(c, es), p, 8 * (m - 1));
      TornEntry(c, es, q, m - 1);
      WholeEntriesExact(c, es, q, m);
      SurvivorsOfTorn(c, es, p, q, m - 1);
    }
  }

  /** With `k` survivors, the trimmed files are those of the first `k` entries. */
  lemma {:induction false} TrimmedFiles<E(!new)>(c: Codec<E>, es: seq<E>, p: nat, q: nat, k: nat)
    requires Canonical(c) && Writable(c, es) && p <= |IndexOf(c, es)| && q <= |DataOf(c, es)|
    requires 0 < k <= WholeEntries(c, es, q) && SIZEOF_U64 * k <= p
    ensures
      var end := |DataOf(c, es[..k])|;
      U64At(IndexOf(c, es)[..p], SIZEOF_U64 * (k - 1)) == Some(|DataOf(c, es[..k - 1])|) &&
      EntryAt(c, DataOf(c, es)[..q], |DataOf(c, es[..k - 1])|) == Some((es[k - 1], |c.enc(es[k - 1])|)) &&
      |DataOf(c, es[..k - 1])| + SIZEOF_U64 + |c.enc(es[k - 1])| == end <= q &&
      IndexOf(c, es)[..p][..SIZEOF_U64 * k] == IndexOf(c, es[..k]) &&
      DataOf(c, es)[..q][..end] == DataOf(c, es[..k])
  {
    hide Pow256; hide ToLE; hide EntryAt; hide DataOf; hide OffsetsOf; hide WholeEntries; hide EncodeOffsets;
    WholeEntriesExact(c, es, q, k);
    FrameInData(c, es, k - 1);
    TornEntry(c, es, q, k - 1);
    OffsetReadsBack(OffsetsOf(c, es), k - 1);
    SliceOfTake(IndexOf(c, es), p, 8 * (k - 1), 8 * k);
    DataOfPrefix(c, es, k);
    IndexOfPrefix(c, es, k);
    SliceOfTake(IndexOf(c, es), p, 8 * k, 8 * k);
    SliceOfTake(DataOf(c, es), q, |DataOf(c, es[..k])|, |DataOf(c, es[..k])|);
  }

  /**
   * Crash recovery: from any byte prefix of the index and any byte prefix of the data of a written
   * ledger, recovery leaves exactly the files for the longest prefix of entries both hold whole,
   * and fails exactly when that prefix is empty.
   */
  lemma {:induction false} CrashRecovery<E(!new)>(c: Codec<E>, es: seq<E>, p: nat, q: nat)
    requires Canonical(c) && Writable(c, es) && p <= |IndexOf(c, es)| && q <= |DataOf(c, es)|
    ensures
      var k := Min(p / SIZEOF_U64, WholeEntries(c, es, q));
      var torn := Files(IndexOf(c, es)[..p], DataOf(c, es)[..q]);
      Recovered(c, torn).1 == (k > 0) && (k > 0 ==> Recovered(c, torn).0 == Written(c, es[..k]))
  {
    hide Pow256; hide ToLE; hide EntryAt; hide DataOf; hide OffsetsOf; hide WholeEntries;
    hide EncodeOffsets; hide Survivors; hide U64At; hide IndexOf;
    SurvivorsOfTorn(c, es, p, q, p / SIZEOF_U64);
    var k := Min(p / SIZEOF_U64, WholeEntries(c, es, q));
    if k > 0 {
      TrimmedFiles(c, es, p, q, k);
    }
  }

  /** What recovery leaves passes the verifier and is left alone by a second recovery. */
  lemma {:induction false} RecoveryIsStable<E(!new)>(c: Codec<E>, es: seq<E>)
    requires Canonical(c) && Writable(c, es) && es != []
    ensures Sound(c, IndexOf(c, es), DataOf(c, es))
    ensures Recovered(c, Written(c, es)) == (Written(c, es), true)
  {
    WrittenIsSound(c, es);
    var p, q := |IndexOf(c, es)|, |DataOf(c, es)|;
    assert IndexOf(c, es)[..p] == IndexOf(c, es) && DataOf(c, es)[..q] == DataOf(c, es);
    CrashRecovery(c, es, p, q);
    assert es[..|es|] == es;
  }

  lemma {:induction false} WriteExtends<E>(c: Codec<E>, es: seq<E>, e: E)
    ensures DataOf(c, es + [e]) == DataOf(c, es) + Frame(c, e)
    ensures IndexOf(c, es + [e]) == IndexOf(c, es) + ToLE(|DataOf(c, es)|, 8)
  {
    assert (es + [e])[..|es|] == es;
    EncodeOffsetsConcat(OffsetsOf(c, es), [|DataOf(c, es)|]);
    assert EncodeOffsets([|DataOf(c, es)|]) == ToLE(|DataOf(c, es)|, 8);
  }

  // ---- Runs of writes and crashes --------------------------------------------------------------

  /** A node writes, or dies leaving `p` index bytes and `q` data bytes, and recovers. */
  datatype LedgerOp<+E> = Write(e: E) | Crash(p: nat, q: nat)

  function Apply<E>(c: Codec<E>, f: Files, op: LedgerOp<E>): Option<Files> {
    match op
    case Write(e) => Some(Files(f.index + ToLE(|f.data|, 8), f.data + Frame(c, e)))
    case Crash(p, q) =>
      var torn := Files(f.index[..Min(p, |f.index|)], f.data[..Min(q, |f.data|)]);
      var (f', ok) := Recovered(c, torn);
      if ok then Some(f') else None
  }

  /** The same run on a plain list of entries, with no files. */
  function ApplyList<E>(c: Codec<E>, es: seq<E>, op: LedgerOp<E>): Option<seq<E>> {
    match op
    case Write(e) => Some(es + [e])
    case Crash(p, q) =>
      var k := Min(Min(p / SIZEOF_U64, |es|), WholeEntries(c, es, q));
      if k == 0 then None else Some(es[..k])
  }

  function ApplyAll<E>(c: Codec<E>, f: Files, ops: seq<LedgerOp<E>>): Option<Files> {
    if ops == [] then Some(f) else
    match ApplyAll(c, f, ops[..|ops| - 1])
    case None => None
    case Some(f') => Apply(c, f', ops[|ops| - 1])
  }

  function ApplyListAll<E>(c: Codec<E>, es: seq<E>, ops: seq<LedgerOp<E>>): Option<seq<E>> {
    if ops == [] then Some(es) else
    match ApplyListAll(c, es, ops[..|ops| - 1])
    case None => None
    case Some(es') => ApplyList(c, es', ops[|ops| - 1])
  }

  lemma StepRefines<E(!new)>(c: Codec<E>, es: seq<E>, op: LedgerOp<E>)
    requires Canonical(c) && Writable(c, es)
    ensures Apply(c, Written(c, es), op) ==
      (match ApplyList(c, es, op) case None => None case Some(es') => Some(Written(c, es')))
    ensures op.Crash? && ApplyList(c, es, op).Some? ==> Writable(c, ApplyList(c, es, op).value)
  {
    match op
    case Write(e) => WriteExtends(c, es, e);
    case Crash(p, q) =>
      var p', q' := Min(p, |IndexOf(c, es)|), Min(q, |DataOf(c, es)|);
      CrashRecovery(c, es, p', q');
      if q > q' {
        WholeEntriesExact(c, es, q, |es|);
        WholeEntriesExact(c, es, q', |es|);
        assert es[..|es|] == es;
      }
      var k := Min(Min(p / SIZEOF_U64, |es|), WholeEntries(c, es, q));
      assert k == Min(p' / SIZEOF_U64, WholeEntries(c, es, q'));
      WritablePrefix(c, es, k);
  }

  /** Every list reached along the run fits the index's 8-byte offsets. */
  ghost predicate StaysWritable<E(!new)>(c: Codec<E>, es: seq<E>, ops: seq<LedgerOp<E>>) {
    forall n :: 0 <= n <= |ops| ==>
      match ApplyListAll(c, es, ops[..n]) case None => true case Some(es') => Writable(c, es')
  }

  /**
   * Over any run of writes, torn crashes and recoveries, the two files are at every point the files
   * of one list of entries, which only a crash shortens; the run fails exactly when the list would
   * become empty.
   */
  lemma {:induction false} LedgerRunRefinesList<E(!new)>(c: Codec<E>, es: seq<E>, ops: seq<LedgerOp<E>>)
    requires Canonical(c) && StaysWritable(c, es, ops)
    ensures ApplyAll(c, Written(c, es), ops) ==
      (match ApplyListAll(c, es, ops) case None => None case Some(es') => Some(Written(c, es')))
  {
    if ops != [] {
      var init := ops[..|ops| - 1];
      forall n | 0 <= n <= |init|
        ensures match ApplyListAll(c, es, init[..n]) case None => true case Some(es') => Writable(c, es')
      {
        assert init[..n] == ops[..n];
      }
      LedgerRunRefinesList(c, es, init);
      if ApplyListAll(c, es, init).Some? {
        assert Writable(c, ApplyListAll(c, es, init).value);
        StepRefines(c, ApplyListAll(c, es, init).value, ops[|ops| - 1]);
      }
    }
  }

  lemma WrittenExtends<E>(c: Codec<E>, es: seq<E>, e: E)
    ensures Apply(c, Written(c, es), Write(e)) == Some(Written(c, es + [e]))
  {
    hide DataOf; hide IndexOf; hide Frame;
    WriteExtends(c, es, e);
  }

  // ---- The files in place ----------------------------------------------------------------------

  /** The pair of files, changed in place by the writer and by recovery. */
  class Ledger<E(!new)> {
    const c: Codec<E>
    var index: seq<byte>
    var data: seq<byte>

    ghost function View(): Files
      reads this
    {
      Files(index, data)
    }

    /** Opens the two files with whatever they hold; new ones are empty. */
    constructor (c: Codec<E>, index: seq<byte>, data: seq<byte>)
      ensures this.c == c && View() == Files(index, data)
      ensures index == data == [] ==> View() == Written(c, [])
    {
      this.c := c;
      this.index, this.data := index, data;
    }

    /** Appends the frame, then the offset at which it started. */
    method WriteEntry(e: E)
      modifies this
      ensures Some(View()) == Apply(c, old(View()), Write(e))
    {
      var bytes := c.enc(e);
      var len := |bytes|;
      data := data + ToLE(len, 8);
      data := data + bytes;
      var offset := |data| - len - SIZEOF_U64;
      index := index + ToLE(offset, 8);
      assert data == old(data) + Frame(c, e);
    }

    method WriteEntries(es: seq<E>, ghost before: seq<E>)
      requires View() == Written(c, before)
      modifies this
      ensures View() == Written(c, before + es)
    {
      hide Written;
      ghost var all := before;
      assert before + es[..0] == before;
      for i := 0 to |es|
        invariant View() == Written(c, all) && all == before + es[..i]
      {
        WriteEntry(es[i]);
        WrittenExtends(c, all, es[i]);
        all := all + [es[i]];
        assert es[..i + 1] == es[..i] + [es[i]];
      }
      assert es[..|es|] == es;
    }

    /** `recover_ledger`: trims the index, pulls unreadable offsets off it, then trims the data. */
    method Recover() returns (ok: bool)
      requires Canonical(c)
      modifies this
      ensures (View(), ok) == Recovered(c, old(View()))
    {
      hide EntryAt; hide Pow256; hide U64At; hide Recovered;
      var len := |index|;
      RaggedTail(c, View());
      if len % SIZEOF_U64 != 0 {
        index := index[..len - len % SIZEOF_U64];
      }
      while true
        invariant data == old(data)
        invariant |index| % SIZEOF_U64 == 0
        invariant Recovered(c, old(View())) == Recovered(c, Files(index, data))
        decreases |index|
      {
        len := |index|;
        if len < SIZEOF_U64 {
          NothingToRecover(c, View());
          return false;
        }
        RecoveryStep(c, View());
        var offset := U64At(index, len - SIZEOF_U64).value;
        match EntryAt(c, data, offset) {
          case Some((e, n)) =>
            EntryAtStaysInside(c, data, offset);
            data := data[..offset + SIZEOF_U64 + |c.enc(e)|];
            return true;
          case None =>
            index := index[..len - SIZEOF_U64];
        }
      }
    }
  }

  /** `LedgerReader`: walks the data file, stopping at the first thing that is not an entry. */
  class LedgerReader<E(!new)> {
    const c: Codec<E>
    const data: seq<byte>
    var pos: nat

    constructor (c: Codec<E>, data: seq<byte>)
      ensures this.c == c && this.data == data && pos == 0
    {
      this.c, this.data, pos := c, data, 0;
    }

    method Next() returns (r: Option<E>)
      requires Canonical(c) && pos <= |data|
      modifies this
      ensures pos <= |data|
      ensures r.Some? ==> old(pos) < pos
      ensures var s, s' := ScanFrom(c, data, old(pos)), ScanFrom(c, data, pos);
        s.entries == (if r.Some? then [r.value] + s'.entries else [])
    {
      hide EntryAt; hide ScanFrom;
      ScanStep(c, data, pos);
      match EntryAt(c, data, pos) {
        case None => r := None;
        case Some((e, n)) =>
          pos := pos + SIZEOF_U64 + n;
          r := Some(e);
      }
    }

    method Drain() returns (es: seq<E>)
      requires Canonical(c) && pos <= |data|
      modifies this
      ensures es == ScanFrom(c, data, old(pos)).entries
    {
      es := [];
      while true
        invariant pos <= |data|
        invariant ScanFrom(c, data, old(pos)).entries == es + ScanFrom(c, data, pos).entries
        decreases |data| - pos
      {
        var r := Next();
        if r.None? {
          return;
        }
        es := es + [r.value];
      }
    }
  }
}
