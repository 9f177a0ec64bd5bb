/** The wire form of an entry: a fixed buffer with index, sender, flags and size ahead of the payload. */
module Blobs {
  import opened Base
  import opened LittleEndian
  import opened Codecs
  import opened EntryFormat
  import W = ReceiveWindow

  const BLOB_INDEX_END: nat := 8
  const BLOB_ID_END: nat := BLOB_INDEX_END + 32
  const BLOB_FLAGS_END: nat := BLOB_ID_END + 4
  const BLOB_SIZE_END: nat := BLOB_FLAGS_END + 8

  // ---- Fields of a buffer ------------------------------------------------------------------------

  /** `d` with `bs` written over it from `at`. */
  function Overwrite(d: seq<byte>, at: nat, bs: seq<byte>): (r: seq<byte>)
    requires at + |bs| <= |d|
    ensures |r| == |d|
  {
    d[..at] + bs + d[at + |bs|..]
  }

  lemma OverwriteReads(d: seq<byte>, at: nat, bs: seq<byte>, lo: nat, hi: nat)
    requires at + |bs| <= |d| && lo <= hi <= |d|
    ensures lo == at && hi == at + |bs| ==> Overwrite(d, at, bs)[lo..hi] == bs
    ensures hi <= at || at + |bs| <= lo ==> Overwrite(d, at, bs)[lo..hi] == d[lo..hi]
  {
    var r := Overwrite(d, at, bs);
    forall i | 0 <= i < |d| ensures r[i] == if at <= i < at + |bs| then bs[i - at] else d[i] {
      OverwriteAt(d, at, bs, i);
    }
    hide Overwrite;
    if lo == at && hi == at + |bs| {
      assert r[lo..hi] == bs;
    }
    if hi <= at || at + |bs| <= lo {
      assert r[lo..hi] == d[lo..hi];
    }
  }

  lemma OverwriteAt(d: seq<byte>, at: nat, bs: seq<byte>, i: nat)
    requires at + |bs| <= |d| && i < |d|
    ensures Overwrite(d, at, bs)[i] == if at <= i < at + |bs| then bs[i - at] else d[i]
  {
  }

  /** What a receiver reads off the wire. */
  datatype Header = Header(index: nat, sender: Pubkey, flags: nat, dataSize: nat)

  function ReadHeader(d: seq<byte>): Header
    requires |d| == BLOB_SIZE
  {
    Header(FromLE(d[..BLOB_INDEX_END]), Pubkey(d[BLOB_INDEX_END..BLOB_ID_END]),
           FromLE(d[BLOB_ID_END..BLOB_FLAGS_END]), FromLE(d[BLOB_FLAGS_END..BLOB_SIZE_END]))
  }

  /** `get_size`: the payload length, when the header and the received length agree. */
  function GetSize(d: seq<byte>, received: nat): Option<nat>
    requires |d| == BLOB_SIZE
  {
    var n := ReadHeader(d).dataSize;
    if received == n && n >= BLOB_HEADER_SIZE then Some(n - BLOB_HEADER_SIZE) else None
  }

  /** `reconstruct_entries_from_blobs`, for one blob. */
  function Reconstruct(d: seq<byte>, received: nat): Option<Entry>
    requires |d| == BLOB_SIZE
  {
    match GetSize(d, received)
    case None => None
    case Some(n) =>
      if n > BLOB_SIZE - BLOB_HEADER_SIZE then None else
      match EntryCodec().dec(d[BLOB_HEADER_SIZE..BLOB_HEADER_SIZE + n])
      case None => None
      case Some((e, _)) => Some(e)
  }

  /** A blob whose received length is not the one in its header, or is less than a header, reads as nothing. */
  lemma WrongLengthIsRefused(d: seq<byte>, received: nat)
    requires |d| == BLOB_SIZE && (received != ReadHeader(d).dataSize || received < 64)
    ensures Reconstruct(d, received) == None
  {
    hide ReadHeader;
  }

  /** What the receive window makes of a received buffer: the lowest flag marks a coding blob. */
  function AsReceived(d: seq<byte>, received: nat): W.Blob<Entry>
    requires |d| == BLOB_SIZE
  {
    W.Blob(ReadHeader(d).index, ReadHeader(d).flags % 2 == 1, Reconstruct(d, received))
  }

  // ---- The buffer in place -----------------------------------------------------------------------

  class Blob {
    const data: array<byte>
    var size: nat

    constructor ()
      ensures fresh(data) && data.Length == BLOB_SIZE && size == 0
    {
      data := new byte[BLOB_SIZE](_ => 0);
      size := 0;
    }

    ghost predicate Valid()
      reads this
    {
      data.Length == BLOB_SIZE
    }

    method Write(at: nat, bs: seq<byte>)
      requires at + |bs| <= data.Length
      modifies data
      ensures data[..] == Overwrite(old(data[..]), at, bs)
    {
      for i := 0 to |bs|
        invariant forall k :: 0 <= k < data.Length ==>
          data[k] == if at <= k < at + i then bs[k - at] else old(data[k])
      {
        data[at + i] := bs[i];
      }
    }

    method SetIndex(ix: nat)
      requires Valid() && ix < Pow256(8)
      modifies data
      ensures ReadHeader(data[..]) == old(ReadHeader(data[..])).(index := ix)
      ensures data[BLOB_HEADER_SIZE..] == old(data[BLOB_HEADER_SIZE..])
    {
      ghost var d := data[..];
      Write(0, ToLE(ix, 8));
      FieldWritten(d, ToLE(ix, 8));
      FromToLE(ix, 8);
    }

    method SetId(id: Pubkey)
      requires Valid() && |id.bytes| == 32
      modifies data
      ensures ReadHeader(data[..]) == old(ReadHeader(data[..])).(sender := id)
      ensures data[BLOB_HEADER_SIZE..] == old(data[BLOB_HEADER_SIZE..])
    {
      ghost var d := data[..];
      Write(BLOB_INDEX_END, id.bytes);
      IdWritten(d, id.bytes);
    }

    method SetFlags(flags: nat)
      requires Valid() && flags < Pow256(4)
      modifies data
      ensures ReadHeader(data[..]) == old(ReadHeader(data[..])).(flags := flags)
      ensures data[BLOB_HEADER_SIZE..] == old(data[BLOB_HEADER_SIZE..])
    {
      ghost var d := data[..];
      Write(BLOB_ID_END, ToLE(flags, 4));
      FlagsWritten(d, ToLE(flags, 4));
      FromToLE(flags, 4);
    }

    /** Records the payload length in the header and in the blob's own size. */
    method SetSize(n: nat)
      requires Valid() && n + BLOB_HEADER_SIZE < Pow256(8)
      modifies this, data
      ensures ReadHeader(data[..]) == old(ReadHeader(data[..])).(dataSize := n + BLOB_HEADER_SIZE)
      ensures data[BLOB_HEADER_SIZE..] == old(data[BLOB_HEADER_SIZE..])
      ensures size == n + BLOB_HEADER_SIZE
    {
      ghost var d := data[..];
      size := n + BLOB_HEADER_SIZE;
      Write(BLOB_FLAGS_END, ToLE(size, 8));
      SizeWritten(d, ToLE(size, 8));
      FromToLE(size, 8);
    }

    /**
     * `Entry::to_blob`: afterwards no flags are set, the header reads back the index and sender if
     * they were given and is otherwise as it was, the receiver reconstructs exactly the entry, and the
     * window sees a data blob of that index.
     */
    method Pack(e: Entry, ix: Option<nat>, id: Option<Pubkey>)
      requires Valid() && EntryCodec().valid(e) && SerializedSize(e) <= BLOB_DATA_SIZE
      requires (ix.Some? ==> ix.value < Pow256(8)) && (id.Some? ==> |id.value.bytes| == 32)
      modifies this, data
      ensures var h, before := ReadHeader(data[..]), old(ReadHeader(data[..]));
        h.index == (if ix.Some? then ix.value else before.index) &&
        h.sender == (if id.Some? then id.value else before.sender) && h.flags == 0
      ensures ix.Some? ==> AsReceived(data[..], size) == W.Blob(ix.value, false, Some(e))
      ensures Reconstruct(data[..], size) == Some(e)
    {
      hide EntryCodec; hide ReadHeader; hide Pow256; hide FromLE; hide ToLE; hide SerializedSize; hide AsReceived;
      var bytes := EntryCodec().enc(e);
      EntryIsSized(e);
      SmallNumbers();
      ghost var d := data[..];
      Write(BLOB_HEADER_SIZE, bytes);
      OverwriteReads(d, BLOB_HEADER_SIZE, bytes, BLOB_HEADER_SIZE, BLOB_HEADER_SIZE + |bytes|);
      PayloadWritten(d, bytes);
      assert data[..][BLOB_HEADER_SIZE..BLOB_HEADER_SIZE + |bytes|] == bytes;
      ghost var payload := data[BLOB_HEADER_SIZE..];
      assert payload[..|bytes|] == bytes;
      SetSize(|bytes|);
      if ix.Some? {
        SetIndex(ix.value);
      }
      if id.Some? {
        SetId(id.value);
      }
      SetFlags(0);
      assert data[BLOB_HEADER_SIZE..] == payload;
      assert data[..][BLOB_HEADER_SIZE..BLOB_HEADER_SIZE + |bytes|] == payload[..|bytes|];
      EntryCanonical();
      ReadOne(EntryCodec(), e, []);
      assert bytes + [] == bytes;
      SeenAsData(data[..], size, e);
    }
  }

  lemma SeenAsData(d: seq<byte>, received: nat, e: Entry)
    requires |d| == BLOB_SIZE && ReadHeader(d).flags == 0 && Reconstruct(d, received) == Some(e)
    ensures AsReceived(d, received) == W.Blob(ReadHeader(d).index, false, Some(e))
  {
    hide ReadHeader; hide Reconstruct;
  }

  lemma PayloadWritten(d: seq<byte>, bs: seq<byte>)
    requires |d| == BLOB_SIZE && BLOB_HEADER_SIZE + |bs| <= BLOB_SIZE
    ensures ReadHeader(Overwrite(d, BLOB_HEADER_SIZE, bs)) == ReadHeader(d)
  {
    hide FromLE; hide Overwrite;
    OverwriteReads(d, BLOB_HEADER_SIZE, bs, 0, BLOB_INDEX_END);
    OverwriteReads(d, BLOB_HEADER_SIZE, bs, BLOB_INDEX_END, BLOB_ID_END);
    OverwriteReads(d, BLOB_HEADER_SIZE, bs, BLOB_ID_END, BLOB_FLAGS_END);
    OverwriteReads(d, BLOB_HEADER_SIZE, bs, BLOB_FLAGS_END, BLOB_SIZE_END);
  }

  lemma EntryIsSized(e: Entry)
    requires EntryCodec().valid(e)
    ensures |EntryCodec().enc(e)| == SerializedSize(e)
  {
    hide EntryCodec;
    EntrySized();
  }

  lemma SmallNumbers()
    ensures BLOB_SIZE < Pow256(8) && 0 < Pow256(4)
  {
    assert Pow256(3) == 0x100_0000;
  }

  // ---- Each setter leaves the other fields alone -------------------------------------------------

  lemma {:induction false} FieldWritten(d: seq<byte>, bs: seq<byte>)
    requires |d| == BLOB_SIZE && |bs| == 8
    ensures ReadHeader(Overwrite(d, 0, bs)) == ReadHeader(d).(index := FromLE(bs))
    ensures Overwrite(d, 0, bs)[BLOB_HEADER_SIZE..] == d[BLOB_HEADER_SIZE..]
  {
    hide FromLE; hide Overwrite;
    OverwriteReads(d, 0, bs, 0, BLOB_INDEX_END);
    OverwriteReads(d, 0, bs, BLOB_INDEX_END, BLOB_ID_END);
    OverwriteReads(d, 0, bs, BLOB_ID_END, BLOB_FLAGS_END);
    OverwriteReads(d, 0, bs, BLOB_FLAGS_END, BLOB_SIZE_END);
    OverwriteReads(d, 0, bs, BLOB_HEADER_SIZE, BLOB_SIZE);
  }

  lemma IdWritten(d: seq<byte>, bs: seq<byte>)
    requires |d| == BLOB_SIZE && |bs| == 32
    ensures ReadHeader(Overwrite(d, BLOB_INDEX_END, bs)) == ReadHeader(d).(sender := Pubkey(bs))
    ensures Overwrite(d, BLOB_INDEX_END, bs)[BLOB_HEADER_SIZE..] == d[BLOB_HEADER_SIZE..]
  {
    hide FromLE; hide Overwrite;
    OverwriteReads(d, BLOB_INDEX_END, bs, 0, BLOB_INDEX_END);
    OverwriteReads(d, BLOB_INDEX_END, bs, BLOB_INDEX_END, BLOB_ID_END);
    OverwriteReads(d, BLOB_INDEX_END, bs, BLOB_ID_END, BLOB_FLAGS_END);
    OverwriteReads(d, BLOB_INDEX_END, bs, BLOB_FLAGS_END, BLOB_SIZE_END);
    OverwriteReads(d, BLOB_INDEX_END, bs, BLOB_HEADER_SIZE, BLOB_SIZE);
  }

  lemma {:induction false} FlagsWritten(d: seq<byte>, bs: seq<byte>)
    requires |d| == BLOB_SIZE && |bs| == 4
    ensures ReadHeader(Overwrite(d, BLOB_ID_END, bs)) == ReadHeader(d).(flags := FromLE(bs))
    ensures Overwrite(d, BLOB_ID_END, bs)[BLOB_HEADER_SIZE..] == d[BLOB_HEADER_SIZE..]
  {
    hide FromLE; hide Overwrite;
    OverwriteReads(d, BLOB_ID_END, bs, 0, BLOB_INDEX_END);
    OverwriteReads(d, BLOB_ID_END, bs, BLOB_INDEX_END, BLOB_ID_END);
    OverwriteReads(d, BLOB_ID_END, bs, BLOB_ID_END, BLOB_FLAGS_END);
    OverwriteReads(d, BLOB_ID_END, bs, BLOB_FLAGS_END, BLOB_SIZE_END);
    OverwriteReads(d, BLOB_ID_END, bs, BLOB_HEADER_SIZE, BLOB_SIZE);
  }

  lemma {:induction false} SizeWritten(d: seq<byte>, bs: seq<byte>)
    requires |d| == BLOB_SIZE && |bs| == 8
    ensures ReadHeader(Overwrite(d, BLOB_FLAGS_END, bs)) == ReadHeader(d).(dataSize := FromLE(bs))
    ensures Overwrite(d, BLOB_FLAGS_END, bs)[BLOB_HEADER_SIZE..] == d[BLOB_HEADER_SIZE..]
  {
    hide FromLE; hide Overwrite;
    OverwriteReads(d, BLOB_FLAGS_END, bs, 0, BLOB_INDEX_END);
    OverwriteReads(d, BLOB_FLAGS_END, bs, BLOB_INDEX_END, BLOB_ID_END);
    OverwriteReads(d, BLOB_FLAGS_END, bs, BLOB_ID_END, BLOB_FLAGS_END);
    OverwriteReads(d, BLOB_FLAGS_END, bs, BLOB_FLAGS_END, BLOB_SIZE_END);
    OverwriteReads(d, BLOB_FLAGS_END, bs, BLOB_HEADER_SIZE, BLOB_SIZE);
  }
}
