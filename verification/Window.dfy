/**
 * The receive window: a ring of WINDOW_SIZE slots that turns blobs arriving in any order, any
 * number of times, into entries delivered once each and in order.
 */
module ReceiveWindow {
  import opened Base

  /** A blob as the window sees it: header index and kind, and what its payload decodes to, if anything. */
  datatype Blob<+E> = Blob(index: nat, coding: bool, entry: Option<E>)

  datatype Slot<+E> = Slot(data: Option<Blob<E>>, coding: Option<Blob<E>>, leaderUnknown: bool)

  datatype Win<+E> = Win(slots: seq<Slot<E>>, consumed: nat, received: nat, queue: seq<E>)

  /** At which heights this node takes over as leader, and the last index wanted (0: all). */
  datatype Config = Config(interval: nat, mine: nat -> bool, maxIx: nat)

  predicate Stops(cfg: Config, height: nat)
    requires cfg.interval > 0
  {
    height != 0 && height % cfg.interval == 0 && cfg.mine(height)
  }

  function SlotOf(pix: nat): (k: nat)
    ensures k < WINDOW_SIZE
  {
    pix % WINDOW_SIZE
  }

  predicate Held<E>(slots: seq<Slot<E>>, pix: nat)
    requires |slots| == WINDOW_SIZE
  {
    slots[SlotOf(pix)].data.Some? && slots[SlotOf(pix)].data.value.index == pix
  }

  /** Every data blob sits in its own slot and lies below `limit`. */
  ghost predicate Placed<E>(slots: seq<Slot<E>>, limit: nat) {
    |slots| == WINDOW_SIZE &&
    forall i :: 0 <= i < |slots| && slots[i].data.Some? ==>
      slots[i].data.value.index < limit && SlotOf(slots[i].data.value.index) == i
  }

  // ---- Consuming ---------------------------------------------------------------------------------

  /** Moves the contiguous blobs at `consumed` to the queue; stops at a gap, a handover, or garbage. */
  function Consume<E>(cfg: Config, w: Win<E>, limit: nat): Win<E>
    requires cfg.interval > 0 && Placed(w.slots, limit) && w.consumed <= limit
    decreases limit - w.consumed
  {
    if Stops(cfg, w.consumed) then w else
    var k := SlotOf(w.consumed);
    match w.slots[k].data
    case None => w
    case Some(blob) =>
      if blob.index < w.consumed then w else
      match blob.entry
      case None => w.(slots := w.slots[k := w.slots[k].(data := None)])
      case Some(e) => Consume(cfg, w.(consumed := w.consumed + 1, queue := w.queue + [e]), limit)
  }

  function Insert<E>(slots: seq<Slot<E>>, blob: Blob<E>): seq<Slot<E>>
    requires |slots| == WINDOW_SIZE
  {
    var k := SlotOf(blob.index);
    slots[k := if blob.coding then slots[k].(coding := Some(blob)) else slots[k].(data := Some(blob))]
  }

  predicate Duplicate<E>(slots: seq<Slot<E>>, blob: Blob<E>)
    requires |slots| == WINDOW_SIZE
  {
    var slot := slots[SlotOf(blob.index)];
    var prior := if blob.coding then slot.coding else slot.data;
    prior.Some? && prior.value.index == blob.index
  }

  /** `process_blob`: a duplicate replaces its copy and changes nothing else. */
  function ProcessBlob<E>(cfg: Config, w: Win<E>, blob: Blob<E>, leaderUnknown: bool): Win<E>
    requires cfg.interval > 0 && Placed(w.slots, w.consumed + WINDOW_SIZE)
    requires w.consumed <= blob.index < w.consumed + WINDOW_SIZE
  {
    var slots := Insert(w.slots, blob);
    if Duplicate(w.slots, blob) then w.(slots := slots) else
    Consume(cfg, w.(slots := Mark(slots, SlotOf(blob.index), leaderUnknown)), w.consumed + WINDOW_SIZE)
  }

  /** One blob of `recv_window`: skip what is consumed, too far ahead, or past the end wanted. */
  function Receive<E>(cfg: Config, w: Win<E>, blob: Blob<E>, leaderUnknown: bool): Win<E>
    requires cfg.interval > 0 && Placed(w.slots, w.consumed + WINDOW_SIZE)
  {
    if blob.index < w.consumed then w else
    var w' := w.(received := if blob.index > w.received then blob.index else w.received);
    if blob.index >= w.consumed + WINDOW_SIZE then w'
    else if cfg.maxIx != 0 && blob.index > cfg.maxIx then w'
    else ProcessBlob(cfg, w', blob, leaderUnknown)
  }

  // ---- Repair ------------------------------------------------------------------------------------

  /** `clear_slots`: empties every slot in the range that does not hold its index, and lists those indices. */
  function ClearSlots<E>(slots: seq<Slot<E>>, lo: nat, hi: nat): (r: (seq<Slot<E>>, seq<nat>))
    requires |slots| == WINDOW_SIZE
    ensures |r.0| == WINDOW_SIZE
    decreases hi
  {
    if hi <= lo then (slots, []) else
    var (s, missing) := ClearSlots(slots, lo, hi - 1);
    var k := SlotOf(hi - 1);
    if Held(s, hi - 1) then (s, missing) else (s[k := s[k].(data := None)], missing + [hi - 1])
  }

  function MaxRepair(numPeers: nat, consumed: nat, received: nat, times: nat, isNextLeader: bool): (m: nat)
    ensures consumed <= m <= consumed + WINDOW_SIZE - 1
    ensures m <= Max(consumed, received)
  {
    var wanted := if times >= 8 || isNextLeader then Max(consumed, received)
                  else Max(consumed, if received < numPeers then 0 else received - numPeers);
    Min(consumed + WINDOW_SIZE - 1, wanted)
  }

  function RepairLimit(cfg: Config, numPeers: nat, w: Win, times: nat, isNextLeader: bool): nat {
    if cfg.maxIx == 0 then MaxRepair(numPeers, w.consumed, w.received, times, isNextLeader) else cfg.maxIx + 1
  }

  /** Indices below `hi` and at least `lo` that the window lacks, in order. */
  function Missing<E>(slots: seq<Slot<E>>, lo: nat, hi: nat): (r: seq<nat>)
    requires |slots| == WINDOW_SIZE
    ensures forall p: nat :: p in r <==> lo <= p < hi && !Held(slots, p)
    decreases hi
  {
    if hi <= lo then [] else
    Missing(slots, lo, hi - 1) + if Held(slots, hi - 1) then [] else [hi - 1]
  }

  lemma SameSlotSameIndex(a: nat, b: nat, lo: nat)
    requires lo <= a && lo <= b < lo + WINDOW_SIZE && a < b + WINDOW_SIZE && SlotOf(a) == SlotOf(b)
    ensures a == b
  {
  }

  lemma NextTurn(a: nat)
    ensures SlotOf(a + WINDOW_SIZE) == SlotOf(a)
  {
  }

  lemma DistinctSlots(lo: nat, a: nat, b: nat)
    requires lo <= a < b < lo + WINDOW_SIZE
    ensures SlotOf(a) != SlotOf(b)
  {
  }

  /** A blob in the slot of `pix` but with another index is older than the range. */
  lemma OtherIndexIsOlder(index: nat, pix: nat, lo: nat)
    requires SlotOf(index) == SlotOf(pix) && index != pix && index < lo + WINDOW_SIZE && lo <= pix < lo + WINDOW_SIZE
    ensures index < lo
  {
    if lo <= index {
      SameSlotSameIndex(index, pix, lo);
    }
  }

  /** A blob dropped between the two was in its slot and older than `lo`. */
  ghost predicate OnlyOlderDropped<E>(before: seq<Slot<E>>, after: seq<Slot<E>>, lo: nat) {
    |before| == |after| == WINDOW_SIZE &&
    forall i :: 0 <= i < WINDOW_SIZE ==>
      after[i].data == before[i].data ||
      (after[i].data == None && before[i].data.Some? && before[i].data.value.index < lo)
  }

  /**
   * Repair exactness: over at most one turn of the ring, `clear_slots` asks for exactly the missing
   * indices and drops only blobs below the range, which have been consumed.
   */
  lemma {:induction false} ClearSlotsExact<E>(slots: seq<Slot<E>>, lo: nat, hi: nat)
    requires Placed(slots, lo + WINDOW_SIZE) && hi <= lo + WINDOW_SIZE
    ensures var (s, missing) := ClearSlots(slots, lo, hi);
      missing == Missing(slots, lo, hi) && OnlyOlderDropped(slots, s, lo)
  {
    ClearSlotsLists(slots, lo, hi);
    ClearSlotsDrops(slots, lo, hi);
  }

  /** Within one turn of the ring the slot of the last index is still as it was. */
  lemma LastSlotUntouched<E>(slots: seq<Slot<E>>, lo: nat, hi: nat)
    requires |slots| == WINDOW_SIZE && lo < hi <= lo + WINDOW_SIZE
    ensures ClearSlots(slots, lo, hi - 1).0[SlotOf(hi - 1)] == slots[SlotOf(hi - 1)]
  {
    hide SlotOf; hide ClearSlots;
    forall pix: nat | lo <= pix < hi - 1 ensures SlotOf(pix) != SlotOf(hi - 1) {
      DistinctSlots(lo, pix, hi - 1);
    }
    UnvisitedYet(slots, lo, hi - 1, SlotOf(hi - 1));
  }

  lemma {:induction false} ClearSlotsLists<E>(slots: seq<Slot<E>>, lo: nat, hi: nat)
    requires |slots| == WINDOW_SIZE && hi <= lo + WINDOW_SIZE
    ensures ClearSlots(slots, lo, hi).1 == Missing(slots, lo, hi)
    decreases hi
  {
    hide SlotOf;
    if lo < hi {
      ClearSlotsLists(slots, lo, hi - 1);
      LastSlotUntouched(slots, lo, hi);
    }
  }

  lemma {:induction false} ClearSlotsDrops<E>(slots: seq<Slot<E>>, lo: nat, hi: nat)
    requires Placed(slots, lo + WINDOW_SIZE) && hi <= lo + WINDOW_SIZE
    ensures OnlyOlderDropped(slots, ClearSlots(slots, lo, hi).0, lo)
    decreases hi
  {
    hide SlotOf; hide Placed; hide OnlyOlderDropped;
    PlacedIsWhole(slots, lo + WINDOW_SIZE);
    if lo < hi {
      ClearSlotsDrops(slots, lo, hi - 1);
      LastSlotUntouched(slots, lo, hi);
      var k := SlotOf(hi - 1);
      if !Held(slots, hi - 1) {
        if slots[k].data.Some? {
          PlacedAt(slots, lo + WINDOW_SIZE, k);
          OtherIndexIsOlder(slots[k].data.value.index, hi - 1, lo);
        }
        DropOne(slots, ClearSlots(slots, lo, hi - 1).0, lo, k);
      }
    } else {
      NothingDropped(slots, lo);
    }
  }

  lemma NothingDropped<E>(slots: seq<Slot<E>>, lo: nat)
    requires |slots| == WINDOW_SIZE
    ensures OnlyOlderDropped(slots, slots, lo)
  {
  }

  lemma DropOne<E>(before: seq<Slot<E>>, after: seq<Slot<E>>, lo: nat, k: nat)
    requires OnlyOlderDropped(before, after, lo) && k < WINDOW_SIZE
    requires before[k].data.Some? ==> before[k].data.value.index < lo
    ensures OnlyOlderDropped(before, after[k := after[k].(data := None)], lo)
  {
  }

  lemma PlacedAt<E>(slots: seq<Slot<E>>, limit: nat, k: nat)
    requires Placed(slots, limit) && k < WINDOW_SIZE && slots[k].data.Some?
    ensures slots[k].data.value.index < limit && SlotOf(slots[k].data.value.index) == k
  {
  }

  lemma {:induction false} UnvisitedYet<E>(slots: seq<Slot<E>>, lo: nat, hi: nat, k: nat)
    requires |slots| == WINDOW_SIZE && k < WINDOW_SIZE && forall pix: nat :: lo <= pix < hi ==> SlotOf(pix) != k
    ensures ClearSlots(slots, lo, hi).0[k] == slots[k]
    decreases hi
  {
    hide SlotOf;
    if lo < hi {
      UnvisitedYet(slots, lo, hi - 1, k);
      assert SlotOf(hi - 1) != k;
    }
  }

  lemma {:induction false} ClearSlotsOnlyClears<E>(slots: seq<Slot<E>>, lo: nat, hi: nat, i: nat)
    requires |slots| == WINDOW_SIZE && i < WINDOW_SIZE
    ensures var s := ClearSlots(slots, lo, hi).0; s[i] == slots[i] || s[i] == slots[i].(data := None)
    decreases hi
  {
    hide SlotOf;
    if lo < hi {
      ClearSlotsOnlyClears(slots, lo, hi - 1, i);
    }
  }

  /**
   * Over any range, a blob still to be consumed survives exactly when the range does not reach its
   * slot a second time. With no end set the range is shorter than that; asking for everything up to
   * a distant end drops blobs that are waiting.
   */
  lemma {:induction false} WaitingBlobSurvives<E>(slots: seq<Slot<E>>, lo: nat, hi: nat, q: nat)
    requires |slots| == WINDOW_SIZE && Held(slots, q) && lo <= q < lo + WINDOW_SIZE
    ensures Held(ClearSlots(slots, lo, hi).0, q) <==> hi <= q + WINDOW_SIZE
    decreases hi
  {
    hide SlotOf;
    if lo < hi {
      WaitingBlobSurvives(slots, lo, hi - 1, q);
      ClearSlotsOnlyClears(slots, lo, hi - 1, SlotOf(q));
      ClearSlotsOnlyClears(slots, lo, hi, SlotOf(q));
      if hi - 1 == q + WINDOW_SIZE {
        NextTurn(q);
      } else if SlotOf(hi - 1) == SlotOf(q) && hi <= q + WINDOW_SIZE {
        SameSlotSameIndex(hi - 1, q, lo);
      }
    }
  }

  // ---- Invariant -----------------------------------------------------------------------------------

  /** What has been queued came, in order, from arrived data blobs of consecutive indices from `h`. */
  ghost predicate Delivered<E>(w: Win<E>, h: nat, arrived: seq<Blob<E>>) {
    w.consumed == h + |w.queue| &&
    forall j :: 0 <= j < |w.queue| ==> Blob(h + j, false, Some(w.queue[j])) in arrived
  }

  ghost predicate WaitingArrived<E>(w: Win<E>, arrived: seq<Blob<E>>) {
    forall i :: 0 <= i < |w.slots| && w.slots[i].data.Some? && w.slots[i].data.value.index >= w.consumed ==>
      w.slots[i].data.value in arrived && !w.slots[i].data.value.coding
  }

  ghost predicate NoHandoverCrossed(cfg: Config, h: nat, consumed: nat)
    requires cfg.interval > 0
  {
    forall s: nat :: h <= s < consumed ==> !Stops(cfg, s)
  }

  /** Nothing that could be delivered is being held back. */
  predicate Settled<E>(cfg: Config, w: Win<E>)
    requires cfg.interval > 0 && |w.slots| == WINDOW_SIZE
  {
    Stops(cfg, w.consumed) || !Held(w.slots, w.consumed)
  }

  /** `received` is the highest index heard of, counting blobs the window had to turn away. */
  ghost predicate HeardOf<E>(w: Win<E>, h: nat, arrived: seq<Blob<E>>) {
    (forall b :: b in arrived ==> b.index <= w.received || b.index < w.consumed) &&
    (w.received == h || exists b :: b in arrived && b.index == w.received)
  }

  /** Everything in the invariant that does not say delivery has stopped. */
  ghost predicate InvCore<E>(cfg: Config, w: Win<E>, h: nat, arrived: seq<Blob<E>>)
    requires cfg.interval > 0
  {
    HeardOf(w, h, arrived) && Delivered(w, h, arrived) && WaitingArrived(w, arrived) && NoHandoverCrossed(cfg, h, w.consumed)
  }

  ghost predicate Inv<E>(cfg: Config, w: Win<E>, h: nat, arrived: seq<Blob<E>>) {
    && cfg.interval > 0
    && Placed(w.slots, w.consumed + WINDOW_SIZE)
    && InvCore(cfg, w, h, arrived)
    && Settled(cfg, w)
  }

  /** In the consuming loop the `<` test is an equality test: what is there is `consumed` or older. */
  lemma SlotHoldsConsumedOrOlder<E>(slots: seq<Slot<E>>, consumed: nat, limit: nat)
    requires Placed(slots, limit) && limit <= consumed + WINDOW_SIZE
    requires slots[SlotOf(consumed)].data.Some?
    ensures slots[SlotOf(consumed)].data.value.index >= consumed <==> slots[SlotOf(consumed)].data.value.index == consumed
  {
  }

  lemma DeliverNext<E>(cfg: Config, w: Win<E>, h: nat, arrived: seq<Blob<E>>)
    requires cfg.interval > 0 && |w.slots| == WINDOW_SIZE && InvCore(cfg, w, h, arrived)
    requires !Stops(cfg, w.consumed) && Held(w.slots, w.consumed) && w.slots[SlotOf(w.consumed)].data.value.entry.Some?
    ensures InvCore(cfg, w.(consumed := w.consumed + 1,
      queue := w.queue + [w.slots[SlotOf(w.consumed)].data.value.entry.value]), h, arrived)
  {
    hide SlotOf; hide Stops;
    var blob := w.slots[SlotOf(w.consumed)].data.value;
    assert blob == Blob(w.consumed, false, blob.entry);
  }

  lemma DropKeeps<E>(cfg: Config, w: Win<E>, limit: nat, k: nat, h: nat, arrived: seq<Blob<E>>)
    requires cfg.interval > 0 && Placed(w.slots, limit) && k < WINDOW_SIZE && InvCore(cfg, w, h, arrived)
    ensures var w' := w.(slots := w.slots[k := w.slots[k].(data := None)]);
      Placed(w'.slots, limit) && InvCore(cfg, w', h, arrived)
  {
    hide SlotOf; hide Stops;
  }

  lemma PlacedBelow<E>(slots: seq<Slot<E>>, limit: nat, more: nat)
    requires Placed(slots, limit) && limit <= more
    ensures Placed(slots, more)
  {
    hide SlotOf;
  }

  lemma {:induction false} ConsumeKeeps<E>(cfg: Config, w: Win<E>, limit: nat, h: nat, arrived: seq<Blob<E>>)
    requires cfg.interval > 0 && Placed(w.slots, limit) && w.consumed <= limit <= w.consumed + WINDOW_SIZE
    requires InvCore(cfg, w, h, arrived)
    ensures var w' := Consume(cfg, w, limit);
      w.consumed <= w'.consumed <= limit && Placed(w'.slots, limit) && |w'.slots| == WINDOW_SIZE &&
      InvCore(cfg, w', h, arrived) && Settled(cfg, w') && w'.received == w.received
    ensures var w' := Consume(cfg, w, limit);
      forall q: nat :: w'.consumed <= q && Held(w.slots, q) ==>
        w'.slots[SlotOf(q)].data == w.slots[SlotOf(q)].data || (q == w'.consumed && w.slots[SlotOf(q)].data.value.entry == None)
    decreases limit - w.consumed
  {
    hide InvCore; hide Placed; hide SlotOf; hide Stops;
    PlacedIsWhole(w.slots, limit);
    var k := SlotOf(w.consumed);
    if !Stops(cfg, w.consumed) && w.slots[k].data.Some? {
      SlotHoldsConsumedOrOlder(w.slots, w.consumed, limit);
      PlacedAt(w.slots, limit, k);
      var blob := w.slots[k].data.value;
      if blob.index >= w.consumed {
        if blob.entry.Some? {
          DeliverNext(cfg, w, h, arrived);
          var w1 := w.(consumed := w.consumed + 1, queue := w.queue + [blob.entry.value]);
          ConsumeKeeps(cfg, w1, limit, h, arrived);
        } else {
          DropKeeps(cfg, w, limit, k, h, arrived);
        }
      }
    }
  }

  /** Where a new blob goes, and that the others stay. */
  lemma InsertPlaces<E>(w: Win<E>, blob: Blob<E>, arrived: seq<Blob<E>>)
    requires Placed(w.slots, w.consumed + WINDOW_SIZE) && WaitingArrived(w, arrived)
    requires w.consumed <= blob.index < w.consumed + WINDOW_SIZE && blob in arrived
    ensures Placed(Insert(w.slots, blob), w.consumed + WINDOW_SIZE)
    ensures WaitingArrived(w.(slots := Insert(w.slots, blob)), arrived)
    ensures forall q: nat :: w.consumed <= q && Held(w.slots, q) ==>
      Held(Insert(w.slots, blob), q) &&
      Insert(w.slots, blob)[SlotOf(q)].data ==
        if blob.index == q && !blob.coding then Some(blob) else w.slots[SlotOf(q)].data
  {
    hide SlotOf;
    var slots := Insert(w.slots, blob);
    var k := SlotOf(blob.index);
    forall q: nat | w.consumed <= q && Held(w.slots, q)
      ensures Held(slots, q) && slots[SlotOf(q)].data ==
        if blob.index == q && !blob.coding then Some(blob) else w.slots[SlotOf(q)].data
    {
      PlacedAt(w.slots, w.consumed + WINDOW_SIZE, SlotOf(q));
      if SlotOf(q) == k {
        SameSlotSameIndex(q, blob.index, w.consumed);
      }
    }
  }

  function Mark<E>(slots: seq<Slot<E>>, k: nat, unknown: bool): seq<Slot<E>>
    requires k < |slots|
  {
    slots[k := slots[k].(leaderUnknown := unknown)]
  }

  lemma MarkKeeps<E>(w: Win<E>, k: nat, unknown: bool, arrived: seq<Blob<E>>)
    requires |w.slots| == WINDOW_SIZE && k < WINDOW_SIZE
    ensures var s := Mark(w.slots, k, unknown);
      |s| == WINDOW_SIZE && (forall i :: 0 <= i < WINDOW_SIZE ==> s[i].data == w.slots[i].data) &&
      (forall limit :: Placed(w.slots, limit) ==> Placed(s, limit)) &&
      (WaitingArrived(w, arrived) ==> WaitingArrived(w.(slots := s), arrived))
  {
  }

  /** The bookkeeping done for every blob, wanted or not. */
  function Note<E>(w: Win<E>, blob: Blob<E>): Win<E> {
    if blob.index < w.consumed then w else w.(received := Max(blob.index, w.received))
  }

  lemma NoteKeepsHeard<E>(w: Win<E>, h: nat, arrived: seq<Blob<E>>, blob: Blob<E>)
    requires HeardOf(w, h, arrived)
    ensures HeardOf(Note(w, blob), h, arrived + [blob])
  {
    var all := arrived + [blob];
    assert blob in all && forall b :: b in arrived ==> b in all;
  }

  lemma NoteKeeps<E>(cfg: Config, w: Win<E>, h: nat, arrived: seq<Blob<E>>, blob: Blob<E>)
    requires Inv(cfg, w, h, arrived)
    ensures Inv(cfg, Note(w, blob), h, arrived + [blob])
  {
    hide HeardOf; hide Placed; hide NoHandoverCrossed; hide Stops;
    NoteKeepsHeard(w, h, arrived, blob);
    assert forall b :: b in arrived ==> b in arrived + [blob];
    assert Delivered(w, h, arrived + [blob]) && WaitingArrived(w, arrived + [blob]);
  }

  /** A blob inside the window: the invariant is kept and every waiting blob accounted for. */
  lemma ProcessBlobKeeps<E>(cfg: Config, w: Win<E>, blob: Blob<E>, unknown: bool, h: nat, arrived: seq<Blob<E>>)
    requires Inv(cfg, w, h, arrived) && blob in arrived && w.consumed <= blob.index < w.consumed + WINDOW_SIZE
    ensures var w' := ProcessBlob(cfg, w, blob, unknown);
      Inv(cfg, w', h, arrived) && w.consumed <= w'.consumed &&
      forall q: nat :: w'.consumed <= q && Held(w.slots, q) ==>
        Held(w'.slots, q) ||
        (q == w'.consumed && (if blob.index == q && !blob.coding then blob else w.slots[SlotOf(q)].data.value).entry == None)
  {
    hide Consume; hide Placed; hide Delivered; hide WaitingArrived; hide NoHandoverCrossed; hide Stops; hide Insert;
    hide HeardOf;
    PlacedIsWhole(w.slots, w.consumed + WINDOW_SIZE);
    var k := SlotOf(blob.index);
    var slots := Insert(w.slots, blob);
    InsertPlaces(w, blob, arrived);
    PlacedIsWhole(slots, w.consumed + WINDOW_SIZE);
    var w1 := w.(slots := slots);
    DeliveredIgnoresSlots(w, slots, h, arrived);
    if Duplicate(w.slots, blob) {
      DuplicateSettled(cfg, w, blob);
    } else {
      MarkKeeps(w1, k, unknown, arrived);
      var w2 := w.(slots := Mark(slots, k, unknown));
      DeliveredIgnoresSlots(w, w2.slots, h, arrived);
      ConsumeKeeps(cfg, w2, w.consumed + WINDOW_SIZE, h, arrived);
      var w' := Consume(cfg, w2, w.consumed + WINDOW_SIZE);
      PlacedBelow(w'.slots, w.consumed + WINDOW_SIZE, w'.consumed + WINDOW_SIZE);
    }
  }

  lemma DeliveredIgnoresSlots<E>(w: Win<E>, slots: seq<Slot<E>>, h: nat, arrived: seq<Blob<E>>)
    requires Delivered(w, h, arrived) && HeardOf(w, h, arrived)
    ensures Delivered(w.(slots := slots), h, arrived) && HeardOf(w.(slots := slots), h, arrived)
  {
  }

  /** Replacing a copy cannot make the next index available. */
  lemma DuplicateSettled<E>(cfg: Config, w: Win<E>, blob: Blob<E>)
    requires cfg.interval > 0 && |w.slots| == WINDOW_SIZE && Settled(cfg, w) && Duplicate(w.slots, blob)
    ensures Settled(cfg, w.(slots := Insert(w.slots, blob)))
  {
    hide SlotOf; hide Stops;
  }

  /** Receiving any blob keeps the invariant, with the blob added to those that have arrived. */
  lemma ReceiveKeeps<E>(cfg: Config, w: Win<E>, blob: Blob<E>, unknown: bool, h: nat, arrived: seq<Blob<E>>)
    requires Inv(cfg, w, h, arrived)
    ensures Inv(cfg, Receive(cfg, w, blob, unknown), h, arrived + [blob])
  {
    hide ProcessBlob; hide Delivered; hide WaitingArrived; hide NoHandoverCrossed; hide Stops; hide Placed;
    hide HeardOf;
    var all := arrived + [blob];
    NoteKeeps(cfg, w, h, arrived, blob);
    var w1 := Note(w, blob);
    if w.consumed <= blob.index < w.consumed + WINDOW_SIZE {
      ProcessBlobKeeps(cfg, w1, blob, unknown, h, all);
    }
  }

  /** An accepted blob still to be consumed stays until consumed, replaced only by another copy. */
  lemma WaitingNeverDisplaced<E>(cfg: Config, w: Win<E>, blob: Blob<E>, unknown: bool, h: nat, arrived: seq<Blob<E>>, q: nat)
    requires Inv(cfg, w, h, arrived) && w.consumed <= q && Held(w.slots, q)
    ensures var w' := Receive(cfg, w, blob, unknown);
      q < w'.consumed || (|w'.slots| == WINDOW_SIZE && Held(w'.slots, q)) ||
      (q == w'.consumed && (if blob.index == q && !blob.coding then blob else w.slots[SlotOf(q)].data.value).entry == None)
  {
    hide ProcessBlob; hide Delivered; hide WaitingArrived; hide NoHandoverCrossed; hide Stops; hide Placed;
    hide HeardOf;
    var all := arrived + [blob];
    NoteKeeps(cfg, w, h, arrived, blob);
    var w1 := Note(w, blob);
    ReceiveKeeps(cfg, w, blob, unknown, h, arrived);
    PlacedIsWhole(w.slots, w.consumed + WINDOW_SIZE);
    if w.consumed <= blob.index < w.consumed + WINDOW_SIZE {
      ProcessBlobKeeps(cfg, w1, blob, unknown, h, all);
      var w' := ProcessBlob(cfg, w1, blob, unknown);
      PlacedIsWhole(w'.slots, w'.consumed + WINDOW_SIZE);
    }
  }

  lemma PlacedIsWhole<E>(slots: seq<Slot<E>>, limit: nat)
    requires Placed(slots, limit)
    ensures |slots| == WINDOW_SIZE
  {
  }

  lemma {:induction false} RepairKeeps<E>(cfg: Config, w: Win<E>, hi: nat, h: nat, arrived: seq<Blob<E>>)
    requires Inv(cfg, w, h, arrived)
    ensures Inv(cfg, w.(slots := ClearSlots(w.slots, w.consumed, hi).0), h, arrived)
  {
    var s := ClearSlots(w.slots, w.consumed, hi).0;
    forall i: nat | i < WINDOW_SIZE ensures s[i] == w.slots[i] || s[i] == w.slots[i].(data := None) {
      ClearSlotsOnlyClears(w.slots, w.consumed, hi, i);
    }
  }

  /**
   * What a repair asks for, with no end set: only indices that are missing and more than `patience`
   * behind some index heard of; and every such index within a turn of the ring.
   */
  lemma RepairAsksForGaps<E>(cfg: Config, w: Win<E>, numPeers: nat, times: nat, isNextLeader: bool, h: nat, arrived: seq<Blob<E>>)
    requires Inv(cfg, w, h, arrived) && cfg.maxIx == 0
    ensures
      var missing := ClearSlots(w.slots, w.consumed, RepairLimit(cfg, numPeers, w, times, isNextLeader)).1;
      var patience := if times >= 8 || isNextLeader then 0 else numPeers;
      (forall p: nat :: p in missing ==>
        w.consumed <= p && !Held(w.slots, p) && exists b :: b in arrived && p + patience < b.index) &&
      (forall p: nat, b | w.consumed <= p < w.consumed + WINDOW_SIZE - 1 && b in arrived && p + patience < b.index ::
        Held(w.slots, p) || p in missing)
  {
    hide ClearSlots; hide Placed; hide Delivered; hide WaitingArrived; hide NoHandoverCrossed; hide Stops; hide Held;
    PlacedIsWhole(w.slots, w.consumed + WINDOW_SIZE);
    var hi := RepairLimit(cfg, numPeers, w, times, isNextLeader);
    ClearSlotsExact(w.slots, w.consumed, hi);
    ConsumedFrom(w, h, arrived);
  }

  /** With a near end set, a repair asks for exactly what is missing up to and including it. */
  lemma RepairReachesEnd<E>(cfg: Config, w: Win<E>, numPeers: nat, times: nat, isNextLeader: bool, h: nat, arrived: seq<Blob<E>>)
    requires Inv(cfg, w, h, arrived) && 0 < cfg.maxIx < h + WINDOW_SIZE
    ensures |w.slots| == WINDOW_SIZE
    ensures forall p: nat ::
      p in ClearSlots(w.slots, w.consumed, RepairLimit(cfg, numPeers, w, times, isNextLeader)).1 <==>
        w.consumed <= p <= cfg.maxIx && !Held(w.slots, p)
  {
    hide ClearSlots; hide Placed; hide WaitingArrived; hide NoHandoverCrossed; hide Stops; hide Held; hide HeardOf;
    PlacedIsWhole(w.slots, w.consumed + WINDOW_SIZE);
    ConsumedFrom(w, h, arrived);
    ClearSlotsLists(w.slots, w.consumed, RepairLimit(cfg, numPeers, w, times, isNextLeader));
  }

  lemma ConsumedFrom<E>(w: Win<E>, h: nat, arrived: seq<Blob<E>>)
    requires Delivered(w, h, arrived)
    ensures h <= w.consumed
  {
  }

  // ---- Runs ----------------------------------------------------------------------------------------

  datatype WindowStep<+E> =
    | Arrive(blob: Blob<E>, leaderUnknown: bool)
    | Repair(numPeers: nat, times: nat, isNextLeader: bool)

  function Arrived<E>(steps: seq<WindowStep<E>>): seq<Blob<E>> {
    if steps == [] then [] else
    Arrived(steps[..|steps| - 1]) + if steps[|steps| - 1].Arrive? then [steps[|steps| - 1].blob] else []
  }

  /** A window that has consumed nothing yet: only older blobs, each in its own slot. */
  ghost predicate Fresh<E>(cfg: Config, w: Win<E>, h: nat) {
    cfg.interval > 0 && w.consumed == w.received == h && w.queue == [] && Placed(w.slots, h)
  }

  ghost function Step<E>(cfg: Config, w: Win<E>, step: WindowStep<E>): Win<E>
    requires cfg.interval > 0 && Placed(w.slots, w.consumed + WINDOW_SIZE)
  {
    match step
    case Arrive(blob, unknown) => Receive(cfg, w, blob, unknown)
    case Repair(peers, times, next) =>
      w.(slots := ClearSlots(w.slots, w.consumed, RepairLimit(cfg, peers, w, times, next)).0)
  }

  /** None would mean a step had misplaced a blob. */
  ghost function Run<E>(cfg: Config, w: Win<E>, steps: seq<WindowStep<E>>): Option<Win<E>> {
    if steps == [] then Some(w) else
    var n := |steps| - 1;
    match Run(cfg, w, steps[..n])
    case None => None
    case Some(mid) =>
      if cfg.interval > 0 && Placed(mid.slots, mid.consumed + WINDOW_SIZE) then Some(Step(cfg, mid, steps[n])) else None
  }

  function ArriveAll<E>(blobs: seq<Blob<E>>, unknown: bool): seq<WindowStep<E>> {
    seq(|blobs|, i requires 0 <= i < |blobs| => Arrive(blobs[i], unknown))
  }

  lemma {:induction false} NothingRuns<E>(cfg: Config, w: Win<E>, blobs: seq<Blob<E>>, unknown: bool)
    ensures Run(cfg, w, ArriveAll(blobs[..0], unknown)) == Some(w)
  {
  }

  lemma {:induction false} OneMoreArrives<E>(cfg: Config, w: Win<E>, blobs: seq<Blob<E>>, unknown: bool, i: nat, mid: Win<E>)
    requires i < |blobs| && Run(cfg, w, ArriveAll(blobs[..i], unknown)) == Some(mid)
    requires cfg.interval > 0 && Placed(mid.slots, mid.consumed + WINDOW_SIZE)
    ensures Run(cfg, w, ArriveAll(blobs[..i + 1], unknown)) == Some(Receive(cfg, mid, blobs[i], unknown))
  {
    hide Receive; hide Placed;
    var steps := ArriveAll(blobs[..i + 1], unknown);
    assert steps[..i] == ArriveAll(blobs[..i], unknown) && steps[i] == Arrive(blobs[i], unknown);
  }

  lemma {:induction false} RunKeepsInv<E>(cfg: Config, w: Win<E>, h: nat, steps: seq<WindowStep<E>>)
    requires Fresh(cfg, w, h)
    ensures Run(cfg, w, steps).Some? && Inv(cfg, Run(cfg, w, steps).value, h, Arrived(steps))
  {
    hide Receive; hide ClearSlots;
    if steps == [] {
      assert !Held(w.slots, h);
    } else {
      var n := |steps| - 1;
      RunKeepsInv(cfg, w, h, steps[..n]);
      var mid := Run(cfg, w, steps[..n]).value;
      match steps[n]
      case Arrive(blob, unknown) => ReceiveKeeps(cfg, mid, blob, unknown, h, Arrived(steps[..n]));
      case Repair(peers, times, next) =>
        RepairKeeps(cfg, mid, RepairLimit(cfg, peers, mid, times, next), h, Arrived(steps[..n]));
    }
  }

  // ---- Nothing accepted is lost ------------------------------------------------------------------

  /** Indices of the data blobs that arrived, wanted, while the window reached over them. */
  ghost function Accepted<E>(cfg: Config, w: Win<E>, steps: seq<WindowStep<E>>): set<nat> {
    if steps == [] then {} else
    var n := |steps| - 1;
    var before := Accepted(cfg, w, steps[..n]);
    match (steps[n], Run(cfg, w, steps[..n]))
    case (Arrive(blob, _), Some(mid)) =>
      if !blob.coding && mid.consumed <= blob.index < mid.consumed + WINDOW_SIZE && Wanted(cfg, blob.index)
      then before + {blob.index} else before
    case _ => before
  }

  predicate Decodable<E>(blob: Blob<E>) { blob.coding || blob.entry.Some? }

  /** The index is one the node still wants. */
  predicate Wanted(cfg: Config, ix: nat) { cfg.maxIx == 0 || ix <= cfg.maxIx }

  /** No end is set, or one within a turn of the ring, so that repairing up to it drops nothing that waits. */
  predicate EndIsNear(cfg: Config, h: nat) { cfg.maxIx == 0 || cfg.maxIx < h + WINDOW_SIZE }

  ghost predicate KeptOrConsumed<E>(w: Win<E>, q: nat) {
    q < w.consumed || (|w.slots| == WINDOW_SIZE && Held(w.slots, q))
  }

  lemma ReceiveAdvances<E>(cfg: Config, w: Win<E>, blob: Blob<E>, unknown: bool, h: nat, arrived: seq<Blob<E>>)
    requires Inv(cfg, w, h, arrived)
    ensures w.consumed <= Receive(cfg, w, blob, unknown).consumed
  {
    hide ProcessBlob; hide InvCore; hide Placed; hide Stops;
    NoteKeeps(cfg, w, h, arrived, blob);
    if w.consumed <= blob.index < w.consumed + WINDOW_SIZE {
      ProcessBlobKeeps(cfg, Note(w, blob), blob, unknown, h, arrived + [blob]);
    }
  }

  /** A decodable data blob that arrives inside the window is held, or already consumed. */
  lemma ArrivalIsKept<E>(cfg: Config, w: Win<E>, blob: Blob<E>, unknown: bool, h: nat, arrived: seq<Blob<E>>)
    requires Inv(cfg, w, h, arrived) && Wanted(cfg, blob.index) && !blob.coding && blob.entry.Some?
    requires w.consumed <= blob.index < w.consumed + WINDOW_SIZE
    ensures KeptOrConsumed(Receive(cfg, w, blob, unknown), blob.index)
  {
    hide Consume; hide InvCore; hide Stops; hide Placed; hide SlotOf;
    var all := arrived + [blob];
    var w1 := Note(w, blob);
    NoteKeeps(cfg, w, h, arrived, blob);
    PlacedIsWhole(w1.slots, w1.consumed + WINDOW_SIZE);
    var k, slots := SlotOf(blob.index), Insert(w1.slots, blob);
    assert blob in all;
    CoreWaiting(cfg, w1, h, all);
    InsertPlaces(w1, blob, all);
    assert Held(slots, blob.index) && slots[k].data == Some(blob);
    if !Duplicate(w1.slots, blob) {
      var w2 := w1.(slots := Mark(slots, k, unknown));
      MarkKeeps(w1.(slots := slots), k, unknown, all);
      CoreIgnoresSlots(cfg, w1, w2.slots, h, all);
      ConsumeKeeps(cfg, w2, w1.consumed + WINDOW_SIZE, h, all);
      assert Held(w2.slots, blob.index);
    }
  }

  lemma CoreWaiting<E>(cfg: Config, w: Win<E>, h: nat, arrived: seq<Blob<E>>)
    requires cfg.interval > 0 && InvCore(cfg, w, h, arrived)
    ensures WaitingArrived(w, arrived)
  {
  }

  lemma CoreIgnoresSlots<E>(cfg: Config, w: Win<E>, slots: seq<Slot<E>>, h: nat, arrived: seq<Blob<E>>)
    requires cfg.interval > 0 && InvCore(cfg, w, h, arrived) && WaitingArrived(w.(slots := slots), arrived)
    ensures InvCore(cfg, w.(slots := slots), h, arrived)
  {
    hide WaitingArrived; hide NoHandoverCrossed;
    DeliveredIgnoresSlots(w, slots, h, arrived);
  }

  /** What waits keeps waiting through any step, until consumed. */
  lemma StepKeepsWaiting<E>(cfg: Config, w: Win<E>, step: WindowStep<E>, h: nat, arrived: seq<Blob<E>>, q: nat)
    requires Inv(cfg, w, h, arrived) && EndIsNear(cfg, h) && KeptOrConsumed(w, q)
    requires forall b :: b in arrived ==> Decodable(b)
    requires step.Arrive? ==> Decodable(step.blob)
    ensures KeptOrConsumed(Step(cfg, w, step), q)
  {
    hide Receive; hide ClearSlots; hide Stops; hide SlotOf;
    match step
    case Arrive(blob, unknown) =>
      ReceiveAdvances(cfg, w, blob, unknown, h, arrived);
      if w.consumed <= q {
        WaitingNeverDisplaced(cfg, w, blob, unknown, h, arrived, q);
        assert w.slots[SlotOf(q)].data.value in arrived;
      }
    case Repair(peers, times, next) =>
      ConsumedFrom(w, h, arrived);
      if w.consumed <= q {
        PlacedAt(w.slots, w.consumed + WINDOW_SIZE, SlotOf(q));
        WaitingBlobSurvives(w.slots, w.consumed, RepairLimit(cfg, peers, w, times, next), q);
      }
  }

  /**
   * Nothing accepted is lost: with no end set or a near one, and decodable blobs, every index that arrived inside
   * the window, at any time of the run, has been consumed or is held.
   */
  lemma {:induction false} AcceptedAreKept<E>(cfg: Config, w: Win<E>, h: nat, steps: seq<WindowStep<E>>, q: nat)
    requires Fresh(cfg, w, h) && EndIsNear(cfg, h) && q in Accepted(cfg, w, steps)
    requires forall b :: b in Arrived(steps) ==> Decodable(b)
    ensures Run(cfg, w, steps).Some? && KeptOrConsumed(Run(cfg, w, steps).value, q)
  {
    hide Step; hide Inv; hide KeptOrConsumed; hide Decodable; hide Placed;
    var n := |steps| - 1;
    RunKeepsInv(cfg, w, h, steps[..n]);
    RunKeepsInv(cfg, w, h, steps);
    var mid, arrived := Run(cfg, w, steps[..n]).value, Arrived(steps[..n]);
    assert forall b :: b in arrived ==> b in Arrived(steps);
    if steps[n].Arrive? {
      assert steps[n].blob in Arrived(steps);
    }
    InvIsPlaced(cfg, mid, h, arrived);
    assert Run(cfg, w, steps).value == Step(cfg, mid, steps[n]);
    if q in Accepted(cfg, w, steps[..n]) {
      AcceptedAreKept(cfg, w, h, steps[..n], q);
      StepKeepsWaiting(cfg, mid, steps[n], h, arrived, q);
    } else {
      NewlyAccepted(cfg, mid, steps[n], h, arrived, q);
    }
  }

  lemma InvIsPlaced<E>(cfg: Config, w: Win<E>, h: nat, arrived: seq<Blob<E>>)
    requires Inv(cfg, w, h, arrived)
    ensures cfg.interval > 0 && Placed(w.slots, w.consumed + WINDOW_SIZE)
  {
  }

  lemma NewlyAccepted<E>(cfg: Config, w: Win<E>, step: WindowStep<E>, h: nat, arrived: seq<Blob<E>>, q: nat)
    requires Inv(cfg, w, h, arrived) && Wanted(cfg, q) && step.Arrive? && step.blob.index == q
    requires !step.blob.coding && Decodable(step.blob) && w.consumed <= q < w.consumed + WINDOW_SIZE
    ensures KeptOrConsumed(Step(cfg, w, step), q)
  {
    ArrivalIsKept(cfg, w, step.blob, step.leaderUnknown, h, arrived);
  }

  /**
   * In-order, exactly-once delivery: after any run of arrivals and repairs, in any order and with
   * any repetition, the queue holds one entry for each index from the starting height up to
   * `consumed`, in order, each the payload of a blob that arrived with that index; no handover
   * height has been crossed; and the next index is not waiting unless it is such a height. With no
   * end set or a near one, and decodable blobs, every wanted index that arrived inside the window has
   * been consumed or is held. A handover height is a non-zero multiple of the interval that is this
   * node's.
   */
  lemma {:induction false} DeliveryInOrderOnce<E>(cfg: Config, w: Win<E>, h: nat, steps: seq<WindowStep<E>>)
    requires Fresh(cfg, w, h)
    ensures Run(cfg, w, steps).Some? && Inv(cfg, Run(cfg, w, steps).value, h, Arrived(steps))
    ensures forall s: nat :: h <= s < Run(cfg, w, steps).value.consumed && s != 0 && s % cfg.interval == 0 ==> !cfg.mine(s)
    ensures EndIsNear(cfg, h) && (forall b :: b in Arrived(steps) ==> Decodable(b)) ==>
      forall q: nat :: q in Accepted(cfg, w, steps) ==> KeptOrConsumed(Run(cfg, w, steps).value, q)
  {
    hide Accepted; hide Run; hide Arrived; hide KeptOrConsumed; hide Decodable; hide Inv; hide Fresh;
    RunKeepsInv(cfg, w, h, steps);
    PassedAreOthers(cfg, Run(cfg, w, steps).value, h, Arrived(steps));
    if EndIsNear(cfg, h) && forall b :: b in Arrived(steps) ==> Decodable(b) {
      forall q: nat | q in Accepted(cfg, w, steps) ensures KeptOrConsumed(Run(cfg, w, steps).value, q) {
        AcceptedAreKept(cfg, w, h, steps, q);
      }
    }
  }

  lemma PassedAreOthers<E>(cfg: Config, w: Win<E>, h: nat, arrived: seq<Blob<E>>)
    requires Inv(cfg, w, h, arrived)
    ensures forall s: nat :: h <= s < w.consumed && s != 0 && s % cfg.interval == 0 ==> !cfg.mine(s)
  {
    hide Placed; hide Delivered; hide WaitingArrived; hide HeardOf; hide Settled;
    forall s: nat | h <= s < w.consumed && s != 0 && s % cfg.interval == 0 ensures !cfg.mine(s) {
      assert !Stops(cfg, s);
    }
  }

  /**
   * At a non-zero multiple of the interval, with the next blob there and readable, consuming goes on
   * exactly when the height is not this node's; at any other height it always does.
   */
  lemma {:induction false} PassesExactly<E>(cfg: Config, w: Win<E>, limit: nat)
    requires cfg.interval > 0 && Placed(w.slots, limit) && w.consumed < limit <= w.consumed + WINDOW_SIZE
    requires Held(w.slots, w.consumed) && w.slots[SlotOf(w.consumed)].data.value.entry.Some?
    ensures var multiple := w.consumed != 0 && w.consumed % cfg.interval == 0;
      Consume(cfg, w, limit).consumed > w.consumed <==> !multiple || !cfg.mine(w.consumed)
  {
    hide SlotOf;
    var e := w.slots[SlotOf(w.consumed)].data.value.entry.value;
    ConsumeAdvances(cfg, w.(consumed := w.consumed + 1, queue := w.queue + [e]), limit);
  }

  lemma {:induction false} ConsumeAdvances<E>(cfg: Config, w: Win<E>, limit: nat)
    requires cfg.interval > 0 && Placed(w.slots, limit) && w.consumed <= limit
    ensures w.consumed <= Consume(cfg, w, limit).consumed
    decreases limit - w.consumed
  {
    hide SlotOf; hide Stops;
    if w.slots[SlotOf(w.consumed)].data.Some? {
      var blob := w.slots[SlotOf(w.consumed)].data.value;
      if blob.index >= w.consumed && blob.entry.Some? {
        ConsumeAdvances(cfg, w.(consumed := w.consumed + 1, queue := w.queue + [blob.entry.value]), limit);
      }
    }
  }

  /**
   * So once the first `n` indices have all been accepted, they are delivered, or a non-zero multiple
   * of the interval that is this node's has come first.
   */
  lemma {:induction false} AcceptedAreDelivered<E>(cfg: Config, w: Win<E>, h: nat, steps: seq<WindowStep<E>>, n: nat)
    requires Fresh(cfg, w, h) && EndIsNear(cfg, h)
    requires forall b :: b in Arrived(steps) ==> Decodable(b)
    requires forall q: nat :: h <= q < h + n ==> q in Accepted(cfg, w, steps)
    ensures Run(cfg, w, steps).Some?
    ensures var w' := Run(cfg, w, steps).value;
      w'.consumed == h + |w'.queue| &&
      (|w'.queue| >= n ||
       (Stops(cfg, w'.consumed) && w'.consumed != 0 && w'.consumed % cfg.interval == 0 && cfg.mine(w'.consumed)))
  {
    hide Accepted; hide Run; hide Arrived;
    RunKeepsInv(cfg, w, h, steps);
    var w' := Run(cfg, w, steps).value;
    if w'.consumed < h + n {
      AcceptedAreKept(cfg, w, h, steps, w'.consumed);
    }
  }

  // ---- The schedule ----------------------------------------------------------------------------------

  /** `get_scheduled_leader`: whoever is set for the height, else the leader this node follows. */
  function Scheduled(schedule: map<nat, Pubkey>, leader: Pubkey, height: nat): Pubkey {
    if height in schedule then schedule[height] else leader
  }

  /**
   * With the node's own schedule: delivery passes no rotation height scheduled to it, and once the
   * first `n` indices have been accepted it has reached them all or stands at such a height.
   */
  lemma {:induction false} StandsAtOwnTurn<E>(
    cfg: Config, schedule: map<nat, Pubkey>, leader: Pubkey, me: Pubkey, w: Win<E>, h: nat, steps: seq<WindowStep<E>>, n: nat)
    requires Fresh(cfg, w, h) && EndIsNear(cfg, h) && forall s: nat :: cfg.mine(s) <==> Scheduled(schedule, leader, s) == me
    requires forall b :: b in Arrived(steps) ==> Decodable(b)
    requires forall q: nat :: h <= q < h + n ==> q in Accepted(cfg, w, steps)
    ensures Run(cfg, w, steps).Some?
    ensures var c := Run(cfg, w, steps).value.consumed;
      (forall s: nat :: h <= s < c && s != 0 && s % cfg.interval == 0 ==> Scheduled(schedule, leader, s) != me) &&
      (c >= h + n || (c != 0 && c % cfg.interval == 0 && Scheduled(schedule, leader, c) == me))
  {
    hide Accepted; hide Run; hide Arrived; hide Decodable; hide Inv; hide Stops;
    DeliveryInOrderOnce(cfg, w, h, steps);
    AcceptedAreDelivered(cfg, w, h, steps, n);
    var c := Run(cfg, w, steps).value.consumed;
    forall s: nat | h <= s < c && s != 0 && s % cfg.interval == 0 ensures Scheduled(schedule, leader, s) != me {
      assert !cfg.mine(s);
    }
  }

  // ---- An end ----------------------------------------------------------------------------------------

  /** Nothing past the end waits, and no more than the end has been consumed. */
  ghost predicate WithinEnd<E>(cfg: Config, w: Win<E>, h: nat) {
    w.consumed <= Max(h, cfg.maxIx + 1) &&
    forall i :: 0 <= i < |w.slots| && w.slots[i].data.Some? && w.slots[i].data.value.index >= w.consumed ==>
      w.slots[i].data.value.index <= cfg.maxIx
  }

  lemma {:induction false} ConsumeWithinEnd<E>(cfg: Config, w: Win<E>, limit: nat, h: nat)
    requires cfg.interval > 0 && Placed(w.slots, limit) && w.consumed <= limit <= w.consumed + WINDOW_SIZE && WithinEnd(cfg, w, h)
    ensures WithinEnd(cfg, Consume(cfg, w, limit), h)
    decreases limit - w.consumed
  {
    hide SlotOf; hide Stops;
    var k := SlotOf(w.consumed);
    if !Stops(cfg, w.consumed) && w.slots[k].data.Some? {
      SlotHoldsConsumedOrOlder(w.slots, w.consumed, limit);
      var blob := w.slots[k].data.value;
      if blob.index >= w.consumed && blob.entry.Some? {
        ConsumeWithinEnd(cfg, w.(consumed := w.consumed + 1, queue := w.queue + [blob.entry.value]), limit, h);
      }
    }
  }

  lemma ReceiveWithinEnd<E>(cfg: Config, w: Win<E>, blob: Blob<E>, unknown: bool, h: nat, arrived: seq<Blob<E>>)
    requires cfg.maxIx != 0 && Inv(cfg, w, h, arrived) && WithinEnd(cfg, w, h)
    ensures WithinEnd(cfg, Receive(cfg, w, blob, unknown), h)
  {
    hide Consume; hide InvCore; hide Stops; hide SlotOf;
    var w1 := Note(w, blob);
    if w.consumed <= blob.index < w.consumed + WINDOW_SIZE && blob.index <= cfg.maxIx {
      var slots := Insert(w1.slots, blob);
      assert WithinEnd(cfg, w1.(slots := slots), h);
      if !Duplicate(w1.slots, blob) {
        NoteKeeps(cfg, w, h, arrived, blob);
        CoreWaiting(cfg, w1, h, arrived + [blob]);
        InsertPlaces(w1, blob, arrived + [blob]);
        MarkKeeps(w1.(slots := slots), SlotOf(blob.index), unknown, arrived + [blob]);
        ConsumeWithinEnd(cfg, w1.(slots := Mark(slots, SlotOf(blob.index), unknown)), w1.consumed + WINDOW_SIZE, h);
      }
    }
  }

  /** With an end set, no run consumes past it or keeps anything beyond it. */
  lemma {:induction false} NothingPastTheEnd<E>(cfg: Config, w: Win<E>, h: nat, steps: seq<WindowStep<E>>)
    requires Fresh(cfg, w, h) && cfg.maxIx != 0
    ensures Run(cfg, w, steps).Some? && WithinEnd(cfg, Run(cfg, w, steps).value, h)
  {
    hide Receive; hide ClearSlots; hide WithinEnd; hide Inv; hide RepairLimit;
    RunKeepsInv(cfg, w, h, steps);
    if steps == [] {
      FreshWithinEnd(cfg, w, h);
    } else {
      var n := |steps| - 1;
      RunKeepsInv(cfg, w, h, steps[..n]);
      NothingPastTheEnd(cfg, w, h, steps[..n]);
      var mid := Run(cfg, w, steps[..n]).value;
      match steps[n]
      case Arrive(blob, unknown) => ReceiveWithinEnd(cfg, mid, blob, unknown, h, Arrived(steps[..n]));
      case Repair(peers, times, next) => ClearWithinEnd(cfg, mid, RepairLimit(cfg, peers, mid, times, next), h);
    }
  }

  lemma FreshWithinEnd<E>(cfg: Config, w: Win<E>, h: nat)
    requires Fresh(cfg, w, h)
    ensures WithinEnd(cfg, w, h)
  {
  }

  lemma {:induction false} ClearWithinEnd<E>(cfg: Config, w: Win<E>, hi: nat, h: nat)
    requires |w.slots| == WINDOW_SIZE && WithinEnd(cfg, w, h)
    ensures WithinEnd(cfg, w.(slots := ClearSlots(w.slots, w.consumed, hi).0), h)
  {
    var s := ClearSlots(w.slots, w.consumed, hi).0;
    forall i: nat | i < WINDOW_SIZE ensures s[i] == w.slots[i] || s[i] == w.slots[i].(data := None) {
      ClearSlotsOnlyClears(w.slots, w.consumed, hi, i);
    }
  }

  /** Once everything up to a near end has been accepted, delivery is exactly there, or at this node's turn. */
  lemma {:induction false} EndIsReached<E>(cfg: Config, w: Win<E>, h: nat, steps: seq<WindowStep<E>>)
    requires Fresh(cfg, w, h) && h <= cfg.maxIx < h + WINDOW_SIZE && cfg.maxIx != 0
    requires forall b :: b in Arrived(steps) ==> Decodable(b)
    requires forall q: nat :: h <= q <= cfg.maxIx ==> q in Accepted(cfg, w, steps)
    ensures Run(cfg, w, steps).Some?
    ensures var c := Run(cfg, w, steps).value.consumed;
      c == cfg.maxIx + 1 || (c < cfg.maxIx + 1 && c != 0 && c % cfg.interval == 0 && cfg.mine(c))
  {
    hide Accepted; hide Run; hide Arrived; hide Decodable; hide Stops;
    NothingPastTheEnd(cfg, w, h, steps);
    AcceptedAreDelivered(cfg, w, h, steps, cfg.maxIx + 1 - h);
  }

  // ---- What else a blob leaves behind ------------------------------------------------------------------

  lemma {:induction false} ConsumeKeepsMarks<E>(cfg: Config, w: Win<E>, limit: nat, i: nat)
    requires cfg.interval > 0 && Placed(w.slots, limit) && w.consumed <= limit && i < WINDOW_SIZE
    ensures var w' := Consume(cfg, w, limit);
      |w'.slots| == WINDOW_SIZE && w'.slots[i].coding == w.slots[i].coding && w'.slots[i].leaderUnknown == w.slots[i].leaderUnknown
    decreases limit - w.consumed
  {
    hide SlotOf; hide Stops;
    if w.slots[SlotOf(w.consumed)].data.Some? {
      var blob := w.slots[SlotOf(w.consumed)].data.value;
      if blob.index >= w.consumed && blob.entry.Some? {
        ConsumeKeepsMarks(cfg, w.(consumed := w.consumed + 1, queue := w.queue + [blob.entry.value]), limit, i);
      }
    }
  }

  /**
   * A blob inside the window leaves its slot's coding blob as it is, or is itself that blob; a new
   * one notes whether the leader was known when it came; no other slot's coding blob or note changes.
   */
  lemma ArrivalIsNoted<E>(cfg: Config, w: Win<E>, blob: Blob<E>, unknown: bool, i: nat)
    requires cfg.interval > 0 && Placed(w.slots, w.consumed + WINDOW_SIZE) && i < WINDOW_SIZE
    requires w.consumed <= blob.index < w.consumed + WINDOW_SIZE
    ensures
      var w' := ProcessBlob(cfg, w, blob, unknown);
      var here, slot := i == blob.index % WINDOW_SIZE, w.slots[i];
      var copy := if blob.coding then slot.coding else slot.data;
      var seen := copy.Some? && copy.value.index == blob.index;
      |w'.slots| == WINDOW_SIZE && w'.slots[i].coding == (if here && blob.coding then Some(blob) else slot.coding) &&
      w'.slots[i].leaderUnknown == if here && !seen then unknown else slot.leaderUnknown
  {
    hide Consume;
    if !Duplicate(w.slots, blob) {
      var slots := Mark(Insert(w.slots, blob), SlotOf(blob.index), unknown);
      assert Placed(slots, w.consumed + WINDOW_SIZE);
      ConsumeKeepsMarks(cfg, w.(slots := slots), w.consumed + WINDOW_SIZE, i);
    }
  }

  /** When everyone sends the same entry for an index, the queue is exactly a prefix of that stream. */
  lemma HonestDelivery<E>(cfg: Config, w: Win<E>, h: nat, arrived: seq<Blob<E>>, stream: seq<E>)
    requires Inv(cfg, w, h, arrived)
    requires forall b :: b in arrived && !b.coding && b.entry.Some? && b.index >= h ==>
      b.index - h < |stream| && b.entry.value == stream[b.index - h]
    ensures w.queue <= stream && w.consumed == h + |w.queue|
  {
    forall j | 0 <= j < |w.queue| ensures j < |stream| && w.queue[j] == stream[j] {
      var b := Blob(h + j, false, Some(w.queue[j]));
      assert b in arrived;
    }
    if w.queue != [] {
      var last := |w.queue| - 1;
      assert Blob(h + last, false, Some(w.queue[last])) in arrived;
    }
  }

  // ---- The window in place -------------------------------------------------------------------------

  /** The shared window together with the service loop's counters and output queue. */
  class WindowService<E> {
    const cfg: Config
    const slots: array<Slot<E>>
    var consumed: nat
    var received: nat
    var consumeQueue: seq<E>
    var pendingRetransmits: bool

    constructor (cfg: Config, slots: array<Slot<E>>, entryHeight: nat)
      ensures this.cfg == cfg && this.slots == slots
      ensures View() == Win(slots[..], entryHeight, entryHeight, [])
    {
      this.cfg, this.slots := cfg, slots;
      consumed, received, consumeQueue, pendingRetransmits := entryHeight, entryHeight, [], false;
    }

    ghost function View(): Win<E>
      reads this, slots
    {
      Win(slots[..], consumed, received, consumeQueue)
    }

    /** The loop of `process_blob` that pushes contiguous blobs to the queue. */
    method ConsumeContiguous(ghost limit: nat)
      requires cfg.interval > 0 && Placed(slots[..], limit) && consumed <= limit
      modifies this`consumed, this`consumeQueue, slots
      ensures View() == Consume(cfg, old(View()), limit)
    {
      ghost var w := View();
      while true
        invariant Placed(slots[..], limit) && consumed <= limit
        invariant Consume(cfg, w, limit) == Consume(cfg, View(), limit)
        decreases limit - consumed
      {
        if Stops(cfg, consumed) {
          return;
        }
        var k := SlotOf(consumed);
        if slots[k].data.None? {
          return;
        }
        var blob := slots[k].data.value;
        assert slots[..][k].data == Some(blob);
        if blob.index < consumed {
          return;
        }
        if blob.entry.None? {
          ghost var before := slots[..];
          slots[k] := slots[k].(data := None);
          assert slots[..] == before[k := before[k].(data := None)];
          return;
        }
        consumeQueue := consumeQueue + [blob.entry.value];
        consumed := consumed + 1;
      }
    }

    method InsertBlob(blob: Blob<E>, leaderUnknown: bool)
      requires cfg.interval > 0 && Placed(slots[..], consumed + WINDOW_SIZE)
      requires consumed <= blob.index < consumed + WINDOW_SIZE
      modifies this, slots
      ensures View() == ProcessBlob(cfg, old(View()), blob, leaderUnknown)
      ensures pendingRetransmits == (old(pendingRetransmits) || !Duplicate(old(slots[..]), blob))
    {
      var w := SlotOf(blob.index);
      ghost var before := slots[..];
      var slot := slots[w];
      var prior := if blob.coding then slot.coding else slot.data;
      slots[w] := if blob.coding then slot.(coding := Some(blob)) else slot.(data := Some(blob));
      assert slots[..] == Insert(before, blob);
      if prior.Some? && prior.value.index == blob.index {
        return;
      }
      slots[w] := slots[w].(leaderUnknown := leaderUnknown);
      assert slots[..] == Mark(Insert(before, blob), w, leaderUnknown);
      pendingRetransmits := true;
      ConsumeContiguous(consumed + WINDOW_SIZE);
    }

    method ReceiveBlob(blob: Blob<E>, leaderUnknown: bool)
      requires cfg.interval > 0 && Placed(slots[..], consumed + WINDOW_SIZE)
      modifies this, slots
      ensures View() == Receive(cfg, old(View()), blob, leaderUnknown)
    {
      if blob.index < consumed {
        return;
      }
      received := if blob.index > received then blob.index else received;
      if blob.index >= consumed + WINDOW_SIZE {
        return;
      }
      if cfg.maxIx != 0 && blob.index > cfg.maxIx {
        return;
      }
      InsertBlob(blob, leaderUnknown);
    }

    /** A batch of `recv_window`, blob by blob. */
    method ReceiveAll(blobs: seq<Blob<E>>, leaderUnknown: bool, ghost h: nat, ghost arrived: seq<Blob<E>>)
      requires Inv(cfg, View(), h, arrived)
      modifies this, slots
      ensures Inv(cfg, View(), h, arrived + blobs)
      ensures Some(View()) == Run(cfg, old(View()), ArriveAll(blobs, leaderUnknown))
    {
      hide Inv; hide Receive; hide Run;
      InvIsPlaced(cfg, View(), h, arrived);
      assert arrived + blobs[..0] == arrived;
      NothingRuns(cfg, View(), blobs, leaderUnknown);
      for i := 0 to |blobs|
        invariant Inv(cfg, View(), h, arrived + blobs[..i])
        invariant Some(View()) == Run(cfg, old(View()), ArriveAll(blobs[..i], leaderUnknown))
      {
        InvIsPlaced(cfg, View(), h, arrived + blobs[..i]);
        OneMoreArrives(cfg, old(View()), blobs, leaderUnknown, i, View());
        ReceiveKeeps(cfg, View(), blobs[i], leaderUnknown, h, arrived + blobs[..i]);
        ReceiveBlob(blobs[i], leaderUnknown);
        assert arrived + blobs[..i + 1] == arrived + blobs[..i] + [blobs[i]];
      }
      assert blobs[..|blobs|] == blobs;
    }

    method RepairWindow(numPeers: nat, times: nat, isNextLeader: bool) returns (missing: seq<nat>)
      requires slots.Length == WINDOW_SIZE
      modifies slots
      ensures (slots[..], missing) ==
        ClearSlots(old(slots[..]), consumed, RepairLimit(cfg, numPeers, old(View()), times, isNextLeader))
    {
      var hi := if cfg.maxIx == 0 then MaxRepair(numPeers, consumed, received, times, isNextLeader) else cfg.maxIx + 1;
      missing := [];
      var pix := consumed;
      while pix < hi
        invariant pix <= hi || hi < consumed == pix
        invariant consumed <= pix
        invariant (slots[..], missing) == ClearSlots(old(slots[..]), consumed, pix)
      {
        var i := SlotOf(pix);
        assert slots[..][i] == slots[i];
        if !(slots[i].data.Some? && slots[i].data.value.index == pix) {
          ghost var before := slots[..];
          slots[i] := slots[i].(data := None);
          assert slots[..] == before[i := before[i].(data := None)];
          missing := missing + [pix];
        }
        pix := pix + 1;
      }
    }
  }
}
