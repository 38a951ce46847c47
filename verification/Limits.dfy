/**
 Where the guarantees stop: the inputs the code lets through that break containment, and the exact
 conditions under which it holds.
 */
module Limits {
  import opened Base
  import opened Events
  import opened Histogram
  import opened Stream
  import opened Driver
  import opened Soundness
  import opened Acquisition
  import opened Runs
  import opened Arith
  import L = Layout

  // ---------- pixel maps ----------

  /** The event with the k-th pixel ID of the detector's range. */
  function NthPixel(l: Lens, k: nat): Event {
    Event(U32(l.cfg.pixelStart) + k, 0)
  }

  /** checkPixelMap admits an entry equal to the size. With a checked map that covers the range,
      mapped indices stay inside the size iff no entry in use equals it. */
  lemma CheckedMapInsideIff(l: Lens, entries: seq<nat>)
    requires l.cfg.mapOn != 0 && l.pixelMap == Some(entries) && 0 <= l.cfg.pixelSize
    requires MapPasses(entries, l.cfg.pixelSize)
    requires U32(l.cfg.pixelEnd) < U32(l.cfg.pixelStart) + |entries|
    ensures IndexInside(l) <==>
              forall k :: 0 <= k < |entries| && InRange(l, NthPixel(l, k)) ==> entries[k] != l.cfg.pixelSize
  {
    if IndexInside(l) {
      forall k | 0 <= k < |entries| && InRange(l, NthPixel(l, k))
        ensures entries[k] != l.cfg.pixelSize
      {
        assert MappedIndex(l, NthPixel(l, k)) == entries[k];
      }
    } else {
      var e: Event :| InRange(l, e) && MappedIndex(l, e) >= l.cfg.pixelSize;
      var k := Offset(l, e);
      assert entries[k] == l.cfg.pixelSize && InRange(l, NthPixel(l, k));
    }
  }

  /** checkPixelMap does not look at the length of the map: every event is defined, without a read past
      the end of the map, if and only if the map covers the pixel range. */
  lemma DefinedIffMapCovers(l: Lens)
    requires Divides(l)
    ensures MapCovers(l) <==> forall e: Event :: Defined(l, e)
  {
    if !MapCovers(l) {
      var e := NthPixel(l, |l.pixelMap.value|);
      assert InRange(l, e) && !ReadsMap(l, e);
      assert !Defined(l, e);
    }
  }

  // ---------- when increments stay in the regions ----------

  /** The X/Y filter lets the TOF of some pixel of the range be counted. */
  ghost predicate TofCounted(l: Lens) {
    exists e: Event :: InRange(l, e) && (l.cfg.roiOn == 0 || l.cfg.mapOn == 0 || PixelRoiPasses(l, MappedIndex(l, e)))
  }

  /** All increments made for detector d are defined and land in its own published regions. */
  ghost predicate AllContained(s: State, d: nat)
    requires Shaped(s) && 1 <= d <= MaxDets(s)
  {
    forall e: Event, carry: nat :: Defined(ViewOf(s, d).lens, e) && Contained(s, d, e, carry)
  }

  /** In any state, with an allocation pending, failed or never made: all increments of a detector whose
      copy has the published regions stay in them if and only if its configuration confines it to its
      pixel region and, where TOF is counted at all, the TOF range in use is at most the published one. */
  lemma ContainedIff(s: State, d: nat)
    requires Shaped(s) && 1 <= d <= MaxDets(s) && AtRegion(s, d) && 0 <= PixelCells(s, d)
    requires Plain(ViewOf(s, d).lens)
    ensures AllContained(s, d) <==>
              && Confined(ViewOf(s, d).lens, PixelCells(s, d))
              && (TofCounted(ViewOf(s, d).lens) ==> s.tofMax <= TofRange(s, d))
  {
    var l, b := ViewOf(s, d).lens, PixelCells(s, d);
    StaysInIffConfined(l, b);
    if AllContained(s, d) {
      forall e: Event, carry: nat
        ensures Lands(l, e, carry, b)
      {
        assert Contained(s, d, e, carry);
      }
      if TofCounted(l) { TofReachesTheEnd(s, d); }
    } else if Confined(l, b) && (TofCounted(l) ==> s.tofMax <= TofRange(s, d)) {
      forall e: Event, carry: nat
        ensures Defined(l, e) && Contained(s, d, e, carry)
      {
        CellsInside(l, e, carry, b);
        assert TofCell(l, e).Some? ==> TofCounted(l);
        hide PixelCell, TofCell, Confined, Defined, TofCounted;
      }
    }
    hide Confined, StaysIn, TofCounted, Plain;
  }

  /** In every run, whatever was written, allocated or refused: if no allocation was attempted since the copy
      of a job, the increments of each of its detectors stay in the published regions exactly then. */
  lemma ContainedIffInEveryRun(maxDets: nat, maxChannels: nat, transform: Transform, ls: seq<Label>, c: nat, d: nat)
    requires 1 <= maxChannels
    requires var y := Run(Init(maxDets, maxChannels, transform), ls);
             && c < |y.jobs| && y.jobs[c] != NoJob && y.jobs[c].epoch == y.s.epoch && 1 <= d <= y.jobs[c].dets
             && 0 <= PixelCells(y.s, d) && Plain(ViewOf(y.s, d).lens)
    ensures var s := Run(Init(maxDets, maxChannels, transform), ls).s;
            AllContained(s, d) <==>
              && Confined(ViewOf(s, d).lens, PixelCells(s, d))
              && (TofCounted(ViewOf(s, d).lens) ==> s.tofMax <= TofRange(s, d))
  {
    var y := Run(Init(maxDets, maxChannels, transform), ls);
    assert Copies(y.s, y.jobs[c].dets);
    hide Run, Init, Sound, Fresh, AllContained, Confined, TofCounted, Plain;
    ContainedIff(y.s, d);
  }

  lemma TofReachesTheEnd(s: State, d: nat)
    requires Shaped(s) && 1 <= d <= MaxDets(s) && AtRegion(s, d)
    requires ViewOf(s, d).lens.cfg.transType == 0 && TofCounted(ViewOf(s, d).lens) && AllContained(s, d)
    ensures s.tofMax <= TofRange(s, d)
  {
    var l := ViewOf(s, d).lens;
    var e: Event :| InRange(l, e)
        && (l.cfg.roiOn == 0 || l.cfg.mapOn == 0 || PixelRoiPasses(l, MappedIndex(l, e)));
    var f := Event(e.pixel, s.tofMax);
    assert InRange(l, f) && MappedIndex(l, f) == MappedIndex(l, e) && TofValue(l, f) == s.tofMax as real;
    assert TofCell(l, f) == Some(s.tofMax);
    assert Contained(s, d, f, 0);
  }

  /** With a map that covers the range, all increments of an X/Y detector to its image stay in its pixel
      region if and only if all mapped indices are below its size, whatever is done to the TOF value. */
  lemma ContainedIffIndexInside(s: State, d: nat)
    requires Held(s) && 1 <= d <= s.laidOut && AtRegion(s, d)
    requires PlainXY(ViewOf(s, d).lens) && MapCovers(ViewOf(s, d).lens)
    ensures MappedBelow(ViewOf(s, d).lens, s.dets[d].region.size) <==>
              forall e: Event :: InRange(ViewOf(s, d).lens, e) ==>
                Owns(s, L.PixelOf(d - 1), ViewOf(s, d).start + PixelCell(ViewOf(s, d).lens, e, 0).value)
  {
    var v := ViewOf(s, d);
    assert Published(s, d, s.tofMax);
    forall e: Event | InRange(v.lens, e)
      ensures Owns(s, L.PixelOf(d - 1), v.start + PixelCell(v.lens, e, 0).value)
              <==> MappedIndex(v.lens, e) < s.dets[d].region.size
    {
      assert PixelCell(v.lens, e, 0) == Some(MappedIndex(v.lens, e));
    }
    hide Held, PixelCell, MappedIndex, ViewOf;
  }

  // ---------- row length ----------

  /** A Y/TOF plot of a detector whose row length is negative: the rows count downwards, and an event
      that is not in row 0 is counted before the start of its region. */
  lemma NegativeRowLengthCountsBackwards(s: State, d: nat, e: Event, carry: int)
    requires Held(s) && 1 <= d <= s.laidOut && AtRegion(s, d)
    requires var l := ViewOf(s, d).lens;
             && l.cfg.plotType == 2 && l.cfg.sizeX < 0 && l.tofMax >= 1 && l.cfg.pixelSize >= 1
             && UsesTofPlot(l, e) && -(l.cfg.sizeX as int) <= MappedIndex(l, e) && Bin(l, TofValue(l, e)) < Bins(l)
    ensures var v := ViewOf(s, d); var c := PixelCell(v.lens, e, carry);
            c.Some? && c.value < 0 && !Owns(s, L.PixelOf(d - 1), v.start + c.value)
  {
    var v := ViewOf(s, d);
    var l, i, t := v.lens, MappedIndex(v.lens, e), TofValue(v.lens, e);
    var n := -(l.cfg.sizeX as int);
    DivGe(i, n, 1);
    MulLe(1, i / n, Bins(l));
    assert TofIndex(l, i, t, carry) == -(i / n) * Bins(l) + Bin(l, t);
    assert -(i / n) * Bins(l) == -((i / n) * Bins(l));
    assert Published(s, d, s.tofMax);
    hide Held, Bin, Bins, MappedIndex, TofValue;
  }

  /** An entry equal to the size sends an X/Y event into the region that follows the detector's own. */
  lemma EntryAtSizeHitsNextRegion(s: State, d: nat, e: Event, carry: nat)
    requires Held(s) && 1 <= d <= s.laidOut && AtRegion(s, d)
    requires var l := ViewOf(s, d).lens; PlainXY(l) && InRange(l, e) && MappedIndex(l, e) == s.dets[d].region.size
    ensures var v := ViewOf(s, d); var c := PixelCell(v.lens, e, carry);
            && c.Some? && !Owns(s, L.PixelOf(d - 1), v.start + c.value)
            && exists r: L.RegionId :: r.det < s.laidOut && r != L.PixelOf(d - 1) && Owns(s, r, v.start + c.value)
  {
    var v := ViewOf(s, d);
    var c := PixelCell(v.lens, e, carry);
    assert Published(s, d, s.tofMax) && c == Some(s.dets[d].region.size);
    var cell := v.start + c.value;
    L.RegionsFollow(RegionSizes(s), s.tofMax, L.PixelOf(d - 1), L.TofOf(d - 1));
    L.RegionInBuffer(RegionSizes(s), s.tofMax, L.TofOf(d - 1));
    RegionBounds(s, L.PixelOf(d - 1));
    hide PixelCell, Held;
    PublishedRegionsTile(s);
    assert Owned(s, cell);
    var r: L.RegionId :| r.det < s.laidOut && Owns(s, r, cell);
  }

  // ---------- detectors that are not laid out ----------

  /** Writing the detector count asks for no allocation, so a packet can use a detector that has no
      regions; its X/Y events then land in detector 1. */
  lemma DetectorBeyondLayoutHitsTheFirst(s: State, v: Int32, d: nat, e: Event, carry: nat)
    requires Held(s) && s.status != Acquire && 1 <= s.laidOut < d <= v <= MaxDets(s)
    requires s.dets[d].region == Region(0, 0, 0, 0, 0) && s.dets[d].cfg.roiSizeX > 0
    requires FirstNarrow(s.dets, 1, v) == v + 1
    requires var t := Snapshot(WriteNumDet(s, v).0).0;
             var l := ViewOf(t, d).lens;
             PlainXY(l) && InRange(l, e) && MappedIndex(l, e) < s.dets[1].region.size
    ensures var t := Snapshot(WriteNumDet(s, v).0).0;
            && Held(t) && PixelCell(ViewOf(t, d).lens, e, carry).Some?
            && Owns(t, L.PixelOf(0), ViewOf(t, d).start + PixelCell(ViewOf(t, d).lens, e, carry).value)
  {
    var u := WriteNumDet(s, v).0;
    var t := Snapshot(u).0;
    assert t.snaps[d] == SnapOf(s.dets[d]);
    InForceFrame(s, t);
    forall k | 1 <= k <= s.laidOut
      ensures Published(t, k, t.tofMax)
    {
      assert Published(s, k, s.tofMax);
    }
    assert Published(t, 1, t.tofMax);
    hide FirstNarrow;
  }

  /** A TOF reset of a detector that is no longer laid out clears cells of those that are. */
  lemma StaleTofResetClearsOthers(s: State, a: nat, i: nat)
    requires Held(s) && s.laidOut < a <= MaxDets(s) && s.tofMax > 0
    requires 0 < s.dets[a].region.tofStart <= i <= s.dets[a].region.tofStart + s.tofMax && i < |s.data.value|
    ensures Owned(s, i) && ResetTof(s, a).data.value[i] == 0
  {
    PublishedRegionsTile(s);
  }

  // ---------- a size written before its allocation ----------

  /** While an allocation is pending, a packet copies the new size but the old regions: an X/Y event
      whose index is inside the new size only leaves its detector's region. */
  lemma PendingSizeEscapesRegion(s: State, d: nat, size: Int32, e: Event, carry: nat)
    requires Held(s) && s.status != Acquire && 1 <= d <= s.numDet && d <= s.laidOut
    requires FirstNarrow(s.dets, 1, s.numDet) == s.numDet + 1
    requires var t := Snapshot(WriteDet(s, d, PixelSize, size).0).0;
             var l := ViewOf(t, d).lens;
             PlainXY(l) && InRange(l, e) && s.dets[d].region.size <= MappedIndex(l, e) < size
    ensures var t := Snapshot(WriteDet(s, d, PixelSize, size).0).0;
            && t.dataAlloc && ViewOf(t, d).lens.cfg.pixelSize == size
            && PixelCell(ViewOf(t, d).lens, e, carry).Some?
            && !Owns(t, L.PixelOf(d - 1), ViewOf(t, d).start + PixelCell(ViewOf(t, d).lens, e, carry).value)
  {
    var u := WriteDet(s, d, PixelSize, size).0;
    var t := Snapshot(u).0;
    SameWidths(s.dets, u.dets, 1, s.numDet);
    assert t.snaps[d] == SnapOf(u.dets[d]);
    assert Published(s, d, s.tofMax);
    hide FirstNarrow;
  }

  lemma {:induction false} SameWidths(a: seq<Det>, b: seq<Det>, k: nat, n: nat)
    requires 1 <= k <= n + 1 && n < |a| == |b|
    requires forall i :: 0 <= i < |a| ==> a[i].cfg.roiSizeX == b[i].cfg.roiSizeX
    ensures FirstNarrow(a, k, n) == FirstNarrow(b, k, n)
    decreases n + 1 - k
  {
    if k <= n && a[k].cfg.roiSizeX > 0 { SameWidths(a, b, k + 1, n); }
  }

  // ---------- an allocation that fails ----------

  /** A failed allocation that leaves the buffer has taken the TOF range over and published no TOF region. */
  lemma FailureKeepsTofs(s: State, memory: bool, d: nat)
    requires Shaped(s) && s.dataAlloc && 1 <= d <= MaxDets(s)
    requires !Allocate(s, memory).1 && Allocate(s, memory).0.data.Some?
    ensures var t := Allocate(s, memory).0;
            Shaped(t) && |t.dets| == |s.dets| && t.tofMax == U32(s.tofMaxParam) && TofRange(t, d) == TofRange(s, d)
  {
    hide Sizes, L.Offset, FirstBad, SizeOf, PlaceTofs;
  }

  /** After any failed allocation that leaves the buffer, for want of detectors or for an empty pixel range,
      the increments of a detector whose TOF is counted stay in its published regions if and only if its
      configuration confines it and the TOF range asked for is at most the published one. */
  lemma FailedAllocationContainedIff(s: State, memory: bool, d: nat)
    requires Shaped(s) && s.dataAlloc && 1 <= d <= MaxDets(s) && !Allocate(s, memory).1
    requires var t := Allocate(s, memory).0;
             && Shaped(t) && |t.dets| == |s.dets| && t.data.Some? && AtRegion(t, d) && 0 <= PixelCells(t, d)
             && Plain(ViewOf(t, d).lens) && TofCounted(ViewOf(t, d).lens)
    ensures var t := Allocate(s, memory).0;
            AllContained(t, d) <==>
              Confined(ViewOf(t, d).lens, PixelCells(t, d)) && U32(s.tofMaxParam) <= TofRange(s, d)
  {
    hide Allocate, AllContained, TofCounted, Confined, Plain, AtRegion;
    FailureKeepsTofs(s, memory, d);
    ContainedIff(Allocate(s, memory).0, d);
  }

  lemma LastRegionEnds(s: State)
    requires Held(s) && 1 <= s.laidOut
    ensures s.dets[s.laidOut].region.tofEnd + 1 == |s.data.value|
  {
    var n, m := s.laidOut, s.tofMax;
    assert Published(s, n, m);
    assert (n - 1) * (m + 1) + m + 1 == n * (m + 1);
  }

  /** An allocation for no detectors fails. After it an event beyond the old TOF range counts outside its
      TOF region; one of the last detector counts outside the buffer, and so does a TOF reset of that
      detector. */
  lemma RaisedRangeEscapes(s: State, memory: bool, d: nat, e: Event, carry: nat)
    requires Held(s) && s.dataAlloc && s.numDet == 0 && 1 <= d <= s.laidOut && AtRegion(s, d)
    requires var t := s.(tofMax := U32(s.tofMaxParam));
             var cell := TofCell(ViewOf(t, d).lens, e);
             cell.Some? && s.tofMax < cell.value
    ensures var (t, ok) := Allocate(s, memory);
            && !ok && Shaped(t) && |t.dets| == |s.dets| && t.data == s.data && !Contained(t, d, e, carry)
            && (d == s.laidOut ==> !SafeTof(ViewOf(t, d), e, |t.data.value|))
            && (d == s.laidOut && s.tofMax < t.tofMax && 0 < s.dets[d].region.tofStart ==> !ResetInside(t, d))
  {
    assert s.dets[d].region.tofEnd == s.dets[d].region.tofStart + s.tofMax by { assert Published(s, d, s.tofMax); }
    LastRegionEnds(s);
    hide TofCell, PixelCell, Held, ReadsMap, Publish, NewBuffer;
    assert ViewOf(Allocate(s, memory).0, d) == ViewOf(s.(tofMax := U32(s.tofMaxParam)), d);
  }

  /** A packet of one event, pixel 0 and TOF 3. */
  function LatePacket(): Packet {
    Packet(Some(Stamp(0, 0)), Some(0.0), Some([0]), Some([3]))
  }

  /** One detector of one pixel with TOF values up to 1. */
  function OnePixelRun(): seq<Label> {
    [Client(SetNumDet(1))] + [Client(OnDet(1, SetDet(RoiSizeX, 1)))] + [Client(SetTofMax(1))]
  }

  /** It is allocated, and a packet is copied. */
  function CopyRun(): seq<Label> {
    [Client(AllocSpace(true))] + [OfHandler(0, Deliver(LatePacket()))]
  }

  /** TOF values up to 5 are asked for, then an allocation for no detectors. */
  function FailRun(): seq<Label> {
    [Client(SetTofMax(5))] + [Client(SetNumDet(0))] + [Client(AllocSpace(true))]
  }

  /** The packet goes on. */
  function CheckRun(): seq<Label> {
    [OfHandler(0, StampPacket)] + [OfHandler(0, CheckPacket)]
  }

  function OnePixelConfig(size: Int32): Config {
    Config(0, 0, size, 0, 0, 0, 0, 0, 0, 0, 0.0, 1.0, 0, 0, 1, 0, 1, 0)
  }

  /** The driver before the allocation. */
  predicate OnePixelReady(s: State) {
    && Shaped(s) && s.dataAlloc && s.numDet == 1 && s.tofMaxParam == 1 && 1 <= MaxDets(s) && s.status == Idle
    && s.dets[1].cfg == OnePixelConfig(0) && s.maps[1] == PixelMap(None, 0, 0)
    && s.channels[0] == Cleared && s.paused == 0 && s.epoch == 0
  }

  /** And after it. */
  predicate OnePixelLaid(s: State) {
    && Shaped(s) && s.numDet == 1 && 1 <= MaxDets(s) && s.status == Idle
    && s.dets[1].cfg == OnePixelConfig(1) && s.dets[1].region == Region(0, 0, 1, 1, 2)
    && s.maps[1] == PixelMap(None, 0, 0) && s.channels[0] == Cleared && s.paused == 0
    && s.data == Some(Zeros(3)) && s.dataMaxSize == 1 && s.tofMax == 1 && s.epoch == 1 && s.lastOk
  }

  lemma OnePixelSizes(dets: seq<Det>)
    requires 2 <= |dets| && dets[1].cfg == OnePixelConfig(0)
    ensures FirstBad(dets, 1, 1) == 2 && Sizes(dets, 1) == [1]
    ensures L.Offset(Sizes(dets, 1), 1) == 1 && L.Total(Sizes(dets, 1), 1) == 3
  {
    hide *;
    FirstPixelOnly();
    OnePixelRange(dets, dets[1].cfg);
    OnePixelTotal();
  }

  lemma FirstPixelOnly()
    ensures OnePixelConfig(0).pixelStart == OnePixelConfig(0).pixelEnd == OnePixelConfig(0).pixelSize == 0
  {
  }

  lemma OnePixelRange(dets: seq<Det>, c: Config)
    requires 2 <= |dets| && dets[1].cfg == c && c.pixelStart == c.pixelEnd == c.pixelSize == 0
    ensures FirstBad(dets, 1, 1) == 2 && Sizes(dets, 1) == [1]
  {
    hide Wrap32;
    assert SizeOf(c) == 1;
  }

  lemma OnePixelTotal()
    ensures L.Offset([1], 1) == 1 && L.Total([1], 1) == 3
  {
    assert L.Offset([1], 1) == L.Offset([1], 0) + 1;
  }

  lemma OnePixelSucceeds(s: State)
    requires OnePixelReady(s)
    ensures Allocate(s, true).1
  {
    assert Shaped(s) && s.dataAlloc && s.numDet == 1 && s.tofMaxParam == 1 && s.dets[1].cfg == OnePixelConfig(0);
    hide OnePixelReady, OnePixelConfig, FirstBad, Sizes, L.Offset, L.Total, PlacePixels, PlaceTofs;
    OnePixelSizes(s.dets);
  }

  lemma OnePixelFirsts()
    ensures L.First([1], 1, L.PixelOf(0)) == 0 && L.First([1], 1, L.TofOf(0)) == 1
  {
    assert L.Offset([1], 1) == L.Offset([1], 0) + 1;
  }

  lemma OnePixelPlaced(dets: seq<Det>)
    requires 2 <= |dets| && dets[1].cfg == OnePixelConfig(0)
    ensures var placed := PlacedAll(dets, 1, 1);
            && placed[1].cfg == dets[1].cfg.(pixelSize := 1) && placed[1].region == Region(0, 0, 1, 1, 2)
  {
    hide *;
    PlacedDet(dets, 1, 1, 1);
    OnePixelSizes(dets);
    OnePixelFirsts();
  }

  lemma OnePixelLays(s: State)
    requires OnePixelReady(s)
    ensures Allocate(s, true).1 && OnePixelLaid(Allocate(s, true).0)
  {
    hide Allocate, PlacedAll, FirstBad, Sizes, L.Offset, L.Total;
    OnePixelSizes(s.dets);
    OnePixelSucceeds(s);
    AllocateSucceeds(s, true);
    OnePixelPlaced(s.dets);
  }

  /** A write that is no command changes the driver only. */
  lemma ClientOnly(y: System, w: Write)
    requires Formed(y) && !w.Start? && !w.Stop?
    ensures Step(y, Client(w)) == y.(s := ClientWrite(y.s, w))
  {
    hide Sound, ClientWrite, JobFormed;
  }

  lemma OnePixelRuns(maxDets: nat, maxChannels: nat, transform: Transform)
    requires 1 <= maxDets && 1 <= maxChannels
    ensures var y := Run(Init(maxDets, maxChannels, transform), OnePixelRun());
            OnePixelReady(y.s) && 1 <= |y.jobs| && y.jobs[0] == NoJob
  {
    var y := Init(maxDets, maxChannels, transform);
    var a := [Client(SetNumDet(1))];
    var b := a + [Client(OnDet(1, SetDet(RoiSizeX, 1)))];
    assert [] + [Client(SetNumDet(1))] == a;
    RunStep(y, [], Client(SetNumDet(1)));
    RunStep(y, a, Client(OnDet(1, SetDet(RoiSizeX, 1))));
    RunStep(y, b, Client(SetTofMax(1)));
    assert Run(y, []) == y;
    hide Run, Formed, Fresh, Sound;
  }

  lemma CopyRuns(y: System)
    requires Formed(y) && Fresh(y) && OnePixelReady(y.s) && y.jobs[0] == NoJob
    ensures var z := Run(y, CopyRun());
            && OnePixelLaid(z.s) && z.s.snaps[1] == SnapOf(z.s.dets[1])
            && 1 <= |z.jobs| && z.jobs[0] == Copied(LatePacket(), false, 1, 1)
  {
    var a := [Client(AllocSpace(true))];
    assert [] + a == a;
    RunStep(y, [], Client(AllocSpace(true)));
    RunStep(y, a, OfHandler(0, Deliver(LatePacket())));
    assert Run(y, []) == y;
    hide Run, Fresh, Formed, ClientWrite, Step, OnePixelReady, OnePixelLaid;
    OnePixelWrite(y.s);
    ClientOnly(y, AllocSpace(true));
    CopyOne(Run(y, a), LatePacket());
  }

  lemma OnePixelWrite(s: State)
    requires Sound(s) && OnePixelReady(s)
    ensures OnePixelLaid(ClientWrite(s, AllocSpace(true)))
  {
    hide Allocate, Sound, OnePixelLaid;
    OnePixelLays(s);
  }

  lemma CopyOne(y: System, p: Packet)
    requires Formed(y) && OnePixelLaid(y.s) && 1 <= |y.jobs| && y.jobs[0] == NoJob
    ensures var z := Step(y, OfHandler(0, Deliver(p)));
            && OnePixelLaid(z.s) && z.s.snaps[1] == SnapOf(z.s.dets[1])
            && 1 <= |z.jobs| && z.jobs[0] == Copied(p, false, 1, 1)
  {
    assert FirstNarrow(y.s.dets, 1, 1) == 2;
    hide Sound, JobFormed;
  }

  lemma FailRuns(y: System)
    requires Formed(y) && Fresh(y) && y.s.status == Idle
    ensures var z := Run(y, FailRun());
            z == y.(s := y.s.(tofMaxParam := 5, dataAlloc := true, numDet := 0, tofMax := 5, epoch := y.s.epoch + 1,
                              lastOk := false, status := Error))
  {
    var a := [Client(SetTofMax(5))];
    var b := a + [Client(SetNumDet(0))];
    assert [] + a == a;
    RunStep(y, [], Client(SetTofMax(5)));
    RunStep(y, a, Client(SetNumDet(0)));
    RunStep(y, b, Client(AllocSpace(true)));
    assert Run(y, []) == y;
    RaiseThenFail(y.s);
    hide Run, Fresh, Sound, Step, JobFormed, ClientWrite;
    ClientOnly(y, SetTofMax(5));
    ClientOnly(Run(y, a), SetNumDet(0));
    ClientOnly(Run(y, b), AllocSpace(true));
  }

  lemma RaiseThenFail(s: State)
    requires Sound(s) && s.status == Idle
    ensures var t := ClientWrite(s, SetTofMax(5));
            Sound(t) &&
            var u := ClientWrite(t, SetNumDet(0));
            Sound(u) &&
            ClientWrite(u, AllocSpace(true)) == s.(tofMaxParam := 5, dataAlloc := true, numDet := 0, tofMax := 5,
              epoch := s.epoch + 1, lastOk := false, status := Error)
  {
    WriteTofMaxSound(s, 5);
    var t := ClientWrite(s, SetTofMax(5));
    WriteCountsSound(t, 0);
    hide Sound, Publish, NewBuffer, WriteOnDet;
  }

  lemma StampLate(y: System)
    requires Formed(y) && 1 <= |y.jobs| && y.jobs[0] == Copied(LatePacket(), false, 1, 1)
    requires y.s.channels[0] == Cleared
    ensures var z := Step(y, OfHandler(0, StampPacket));
            && z.s == y.s.(channels := z.s.channels) && |z.jobs| == |y.jobs|
            && z.jobs[0].Stamped? && z.jobs[0] == Stamped(LatePacket(), false, 1, 1, z.jobs[0].newPulse)
  {
    hide Sound, JobFormed;
  }

  lemma CheckLate(y: System)
    requires Formed(y) && 1 <= |y.jobs| && y.s.data.Some? && y.s.dataMaxSize == 1
    requires y.jobs[0].Stamped? && y.jobs[0] == Stamped(LatePacket(), false, 1, 1, y.jobs[0].newPulse)
    ensures var z := Step(y, OfHandler(0, CheckPacket));
            && z.s == y.s && |z.jobs| == |y.jobs|
            && z.jobs[0].Checked? && z.jobs[0] == Checked(LatePacket(), false, 1, 1, z.jobs[0].newPulse)
  {
    hide Sound, JobFormed;
  }

  lemma CheckRuns(y: System)
    requires Formed(y) && Fresh(y) && 1 <= |y.jobs| && y.jobs[0] == Copied(LatePacket(), false, 1, 1)
    requires y.s.channels[0] == Cleared && y.s.data.Some? && y.s.dataMaxSize == 1
    ensures var z := Run(y, CheckRun());
            && z.s == y.s.(channels := z.s.channels) && |z.jobs| == |y.jobs|
            && z.jobs[0].Checked? && z.jobs[0] == Checked(LatePacket(), false, 1, 1, z.jobs[0].newPulse)
  {
    var a := [OfHandler(0, StampPacket)];
    assert [] + a == a;
    RunStep(y, [], OfHandler(0, StampPacket));
    RunStep(y, a, OfHandler(0, CheckPacket));
    assert Run(y, []) == y;
    hide Run, Fresh, Sound, JobFormed, Step, LatePacket;
    StampLate(y);
    CheckLate(Run(y, a));
  }

  /** What the failing continuation leaves of the state it starts from. */
  lemma FailThenCheck(y: System)
    requires Formed(y) && Fresh(y) && OnePixelLaid(y.s) && 1 <= |y.jobs|
    requires y.jobs[0] == Copied(LatePacket(), false, 1, 1)
    ensures var z := Run(y, FailRun() + CheckRun());
            && z.s == y.s.(tofMaxParam := 5, dataAlloc := true, numDet := 0, tofMax := 5, epoch := 2, lastOk := false,
                           status := Error, channels := z.s.channels)
            && |z.jobs| == |y.jobs| && z.jobs[0].Checked?
            && z.jobs[0] == Checked(LatePacket(), false, 1, 1, z.jobs[0].newPulse)
  {
    hide Run, FailRun, CheckRun, Fresh, Sound, LatePacket, JobFormed;
    RunConcat(y, FailRun(), CheckRun());
    FailRuns(y);
    CheckRuns(Run(y, FailRun()));
  }

  /** From the constructed driver: a run in which no allocation succeeds after a packet is copied, one
      fails, buffer and regions are those of the copy, and still neither the integration of the packet
      nor a TOF reset of its detector is inside the buffer. */
  lemma FailedAllocationBreaksContainment(maxDets: nat, maxChannels: nat, transform: Transform)
    requires 1 <= maxDets && 1 <= maxChannels
    ensures var x := Init(maxDets, maxChannels, transform);
            var copy, fail := OnePixelRun() + CopyRun(), FailRun() + CheckRun();
            var y, z := Run(x, copy), Run(x, copy + fail);
            && 1 <= |y.jobs| == |z.jobs| && y.jobs[0].Copied? && z.jobs[0].Checked? && y.s.lastOk && !z.s.lastOk
            && z.jobs[0].epoch == y.s.epoch == z.s.epoch - 1
            && z.s.data == y.s.data && z.s.dets == y.s.dets && z.s.snaps == y.s.snaps
            && !StepDefined(z, OfHandler(0, IntegratePacket)) && !StepDefined(z, Client(OnDet(1, TofReset)))
  {
    var x, copy, fail := Init(maxDets, maxChannels, transform), OnePixelRun() + CopyRun(), FailRun() + CheckRun();
    hide Run, Init, OnePixelRun, CopyRun, FailRun, CheckRun, Fresh, OnePixelReady, Sound, StepDefined,
        LatePacket, JobFormed, OnePixelConfig;
    OnePixelRuns(maxDets, maxChannels, transform);
    RunConcat(x, OnePixelRun(), CopyRun());
    RunConcat(x, copy, fail);
    CopyRuns(Run(x, OnePixelRun()));
    FailThenCheck(Run(x, copy));
    LateStepsUndefined(Run(x, copy + fail));
  }

  lemma LateStepsUndefined(z: System)
    requires Formed(z) && 1 <= |z.jobs| && z.jobs[0].Checked? && !z.jobs[0].paused && z.jobs[0].dets == 1
    requires z.jobs[0].packet == LatePacket()
    requires 1 <= MaxDets(z.s) && z.s.data == Some(Zeros(3)) && z.s.tofMax == 5
    requires z.s.dets[1].cfg == OnePixelConfig(1) && z.s.maps[1] == PixelMap(None, 0, 0)
    requires z.s.dets[1].region == Region(0, 0, 1, 1, 2) && z.s.snaps[1] == SnapOf(z.s.dets[1])
    ensures !StepDefined(z, OfHandler(0, IntegratePacket)) && !StepDefined(z, Client(OnDet(1, TofReset)))
  {
    hide InForce, UpToDate, MapSound, LoopSafe, Views, LatePacket, OnePixelConfig;
    LateEventEscapes(z.s);
  }

  lemma LateEventEscapes(s: State)
    requires Shaped(s) && 1 <= MaxDets(s) && s.data == Some(Zeros(3)) && s.tofMax == 5
    requires s.dets[1].cfg == OnePixelConfig(1) && s.maps[1] == PixelMap(None, 0, 0)
    requires s.dets[1].region == Region(0, 0, 1, 1, 2) && s.snaps[1] == SnapOf(s.dets[1])
    ensures !LoopSafe(Tally(s.data.value, 0), Views(s, 1), EventsOf(LatePacket())) && !ResetInside(s, 1)
  {
    var v, es := ViewOf(s, 1), EventsOf(LatePacket());
    assert es == [Event(0, 3)] && Views(s, 1)[0] == v;
    assert TofCell(v.lens, es[0]) == Some(3);
    assert !SafeTof(v, es[0], 3);
    hide SafePixel, SafeTof;
  }
}
