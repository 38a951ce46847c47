/**
 The invariant every driver operation keeps, and what follows from it: the published regions tile
 the buffer, increments stay in their detector's regions, and no region holds more counts than its
 detector has events.
 */
module Soundness {
  import opened Base
  import opened Events
  import opened Histogram
  import L = Layout
  import opened Stream
  import opened Driver
  import MapFile

  // ---------- the invariant ----------

  predicate MapSound(m: PixelMap) {
    m.entries.Some? ==>
      && |m.entries.value| == m.size > 0
      && forall i :: 0 <= i < |m.entries.value| ==> m.entries.value[i] <= m.bound
  }

  /** The published sizes of the detectors laid out last. */
  function RegionSizes(s: State): (r: seq<int>)
    requires Shaped(s)
    ensures |r| == s.laidOut
  {
    seq(s.laidOut, k requires 0 <= k < s.laidOut => s.dets[k + 1].region.size)
  }

  /** Detector d is published where the layout of all published sizes, with TOF range m, puts it. */
  predicate Published(s: State, d: nat, m: int)
    requires Shaped(s) && 1 <= d <= s.laidOut
  {
    var sizes, g := RegionSizes(s), s.dets[d].region;
    && g.start == L.First(sizes, m, L.PixelOf(d - 1)) && g.end == g.start + g.size - 1
    && g.tofStart == L.First(sizes, m, L.TofOf(d - 1)) && g.tofEnd == g.tofStart + m
  }

  predicate AllPublished(s: State, m: int)
    requires Shaped(s)
  {
    forall d :: 1 <= d <= s.laidOut ==> Published(s, d, m)
  }

  /** The parameter the TOF range in use was taken from. */
  function LaidRange(s: State): Int32 {
    Wrap32(s.tofMax)
  }

  /** What a successful allocation leaves, until the next attempt. */
  predicate InForce(s: State)
    requires Shaped(s)
  {
    && s.data.Some? && 1 <= s.laidOut
    && s.dataMaxSize == L.Offset(RegionSizes(s), s.laidOut) != 0
    && s.bufferMaxSize == L.Total(RegionSizes(s), LaidRange(s))
    && AllPublished(s, LaidRange(s))
  }

  /** The parameters are those the layout was made from, as while no allocation is pending. */
  predicate UpToDate(s: State)
    requires Shaped(s)
  {
    && s.tofMax == U32(s.tofMaxParam)
    && forall d :: 1 <= d <= s.laidOut ==>
         && s.dets[d].cfg.pixelSize == s.dets[d].region.size
         && s.dets[d].cfg.pixelStart <= s.dets[d].cfg.pixelEnd
  }

  predicate Sound(s: State) {
    && Shaped(s)
    && (s.data.Some? ==> |s.data.value| == s.bufferMaxSize)
    && (s.lastOk ==> InForce(s))
    && (!s.dataAlloc ==> s.lastOk && UpToDate(s))
    && s.dets[0].region.tofStart == 0
    && forall d :: 0 <= d < |s.maps| ==> MapSound(s.maps[d])
  }

  /** The state keeps its invariant and its dimensions, and allocations only add up. */
  predicate Grows(s: State, t: State) {
    && Sound(t) && |t.dets| == |s.dets| && |t.channels| == |s.channels| && t.epoch >= s.epoch
  }

  /** The regions, the TOF range and the size of the buffer are the same; no allocation was attempted. */
  predicate KeepsRegions(s: State, t: State) {
    && t.epoch == s.epoch && t.lastOk == s.lastOk && t.laidOut == s.laidOut && t.tofMax == s.tofMax
    && t.dataMaxSize == s.dataMaxSize && t.bufferMaxSize == s.bufferMaxSize
    && t.data.Some? == s.data.Some? && (t.data.Some? ==> |t.data.value| == |s.data.value|)
    && |t.dets| == |s.dets| && forall d :: 0 <= d < |s.dets| ==> t.dets[d].region == s.dets[d].region
  }

  /** The layout stays in force whatever is written: only an allocation attempt touches it. */
  lemma InForceFrame(s: State, t: State)
    requires Shaped(s) && Shaped(t) && KeepsRegions(s, t)
    ensures InForce(t) == InForce(s) && RegionSizes(t) == RegionSizes(s)
  {
    assert RegionSizes(t) == RegionSizes(s);
    forall d | 1 <= d <= s.laidOut
      ensures Published(t, d, LaidRange(t)) == Published(s, d, LaidRange(s))
    {
    }
  }

  /** Two states that agree on everything the invariant reads agree on the invariant. */
  lemma SoundFrame(s: State, t: State)
    requires Sound(s) && Shaped(t) && KeepsRegions(s, t)
    requires forall d :: 0 <= d < |t.maps| ==> MapSound(t.maps[d])
    requires !t.dataAlloc ==>
               && !s.dataAlloc && t.tofMaxParam == s.tofMaxParam
               && forall d :: 1 <= d <= s.laidOut ==>
                    && t.dets[d].cfg.pixelSize == s.dets[d].cfg.pixelSize
                    && t.dets[d].cfg.pixelStart == s.dets[d].cfg.pixelStart
                    && t.dets[d].cfg.pixelEnd == s.dets[d].cfg.pixelEnd
    ensures Sound(t)
    ensures |t.channels| == |s.channels| ==> Grows(s, t)
  {
    InForceFrame(s, t);
    hide InForce;
  }

  // ---------- allocation keeps it ----------

  /** The detector list a successful allocation leaves. */
  function PlacedAll(dets: seq<Det>, n: nat, m: int): (r: seq<Det>)
    requires n < |dets|
    ensures |r| == |dets|
  {
    PlaceTofs(PlacePixels(dets, n), n, L.Offset(Sizes(dets, n), n), m)
  }

  lemma PlacedDet(dets: seq<Det>, n: nat, m: int, d: nat)
    requires 1 <= d <= n < |dets|
    ensures var sizes, det := Sizes(dets, n), PlacedAll(dets, n, m)[d];
            && det.cfg == dets[d].cfg.(pixelSize := SizeOf(dets[d].cfg))
            && det.region.size == sizes[d - 1] == det.cfg.pixelSize
            && det.region.start == L.First(sizes, m, L.PixelOf(d - 1))
            && det.region.end == det.region.start + det.region.size - 1
            && det.region.tofStart == L.First(sizes, m, L.TofOf(d - 1)) && det.region.tofEnd == det.region.tofStart + m
  {
    hide L.Offset, SizeOf;
    assert PlacePixels(dets, n)[d] == PlacePixel(dets[d], Sizes(dets, n), d);
  }

  /** What a successful allocation changes. */
  lemma AllocateSucceeds(s: State, memory: bool)
    requires Shaped(s) && s.dataAlloc && Allocate(s, memory).1
    ensures 1 <= s.numDet && FirstBad(s.dets, 1, s.numDet) == s.numDet + 1
    ensures var sizes := Sizes(s.dets, s.numDet); var base := L.Offset(sizes, s.numDet);
            && base != 0 && Allocatable(L.Total(sizes, s.tofMaxParam))
            && Allocate(s, memory).0 == s.(tofMax := U32(s.tofMaxParam), dataMaxSize := base,
                 dets := PlacedAll(s.dets, s.numDet, s.tofMaxParam), bufferMaxSize := L.Total(sizes, s.tofMaxParam),
                 data := Some(Zeros(L.Total(sizes, s.tofMaxParam))), dataAlloc := false, laidOut := s.numDet,
                 epoch := s.epoch + 1, lastOk := true)
  {
    hide Publish, PlacedAll, Sizes, L.Offset, L.Total, Allocatable, FirstBad;
    AllocateNeedsDetectors(s, memory);
    PublishSucceeds(s);
    TotalIs(Sizes(s.dets, s.numDet), s.tofMaxParam);
  }

  lemma TotalIs(sizes: seq<int>, m: int)
    ensures L.Total(sizes, m) == L.Offset(sizes, |sizes|) + |sizes| * (m + 1)
  {
  }

  lemma PublishSucceeds(s: State)
    requires Shaped(s) && 1 <= s.numDet && FirstBad(s.dets, 1, s.numDet) == s.numDet + 1
    ensures var t := Attempt(s); var base := L.Offset(Sizes(s.dets, s.numDet), s.numDet);
            Publish(t, s.numDet) == (t.(dataMaxSize := base, dets := PlacedAll(s.dets, s.numDet, s.tofMaxParam)), true)
  {
    hide PlacePixels, PlaceTofs, Sizes, L.Offset;
  }

  lemma AllocateNeedsDetectors(s: State, memory: bool)
    requires Shaped(s) && s.dataAlloc && Allocate(s, memory).1
    ensures 1 <= s.numDet && FirstBad(s.dets, 1, s.numDet) == s.numDet + 1
  {
    assert L.Offset(Sizes(s.dets, 0), 0) == 0;
    hide PlacePixels, PlaceTofs, Sizes, L.Offset, FirstBad, Allocatable;
  }

  /** After a successful allocation the published sizes are the sizes it computed. */
  lemma AllocatePublishes(s: State, memory: bool)
    requires Shaped(s) && s.dataAlloc && Allocate(s, memory).1
    ensures var t := Allocate(s, memory).0;
            && Shaped(t) && !t.dataAlloc && t.lastOk && InForce(t) && UpToDate(t)
            && t.data == Some(Zeros(t.bufferMaxSize))
            && t.laidOut == s.numDet && RegionSizes(t) == Sizes(s.dets, s.numDet) && t.dets[0] == s.dets[0]
  {
    var t, n := Allocate(s, memory).0, s.numDet;
    AllocateSucceeds(s, memory);
    WrapU32(s.tofMaxParam);
    assert t.dets[0] == s.dets[0];
    hide Allocate, PlacedAll, L.Offset, L.First, Published, Sizes, RegionSizes, Wrap32, U32;
    PlacedSizes(s.dets, t);
    forall d | 1 <= d <= n
      ensures Published(t, d, t.tofMaxParam) && t.dets[d].cfg.pixelSize == t.dets[d].region.size
              && t.dets[d].cfg.pixelStart <= t.dets[d].cfg.pixelEnd
    {
      PlacedPublished(s.dets, t, d);
    }
  }

  lemma PlacedSizes(dets: seq<Det>, t: State)
    requires Shaped(t) && |dets| == |t.dets| && t.dets == PlacedAll(dets, t.laidOut, t.tofMaxParam)
    ensures RegionSizes(t) == Sizes(dets, t.laidOut)
  {
    hide PlacedAll, SizeOf, L.First;
    forall k | 0 <= k < t.laidOut
      ensures RegionSizes(t)[k] == Sizes(dets, t.laidOut)[k]
    {
      PlacedDet(dets, t.laidOut, t.tofMaxParam, k + 1);
    }
  }

  lemma PlacedPublished(dets: seq<Det>, t: State, d: nat)
    requires Shaped(t) && 1 <= d <= t.laidOut && |dets| == |t.dets|
             && t.dets == PlacedAll(dets, t.laidOut, t.tofMaxParam)
    requires dets[d].cfg.pixelStart <= dets[d].cfg.pixelEnd
    ensures Published(t, d, t.tofMaxParam) && t.dets[d].cfg.pixelSize == t.dets[d].region.size
            && t.dets[d].cfg.pixelStart <= t.dets[d].cfg.pixelEnd
  {
    hide PlacedAll, SizeOf, L.First;
    PlacedSizes(dets, t);
    PlacedDet(dets, t.laidOut, t.tofMaxParam, d);
  }

  lemma AllocateSound(s: State, memory: bool)
    requires Sound(s)
    ensures Grows(s, Allocate(s, memory).0)
    ensures var (t, ok) := Allocate(s, memory);
            && (ok <==> !t.dataAlloc)
            && (!s.dataAlloc ==> t == s)
            && (s.dataAlloc ==> t.epoch == s.epoch + 1 && t.lastOk == ok)
            && (s.dataAlloc && ok ==> t.data == Some(Zeros(t.bufferMaxSize)))
  {
    if s.dataAlloc {
      if Allocate(s, memory).1 {
        AllocatePublishes(s, memory);
        AllocateSucceeds(s, memory);
      } else {
        AllocateFails(s, memory);
      }
      hide Allocate, InForce, UpToDate, PlacedAll;
    }
  }

  lemma PublishKeepsAddressZero(s: State, n: nat)
    requires n < |s.dets|
    ensures var t := Publish(s, n).0; |t.dets| == |s.dets| && t.dets[0] == s.dets[0]
  {
    hide FirstBad, Sizes, L.Offset, SizeOf;
  }

  /** A failed allocation leaves the old buffer or none, and stays pending. */
  lemma AllocateFails(s: State, memory: bool)
    requires Shaped(s) && s.dataAlloc && !Allocate(s, memory).1
    ensures var t := Allocate(s, memory).0;
            && t == s.(tofMax := U32(s.tofMaxParam), dataMaxSize := t.dataMaxSize, dets := t.dets, data := t.data,
                       bufferMaxSize := t.bufferMaxSize, epoch := s.epoch + 1, lastOk := false)
            && |t.dets| == |s.dets| && t.dets[0] == s.dets[0]
            && (t.data == None || (t.data == s.data && t.bufferMaxSize == s.bufferMaxSize))
  {
    PublishKeepsAddressZero(Attempt(s), Max(s.numDet, 0));
    hide PlacePixels, PlaceTofs, Sizes, L.Offset, FirstBad, Allocatable;
  }

  // ---------- the other operations keep it ----------

  lemma WipeSound(s: State)
    requires Sound(s)
    ensures Grows(s, Wipe(s))
  {
    SoundFrame(s, Wipe(s));
  }

  lemma ClearSound(s: State)
    requires Sound(s)
    ensures Grows(s, Clear(s))
  {
    SoundFrame(s, Clear(s));
  }

  lemma ResetTofSound(s: State, addr: nat)
    requires Sound(s) && addr < |s.dets|
    ensures Grows(s, ResetTof(s, addr))
  {
    SoundFrame(s, ResetTof(s, addr));
  }

  lemma SnapshotSound(s: State)
    requires Sound(s)
    ensures Grows(s, Snapshot(s).0)
  {
    SoundFrame(s, Snapshot(s).0);
  }

  lemma StampSound(s: State, c: nat, stamp: Option<Stamp>)
    requires Sound(s) && c < |s.channels|
    ensures Grows(s, StampSection(s, c, stamp).0)
  {
    SoundFrame(s, StampSection(s, c, stamp).0);
  }

  lemma IntegrateSound(s: State, n: nat, p: Packet, newPulse: bool)
    requires Sound(s) && n <= MaxDets(s) && Complete(p) && s.data.Some?
    ensures Grows(s, Integrate(s, n, p, newPulse))
  {
    SoundFrame(s, Integrate(s, n, p, newPulse));
  }

  lemma SetParamKeepsLayout(c: Config, p: Param, v: Int32)
    requires !IsLayout(p)
    ensures var d := SetParam(c, p, v);
            d.pixelStart == c.pixelStart && d.pixelEnd == c.pixelEnd && d.pixelSize == c.pixelSize
  {
  }

  lemma WriteDetSound(s: State, addr: nat, p: Param, v: Int32)
    requires Sound(s) && addr < |s.dets|
    ensures Grows(s, WriteDet(s, addr, p, v).0)
  {
    if !IsLayout(p) {
      SetParamKeepsLayout(s.dets[addr].cfg, p, v);
    }
    hide SetParam;
    SoundFrame(s, WriteDet(s, addr, p, v).0);
  }

  lemma WriteTofMaxSound(s: State, v: Int32)
    requires Sound(s)
    ensures Grows(s, WriteTofMax(s, v).0)
  {
    SoundFrame(s, WriteTofMax(s, v).0);
  }

  lemma WriteCountsSound(s: State, v: Int32)
    requires Sound(s)
    ensures Grows(s, WriteNumDet(s, v).0) && Grows(s, WriteNumChannels(s, v).0) && Grows(s, s.(paused := v))
  {
    SoundFrame(s, WriteNumDet(s, v).0);
    SoundFrame(s, WriteNumChannels(s, v).0);
    SoundFrame(s, s.(paused := v));
  }

  /** Parameters outside the layout do not matter to the invariant. */
  lemma WithDetSound(s: State, addr: nat, det: Det)
    requires Sound(s) && addr < |s.dets|
    requires det.region == s.dets[addr].region && det.cfg.pixelSize == s.dets[addr].cfg.pixelSize
    requires det.cfg.pixelStart == s.dets[addr].cfg.pixelStart && det.cfg.pixelEnd == s.dets[addr].cfg.pixelEnd
    ensures Grows(s, s.(dets := s.dets[addr := det]))
  {
    SoundFrame(s, s.(dets := s.dets[addr := det]));
  }

  lemma WithStatusSound(s: State, status: Status)
    requires Sound(s)
    ensures Grows(s, s.(status := status))
  {
    SoundFrame(s, s.(status := status));
  }

  lemma WriteAllocSpaceSound(s: State, memory: bool)
    requires Sound(s)
    ensures Grows(s, WriteAllocSpace(s, memory).0)
  {
    if s.status != Acquire {
      AllocateSound(s, memory);
      SoundFrame(Allocate(s, memory).0, WriteAllocSpace(s, memory).0);
    }
  }

  // ---------- pixel maps ----------

  /** A load keeps the map invariant; a load that does not install a map leaves none, so that an
      enabled mapping is the plain offset; an installed map is bounded by the size in force. */
  lemma LoadMapSound(m: PixelMap, size: Int32, f: File, memory: bool)
    requires MapSound(m)
    ensures var (m', ok) := LoadMap(m, size, f, memory);
            && MapSound(m')
            && (m'.entries.Some? ==> m'.bound == U32(size) && f.Text? && m'.entries == MapFile.Load(f.text, m'.size))
            && (m'.entries.None? ==> forall l: Lens, e: Event :: l.pixelMap == LoadedMap(m') && InRange(l, e) ==>
               MappedIndex(l, e) == Offset(l, e))
  {
  }

  lemma WriteMapFileSound(s: State, addr: nat, f: File, memory: bool)
    requires Sound(s) && addr < |s.dets|
    ensures Grows(s, WriteMapFile(s, addr, f, memory).0)
  {
    LoadMapSound(s.maps[addr], s.dets[addr].cfg.pixelSize, f, memory);
    var t := WriteMapFile(s, addr, f, memory).0;
    SoundFrame(s, t);
  }

  // ---------- the published regions tile the buffer ----------

  /** The buffer is the one the published regions were made for. An allocation may be pending. */
  predicate Held(s: State) {
    && Shaped(s) && s.data.Some? && L.NonNegative(RegionSizes(s))
    && |s.data.value| == L.Total(RegionSizes(s), s.tofMax) && AllPublished(s, s.tofMax)
  }

  /** The last allocation attempted succeeded, and with sizes that are not negative, as every layout
      statement assumes. Another one may be pending. */
  predicate Laid(s: State): (r: bool)
    ensures r ==> Held(s)
  {
    Sound(s) && s.lastOk && L.NonNegative(RegionSizes(s)) && s.tofMax < 0x8000_0000
  }

  /** Cell i is in the published region r. */
  predicate Owns(s: State, r: L.RegionId, i: int)
    requires r.det + 1 < |s.dets|
  {
    var g := s.dets[r.det + 1].region;
    if r.PixelOf? then g.start <= i <= g.end else g.tofStart <= i <= g.tofEnd
  }

  ghost predicate Owned(s: State, i: int)
    requires Shaped(s)
  {
    exists r: L.RegionId :: r.det < s.laidOut && Owns(s, r, i)
  }

  lemma OwnsIsInside(s: State, r: L.RegionId, i: int)
    requires Held(s) && r.det < s.laidOut
    ensures Owns(s, r, i) == L.Inside(RegionSizes(s), s.tofMax, r, i)
  {
    assert Published(s, r.det + 1, s.tofMax);
  }

  /** Whenever the buffer is the one the regions were made for, the published pixel and TOF regions of
      the detectors laid out cover exactly its cells, each cell once. */
  lemma PublishedRegionsTile(s: State)
    requires Held(s)
    ensures forall i :: Owned(s, i) <==> 0 <= i < |s.data.value|
    ensures forall i, q: L.RegionId, r: L.RegionId ::
              q.det < s.laidOut && r.det < s.laidOut && Owns(s, q, i) && Owns(s, r, i) ==> q == r
  {
    var sizes, m := RegionSizes(s), s.tofMax;
    L.RegionsTile(sizes, m);
    forall i, r: L.RegionId | r.det < s.laidOut
      ensures Owns(s, r, i) == L.Inside(sizes, m, r, i)
    {
      OwnsIsInside(s, r, i);
    }
    forall i
      ensures Owned(s, i) <==> 0 <= i < |s.data.value|
    {
      assert Owned(s, i) <==> L.Covered(sizes, m, i);
    }
  }

  // ---------- increments stay in their detector's regions ----------

  /** The handler's copy of detector d has the regions published now. */
  predicate AtRegion(s: State, d: nat)
    requires Shaped(s) && 1 <= d <= MaxDets(s)
  {
    s.snaps[d].start == s.dets[d].region.start && s.snaps[d].tofStart == s.dets[d].region.tofStart
  }

  /** The configuration detector d was copied with confines it to the size of its region. */
  ghost predicate Usable(s: State, d: nat)
    requires Shaped(s) && 1 <= d <= MaxDets(s)
  {
    Confined(ViewOf(s, d).lens, s.dets[d].region.size)
  }

  /** The n detectors of a packet are laid out, their copies have the regions, and they are usable. */
  ghost predicate Ready(s: State, n: nat)
    requires Shaped(s)
  {
    n <= s.laidOut && forall d :: 1 <= d <= n ==> AtRegion(s, d) && Usable(s, d)
  }

  /** Each increment made for detector d lands in d's own pixel or TOF region. */
  predicate Contained(s: State, d: nat, e: Event, carry: int)
    requires Shaped(s) && 1 <= d <= MaxDets(s)
  {
    var v := ViewOf(s, d);
    && (PixelCell(v.lens, e, carry).Some? ==>
          Owns(s, L.PixelOf(d - 1), v.start + PixelCell(v.lens, e, carry).value))
    && (TofCell(v.lens, e).Some? ==> Owns(s, L.TofOf(d - 1), v.tofStart + TofCell(v.lens, e).value))
  }

  /** The cells of the published pixel region, and the TOF range it was published for. */
  function PixelCells(s: State, d: nat): int
    requires d < |s.dets|
  {
    s.dets[d].region.end - s.dets[d].region.start + 1
  }

  function TofRange(s: State, d: nat): int
    requires d < |s.dets|
  {
    s.dets[d].region.tofEnd - s.dets[d].region.tofStart
  }

  /** The increments of detector d fit its published regions, whatever the buffer. */
  ghost predicate FitsRegions(s: State, d: nat)
    requires Shaped(s) && 1 <= d <= MaxDets(s)
  {
    Confined(ViewOf(s, d).lens, PixelCells(s, d)) && s.tofMax <= TofRange(s, d)
  }

  lemma FittingIsContained(s: State, d: nat, e: Event, carry: nat)
    requires Shaped(s) && 1 <= d <= MaxDets(s) && AtRegion(s, d) && FitsRegions(s, d)
    ensures Defined(ViewOf(s, d).lens, e) && Contained(s, d, e, carry)
  {
    CellsInside(ViewOf(s, d).lens, e, carry, PixelCells(s, d));
    hide PixelCell, TofCell, Confined, Defined;
  }

  lemma UsableFits(s: State, d: nat)
    requires Held(s) && 1 <= d <= s.laidOut && Usable(s, d)
    ensures FitsRegions(s, d)
  {
    assert Published(s, d, s.tofMax);
  }

  /** Each increment made for detector d lands in d's own pixel or TOF region, also while an allocation
      is pending. */
  lemma IncrementsContained(s: State, d: nat, e: Event, carry: nat)
    requires Held(s) && 1 <= d <= s.laidOut && AtRegion(s, d) && Usable(s, d)
    ensures Defined(ViewOf(s, d).lens, e) && Contained(s, d, e, carry)
  {
    UsableFits(s, d);
    FittingIsContained(s, d, e, carry);
    hide Contained, Defined, Held;
  }

  /** First and one past last cell of a region. */
  function Lo(s: State, r: L.RegionId): int
    requires r.det + 1 < |s.dets|
  {
    var g := s.dets[r.det + 1].region;
    if r.PixelOf? then g.start else g.tofStart
  }

  function Hi(s: State, r: L.RegionId): int
    requires r.det + 1 < |s.dets|
  {
    var g := s.dets[r.det + 1].region;
    if r.PixelOf? then g.end + 1 else g.tofEnd + 1
  }

  lemma RegionBounds(s: State, r: L.RegionId)
    requires Held(s) && r.det < s.laidOut
    ensures 0 <= Lo(s, r) <= Hi(s, r) <= |s.data.value|
    ensures forall i :: Owns(s, r, i) <==> Lo(s, r) <= i < Hi(s, r)
  {
    assert Published(s, r.det + 1, s.tofMax);
    L.RegionInBuffer(RegionSizes(s), s.tofMax, r);
  }

  /** How a detector weighs on a region: not at all on another's, at most once on its own. */
  lemma WeightOn(s: State, d: nat, r: L.RegionId, e: Event, carry: nat)
    requires Held(s) && 1 <= d <= s.laidOut && AtRegion(s, d) && Usable(s, d) && r.det < s.laidOut
    ensures var v, w := ViewOf(s, d), Weight(ViewOf(s, d), e, carry, Lo(s, r), Hi(s, r));
            && (r.det != d - 1 ==> w == 0)
            && (r.det == d - 1 ==> w == if r.PixelOf? then (if PixelCell(v.lens, e, carry).Some? then 1 else 0)
                                        else (if TofCell(v.lens, e).Some? then 1 else 0))
  {
    var v := ViewOf(s, d);
    IncrementsContained(s, d, e, carry);
    PublishedRegionsTile(s);
    RegionBounds(s, r);
    hide PixelCell, TofCell, ViewOf, Owned, Held, Usable;
  }

  /** Over a packet, only detector d + 1 touches region r of detector d + 1. */
  lemma RegionHasOneOwner(s: State, n: nat, r: L.RegionId)
    requires Held(s) && Ready(s, n) && r.det < s.laidOut
    ensures OnlyOne(Views(s, n), r.det, Lo(s, r), Hi(s, r))
    ensures r.PixelOf? && r.det < n && PlainXY(ViewOf(s, r.det + 1).lens) ==>
            Always(Views(s, n)[r.det], Lo(s, r), Hi(s, r))
  {
    RisingViews(s, n);
    forall j, e: Event, carry: nat | 0 <= j < n
      ensures var v, w := Views(s, n)[j], Weight(Views(s, n)[j], e, carry, Lo(s, r), Hi(s, r));
              && (j != r.det ==> w == 0)
              && (j == r.det ==> w <= if InRange(v.lens, e) then 1 else 0)
              && (j == r.det && r.PixelOf? && PlainXY(v.lens) ==> w == if InRange(v.lens, e) then 1 else 0)
    {
      WeightOn(s, j + 1, r, e, carry);
    }
    hide Weight, ViewOf, Held, Usable, Rising;
  }

  // ---------- conservation ----------

  /** Counts held by a region. */
  function RegionSum(s: State, r: L.RegionId): nat
    requires Laid(s) && r.det < s.laidOut
  {
    RegionBounds(s, r);
    Sum(s.data.value, Lo(s, r), Hi(s, r))
  }

  /** No region holds more counts than its detector has events. */
  predicate Conserves(s: State) {
    Laid(s) ==> forall d :: 1 <= d <= s.laidOut ==>
      && RegionSum(s, L.PixelOf(d - 1)) <= s.totals[d]
      && RegionSum(s, L.TofOf(d - 1)) <= s.totals[d]
  }

  /** Same layout, and no cell larger than before. */
  predicate NoGrowth(s: State, t: State) {
    && Laid(s) && Laid(t) && t.laidOut == s.laidOut && |t.data.value| == |s.data.value|
    && (forall d :: 1 <= d <= s.laidOut ==> t.dets[d].region == s.dets[d].region)
    && (forall i :: 0 <= i < |s.data.value| ==> t.data.value[i] <= s.data.value[i])
  }

  lemma SumsShrink(s: State, t: State, r: L.RegionId)
    requires NoGrowth(s, t) && r.det < s.laidOut
    ensures RegionSum(t, r) <= RegionSum(s, r)
    ensures t.data == s.data ==> RegionSum(t, r) == RegionSum(s, r)
  {
    assert t.dets[r.det + 1].region == s.dets[r.det + 1].region;
    RegionBounds(s, r);
    SumMono(t.data.value, s.data.value, Lo(s, r), Hi(s, r));
  }

  lemma ConservesFrame(s: State, t: State)
    requires Conserves(s) && (Laid(t) ==> NoGrowth(s, t) && t.totals == s.totals)
    ensures Conserves(t)
  {
    if Laid(t) {
      forall d | 1 <= d <= t.laidOut
        ensures RegionSum(t, L.PixelOf(d - 1)) <= t.totals[d] && RegionSum(t, L.TofOf(d - 1)) <= t.totals[d]
      {
        SumsShrink(s, t, L.PixelOf(d - 1));
        SumsShrink(s, t, L.TofOf(d - 1));
      }
    }
  }

  lemma ZeroConserves(s: State)
    requires s.data.Some? ==> s.data.value == Zeros(|s.data.value|)
    ensures Conserves(s)
    ensures Laid(s) ==> forall r: L.RegionId :: r.det < s.laidOut ==> RegionSum(s, r) == 0
  {
    if Laid(s) {
      forall r: L.RegionId | r.det < s.laidOut
        ensures RegionSum(s, r) == 0
      {
        RegionBounds(s, r);
        SumZero(s.data.value, Lo(s, r), Hi(s, r));
      }
    }
  }

  lemma LaidFrame(s: State, t: State)
    requires Sound(s) && Sound(t) && KeepsRegions(s, t)
    ensures Laid(t) == Laid(s)
  {
    InForceFrame(s, t);
    hide InForce;
  }

  /** An X/Y detector without TOF filter. */
  predicate PlainXY(l: Lens) {
    l.cfg.plotType == 0 && l.cfg.tofRoiOn == 0
  }

  /** What integration leaves where it was, and what it writes. */
  lemma IntegrateKeepsRegions(s: State, n: nat, p: Packet, newPulse: bool)
    requires Laid(s) && n <= MaxDets(s) && Complete(p)
    ensures var t := Integrate(s, n, p, newPulse);
            && Laid(t) && t.laidOut == s.laidOut && t.dets == s.dets && t.totals == NewTotals(s, n, EventsOf(p))
            && t.data == Some(StrikeAll(Tally(s.data.value, 0), Views(s, n), EventsOf(p)).cells)
  {
    var t := Integrate(s, n, p, newPulse);
    IntegrateSound(s, n, p, newPulse);
    hide StrikeAll, NewTotals, Views, EventsOf;
    LaidFrame(s, t);
  }

  lemma SumOfRegion(s: State, r: L.RegionId)
    requires Laid(s) && r.det < s.laidOut
    ensures 0 <= Lo(s, r) <= Hi(s, r) <= |s.data.value| && RegionSum(s, r) == Sum(s.data.value, Lo(s, r), Hi(s, r))
  {
    RegionBounds(s, r);
  }

  /** Integrating a packet adds to a region of detector d at most the events in d's range, and to
      the pixel region of an X/Y detector without TOF filter exactly those. */
  lemma IntegrateSums(s: State, n: nat, p: Packet, newPulse: bool, r: L.RegionId)
    requires Laid(s) && Ready(s, n) && Complete(p) && r.det < s.laidOut
    ensures var t, d := Integrate(s, n, p, newPulse), r.det + 1;
            && Laid(t)
            && 0 <= RegionSum(t, r) - RegionSum(s, r) <= t.totals[d] - s.totals[d]
            && (r.PixelOf? && PlainXY(ViewOf(s, d).lens) ==>
               RegionSum(t, r) - RegionSum(s, r) == t.totals[d] - s.totals[d])
  {
    var t, d := Integrate(s, n, p, newPulse), r.det + 1;
    assert r.det + 1 < |s.totals|;
    hide StrikeAll, Sum, Laid, Ready, Matches, ViewOf, Views, Integrate, RegionSum, EventsOf;
    PacketGain(s, n, EventsOf(p), r);
    IntegratedSum(s, n, p, newPulse, r);
    assert t.totals[d] == s.totals[d] + if d <= n then Matches(ViewOf(s, d).lens, EventsOf(p)) else 0;
  }

  /** A packet adds to the two regions of an X/Y detector with at most one filter on, taken together,
      at least its events in range and on scale. */
  lemma IntegrateLosesNothing(s: State, n: nat, p: Packet, newPulse: bool, d: nat)
    requires Laid(s) && Ready(s, n) && Complete(p) && 1 <= d <= n
    requires var c := ViewOf(s, d).lens.cfg; c.plotType == 0 && (c.tofRoiOn == 0 || c.roiOn == 0)
    ensures var t, q, r := Integrate(s, n, p, newPulse), L.PixelOf(d - 1), L.TofOf(d - 1);
            && Laid(t)
            && RegionSum(t, q) + RegionSum(t, r)
               >= RegionSum(s, q) + RegionSum(s, r) + SumOf(OnScaleCount(ViewOf(s, d).lens), EventsOf(p))
  {
    assert d <= n <= s.laidOut;
    hide StrikeAll, Sum, SumOf, Laid, Ready, ViewOf, Integrate, RegionSum, EventsOf;
    PacketKeeps(s, n, EventsOf(p), d);
    IntegratedSum(s, n, p, newPulse, L.PixelOf(d - 1));
    IntegratedSum(s, n, p, newPulse, L.TofOf(d - 1));
  }

  /** The sum of a region before and after a packet, in terms of the loop. */
  lemma IntegratedSum(s: State, n: nat, p: Packet, newPulse: bool, r: L.RegionId)
    requires Laid(s) && Ready(s, n) && Complete(p) && r.det < s.laidOut
    ensures var t, es := Integrate(s, n, p, newPulse), EventsOf(p);
            && 0 <= Lo(s, r) <= Hi(s, r) <= |s.data.value| && n <= MaxDets(s) && Laid(t) && t.laidOut == s.laidOut
            && RegionSum(s, r) == Sum(s.data.value, Lo(s, r), Hi(s, r))
            && RegionSum(t, r) == Sum(StrikeAll(Tally(s.data.value, 0), Views(s, n), es).cells, Lo(s, r), Hi(s, r))
            && t.totals == NewTotals(s, n, es)
  {
    assert n <= s.laidOut <= MaxDets(s);
    hide StrikeAll, Sum, Laid, Ready, Views, NewTotals, Integrate, RegionSum, EventsOf;
    IntegrateKeepsRegions(s, n, p, newPulse);
    SumOfRegion(s, r);
    SumOfRegion(Integrate(s, n, p, newPulse), r);
  }

  /** What a packet adds to the two regions of detector d, in terms of the loop. */
  lemma PacketKeeps(s: State, n: nat, es: seq<Event>, d: nat)
    requires Held(s) && Ready(s, n) && 1 <= d <= n
    requires var c := ViewOf(s, d).lens.cfg; c.plotType == 0 && (c.tofRoiOn == 0 || c.roiOn == 0)
    ensures var q, r := L.PixelOf(d - 1), L.TofOf(d - 1);
            && 0 <= Lo(s, q) <= Hi(s, q) <= |s.data.value| && 0 <= Lo(s, r) <= Hi(s, r) <= |s.data.value|
            && var cells := StrikeAll(Tally(s.data.value, 0), Views(s, n), es).cells;
               Sum(cells, Lo(s, q), Hi(s, q)) + Sum(cells, Lo(s, r), Hi(s, r))
               >= Sum(s.data.value, Lo(s, q), Hi(s, q)) + Sum(s.data.value, Lo(s, r), Hi(s, r))
                  + SumOf(OnScaleCount(ViewOf(s, d).lens), es)
  {
    assert AtRegion(s, d) && Usable(s, d);
    var q, r := L.PixelOf(d - 1), L.TofOf(d - 1);
    hide StrikeAll, Sum, SumOf, Held, Ready, ViewOf, Keeps, Rising, Usable, AtRegion;
    RegionsKeep(s, d);
    RisingViews(s, n);
    RegionBounds(s, q);
    RegionBounds(s, r);
    StrikeAllKeeps(Tally(s.data.value, 0), Views(s, n), es, d - 1, Lo(s, q), Hi(s, q), Lo(s, r), Hi(s, r));
  }

  lemma RisingViews(s: State, n: nat)
    requires Shaped(s) && Ready(s, n)
    ensures Rising(Views(s, n))
  {
    forall j | 0 <= j < n
      ensures Rises(Views(s, n)[j].lens)
    {
      assert Usable(s, j + 1);
      ConfinedRises(ViewOf(s, j + 1).lens, s.dets[j + 1].region.size);
    }
  }

  lemma RegionsKeep(s: State, d: nat)
    requires Held(s) && 1 <= d <= s.laidOut && AtRegion(s, d) && Usable(s, d)
    requires var c := ViewOf(s, d).lens.cfg; c.plotType == 0 && (c.tofRoiOn == 0 || c.roiOn == 0)
    ensures var q, r := L.PixelOf(d - 1), L.TofOf(d - 1);
            Keeps(ViewOf(s, d), Lo(s, q), Hi(s, q), Lo(s, r), Hi(s, r))
  {
    var v, q, r := ViewOf(s, d), L.PixelOf(d - 1), L.TofOf(d - 1);
    hide ViewOf, Held, Usable, AtRegion, Lo, Hi, Weight, PixelCell, TofCell;
    forall e: Event, carry: nat
      ensures Weight(v, e, carry, Lo(s, q), Hi(s, q)) + Weight(v, e, carry, Lo(s, r), Hi(s, r))
              >= OnScaleCount(v.lens)(e)
    {
      WeightOn(s, d, q, e, carry);
      WeightOn(s, d, r, e, carry);
      if InRange(v.lens, e) && TofOnScale(v.lens, TofValue(v.lens, e)) { NoEventLost(v.lens, e, carry); }
    }
  }

  /** A packet that is ready for the buffer makes the loop do nothing undefined, also while an
      allocation is pending. */
  lemma {:induction false} ReadyIsSafe(s: State, n: nat, es: seq<Event>)
    requires Held(s) && Ready(s, n)
    ensures LoopSafe(Tally(s.data.value, 0), Views(s, n), es)
  {
    if es != [] {
      var k, vs, t := |es| - 1, Views(s, n), Tally(s.data.value, 0);
      ReadyIsSafe(s, n, es[..k]);
      RisingViews(s, n);
      CarryRisesAll(t, vs, es[..k]);
      hide Held, Ready, StrikeAll, ViewOf, Rising;
      ReadyEvent(s, n, StrikeAll(t, vs, es[..k]), n, es[k]);
      assert vs[..n] == vs;
    }
  }

  lemma {:induction false} ReadyEvent(s: State, n: nat, t: Tally, k: nat, e: Event)
    requires Held(s) && Ready(s, n) && |t.cells| == |s.data.value| && 0 <= t.carry && k <= n
    ensures EventSafe(t, Views(s, n)[..k], e)
    decreases k
  {
    if k > 0 {
      var vs := Views(s, n);
      ReadyEvent(s, n, t, k - 1, e);
      assert vs[..k][..k - 1] == vs[..k - 1];
      RisingViews(s, n);
      CarryRises(t, vs[..k - 1], e);
      ReadyPair(s, n, k, e, StrikeEvent(t, vs[..k - 1], e).carry);
      hide Held, Ready, Safe, StrikeEvent, ViewOf;
    }
  }

  lemma ReadyPair(s: State, n: nat, d: nat, e: Event, carry: nat)
    requires Held(s) && Ready(s, n) && 1 <= d <= n
    ensures Safe(ViewOf(s, d), e, carry, |s.data.value|)
  {
    assert AtRegion(s, d) && Usable(s, d);
    IncrementsContained(s, d, e, carry);
    RegionBounds(s, L.PixelOf(d - 1));
    RegionBounds(s, L.TofOf(d - 1));
    hide Held, Ready, PixelCell, TofCell, Usable;
  }

  /** What a packet adds to the sum of a region, in terms of the loop. */
  lemma PacketGain(s: State, n: nat, es: seq<Event>, r: L.RegionId)
    requires Held(s) && Ready(s, n) && r.det < s.laidOut
    ensures 0 <= Lo(s, r) <= Hi(s, r) <= |s.data.value|
    ensures var gain := Sum(StrikeAll(Tally(s.data.value, 0), Views(s, n), es).cells, Lo(s, r),
            Hi(s, r)) - Sum(s.data.value, Lo(s, r), Hi(s, r));
            var matches := if r.det < n then Matches(ViewOf(s, r.det + 1).lens, es) else 0;
            && 0 <= gain <= matches
            && (r.PixelOf? && PlainXY(ViewOf(s, r.det + 1).lens) ==> gain == matches)
  {
    RegionHasOneOwner(s, n, r);
    RegionBounds(s, r);
    hide StrikeAll, Sum, OnlyOne, Always, Held, Ready, Matches, ViewOf, PlainXY;
    StrikeAllSum(Tally(s.data.value, 0), Views(s, n), es, r.det, Lo(s, r), Hi(s, r));
  }
}
