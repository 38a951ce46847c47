/**
 One detector of many against the same detector alone: two drivers run side by side, the second with
 every write to another detector sent to address 0, which no detector uses.
 */
module Independence {
  import opened Base
  import opened Arith
  import opened Events
  import opened Histogram
  import opened Stream
  import opened Driver
  import opened Soundness
  import opened Acquisition
  import opened Runs
  import opened Conservation
  import L = Layout

  // ---------- the lone driver ----------

  /** How many detectors the lone driver has when the other has n. */
  function Lone(n: int, d: nat): Int32 {
    if n >= d then 1 else 0
  }

  /** The step the lone driver takes: detector d is its detector 1, the others are its address 0. */
  function Alone(l: Label, d: nat, maxDets: nat): Label {
    if l.Client? && l.write.OnDet? && l.write.addr <= maxDets then
      Client(OnDet(if l.write.addr == d then 1 else 0, l.write.write))
    else if l.Client? && l.write.SetNumDet? && l.write.value <= maxDets then
      Client(SetNumDet(Lone(l.write.value, d)))
    else l
  }

  function AllAlone(ls: seq<Label>, d: nat, maxDets: nat): (r: seq<Label>)
    ensures |r| == |ls|
  {
    seq(|ls|, i requires 0 <= i < |ls| => Alone(ls[i], d, maxDets))
  }

  // ---------- the relation ----------

  predicate SameGlobals(s: State, u: State) {
    && |u.dets| == |s.dets| && u.numChannels == s.numChannels && u.tofMaxParam == s.tofMaxParam && u.paused == s.paused
    && u.tofMax == s.tofMax && u.channels == s.channels && u.pulses == s.pulses && u.charge == s.charge
    && u.status == s.status && u.dataAlloc == s.dataAlloc && u.epoch == s.epoch && u.lastOk == s.lastOk
    && u.data.Some? == s.data.Some? && (u.dataMaxSize == 0) == (s.dataMaxSize == 0)
  }

  /** Parameters, copies, map and total of detector d, and, where it is laid out, its size. */
  ghost predicate SameDetector(s: State, d: nat, u: State)
    requires Shaped(s) && Shaped(u) && 1 <= d <= MaxDets(s) && |u.dets| == |s.dets|
  {
    && u.dets[1].cfg == s.dets[d].cfg && u.dets[1].transform == s.dets[d].transform && u.maps[1] == s.maps[d]
    && u.snaps[1].cfg == s.snaps[d].cfg && u.totals[1] == s.totals[d]
    && u.numDet == Lone(s.numDet, d)
    && (s.lastOk ==> d <= s.laidOut && u.laidOut == 1 && u.dets[1].region.size == s.dets[d].region.size)
  }

  ghost predicate Alike(s: State, d: nat, u: State) {
    && Sound(s) && Sound(u) && 1 <= d <= MaxDets(s)
    && SameGlobals(s, u) && SameDetector(s, d, u)
  }

  lemma PartBounds(s: State, d: nat)
    requires Laid(s) && 1 <= d <= s.laidOut
    ensures var g := s.dets[d].region;
            && 0 <= g.start <= g.end + 1 == g.start + g.size <= |s.data.value|
            && 0 < g.tofStart <= g.tofEnd + 1 == g.tofStart + s.tofMax + 1 <= |s.data.value|
            && (g.end < g.tofStart || g.tofEnd < g.start)
  {
    assert Published(s, d, s.tofMax);
    RegionBounds(s, L.PixelOf(d - 1));
    Conservation.RegionInBuffer(s, d);
    L.RegionsFollow(RegionSizes(s), s.tofMax, L.PixelOf(d - 1), L.TofOf(d - 1));
  }

  /** The counts of detector d: its pixel region, then its TOF region. */
  function Part(s: State, d: nat): (seq<nat>, seq<nat>)
    requires Laid(s) && 1 <= d <= s.laidOut
  {
    PartBounds(s, d);
    var g := s.dets[d].region;
    (s.data.value[g.start..g.end + 1], s.data.value[g.tofStart..g.tofEnd + 1])
  }

  predicate SameParts(s: State, d: nat, u: State) {
    Laid(s) && Laid(u) && 1 <= d <= s.laidOut && u.laidOut == 1 && Part(s, d) == Part(u, 1)
  }

  /** u is detector d of s on its own. */
  ghost predicate Mirrors(s: State, d: nat, u: State) {
    Alike(s, d, u) && (Laid(s) ==> SameParts(s, d, u))
  }

  lemma LaidAlone(s: State, d: nat, u: State)
    requires Alike(s, d, u) && Laid(s)
    ensures Laid(u) && d <= s.laidOut && u.laidOut == 1
  {
    assert RegionSizes(s)[d - 1] == s.dets[d].region.size;
    assert RegionSizes(u) == [u.dets[1].region.size];
  }

  /** Nothing that the parts are made of has changed. */
  predicate PartKept(s: State, d: nat, t: State)
    requires d < |s.dets|
  {
    t.data == s.data && |t.dets| == |s.dets| && t.dets[d].region == s.dets[d].region
  }

  lemma KeptParts(s: State, d: nat, u: State, s': State, u': State)
    requires Mirrors(s, d, u) && Alike(s', d, u')
    requires Laid(s') ==> Laid(s) && PartKept(s, d, s') && PartKept(u, 1, u')
    ensures Mirrors(s', d, u')
  {
    if Laid(s') {
      LaidAlone(s, d, u);
      LaidAlone(s', d, u');
      hide Laid, Sound;
    }
  }

  lemma ZeroParts(s: State, d: nat, u: State)
    requires Alike(s, d, u)
    requires s.data.Some? ==> s.data.value == Zeros(|s.data.value|)
    requires u.data.Some? ==> u.data.value == Zeros(|u.data.value|)
    ensures Mirrors(s, d, u)
  {
    if Laid(s) {
      LaidAlone(s, d, u);
      ZeroPart(s, d);
      ZeroPart(u, 1);
      hide Laid, Sound, Part;
    }
  }

  lemma ZeroPart(s: State, d: nat)
    requires Laid(s) && 1 <= d <= s.laidOut && s.data.value == Zeros(|s.data.value|)
    ensures 0 <= s.dets[d].region.size && Part(s, d) == (Zeros(s.dets[d].region.size), Zeros(s.tofMax + 1))
  {
    PartBounds(s, d);
    hide Laid, Zeros;
    var g, n := s.dets[d].region, |s.data.value|;
    SliceOfZeros(n, g.start, g.end + 1);
    SliceOfZeros(n, g.tofStart, g.tofEnd + 1);
  }

  lemma SliceOfZeros(n: nat, lo: nat, hi: nat)
    requires lo <= hi <= n
    ensures Zeros(n)[lo..hi] == Zeros(hi - lo)
  {
  }

  // ---------- client writes ----------

  lemma MirrorClear(s: State, d: nat, u: State)
    requires Mirrors(s, d, u)
    ensures Mirrors(Clear(s), d, Clear(u))
  {
    ClearSound(s);
    ClearSound(u);
    hide InForce, UpToDate, MapSound, Laid, SameParts;
    ZeroParts(Clear(s), d, Clear(u));
  }

  lemma MirrorStart(s: State, d: nat, u: State)
    requires Mirrors(s, d, u)
    ensures Mirrors(Clear(s).(paused := 0), d, Clear(u).(paused := 0))
  {
    MirrorClear(s, d, u);
    hide Mirrors, Clear;
    MirrorPause(Clear(s), d, Clear(u), 0);
  }

  lemma MirrorWipe(s: State, d: nat, u: State)
    requires Mirrors(s, d, u)
    ensures Mirrors(Wipe(s), d, Wipe(u))
  {
    WipeSound(s);
    WipeSound(u);
    hide InForce, UpToDate, MapSound, Laid, SameParts;
    ZeroParts(Wipe(s), d, Wipe(u));
  }

  lemma MirrorStatus(s: State, d: nat, u: State, status: Status)
    requires Mirrors(s, d, u)
    ensures Mirrors(s.(status := status), d, u.(status := status))
  {
    WithStatusSound(s, status);
    WithStatusSound(u, status);
    LaidFrame(s, s.(status := status));
    hide InForce, UpToDate, MapSound, Laid, SameParts;
    KeptParts(s, d, u, s.(status := status), u.(status := status));
  }

  lemma MirrorPause(s: State, d: nat, u: State, v: Int32)
    requires Mirrors(s, d, u)
    ensures Mirrors(s.(paused := v), d, u.(paused := v))
  {
    WriteCountsSound(s, v);
    WriteCountsSound(u, v);
    LaidFrame(s, s.(paused := v));
    hide InForce, UpToDate, MapSound, Laid, SameParts;
    KeptParts(s, d, u, s.(paused := v), u.(paused := v));
  }

  lemma MirrorNumChannels(s: State, d: nat, u: State, v: Int32)
    requires Mirrors(s, d, u)
    ensures Mirrors(WriteNumChannels(s, v).0, d, WriteNumChannels(u, v).0)
  {
    WriteCountsSound(s, v);
    WriteCountsSound(u, v);
    LaidFrame(s, WriteNumChannels(s, v).0);
    hide InForce, UpToDate, MapSound, Laid, SameParts;
    KeptParts(s, d, u, WriteNumChannels(s, v).0, WriteNumChannels(u, v).0);
  }

  lemma MirrorTofMax(s: State, d: nat, u: State, v: Int32)
    requires Mirrors(s, d, u)
    ensures Mirrors(WriteTofMax(s, v).0, d, WriteTofMax(u, v).0)
  {
    WriteTofMaxSound(s, v);
    WriteTofMaxSound(u, v);
    LaidFrame(s, WriteTofMax(s, v).0);
    hide InForce, UpToDate, MapSound, Laid, SameParts;
    KeptParts(s, d, u, WriteTofMax(s, v).0, WriteTofMax(u, v).0);
  }

  lemma MirrorNumDet(s: State, d: nat, u: State, v: Int32)
    requires Mirrors(s, d, u)
    ensures Mirrors(WriteNumDet(s, v).0, d, WriteNumDet(u, if v <= MaxDets(s) then Lone(v, d) else v).0)
  {
    var w := if v <= MaxDets(s) then Lone(v, d) else v;
    WriteCountsSound(s, v);
    WriteCountsSound(u, w);
    LaidFrame(s, WriteNumDet(s, v).0);
    hide InForce, UpToDate, MapSound, Laid, SameParts;
    KeptParts(s, d, u, WriteNumDet(s, v).0, WriteNumDet(u, w).0);
  }

  lemma LaidBefore(s: State, t: State)
    requires Sound(s) && Sound(t) && CountsKept(s, t)
    ensures Laid(t) ==> Laid(s)
  {
    if Laid(t) { CountsKeptSums(s, t); }
  }

  /** A write to detector d and the same write to the lone detector. */
  lemma MirrorOwnWrite(s: State, d: nat, u: State, w: DetWrite)
    requires Mirrors(s, d, u) && !w.TofReset?
    ensures Mirrors(WriteOnDet(s, d, w), d, WriteOnDet(u, 1, w))
  {
    var s', u' := WriteOnDet(s, d, w), WriteOnDet(u, 1, w);
    WriteOnDetGrows(s, d, w);
    WriteOnDetGrows(u, 1, w);
    WriteOnDetCounts(s, d, w);
    WriteOnDetCounts(u, 1, w);
    LaidBefore(s, s');
    LaidBefore(u, u');
    OwnWriteAlike(s, d, u, w);
    hide InForce, UpToDate, MapSound, WriteOnDet, SameParts, SameDetector, SameGlobals;
    if Laid(s') { LaidAlone(s', d, u'); }
    KeptParts(s, d, u, s', u');
  }

  lemma OwnWriteAlike(s: State, d: nat, u: State, w: DetWrite)
    requires Alike(s, d, u) && !w.TofReset?
    ensures var s', u' := WriteOnDet(s, d, w), WriteOnDet(u, 1, w);
            Shaped(s') && Shaped(u') && 1 <= d <= MaxDets(s') && SameGlobals(s', u') && SameDetector(s', d, u')
  {
    hide InForce, UpToDate, MapSound, LoadMap, SetParam;
  }

  lemma MirrorOtherWrite(s: State, d: nat, u: State, a: nat, w: DetWrite)
    requires Mirrors(s, d, u) && !w.TofReset? && a < |s.dets| && a != d
    ensures Mirrors(WriteOnDet(s, a, w), d, WriteOnDet(u, 0, w))
  {
    var s', u' := WriteOnDet(s, a, w), WriteOnDet(u, 0, w);
    WriteOnDetGrows(s, a, w);
    WriteOnDetGrows(u, 0, w);
    WriteOnDetCounts(s, a, w);
    WriteOnDetCounts(u, 0, w);
    LaidBefore(s, s');
    LaidBefore(u, u');
    OtherWriteAlike(s, d, u, a, w);
    hide InForce, UpToDate, MapSound, WriteOnDet, SameParts, SameDetector, SameGlobals;
    if Laid(s') { LaidAlone(s', d, u'); }
    KeptParts(s, d, u, s', u');
  }

  lemma OtherWriteAlike(s: State, d: nat, u: State, a: nat, w: DetWrite)
    requires Alike(s, d, u) && !w.TofReset? && a < |s.dets| && a != d
    ensures var s', u' := WriteOnDet(s, a, w), WriteOnDet(u, 0, w);
            Shaped(s') && Shaped(u') && 1 <= d <= MaxDets(s') && SameGlobals(s', u') && SameDetector(s', d, u')
  {
    hide InForce, UpToDate, MapSound, LoadMap, SetParam;
  }

  // ---------- TOF resets ----------

  lemma ResetLaid(s: State, a: nat)
    requires Sound(s) && a < |s.dets|
    ensures var t := ResetTof(s, a);
            && Sound(t) && Laid(t) == Laid(s) && t.data.Some? == s.data.Some? && t == s.(data := t.data)
  {
    ResetTofSound(s, a);
    LaidFrame(s, ResetTof(s, a));
  }

  lemma DataAlike(s: State, d: nat, u: State, s': State, u': State)
    requires Alike(s, d, u) && Sound(s') && Sound(u') && s' == s.(data := s'.data) && u' == u.(data := u'.data)
    requires s'.data.Some? == s.data.Some? && u'.data.Some? == u.data.Some?
    ensures Alike(s', d, u')
  {
    hide InForce, UpToDate, MapSound;
  }

  /** What a TOF reset of detector a does to the counts of detector d. */
  lemma ResetPart(s: State, d: nat, a: nat)
    requires Laid(s) && 1 <= d <= s.laidOut && 1 <= a <= s.laidOut && Laid(ResetTof(s, a))
             && ResetTof(s, a).laidOut == s.laidOut
    ensures var p := Part(s, d);
            Part(ResetTof(s, a), d) == if a == d && s.tofMax > 0 then (p.0, Zeros(s.tofMax + 1)) else p
  {
    var t, g := ResetTof(s, a), s.dets[d].region;
    PartBounds(s, d);
    ResetKeepsDets(s, a);
    if s.tofMax > 0 {
      ResetCells(s, d, a);
      hide Laid, ResetTof;
      PartBounds(t, d);
      assert Part(t, d).0 == Part(s, d).0;
      assert Part(t, d).1 == if a == d then Zeros(s.tofMax + 1) else Part(s, d).1;
    }
  }

  lemma ResetCells(s: State, d: nat, a: nat)
    requires Laid(s) && 1 <= d <= s.laidOut && 1 <= a <= s.laidOut && s.tofMax > 0
    ensures var t, g := ResetTof(s, a), s.dets[d].region;
            && t.data.Some? && |t.data.value| == |s.data.value|
            && (forall i :: 0 <= i < |s.data.value| && g.start <= i <= g.end ==> t.data.value[i] == s.data.value[i])
            && (forall i :: 0 <= i < |s.data.value| && g.tofStart <= i <= g.tofEnd ==>
                  t.data.value[i] == if a == d then 0 else s.data.value[i])
  {
    TofResetClearsOneRegion(s, a);
    PublishedRegionsTile(s);
    hide Laid, ResetTof, Owned;
    var p, q, r := L.PixelOf(d - 1), L.TofOf(d - 1), L.TofOf(a - 1);
    assert forall i :: Owns(s, p, i) ==> !Owns(s, r, i);
    assert a != d ==> forall i :: Owns(s, q, i) ==> !Owns(s, r, i);
  }

  lemma ResetKeepsDets(s: State, a: nat)
    requires a < |s.dets|
    ensures ResetTof(s, a).dets == s.dets && ResetTof(s, a).laidOut == s.laidOut
  {
  }

  lemma MirrorReset(s: State, d: nat, u: State, a: nat)
    requires Mirrors(s, d, u) && a < |s.dets| && (Laid(s) ==> a <= s.laidOut || ClearsNothing(s, a))
    ensures Mirrors(ResetTof(s, a), d, ResetTof(u, if a == d then 1 else 0))
  {
    var b := if a == d then 1 else 0;
    ResetLaid(s, a);
    ResetLaid(u, b);
    DataAlike(s, d, u, ResetTof(s, a), ResetTof(u, b));
    ResetKeepsDets(s, a);
    ResetKeepsDets(u, b);
    if Laid(s) {
      assert a == 0 || a > s.laidOut ==> ResetTof(s, a) == s;
      assert b == 0 ==> ResetTof(u, b) == u;
      hide Sound, Laid, Part, ResetTof;
      if 0 < a <= s.laidOut { ResetPart(s, d, a); }
      if b > 0 { ResetPart(u, 1, 1); }
    }
    hide Sound, Laid, Part, ResetTof;
  }

  // ---------- allocation ----------

  /** Both allocations succeed, or both fail and detector d cannot tell the difference. */
  ghost predicate SameOutcome(s: State, d: nat, u: State, memory: bool)
    requires Shaped(s) && Shaped(u) && d < |s.dets| == |u.dets| && 1 < |u.dets|
  {
    var (t, ok) := Allocate(s, memory);
    var (v, ok') := Allocate(u, memory);
    && ok == ok'
    && (!ok ==>
          && |t.dets| == |s.dets| && |v.dets| == |u.dets| && t.dets[d].cfg == v.dets[1].cfg
          && t.data.Some? == v.data.Some? && (t.dataMaxSize == 0) == (v.dataMaxSize == 0))
  }

  /** Nothing is pending, or the allocation succeeds for non-negative sizes, d and its own size among them. */
  predicate Regular(s: State, d: nat, memory: bool)
    requires Shaped(s)
  {
    !s.dataAlloc ||
    (Allocate(s, memory).1 && 1 <= d <= s.numDet && L.NonNegative(Sizes(s.dets, s.numDet)) && 0 <= s.tofMaxParam
     && SizeOf(s.dets[d].cfg) != 0)
  }

  /** Then the lone driver's allocation ends the same way. */
  lemma RegularOutcome(s: State, d: nat, u: State, memory: bool)
    requires Alike(s, d, u) && Regular(s, d, memory)
    ensures SameOutcome(s, d, u, memory)
  {
    assert u.dataAlloc == s.dataAlloc && u.numDet == Lone(s.numDet, d) && u.dets[1].cfg == s.dets[d].cfg;
    hide Alike, Allocate;
    if !s.dataAlloc {
      AllocateNotPending(s, memory);
      AllocateNotPending(u, memory);
    } else {
      RegularSucceeds(s, d, u, memory);
    }
  }

  lemma RegularSucceeds(s: State, d: nat, u: State, memory: bool)
    requires Shaped(s) && Shaped(u) && s.dataAlloc && Regular(s, d, memory)
    requires |u.dets| == |s.dets| && u.dataAlloc && u.numDet == 1 && u.tofMaxParam == s.tofMaxParam
             && u.dets[1].cfg == s.dets[d].cfg
    ensures Allocate(u, memory).1
  {
    hide Allocate, Sizes, L.Total, L.Offset, L.NonNegative, SizeOf, FirstBad;
    AllocateSucceeds(s, memory);
    NeedsMemory(s, memory);
    LoneSizes(s.dets, s.numDet, d, u.dets);
    PartOfTotal(Sizes(s.dets, s.numDet), s.tofMaxParam, d - 1);
    LoneSucceeds(u);
  }

  lemma AllocateNotPending(u: State, memory: bool)
    requires Shaped(u) && !u.dataAlloc
    ensures Allocate(u, memory) == (u, true)
  {
  }

  lemma LoneSizes(dets: seq<Det>, n: nat, d: nat, lone: seq<Det>)
    requires 1 <= d <= n < |dets| && 1 < |lone| && lone[1].cfg == dets[d].cfg && FirstBad(dets, 1, n) == n + 1
    ensures FirstBad(lone, 1, 1) == 2 && L.Offset(Sizes(lone, 1), 1) == Sizes(dets, n)[d - 1] == SizeOf(dets[d].cfg)
  {
    assert dets[d].cfg.pixelStart <= dets[d].cfg.pixelEnd;
    assert L.Offset(Sizes(lone, 1), 1) == L.Offset(Sizes(lone, 1), 0) + Sizes(lone, 1)[0];
  }

  lemma NeedsMemory(s: State, memory: bool)
    requires Shaped(s) && s.dataAlloc && Allocate(s, memory).1
    ensures memory
  {
    hide Publish, Allocatable;
  }

  /** One detector and its TOF region take no more than the whole layout. */
  lemma PartOfTotal(sizes: seq<int>, m: int, k: nat)
    requires L.NonNegative(sizes) && 0 <= m && k < |sizes|
    ensures 0 <= sizes[k] && sizes[k] + m + 1 <= L.Total(sizes, m)
  {
    L.OffsetMono(sizes, 0, k);
    L.OffsetMono(sizes, k + 1, |sizes|);
    assert L.Offset(sizes, k + 1) == L.Offset(sizes, k) + sizes[k];
    MulLe(1, |sizes|, m + 1);
  }

  lemma LoneSucceeds(u: State)
    requires Shaped(u) && u.dataAlloc && u.numDet == 1 && FirstBad(u.dets, 1, 1) == 2
    requires var base := L.Offset(Sizes(u.dets, 1), 1);
             base != 0 && Allocatable(base + u.tofMaxParam + 1)
    ensures Allocate(u, true).1
  {
    hide PlacePixels, PlaceTofs, Sizes, L.Offset, FirstBad;
  }

  /** An allocation of which no more needs to be assumed, or one that is assumed to end alike. */
  ghost predicate FairOutcome(s: State, d: nat, u: State, memory: bool)
    requires Shaped(s) && Shaped(u) && d < |s.dets| == |u.dets| && 1 < |u.dets|
  {
    Regular(s, d, memory) || SameOutcome(s, d, u, memory)
  }

  /** What an allocation, successful or not, leaves alone. */
  lemma AllocateFrame(s: State, memory: bool)
    requires Shaped(s)
    ensures var t := Allocate(s, memory).0;
            && t == s.(tofMax := t.tofMax, dataMaxSize := t.dataMaxSize, dets := t.dets, data := t.data,
                       bufferMaxSize := t.bufferMaxSize, dataAlloc := t.dataAlloc, laidOut := t.laidOut,
                       epoch := t.epoch, lastOk := t.lastOk)
            && (!s.dataAlloc ==> t == s)
            && (s.dataAlloc ==> t.tofMax == U32(s.tofMaxParam) && t.epoch == s.epoch + 1)
            && SameFrame(s.dets, t.dets)
  {
    PublishFrame(Attempt(s), Max(s.numDet, 0));
    hide Publish, Allocatable, Zeros, SameFrame;
    if !s.dataAlloc || s.numDet == 0 { FrameSelf(s.dets); }
  }

  /** Address 0 and the transforms are the same. */
  ghost predicate SameFrame(a: seq<Det>, b: seq<Det>) {
    && |b| == |a| >= 1 && b[0] == a[0]
    && forall i :: 0 <= i < |a| ==> b[i].transform == a[i].transform
  }

  lemma FrameSelf(a: seq<Det>)
    requires |a| >= 1
    ensures SameFrame(a, a)
  {
  }

  lemma PublishFrame(s: State, n: nat)
    requires 1 <= |s.dets| && n < |s.dets|
    ensures var t := Publish(s, n).0;
            && t == s.(dataMaxSize := t.dataMaxSize, dets := t.dets)
            && SameFrame(s.dets, t.dets)
  {
    hide FirstBad, Sizes, L.Offset, SizeOf;
  }

  lemma MirrorAllocate(s: State, d: nat, u: State, memory: bool)
    requires Mirrors(s, d, u) && SameOutcome(s, d, u, memory)
    ensures Mirrors(Allocate(s, memory).0, d, Allocate(u, memory).0)
  {
    if s.dataAlloc {
      var (t, ok) := Allocate(s, memory);
      var v := Allocate(u, memory).0;
      AllocateSound(s, memory);
      AllocateSound(u, memory);
      AllocateFrame(s, memory);
      AllocateFrame(u, memory);
      if ok {
        AllocatedAlike(s, d, u, memory);
        AllocatePublishes(s, memory);
        AllocatePublishes(u, memory);
        hide Allocate, Sound, Laid, SameDetector;
        ZeroParts(t, d, v);
      } else {
        hide Allocate, InForce, MapSound;
        KeptParts(s, d, u, t, v);
      }
    }
  }

  /** What a successful allocation does for detector d. */
  lemma AllocatedDet(s: State, memory: bool, d: nat)
    requires Sound(s) && s.dataAlloc && Allocate(s, memory).1 && 1 <= d <= s.numDet
    ensures var t := Allocate(s, memory).0;
            && |t.dets| == |s.dets| && t.dets[d].cfg == s.dets[d].cfg.(pixelSize := SizeOf(s.dets[d].cfg))
            && t.dets[d].region.size == t.dets[d].cfg.pixelSize && t.dataMaxSize != 0 && t.data.Some?
            && !t.dataAlloc && t.lastOk && t.laidOut == s.numDet && t.epoch == s.epoch + 1
  {
    AllocateSucceeds(s, memory);
    AllocateFrame(s, memory);
    PlacedDet(s.dets, s.numDet, s.tofMaxParam, d);
    hide Allocate, Sound, PlacedAll, L.First, L.Offset, L.Total, Sizes, FirstBad, SizeOf, Zeros;
  }

  lemma AllocatedAlike(s: State, d: nat, u: State, memory: bool)
    requires Alike(s, d, u) && s.dataAlloc && Allocate(s, memory).1 && Allocate(u, memory).1
    ensures Alike(Allocate(s, memory).0, d, Allocate(u, memory).0)
  {
    AllocateNeedsDetectors(u, memory);
    AllocateSound(s, memory);
    AllocateSound(u, memory);
    AllocateFrame(s, memory);
    AllocateFrame(u, memory);
    AllocatedDet(s, memory, d);
    AllocatedDet(u, memory, 1);
    hide Allocate, InForce, MapSound, SizeOf, FirstBad, Laid;
    var t, v := Allocate(s, memory).0, Allocate(u, memory).0;
    assert SameGlobals(t, v);
    assert SameDetector(t, d, v);
  }

  lemma MirrorAllocSpace(s: State, d: nat, u: State, memory: bool)
    requires Mirrors(s, d, u) && (s.status != Acquire ==> SameOutcome(s, d, u, memory))
    ensures Mirrors(WriteAllocSpace(s, memory).0, d, WriteAllocSpace(u, memory).0)
  {
    if s.status != Acquire {
      MirrorAllocate(s, d, u, memory);
      hide Mirrors, Allocate;
      if !Allocate(s, memory).1 { MirrorStatus(Allocate(s, memory).0, d, Allocate(u, memory).0, Error); }
    }
  }

  lemma MirrorBegin(s: State, d: nat, u: State, memory: bool, connected: bool)
    requires Mirrors(s, d, u) && SameOutcome(s, d, u, memory)
    ensures Mirrors(BeginState(s, memory, connected), d, BeginState(u, memory, connected))
  {
    var (t, ok) := Allocate(s, memory);
    var v := Allocate(u, memory).0;
    MirrorAllocate(s, d, u, memory);
    hide Mirrors, Allocate, Wipe;
    if ok {
      MirrorWipe(t, d, v);
      MirrorStatus(Wipe(t), d, Wipe(v), if connected then Acquire else Error);
    } else {
      MirrorStatus(t, d, v, Error);
    }
  }

  // ---------- the packet handlers ----------

  lemma MirrorSnapshot(s: State, d: nat, u: State)
    requires Mirrors(s, d, u) && CopyCompletes(s)
    ensures Snapshot(s).1 == Some(HandlerDets(s)) && Snapshot(u).1 == Some(Lone(HandlerDets(s), d))
    ensures Mirrors(Snapshot(s).0, d, Snapshot(u).0)
  {
    var s', u' := Snapshot(s).0, Snapshot(u).0;
    SnapshotSound(s);
    SnapshotSound(u);
    LoneCopyCompletes(s, d, u);
    LaidFrame(s, s');
    hide InForce, UpToDate, MapSound, Laid, SameParts, FirstNarrow;
    KeptParts(s, d, u, s', u');
  }

  lemma LoneCopyCompletes(s: State, d: nat, u: State)
    requires Alike(s, d, u) && CopyCompletes(s)
    ensures CopyCompletes(u) && HandlerDets(u) == Lone(HandlerDets(s), d)
  {
    if HandlerDets(s) >= d {
      assert s.dets[d].cfg.roiSizeX > 0;
      assert FirstNarrow(u.dets, 1, 1) == FirstNarrow(u.dets, 2, 1) == 2;
    }
  }

  lemma MirrorStamp(s: State, d: nat, u: State, c: nat, stamp: Option<Stamp>)
    requires Mirrors(s, d, u) && c < |s.channels|
    ensures c < |u.channels|
    ensures var (s', a, p) := StampSection(s, c, stamp); var (u', b, q) := StampSection(u, c, stamp);
            a == b && p == q && Mirrors(s', d, u')
  {
    var s', u' := StampSection(s, c, stamp).0, StampSection(u, c, stamp).0;
    StampSound(s, c, stamp);
    StampSound(u, c, stamp);
    LaidFrame(s, s');
    hide InForce, UpToDate, MapSound, Laid, SameParts, Receive;
    KeptParts(s, d, u, s', u');
  }

  /** v is where detector d is laid out. */
  predicate IsAt(s: State, d: nat, v: View)
    requires d < |s.dets|
  {
    var g := s.dets[d].region;
    v.start == g.start && v.tofStart == g.tofStart && v.lens.tofMax == s.tofMax
  }

  lemma PartIsRegions(s: State, d: nat, v: View)
    requires Laid(s) && 1 <= d <= s.laidOut && IsAt(s, d, v)
    ensures var size := s.dets[d].region.size;
            && 0 <= size && Placed(v, size, |s.data.value|)
            && Part(s, d) == (PixelRegion(s.data.value, v, size), TofRegion(s.data.value, v, size))
  {
    PartBounds(s, d);
    hide Laid;
  }

  lemma OthersAvoid(s: State, n: nat, d: nat, j: nat, v: View)
    requires Laid(s) && Ready(s, n) && 1 <= d <= s.laidOut && 1 <= j <= n && j != d && IsAt(s, d, v)
    ensures 0 <= s.dets[d].region.size && Avoids(ViewOf(s, j), v, s.dets[d].region.size)
  {
    var size := s.dets[d].region.size;
    var w, a, b, p, q := ViewOf(s, j), v.start, v.start + size, v.tofStart, v.tofStart + v.lens.tofMax + 1;
    PartBounds(s, d);
    assert AtRegion(s, j) && Usable(s, j);
    hide Laid, Ready, Usable, AtRegion, ViewOf, Weight;
    forall e: Event, carry: nat
      ensures Weight(w, e, carry, a, b) == 0 && Weight(w, e, carry, p, q) == 0
    {
      WeightOn(s, j, L.PixelOf(d - 1), e, carry);
      WeightOn(s, j, L.TofOf(d - 1), e, carry);
    }
  }

  lemma SameLens(s: State, d: nat, u: State)
    requires Alike(s, d, u)
    ensures ViewOf(u, 1).lens == ViewOf(s, d).lens
  {
    hide InForce, UpToDate, MapSound;
  }

  lemma CopyIsAt(s: State, d: nat)
    requires Laid(s) && 1 <= d <= s.laidOut && AtRegion(s, d)
    ensures IsAt(s, d, ViewOf(s, d))
  {
    PartBounds(s, d);
  }

  /** Both drivers have detector d in places of the same size, with the same counts. */
  lemma SamePlaces(s: State, d: nat, u: State)
    requires Mirrors(s, d, u) && Laid(s) && 1 <= d <= s.laidOut && AtRegion(s, d) && Laid(u) && AtRegion(u, 1)
    ensures var v, w, size := ViewOf(s, d), ViewOf(u, 1), s.dets[d].region.size;
            && IsAt(s, d, v) && w.lens == v.lens
            && 0 <= size && Placed(v, size, |s.data.value|) && Placed(w, size, |u.data.value|)
            && SameRegions(s.data.value, v, u.data.value, w, size)
  {
    LaidAlone(s, d, u);
    SameLens(s, d, u);
    CopyIsAt(s, d);
    CopyIsAt(u, 1);
    PartIsRegions(s, d, ViewOf(s, d));
    PartIsRegions(u, 1, ViewOf(u, 1));
    hide Laid, Sound, ViewOf, Part, Placed, PixelRegion, TofRegion;
  }

  /** The packet uses detector d: its counts go the way of a loop over d alone. */
  lemma StrikesAlike(s: State, d: nat, u: State, n: nat, es: seq<Event>)
    requires Mirrors(s, d, u) && Laid(s) && Ready(s, n) && d <= n && CarryFree(ViewOf(s, d).lens) && Laid(u)
             && AtRegion(u, 1)
    ensures var v, w, size := ViewOf(s, d), ViewOf(u, 1), s.dets[d].region.size;
            var a, b := StrikeAll(Tally(s.data.value, 0), Views(s, n), es).cells,
                StrikeAll(Tally(u.data.value, 0), Views(u, 1), es).cells;
            0 <= size && Placed(v, size, |a|) && Placed(w, size, |b|) && SameRegions(a, v, b, w, size)
  {
    var v, w, vs, size := ViewOf(s, d), ViewOf(u, 1), Views(s, n), s.dets[d].region.size;
    assert AtRegion(s, d) && Usable(s, d);
    hide Laid, Ready, ViewOf, StrikeAll, Mirrors, Rising, CarryFree, Placed, SameRegions, Avoids, AtRegion;
    SamePlaces(s, d, u);
    RisingViews(s, n);
    forall j | 0 <= j < n && j != d - 1
      ensures Avoids(vs[j], vs[d - 1], size)
    {
      OthersAvoid(s, n, d, j + 1, v);
    }
    assert Views(u, 1) == [w];
    DetectorAlone(Tally(s.data.value, 0), vs, d - 1, Tally(u.data.value, 0), w, es, size);
  }

  /** The packet does not use detector d: its counts stay. */
  lemma StrikesElsewhere(s: State, d: nat, n: nat, es: seq<Event>, v: View)
    requires Laid(s) && Ready(s, n) && n < d <= s.laidOut && IsAt(s, d, v)
    ensures var a, size := StrikeAll(Tally(s.data.value, 0), Views(s, n), es).cells, s.dets[d].region.size;
            && 0 <= size && Placed(v, size, |s.data.value|) && Placed(v, size, |a|)
            && SameRegions(a, v, s.data.value, v, size)
  {
    var size := s.dets[d].region.size;
    PartIsRegions(s, d, v);
    RisingViews(s, n);
    hide Laid, Ready, ViewOf, StrikeAll, Rising, Placed, PixelRegion, TofRegion;
    forall j | 0 <= j < n
      ensures Avoids(Views(s, n)[j], v, size)
    {
      OthersAvoid(s, n, d, j + 1, v);
    }
    LoopAvoids(Tally(s.data.value, 0), Views(s, n), es, v, size);
  }

  /** What an integration of n detectors must not do for the comparison: use an allocation its copies
      were not made under, leave the regions of its detectors, or show the index other detectors carry. */
  ghost predicate FairJob(s: State, d: nat, u: State, n: nat)
    requires Alike(s, d, u)
  {
    Laid(s) ==> Ready(s, n) && (d <= n ==> CarryFree(ViewOf(s, d).lens) && AtRegion(u, 1))
  }

  lemma IntegrateAlike(s: State, d: nat, u: State, n: nat, p: Packet, newPulse: bool)
    requires Alike(s, d, u) && n <= MaxDets(s) && Complete(p) && s.data.Some?
    ensures Alike(Integrate(s, n, p, newPulse), d, Integrate(u, Lone(n, d), p, newPulse))
  {
    SameLens(s, d, u);
    hide InForce, UpToDate, MapSound, ViewOf, StrikeAll, Views, Matches, EventsOf;
    IntegrateSound(s, n, p, newPulse);
    IntegrateSound(u, Lone(n, d), p, newPulse);
  }

  lemma IntegrateKeepsDets(s: State, n: nat, p: Packet, newPulse: bool)
    requires Shaped(s) && n <= MaxDets(s) && Complete(p) && s.data.Some?
    ensures var t := Integrate(s, n, p, newPulse);
            && t.dets == s.dets && t.tofMax == s.tofMax && t.laidOut == s.laidOut
            && t.data == Some(StrikeAll(Tally(s.data.value, 0), Views(s, n), EventsOf(p)).cells)
  {
    hide StrikeAll, Views, NewTotals, EventsOf;
  }

  lemma MirrorIntegrate(s: State, d: nat, u: State, n: nat, p: Packet, newPulse: bool)
    requires Mirrors(s, d, u) && n <= MaxDets(s) && Complete(p) && s.data.Some? && FairJob(s, d, u, n)
    ensures Mirrors(Integrate(s, n, p, newPulse), d, Integrate(u, Lone(n, d), p, newPulse))
  {
    var k := Lone(n, d);
    IntegrateAlike(s, d, u, n, p, newPulse);
    IntegrateLaid(s, n, p, newPulse);
    IntegrateLaid(u, k, p, newPulse);
    IntegrateKeepsDets(s, n, p, newPulse);
    IntegrateKeepsDets(u, k, p, newPulse);
    if Laid(s) {
      LaidAlone(s, d, u);
      hide Laid, Ready, Alike, Integrate, StrikeAll, EventsOf, ViewOf, Views;
      PartsAlike(s, d, u, Integrate(s, n, p, newPulse), Integrate(u, k, p, newPulse), n, EventsOf(p));
    }
    hide Integrate, Alike, Laid, Part;
  }

  lemma PartsAlike(s: State, d: nat, u: State, s': State, u': State, n: nat, es: seq<Event>)
    requires Mirrors(s, d, u) && Laid(s) && Laid(u) && Laid(s') && Laid(u') && d <= s.laidOut && u.laidOut == 1
    requires FairJob(s, d, u, n)
    requires s'.dets == s.dets && s'.tofMax == s.tofMax && s'.laidOut == s.laidOut
    requires u'.dets == u.dets && u'.tofMax == u.tofMax && u'.laidOut == u.laidOut
    requires s'.data == Some(StrikeAll(Tally(s.data.value, 0), Views(s, n), es).cells)
    requires u'.data == Some(StrikeAll(Tally(u.data.value, 0), Views(u, Lone(n, d)), es).cells)
    ensures Part(s', d) == Part(u', 1)
  {
    if d <= n {
      var v, w := ViewOf(s, d), ViewOf(u, 1);
      StrikesAlike(s, d, u, n, es);
      assert AtRegion(s, d);
      CopyIsAt(s, d);
      CopyIsAt(u, 1);
      hide Laid, Ready, Alike, ViewOf, Views, StrikeAll, Part, Placed, PixelRegion, TofRegion;
      PartIsRegions(s', d, v);
      PartIsRegions(u', 1, w);
    } else {
      PartBounds(s, d);
      var v := ViewOf(s, d).(start := s.dets[d].region.start, tofStart := s.dets[d].region.tofStart);
      StrikesElsewhere(s, d, n, es, v);
      NothingStruck(u, es);
      hide Laid, Ready, Alike, ViewOf, Views, StrikeAll, Part, Placed, PixelRegion, TofRegion;
      PartIsRegions(s, d, v);
      PartIsRegions(s', d, v);
      UnchangedPart(u, u', 1);
    }
  }

  lemma UnchangedPart(u: State, u': State, d: nat)
    requires Laid(u) && Laid(u') && 1 <= d <= u.laidOut == u'.laidOut && u'.dets == u.dets && u'.data == u.data
    ensures Part(u', d) == Part(u, d)
  {
    hide Laid;
  }

  lemma {:induction false} NothingStruck(u: State, es: seq<Event>)
    requires Shaped(u) && u.data.Some?
    ensures StrikeAll(Tally(u.data.value, 0), Views(u, 0), es).cells == u.data.value
  {
    if es != [] { NothingStruck(u, es[..|es| - 1]); }
  }

  // ---------- two systems ----------

  function LoneJob(j: Job, d: nat): Job {
    if j == NoJob then NoJob else j.(dets := Lone(j.dets, d))
  }

  predicate LoneJobs(js: seq<Job>, ks: seq<Job>, d: nat) {
    |ks| == |js| && forall c :: 0 <= c < |js| ==> ks[c] == LoneJob(js[c], d)
  }

  lemma LoneJobsUpdate(js: seq<Job>, ks: seq<Job>, d: nat, c: nat, j: Job)
    requires LoneJobs(js, ks, d) && c < |js|
    ensures LoneJobs(js[c := j], ks[c := LoneJob(j, d)], d)
  {
    hide LoneJob;
  }

  /** Jobs alike, states mirrored, all else the same but for frames already copied. */
  ghost predicate Mirrored(y: System, d: nat, z: System) {
    Mirrors(y.s, d, z.s) && LoneJobs(y.jobs, z.jobs, d) && SameThreads(y, z)
  }

  predicate SameThreads(y: System, z: System) {
    && z.event == y.event && z.frame == y.frame && z.startEvent == y.startEvent && z.stopEvent == y.stopEvent
    && z.startFrame == y.startFrame && z.stopFrame == y.stopFrame
    && z.monitors == y.monitors && z.running == y.running && z.channelsInUse == y.channelsInUse
    && z.acquisitions == y.acquisitions && z.stopFor == y.stopFor
  }

  /** The second system is detector d of the first on its own. */
  ghost predicate MirrorsSystem(y: System, d: nat, z: System) {
    Formed(y) && Formed(z) && Mirrored(y, d, z)
  }

  /** What the comparison asks of a step. The step is defined and integrations are careful; where no
      layout is in force the step of the lone driver is defined too. An allocation that is not regular has
      the same outcome in both. A TOF reset names a detector that is laid out, if any is, or clears
      nothing. No other detector without ROI width cuts the parameter copy short. Detector d does not
      show the plot index others carry. */
  ghost predicate Fair(y: System, d: nat, z: System, l: Label)
    requires Formed(y) && Formed(z) && 1 <= d <= MaxDets(y.s) && |z.s.dets| == |y.s.dets|
  {
    && CarefulStep(y, l) && (!Laid(y.s) ==> StepDefined(z, Alone(l, d, MaxDets(y.s))))
    && match l
       case Client(w) =>
         && (w.AllocSpace? && y.s.status != Acquire ==> FairOutcome(y.s, d, z.s, w.memory))
         && (w.OnDet? && w.write.TofReset? && Laid(y.s) && w.addr < |y.s.dets| ==>
               w.addr <= y.s.laidOut || ClearsNothing(y.s, w.addr))
       case OfEvent(a) => a.BeginAcquire? && y.event == Starting ==> FairOutcome(y.s, d, z.s, a.memory)
       case OfFrame(_) => true
       case OfHandler(c, a) =>
         c < |y.jobs| ==>
           && (a.Deliver? && y.jobs[c] == NoJob ==> CopyCompletes(y.s))
           && (a.IntegratePacket? && Integrates(y.s, y.jobs[c]) && Laid(y.s) && d <= y.jobs[c].dets ==>
                 CarryFree(ViewOf(y.s, d).lens))
  }

  lemma MirrorClient(s: State, d: nat, u: State, w: Write)
    requires Mirrors(s, d, u)
    requires w.AllocSpace? && s.status != Acquire ==> SameOutcome(s, d, u, w.memory)
    requires w.OnDet? && w.write.TofReset? && Laid(s) && w.addr < |s.dets| ==>
               w.addr <= s.laidOut || ClearsNothing(s, w.addr)
    ensures Mirrors(ClientWrite(s, w), d, ClientWrite(u, Alone(Client(w), d, MaxDets(s)).write))
  {
    hide Mirrors, Clear, WriteOnDet, WriteAllocSpace, WriteNumDet, WriteNumChannels, WriteTofMax, SameOutcome, Sound,
        Laid;
    MirrorSelf(s, d, u);
    match w {
      case Reset => MirrorClear(s, d, u);
      case Start(_) => MirrorStart(s, d, u);
      case Stop(_) => MirrorPause(s, d, u, 0);
      case Pause(v) => MirrorPause(s, d, u, v);
      case SetNumDet(v) => MirrorNumDet(s, d, u, v);
      case SetNumChannels(v) => MirrorNumChannels(s, d, u, v);
      case SetTofMax(v) => MirrorTofMax(s, d, u, v);
      case AllocSpace(memory) => MirrorAllocSpace(s, d, u, memory);
      case OnDet(a, dw) => if a < |s.dets| { MirrorOnDet(s, d, u, a, dw); }
    }
  }

  lemma MirrorSelf(s: State, d: nat, u: State)
    requires Mirrors(s, d, u)
    ensures Sound(s) && Sound(u) && 1 <= d <= MaxDets(s) && Shaped(s) && Shaped(u) && |u.dets| == |s.dets|
            && u.status == s.status
  {
  }

  lemma MirrorOnDet(s: State, d: nat, u: State, a: nat, w: DetWrite)
    requires Mirrors(s, d, u) && a < |s.dets| && (w.TofReset? && Laid(s) ==> a <= s.laidOut || ClearsNothing(s, a))
    ensures Sound(s) && Sound(u) && 1 < |u.dets|
    ensures Mirrors(WriteOnDet(s, a, w), d, WriteOnDet(u, if a == d then 1 else 0, w))
  {
    MirrorSelf(s, d, u);
    assert 1 < |u.dets|;
    if w.TofReset? {
      TofResetIs(s, a);
      TofResetIs(u, if a == d then 1 else 0);
      hide Mirrors, WriteOnDet, Laid;
      MirrorReset(s, d, u, a);
    } else if a == d {
      hide WriteOnDet, Laid;
      MirrorOwnWrite(s, d, u, w);
    } else {
      hide WriteOnDet, Laid;
      MirrorOtherWrite(s, d, u, a, w);
    }
  }

  lemma FairEndsAlike(s: State, d: nat, u: State, memory: bool)
    requires Alike(s, d, u) && FairOutcome(s, d, u, memory)
    ensures SameOutcome(s, d, u, memory)
  {
    if Regular(s, d, memory) { RegularOutcome(s, d, u, memory); }
    hide Alike, SameOutcome, Regular;
  }

  lemma FairClient(y: System, d: nat, z: System, w: Write)
    requires MirrorsSystem(y, d, z) && Fair(y, d, z, Client(w))
    ensures var l := Alone(Client(w), d, MaxDets(y.s));
            && l.Client? && Sound(y.s) && Sound(z.s) && z.s.status == y.s.status
            && Mirrors(ClientWrite(y.s, w), d, ClientWrite(z.s, l.write))
  {
    MirrorSelf(y.s, d, z.s);
    hide ClientWrite, Sound, Laid, SameOutcome, Regular, CarefulStep, StepDefined, SameParts;
    if w.AllocSpace? && y.s.status != Acquire { FairEndsAlike(y.s, d, z.s, w.memory); }
    MirrorClient(y.s, d, z.s, w);
  }

  lemma ClientMirrors(y: System, d: nat, z: System, w: Write)
    requires MirrorsSystem(y, d, z) && Fair(y, d, z, Client(w))
    ensures var l := Alone(Client(w), d, MaxDets(y.s));
            l.Client? && Mirrored(ClientStep(y, w), d, ClientStep(z, l.write))
  {
    hide ClientWrite, Formed, Mirrors, Fair, LoneJobs, Sound;
    FairClient(y, d, z, w);
  }

  lemma OutcomeFacts(s: State, d: nat, u: State, memory: bool)
    requires Mirrors(s, d, u) && SameOutcome(s, d, u, memory)
    ensures Sound(s) && Sound(u) && u.numChannels == s.numChannels && Allocate(u, memory).1 == Allocate(s, memory).1
  {
    hide Allocate, SameParts, Laid;
  }

  lemma BeginMirrors(y: System, d: nat, z: System, memory: bool, created: set<nat>, connected: bool)
    requires MirrorsSystem(y, d, z) && SameOutcome(y.s, d, z.s, memory)
    ensures Mirrored(Begin(y, memory, created, connected), d, Begin(z, memory, created, connected))
  {
    hide Own, Formed, Allocate, BeginState, Mirrors, LoneJobs, SameOutcome, Sound;
    OutcomeFacts(y.s, d, z.s, memory);
    MirrorBegin(y.s, d, z.s, memory, connected);
  }

  lemma EventMirrors(y: System, d: nat, z: System, a: EventAct)
    requires MirrorsSystem(y, d, z) && Fair(y, d, z, OfEvent(a))
    ensures Mirrored(EventStep(y, a), d, EventStep(z, a))
  {
    if a.BeginAcquire? {
      FairBegin(y, d, z, a);
      hide Begin, Formed, Mirrors, LoneJobs, Fair;
      if y.event == Starting { BeginMirrors(y, d, z, a.memory, a.created, a.connected); }
    } else {
      hide Own, Formed, Mirrors, LoneJobs, Fair, Begin;
      MirrorStatus(y.s, d, z.s, Idle);
    }
  }

  lemma FairBegin(y: System, d: nat, z: System, a: EventAct)
    requires MirrorsSystem(y, d, z) && Fair(y, d, z, OfEvent(a)) && a.BeginAcquire?
    ensures Shaped(y.s) && Shaped(z.s) && d < |y.s.dets| == |z.s.dets| && 1 < |z.s.dets|
    ensures y.event == Starting ==> SameOutcome(y.s, d, z.s, a.memory)
  {
    hide SameOutcome, Regular, CarefulStep, StepDefined, Sound, JobFormed, SameParts;
    MirrorSelf(y.s, d, z.s);
    if y.event == Starting { FairEndsAlike(y.s, d, z.s, a.memory); }
  }

  lemma FrameMirrors(y: System, d: nat, z: System, a: FrameAct)
    requires Mirrored(y, d, z)
    ensures Mirrored(FrameStep(y, a), d, FrameStep(z, a))
  {
    hide Mirrors, LoneJobs;
  }

  lemma DeliverMirrors(y: System, d: nat, z: System, c: nat, p: Packet)
    requires MirrorsSystem(y, d, z) && c < |y.jobs| && y.jobs[c] == NoJob && CopyCompletes(y.s)
    ensures Mirrored(DeliverStep(y, c, p), d, DeliverStep(z, c, p))
  {
    MirrorSnapshot(y.s, d, z.s);
    assert z.s.paused == y.s.paused && z.s.epoch == y.s.epoch;
    LoneJobsUpdate(y.jobs, z.jobs, d, c, Copied(p, y.s.paused != 0, HandlerDets(y.s), y.s.epoch));
    hide Snapshot, Formed, Mirrors, LoneJobs;
  }

  lemma StampMirrors(y: System, d: nat, z: System, c: nat)
    requires MirrorsSystem(y, d, z) && c < |y.jobs| && y.jobs[c].Copied?
    ensures z.jobs[c].Copied? && Mirrored(StampStep(y, c), d, StampStep(z, c))
  {
    MirrorStamp(y.s, d, z.s, c, y.jobs[c].packet.stamp);
    LoneJobsUpdate(y.jobs, z.jobs, d, c, StampStep(y, c).jobs[c]);
    hide StampSection, Sound, Mirrors, JobFormed;
  }

  lemma CheckMirrors(y: System, d: nat, z: System, c: nat)
    requires MirrorsSystem(y, d, z) && c < |y.jobs| && y.jobs[c].Stamped?
    ensures z.jobs[c].Stamped? && Mirrored(CheckStep(y, c), d, CheckStep(z, c))
  {
    assert Integrable(y.s, y.jobs[c].packet) == Integrable(z.s, y.jobs[c].packet);
    LoneJobsUpdate(y.jobs, z.jobs, d, c, CheckStep(y, c).jobs[c]);
    hide Integrable, Sound, Mirrors, JobFormed;
  }

  lemma FairIsFair(y: System, d: nat, z: System, c: nat)
    requires MirrorsSystem(y, d, z) && Fresh(y) && Fresh(z) && c < |y.jobs| && Integrates(y.s, y.jobs[c])
    requires Fair(y, d, z, OfHandler(c, IntegratePacket))
    ensures Alike(y.s, d, z.s) && FairJob(y.s, d, z.s, y.jobs[c].dets)
  {
    if Laid(y.s) {
      CarefulIsReady(y, c);
      LaidAlone(y.s, d, z.s);
      if d <= y.jobs[c].dets {
        assert z.jobs[c].epoch == z.s.epoch && z.jobs[c].dets == 1;
        assert Copies(z.s, 1);
      }
    }
    hide Laid, Ready, SameOutcome, StepDefined, JobFormed, CarryFree;
  }

  lemma IntegrateMirrors(y: System, d: nat, z: System, c: nat)
    requires MirrorsSystem(y, d, z) && Fresh(y) && Fresh(z) && c < |y.jobs| && y.jobs[c].Checked?
    requires Fair(y, d, z, OfHandler(c, IntegratePacket))
    ensures z.jobs[c].Checked? && Mirrored(IntegrateStep(y, c), d, IntegrateStep(z, c))
  {
    var j := y.jobs[c];
    assert Integrates(y.s, j) == Integrates(z.s, z.jobs[c]) && z.jobs[c] == LoneJob(j, d);
    LoneJobsUpdate(y.jobs, z.jobs, d, c, NoJob);
    if Integrates(y.s, j) {
      FairIsFair(y, d, z, c);
      hide Fair, FairJob, Integrate, Mirrors, LoneJobs, Fresh, Alike;
      MirrorIntegrate(y.s, d, z.s, j.dets, j.packet, j.newPulse);
    }
    hide Fair, Integrate, Formed, Mirrors, LoneJobs, Fresh;
  }

  lemma HandlerMirrors(y: System, d: nat, z: System, c: nat, a: HandlerAct)
    requires MirrorsSystem(y, d, z) && Fresh(y) && Fresh(z) && Fair(y, d, z, OfHandler(c, a))
    ensures Mirrored(HandlerStep(y, c, a), d, HandlerStep(z, c, a))
  {
    if c < |y.jobs| {
      assert z.jobs[c] == LoneJob(y.jobs[c], d);
      match a {
        case Deliver(p) => if y.jobs[c] == NoJob { DeliverMirrors(y, d, z, c, p); }
        case StampPacket => if y.jobs[c].Copied? { StampMirrors(y, d, z, c); }
        case CheckPacket => if y.jobs[c].Stamped? { CheckMirrors(y, d, z, c); }
        case IntegratePacket => if y.jobs[c].Checked? { IntegrateMirrors(y, d, z, c); }
      }
    }
    hide Fair, Formed, Fresh, Mirrors, DeliverStep, StampStep, CheckStep, IntegrateStep;
  }

  /** One step of both drivers. */
  lemma StepMirrors(y: System, d: nat, z: System, l: Label)
    requires MirrorsSystem(y, d, z) && Fresh(y) && Fresh(z) && Fair(y, d, z, l)
    ensures MirrorsSystem(Step(y, l), d, Step(z, Alone(l, d, MaxDets(y.s))))
  {
    StepKeepsFresh(y, l);
    StepKeepsFresh(z, Alone(l, d, MaxDets(y.s)));
    hide Fair, Formed, Fresh, Mirrored, ClientStep, EventStep, FrameStep, HandlerStep;
    match l {
      case Client(w) => ClientMirrors(y, d, z, w);
      case OfEvent(a) => EventMirrors(y, d, z, a);
      case OfFrame(a) => FrameMirrors(y, d, z, a);
      case OfHandler(c, a) => HandlerMirrors(y, d, z, c, a);
    }
  }

  /** With a layout in force, what the lone driver does in a careful step is defined. */
  lemma LoneStepDefined(y: System, d: nat, z: System, l: Label)
    requires MirrorsSystem(y, d, z) && Fresh(y) && Fresh(z) && CarefulStep(y, l) && Laid(y.s)
    ensures StepDefined(z, Alone(l, d, MaxDets(y.s)))
  {
    LaidAlone(y.s, d, z.s);
    match l {
      case Client(w) =>
        Conservation.RegionInBuffer(z.s, 1);
        assert z.s.dets[0].region.tofStart == 0;
        hide Laid, Sound, CarefulStep, Alike, JobFormed;
      case OfFrame(a) => hide Laid, Sound;
      case OfEvent(a) =>
      case OfHandler(c, a) => if a.IntegratePacket? && c < |z.jobs| { LoneJobSafe(y, d, z, c); }
    }
  }

  lemma LoneJobSafe(y: System, d: nat, z: System, c: nat)
    requires MirrorsSystem(y, d, z) && Fresh(y) && Fresh(z) && Laid(y.s) && Laid(z.s) && c < |z.jobs|
    requires c < |y.jobs| && Careful(y, c)
    ensures JobSafe(z.s, z.jobs[c])
  {
    var j, k := y.jobs[c], z.jobs[c];
    assert k == LoneJob(j, d);
    if Integrates(z.s, k) {
      assert Integrates(y.s, j);
      CarefulIsReady(y, c);
      LaidAlone(y.s, d, z.s);
      SameLens(y.s, d, z.s);
      if k.dets == 1 {
        assert Copies(z.s, 1) && AtRegion(z.s, 1) && Usable(y.s, d);
        assert Usable(z.s, 1);
      }
      hide Laid, Sound, Usable, AtRegion, LoopSafe, Views;
      ReadyIsSafe(z.s, k.dets, EventsOf(k.packet));
    }
  }

  // ---------- every run ----------

  /** Every step of the two runs, taken side by side, is fair. */
  ghost predicate FairRun(y: System, d: nat, z: System, ls: seq<Label>)
    requires Formed(y) && Fresh(y) && Formed(z) && Fresh(z) && 1 <= d <= MaxDets(y.s) && |z.s.dets| == |y.s.dets|
    decreases |ls|
  {
    ls != [] ==>
      var n, m := |ls| - 1, MaxDets(y.s);
      RunKeepsDets(y, ls[..n]);
      RunKeepsDets(z, AllAlone(ls[..n], d, m));
      FairRun(y, d, z, ls[..n]) && Fair(Run(y, ls[..n]), d, Run(z, AllAlone(ls[..n], d, m)), ls[n])
  }

  lemma RunMirrorsStep(y: System, d: nat, z: System, ks: seq<Label>, l: Label, m: nat)
    requires Formed(y) && Fresh(y) && Formed(z) && Fresh(z)
    requires var a, b := Run(y, ks), Run(z, AllAlone(ks, d, m));
             MirrorsSystem(a, d, b) && MaxDets(a.s) == m && Fair(a, d, b, l)
    ensures MirrorsSystem(Run(y, ks + [l]), d, Run(z, AllAlone(ks + [l], d, m)))
  {
    hide *;
    AloneSnoc(ks, l, d, m);
    RunStep(y, ks, l);
    RunStep(z, AllAlone(ks, d, m), Alone(l, d, m));
    StepMirrors(Run(y, ks), d, Run(z, AllAlone(ks, d, m)), l);
  }

  /** Run side by side, the second driver stays detector d of the first on its own. */
  lemma {:induction false} RunMirrors(y: System, d: nat, z: System, ls: seq<Label>)
    requires MirrorsSystem(y, d, z) && Fresh(y) && Fresh(z) && FairRun(y, d, z, ls)
    ensures MirrorsSystem(Run(y, ls), d, Run(z, AllAlone(ls, d, MaxDets(y.s))))
    decreases |ls|
  {
    hide *;
    SystemFacts(y, d, z);
    if ls == [] {
      RunNone(y, z, d, MaxDets(y.s));
    } else {
      var n := |ls| - 1;
      FairPrefix(y, d, z, ls);
      RunMirrors(y, d, z, ls[..n]);
      RunMirrorsStep(y, d, z, ls[..n], ls[n], MaxDets(y.s));
      assert ls[..n] + [ls[n]] == ls;
    }
  }

  lemma SystemFacts(y: System, d: nat, z: System)
    requires MirrorsSystem(y, d, z)
    ensures Formed(y) && Formed(z) && 1 <= d <= MaxDets(y.s) && |z.s.dets| == |y.s.dets|
  {
  }

  lemma RunNone(y: System, z: System, d: nat, m: nat)
    requires Formed(y) && Fresh(y) && Formed(z) && Fresh(z)
    ensures Run(y, []) == y && AllAlone([], d, m) == [] && Run(z, []) == z
  {
  }

  lemma FairPrefix(y: System, d: nat, z: System, ls: seq<Label>)
    requires Formed(y) && Fresh(y) && Formed(z) && Fresh(z) && 1 <= d <= MaxDets(y.s) && |z.s.dets| == |y.s.dets|
    requires ls != [] && FairRun(y, d, z, ls)
    ensures var n := |ls| - 1;
            var a, b := Run(y, ls[..n]), Run(z, AllAlone(ls[..n], d, MaxDets(y.s)));
            && FairRun(y, d, z, ls[..n])
            && MaxDets(a.s) == MaxDets(y.s) && |b.s.dets| == |a.s.dets| && Fair(a, d, b, ls[n])
  {
    var n := |ls| - 1;
    RunKeepsDets(y, ls[..n]);
    RunKeepsDets(z, AllAlone(ls[..n], d, MaxDets(y.s)));
    hide Run, Formed, Fresh, Fair, AllAlone;
  }

  lemma AloneSnoc(ks: seq<Label>, l: Label, d: nat, m: nat)
    ensures AllAlone(ks + [l], d, m) == AllAlone(ks, d, m) + [Alone(l, d, m)]
  {
    hide Alone;
  }

  lemma InitMirrors(maxDets: nat, maxChannels: nat, transform: Transform, d: nat)
    requires 1 <= maxChannels && 1 <= d <= maxDets
    ensures var y := Init(maxDets, maxChannels, transform); MirrorsSystem(y, d, y)
  {
  }

  /** In every fair run, interleaved and configured in any way, detector d has the event total and, with
      a layout in force, cell for cell the regions of the driver that has only d, whatever pixel
      ranges overlap. */
  lemma DetectorIsIndependent(maxDets: nat, maxChannels: nat, transform: Transform, d: nat, ls: seq<Label>)
    requires 1 <= maxChannels && 1 <= d <= maxDets
    requires var y := Init(maxDets, maxChannels, transform); FairRun(y, d, y, ls)
    ensures var y := Init(maxDets, maxChannels, transform);
            var s, u := Run(y, ls).s, Run(y, AllAlone(ls, d, maxDets)).s;
            && d < |s.totals| && 1 < |u.totals| && s.totals[d] == u.totals[1]
            && s.channels == u.channels && s.pulses == u.pulses && s.charge == u.charge && s.status == u.status
            && (Laid(s) ==> SameParts(s, d, u))
  {
    var y := Init(maxDets, maxChannels, transform);
    assert MaxDets(y.s) == maxDets;
    InitMirrors(maxDets, maxChannels, transform, d);
    hide Init, Run, FairRun, Fresh;
    RunMirrors(y, d, y, ls);
    hide SameParts, Laid, InForce, MapSound;
  }
}
