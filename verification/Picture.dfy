/**
 What one packet does to the picture of a detector, cell by cell and in terms of the two arrays it carries.
 */
module Picture {
  import opened Base
  import opened Events
  import opened Histogram
  import opened Driver
  import opened Soundness
  import opened Stream
  import opened Counts
  import I = Independence

  /** 1 for the events that count in cell j of the image, and in cell k of the spectrum. */
  function AtPixel(l: Lens, j: int): Event -> nat {
    e => if PixelCell(l, e, 0) == Some(j) then 1 else 0
  }

  function AtTof(l: Lens, k: int): Event -> nat {
    e => if TofCell(l, e) == Some(k) then 1 else 0
  }

  lemma BumpAt(r: seq<nat>, c: Option<int>, j: nat)
    requires j < |r|
    ensures BumpCell(r, 0, c)[j] == r[j] + if c == Some(j) then 1 else 0
  {
  }

  /** A detector on its own counts every event in the cells it picks. */
  lemma {:induction false} AloneFills(t: Tally, v: View, es: seq<Event>, size: nat, j: nat, k: nat)
    requires CarryFree(v.lens) && Confined(v.lens, size) && Placed(v, size, |t.cells|) && k <= v.lens.tofMax
    ensures var r := StrikeAll(t, [v], es).cells;
            && (j < size ==>
                  PixelRegion(r, v, size)[j] == PixelRegion(t.cells, v, size)[j] + SumOf(AtPixel(v.lens, j), es))
            && TofRegion(r, v, size)[k] == TofRegion(t.cells, v, size)[k] + SumOf(AtTof(v.lens, k), es)
  {
    if es != [] {
      var n := |es| - 1;
      var u := StrikeAll(t, [v], es[..n]);
      AloneFills(t, v, es[..n], size, j, k);
      assert [v][..0] == [] && StrikeEvent(u, [v], es[n]) == StrikeDet(u, v, es[n]);
      hide StrikeDet, PixelCell, TofCell, Confined, CarryFree, PixelRegion, TofRegion;
      OwnRegions(u, v, es[n], size);
      if j < size { BumpAt(PixelRegion(u.cells, v, size), PixelCell(v.lens, es[n], 0), j); }
      BumpAt(TofRegion(u.cells, v, size), TofCell(v.lens, es[n]), k);
    }
  }

  /** Over a packet, among any detectors that keep to their regions, the cells of detector d fill as if it were
      alone. */
  lemma LoopFills(s: State, n: nat, es: seq<Event>, d: nat, j: nat, k: nat)
    requires Laid(s) && Ready(s, n) && 1 <= d <= n && CarryFree(ViewOf(s, d).lens) && k <= s.tofMax
    ensures var g, l := s.dets[d].region, ViewOf(s, d).lens;
            var r := StrikeAll(Tally(s.data.value, 0), Views(s, n), es).cells;
            && (j < g.size ==>
                  0 <= g.start + j < |r| == |s.data.value|
                  && r[g.start + j] == s.data.value[g.start + j] + SumOf(AtPixel(l, j), es))
            && 0 <= g.tofStart + k < |r| == |s.data.value|
            && r[g.tofStart + k] == s.data.value[g.tofStart + k] + SumOf(AtTof(l, k), es)
  {
    hide ViewOf, Views, StrikeAll, CarryFree, Confined, SumOf, Undisturbed, SameRegions, PixelRegion, TofRegion, Placed,
        Sound, AllPublished, AtRegion, Usable, AtPixel, AtTof;
    var v, vs, size, t := ViewOf(s, d), Views(s, n), s.dets[d].region.size, Tally(s.data.value, 0);
    Stands(s, n, d);
    DetectorAlone(t, vs, d - 1, t, v, es, size);
    AloneFills(t, v, es, size, j, k);
    RegionCells(StrikeAll(t, vs, es).cells, StrikeAll(t, [v], es).cells, t.cells, v, size, j, k);
    Bounds(v, size, |t.cells|, j, k);
  }

  lemma Bounds(v: View, size: nat, cells: nat, j: nat, k: nat)
    requires Placed(v, size, cells) && k <= v.lens.tofMax
    ensures j < size ==> 0 <= v.start + j < cells
    ensures 0 <= v.tofStart + k < cells
  {
  }

  /** Where detector d is, and that the others of the packet leave it alone. */
  lemma Stands(s: State, n: nat, d: nat)
    requires Laid(s) && Ready(s, n) && 1 <= d <= n
    ensures Held(s) && n <= MaxDets(s)
    ensures var v, g := ViewOf(s, d), s.dets[d].region;
            && v.lens.tofMax == s.tofMax && Confined(v.lens, g.size)
            && 0 <= g.size && v.start == g.start && v.tofStart == g.tofStart && Placed(v, g.size, |s.data.value|)
            && Views(s, n)[d - 1] == v && Undisturbed(Views(s, n), d - 1, g.size)
            && SameRegions(s.data.value, v, s.data.value, v, g.size)
  {
    var v, vs, size := ViewOf(s, d), Views(s, n), s.dets[d].region.size;
    assert AtRegion(s, d) && Usable(s, d) && vs[d - 1] == v && v.lens.tofMax == s.tofMax;
    hide Laid, Ready, ViewOf, Rising, Avoids, I.Part, PixelRegion, TofRegion, Confined;
    I.PartBounds(s, d);
    I.CopyIsAt(s, d);
    I.PartIsRegions(s, d, v);
    RisingViews(s, n);
    forall i | 0 <= i < n && i != d - 1
      ensures Avoids(vs[i], vs[d - 1], size)
    {
      I.OthersAvoid(s, n, d, i + 1, v);
    }
  }

  /** Regions that read the same have the same cells. */
  lemma RegionCells(a: seq<nat>, b: seq<nat>, c: seq<nat>, v: View, size: nat, j: nat, k: nat)
    requires |a| == |b| == |c| && Placed(v, size, |a|) && k <= v.lens.tofMax && SameRegions(a, v, b, v, size)
    ensures j < size ==> a[v.start + j] == PixelRegion(b, v, size)[j] && c[v.start + j] == PixelRegion(c, v, size)[j]
    ensures a[v.tofStart + k] == TofRegion(b, v, size)[k] && c[v.tofStart + k] == TofRegion(c, v, size)[k]
  {
    assert j < size ==> PixelRegion(a, v, size)[j] == a[v.start + j];
    assert TofRegion(a, v, size)[k] == a[v.tofStart + k];
  }

  // ---------- in terms of the packet ----------

  /** The positions of the events that f counts. */
  ghost function Ones(f: Event -> nat, es: seq<Event>): set<nat> {
    set i: nat | i < |es| && f(es[i]) == 1
  }

  lemma OnesSnoc(f: Event -> nat, es: seq<Event>)
    requires es != []
    ensures var n := |es| - 1;
            && Ones(f, es) == Ones(f, es[..n]) + (if f(es[n]) == 1 then {n} else {})
            && n !in Ones(f, es[..n])
  {
  }

  lemma {:induction false} SumIsSize(f: Event -> nat, es: seq<Event>)
    requires forall e :: f(e) <= 1
    ensures SumOf(f, es) == |Ones(f, es)|
  {
    if es != [] {
      hide Ones;
      SumIsSize(f, es[..|es| - 1]);
      OnesSnoc(f, es);
    } else {
      assert Ones(f, es) == {};
    }
  }

  /** The packet integrated among any detectors that keep to their regions: cell j of the image of detector d grows by
      the number of positions i at which the event made of pixel i and TOF i picks it, and cell k of the spectrum
      likewise. */
  lemma PacketFills(s: State, n: nat, p: Packet, newPulse: bool, d: nat, j: nat, k: nat)
    requires Laid(s) && Ready(s, n) && 1 <= d <= n && CarryFree(ViewOf(s, d).lens) && k <= s.tofMax && Complete(p)
    ensures var g, l, t := s.dets[d].region, ViewOf(s, d).lens, Integrate(s, n, p, newPulse);
            var px, tofs := p.pixels.value, p.tofs.value;
            && t.data.Some? && |t.data.value| == |s.data.value|
            && (j < g.size ==>
                  && 0 <= g.start + j < |s.data.value|
                  && t.data.value[g.start + j] == s.data.value[g.start + j]
                     + |set i | 0 <= i < |px| && PixelCell(l, Event(px[i], tofs[i]), 0) == Some(j)|)
            && 0 <= g.tofStart + k < |s.data.value|
            && t.data.value[g.tofStart + k] == s.data.value[g.tofStart + k]
               + |set i | 0 <= i < |px| && TofCell(l, Event(px[i], tofs[i])) == Some(k)|
  {
    var l, es, px, tofs := ViewOf(s, d).lens, EventsOf(p), p.pixels.value, p.tofs.value;
    LoopFills(s, n, es, d, j, k);
    SumIsSize(AtPixel(l, j), es);
    SumIsSize(AtTof(l, k), es);
    assert Ones(AtPixel(l, j), es) == set i | 0 <= i < |px| && PixelCell(l, Event(px[i], tofs[i]), 0) == Some(j);
    assert Ones(AtTof(l, k), es) == set i | 0 <= i < |px| && TofCell(l, Event(px[i], tofs[i])) == Some(k);
    hide Laid, Ready, ViewOf, StrikeAll, PixelCell, TofCell, CarryFree;
  }

  /** A detector shown as X/Y image, without filters, mapping or transformation. */
  predicate PlainDetector(c: Config) {
    c.plotType == 0 && c.tofRoiOn == 0 && c.roiOn == 0 && c.mapOn == 0 && c.transType == 0
  }

  /** The positions in the packet whose pixel is the j-th of the range, that are in the range and have TOF k, and
      that are in the range. */
  function PixelsAt(c: Config, px: seq<nat>, j: nat): set<nat> {
    set i: nat | i < |px| && px[i] == U32(c.pixelStart) + j && px[i] <= U32(c.pixelEnd)
  }

  function TofsAt(c: Config, px: seq<nat>, tofs: seq<nat>, k: nat): set<nat>
    requires |px| == |tofs|
  {
    set i: nat | i < |px| && U32(c.pixelStart) <= px[i] <= U32(c.pixelEnd) && tofs[i] == k
  }

  function PixelsIn(c: Config, px: seq<nat>): set<nat> {
    set i: nat | i < |px| && U32(c.pixelStart) <= px[i] <= U32(c.pixelEnd)
  }

  /** From `was` to `now` the cells of region g have grown by what the arrays px and tofs hold for the range of c:
      cell j of the image by the positions with its pixel, cell k of the spectrum by those in range with TOF k;
      and the total has grown by the positions in range. */
  ghost predicate Filled(was: State, now: State, d: nat, c: Config, px: seq<nat>, tofs: seq<nat>, j: nat, k: nat)
    requires was.data.Some? && d < |was.dets| && d < |was.totals| && |px| == |tofs|
  {
    var g, a := was.dets[d].region, was.data.value;
    && now.data.Some? && |now.data.value| == |a| && d < |now.totals| == |was.totals|
    && (j < g.size ==>
          0 <= g.start + j < |a| && now.data.value[g.start + j] == a[g.start + j] + |PixelsAt(c, px, j)|)
    && 0 <= g.tofStart + k < |a| && now.data.value[g.tofStart + k] == a[g.tofStart + k] + |TofsAt(c, px, tofs, k)|
    && now.totals[d] == was.totals[d] + |PixelsIn(c, px)|
  }

  lemma PlainPixel(l: Lens, e: Event, j: nat)
    requires PlainDetector(l.cfg)
    ensures PixelCell(l, e, 0) == Some(j) <==>
              e.pixel == U32(l.cfg.pixelStart) + j && e.pixel <= U32(l.cfg.pixelEnd)
  {
  }

  lemma PlainTof(l: Lens, e: Event, k: nat)
    requires PlainDetector(l.cfg) && k <= l.tofMax
    ensures TofCell(l, e) == Some(k) <==> U32(l.cfg.pixelStart) <= e.pixel <= U32(l.cfg.pixelEnd) && e.tof == k
  {
  }

  /** For a plain detector the image is the histogram of the pixel array, the spectrum that of the TOF array where
      the pixel is in range, and the event total counts the pixels in range. */
  lemma PlainPacketFills(s: State, n: nat, p: Packet, newPulse: bool, d: nat, j: nat, k: nat)
    requires Laid(s) && Ready(s, n) && 1 <= d <= n && k <= s.tofMax && Complete(p)
    requires PlainDetector(ViewOf(s, d).lens.cfg)
    ensures Filled(s, Integrate(s, n, p, newPulse), d, ViewOf(s, d).lens.cfg, p.pixels.value, p.tofs.value, j, k)
  {
    var l, px, tofs := ViewOf(s, d).lens, p.pixels.value, p.tofs.value;
    var c := l.cfg;
    hide Laid, Ready, ViewOf, Integrate, PixelCell, TofCell, EventsOf;
    PacketFills(s, n, p, newPulse, d, j, k);
    PacketTotal(s, n, p, newPulse, d);
    forall e: Event
      ensures PixelCell(l, e, 0) == Some(j) <==> e.pixel == U32(c.pixelStart) + j && e.pixel <= U32(c.pixelEnd)
      ensures TofCell(l, e) == Some(k) <==> U32(c.pixelStart) <= e.pixel <= U32(c.pixelEnd) && e.tof == k
    {
      PlainPixel(l, e, j);
      PlainTof(l, e, k);
    }
    assert (set i | 0 <= i < |px| && PixelCell(l, Event(px[i], tofs[i]), 0) == Some(j)) == PixelsAt(c, px, j);
    assert (set i | 0 <= i < |px| && TofCell(l, Event(px[i], tofs[i])) == Some(k)) == TofsAt(c, px, tofs, k);
  }

  /** The event total of a detector counts the pixels in its range, whatever is plotted. */
  lemma PacketTotal(s: State, n: nat, p: Packet, newPulse: bool, d: nat)
    requires Shaped(s) && 1 <= d <= n <= MaxDets(s) && Complete(p) && s.data.Some?
    ensures var t := Integrate(s, n, p, newPulse);
            && d < |t.totals| == |s.totals|
            && t.totals[d] == s.totals[d] + |PixelsIn(ViewOf(s, d).lens.cfg, p.pixels.value)|
  {
    var l, es, px := ViewOf(s, d).lens, EventsOf(p), p.pixels.value;
    SumIsSize(InRangeCount(l), es);
    assert Ones(InRangeCount(l), es) == PixelsIn(l.cfg, px);
    hide ViewOf, StrikeAll, SumOf, Views;
  }

  // ---------- a whole call ----------

  /** Every detector in use is laid out, has an ROI width and is confined to its region. */
  ghost predicate AllConfined(s: State)
    requires Shaped(s)
  {
    s.numDet <= s.laidOut &&
    forall i :: 1 <= i <= s.numDet ==>
      s.dets[i].cfg.roiSizeX > 0 && Confined(FixedView(s, i).lens, s.dets[i].region.size)
  }

  /** The state in which a call integrates its packet. */
  function AtIntegration(s: State, c: nat, p: Packet): State
    requires Shaped(s) && c < |s.channels|
  {
    StampSection(Snapshot(s).0, c, p.stamp).0
  }

  lemma CallIsReady(s: State, c: nat, p: Packet, d: nat)
    requires Laid(s) && AllConfined(s) && c < |s.channels| && 1 <= d <= s.numDet
    ensures var t := AtIntegration(s, c, p);
            && Laid(t) && Ready(t, s.numDet) && ViewOf(t, d).lens == FixedView(s, d).lens
            && t == s.(snaps := t.snaps, channels := t.channels)
  {
    var s1 := Snapshot(s).0;
    var t := AtIntegration(s, c, p);
    SnapshotSound(s);
    StampSound(s1, c, p.stamp);
    LaidFrame(s, s1);
    LaidFrame(s1, t);
    assert FirstNarrow(s.dets, 1, s.numDet) == s.numDet + 1;
    hide FirstNarrow, Receive, InForce, UpToDate, MapSound, Confined;
    forall i | 1 <= i <= s.numDet
      ensures AtRegion(t, i) && Usable(t, i) && ViewOf(t, i).lens == FixedView(s, i).lens
    {
      assert t.snaps[i] == SnapOf(s.dets[i]);
    }
  }

  /** A whole call with nothing in between, from the parameters as clients wrote them: a packet that has all its
      parts and a timestamp not before the last one is counted, position by position. */
  lemma CallFills(s: State, c: nat, p: Packet, d: nat, j: nat, k: nat)
    requires Laid(s) && AllConfined(s) && c < |s.channels| && 1 <= d <= s.numDet && k <= s.tofMax && s.paused == 0
    requires p.stamp.Some? && s.channels[c].lastTime <= p.stamp.value.time && p.charge.Some?
    requires p.pixels.Some? && p.tofs.Some? && |p.pixels.value| == |p.tofs.value|
    requires PlainDetector(s.dets[d].cfg)
    ensures Filled(s, Handle(s, c, p), d, s.dets[d].cfg, p.pixels.value, p.tofs.value, j, k)
  {
    var t, newPulse := AtIntegration(s, c, p), StampSection(Snapshot(s).0, c, p.stamp).2;
    hide Laid, Ready, AllConfined, ViewOf, Handle, Integrate, AtIntegration, Filled, Snapshot, StampSection;
    CallIsReady(s, c, p, d);
    CallIntegrates(s, c, p);
    PlainPacketFills(t, s.numDet, p, newPulse, d, j, k);
    SameStart(s, t, Handle(s, c, p), d, s.dets[d].cfg, p.pixels.value, p.tofs.value, j, k);
  }

  lemma SameStart(s: State, t: State, u: State, d: nat, c: Config, px: seq<nat>, tofs: seq<nat>, j: nat, k: nat)
    requires s.data.Some? && d < |s.dets| && d < |s.totals| && |px| == |tofs|
    requires t == s.(snaps := t.snaps, channels := t.channels) && Filled(t, u, d, c, px, tofs, j, k)
    ensures Filled(s, u, d, c, px, tofs, j, k)
  {
  }

  lemma CallIntegrates(s: State, c: nat, p: Packet)
    requires Laid(s) && AllConfined(s) && c < |s.channels| && 1 <= s.numDet && s.paused == 0
    requires p.stamp.Some? && s.channels[c].lastTime <= p.stamp.value.time && p.charge.Some?
    requires p.pixels.Some? && p.tofs.Some? && |p.pixels.value| == |p.tofs.value|
    ensures Shaped(AtIntegration(s, c, p)) && s.numDet <= MaxDets(AtIntegration(s, c, p))
    ensures AtIntegration(s, c, p).data.Some?
    ensures Handle(s, c, p)
         == Integrate(AtIntegration(s, c, p), s.numDet, p, StampSection(Snapshot(s).0, c, p.stamp).2)
  {
    assert FirstNarrow(s.dets, 1, s.numDet) == s.numDet + 1;
    assert s.dataMaxSize != 0 && s.data.Some?;
    hide FirstNarrow, Integrate, InForce, UpToDate, MapSound, Confined, Laid;
  }
}
