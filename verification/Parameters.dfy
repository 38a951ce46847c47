/**
 Client writes read back: what a write stores, what it leaves alone, and which parameters a packet already copied
 still follows.
 */
module Parameters {
  import opened Base
  import opened Events
  import opened Histogram
  import opened Stream
  import opened Driver
  import opened Soundness
  import opened Acquisition

  /** The value of an integer parameter, as a client reads it. */
  function Read(c: Config, p: Param): Int32 {
    match p
    case PixelStart => c.pixelStart
    case PixelEnd => c.pixelEnd
    case PixelSize => c.pixelSize
    case PlotType => c.plotType
    case TofBins => c.tofBins
    case TofRoiStart => c.tofRoiStart
    case TofRoiSize => c.tofRoiSize
    case TofRoiEnable => c.tofRoiOn
    case MapEnable => c.mapOn
    case TransType => c.transType
    case RoiStartX => c.roiStartX
    case RoiStartY => c.roiStartY
    case RoiSizeX => c.roiSizeX
    case RoiSizeY => c.roiSizeY
    case SizeX => c.sizeX
    case RoiEnable => c.roiOn
  }

  /** A configuration is its parameters: two that read the same are the same. */
  lemma ReadsSameIsSame(a: Config, b: Config)
    requires forall p: Param :: Read(a, p) == Read(b, p)
    requires a.transScale == b.transScale && a.transOffset == b.transOffset
    ensures a == b
  {
    assert Read(a, PixelStart) == Read(b, PixelStart) && Read(a, PixelEnd) == Read(b, PixelEnd);
    assert Read(a, PixelSize) == Read(b, PixelSize) && Read(a, PlotType) == Read(b, PlotType);
    assert Read(a, TofBins) == Read(b, TofBins) && Read(a, TofRoiStart) == Read(b, TofRoiStart);
    assert Read(a, TofRoiSize) == Read(b, TofRoiSize) && Read(a, TofRoiEnable) == Read(b, TofRoiEnable);
    assert Read(a, MapEnable) == Read(b, MapEnable) && Read(a, TransType) == Read(b, TransType);
    assert Read(a, RoiStartX) == Read(b, RoiStartX) && Read(a, RoiStartY) == Read(b, RoiStartY);
    assert Read(a, RoiSizeX) == Read(b, RoiSizeX) && Read(a, RoiSizeY) == Read(b, RoiSizeY);
    assert Read(a, SizeX) == Read(b, SizeX) && Read(a, RoiEnable) == Read(b, RoiEnable);
  }

  /** What parameter q reads after v was written to p: v, but at least 1 for the ROI width; 0 for the filter that
      enabling the other switches off; what it was for every other. */
  function After(c: Config, p: Param, v: Int32, q: Param): Int32 {
    if q == p then (if p.RoiSizeX? && v < 1 then 1 else v)
    else if ((p.RoiEnable? && q.TofRoiEnable?) || (p.TofRoiEnable? && q.RoiEnable?)) && v == 1 then 0
    else Read(c, q)
  }

  /** A write that is accepted is read back, and no other parameter of any detector changes. A pixel range or size
      is refused while acquiring and otherwise asks for an allocation; no other parameter does either. */
  lemma WriteReadsBack(s: State, a: nat, p: Param, v: Int32, b: nat, q: Param)
    requires a < |s.dets| && b < |s.dets|
    ensures var (t, ok) := WriteDet(s, a, p, v);
            var layout := p.PixelStart? || p.PixelEnd? || p.PixelSize?;
            && |t.dets| == |s.dets|
            && (ok <==> !(layout && s.status == Acquire)) && (!ok ==> t == s)
            && (ok ==> Read(t.dets[b].cfg, q) == if a == b then After(s.dets[a].cfg, p, v, q)
                                                 else Read(s.dets[b].cfg, q))
            && (ok ==> t.dataAlloc == (s.dataAlloc || layout))
            && t.dets[b].region == s.dets[b].region && t.dets[b].transform == s.dets[b].transform
            && t.dets[b].cfg.transScale == s.dets[b].cfg.transScale
            && t.dets[b].cfg.transOffset == s.dets[b].cfg.transOffset
            && t == s.(dets := t.dets, dataAlloc := t.dataAlloc)
  {
    hide SetParam, Read, After;
    SetReadsBack(s.dets[a].cfg, p, v, q);
  }

  lemma SetReadsBack(c: Config, p: Param, v: Int32, q: Param)
    ensures var e := SetParam(c, p, v);
            Read(e, q) == After(c, p, v, q) && e.transScale == c.transScale && e.transOffset == c.transOffset
  {
  }

  /** Writing a parameter the value it reads changes nothing of the configuration. */
  lemma WriteBackIsNothing(c: Config, p: Param)
    requires p.RoiSizeX? ==> 1 <= c.roiSizeX
    requires p.RoiEnable? && c.roiOn == 1 ==> c.tofRoiOn == 0
    requires p.TofRoiEnable? && c.tofRoiOn == 1 ==> c.roiOn == 0
    ensures SetParam(c, p, Read(c, p)) == c
  {
  }

  /** Scale, offset and transformation of one detector, and the parameters of the driver, are read back too. */
  lemma OtherWritesReadBack(s: State, a: nat, x: real, f: Transform, v: Int32)
    requires Sound(s) && a < |s.dets|
    ensures var t := ClientWrite(s, OnDet(a, SetScale(x)));
            && |t.dets| == |s.dets| && t == s.(dets := s.dets[a := t.dets[a]])
            && t.dets[a] == s.dets[a].(cfg := s.dets[a].cfg.(transScale := t.dets[a].cfg.transScale))
            && t.dets[a].cfg.transScale == x
    ensures var t := ClientWrite(s, OnDet(a, SetOffset(x)));
            && |t.dets| == |s.dets| && t == s.(dets := s.dets[a := t.dets[a]])
            && t.dets[a] == s.dets[a].(cfg := s.dets[a].cfg.(transOffset := t.dets[a].cfg.transOffset))
            && t.dets[a].cfg.transOffset == x
    ensures var t := ClientWrite(s, OnDet(a, SetTransform(f)));
            && |t.dets| == |s.dets| && t == s.(dets := s.dets[a := t.dets[a]])
            && t.dets[a] == s.dets[a].(transform := t.dets[a].transform) && t.dets[a].transform == f
    ensures var t := ClientWrite(s, Pause(v)); t.paused == v && t == s.(paused := t.paused)
    ensures var t := ClientWrite(s, SetNumDet(v));
            && t.numDet == (if s.status != Acquire && v < |s.dets| then v else s.numDet) && t == s.(numDet := t.numDet)
    ensures var t := ClientWrite(s, SetNumChannels(v));
            && t.numChannels == (if s.status != Acquire && v <= |s.channels| then v else s.numChannels)
            && t == s.(numChannels := t.numChannels)
    ensures var t := ClientWrite(s, SetTofMax(v));
            && t.tofMaxParam == (if s.status != Acquire then v else s.tofMaxParam)
            && t.dataAlloc == (s.dataAlloc || s.status != Acquire)
            && t == s.(tofMaxParam := t.tofMaxParam, dataAlloc := t.dataAlloc)
  {
    hide Sound, LoadMap;
  }

  /** A driver just constructed reads 0 everywhere, but for a row length and a scale of 1; it is idle, has no buffer
      and asks for one. */
  lemma NewDriverReads(maxDets: nat, maxChannels: nat, transform: Transform, d: nat, q: Param)
    requires d <= maxDets
    ensures var s := InitState(maxDets, maxChannels, transform);
            && |s.dets| == maxDets + 1 && |s.channels| == maxChannels
            && Read(s.dets[d].cfg, q) == (if q.SizeX? then 1 else 0)
            && s.dets[d].cfg.transScale == 1.0 && s.dets[d].cfg.transOffset == 0.0 && s.dets[d].transform == transform
            && s.dets[d].region == Region(0, 0, 0, 0, 0) && s.maps[d].entries == None && s.totals[d] == 0
            && s.numDet == s.numChannels == s.tofMaxParam == s.paused == 0
            && s.status == Idle && s.data == None && s.dataAlloc && s.pulses == 0 && s.charge == 0.0
  {
  }

  // ---------- what a packet already copied follows ----------

  /** Of the integer parameters only the plot type and the bin count reach a packet that was already copied; every
      other write waits for the next packet. */
  lemma CopiedPacketFollows(s: State, d: nat, p: Param, v: Int32, q: Param)
    requires Shaped(s) && 1 <= d <= MaxDets(s)
    ensures var t := WriteDet(s, d, p, v).0;
            && Shaped(t)
            && Read(ViewOf(t, d).lens.cfg, q)
               == (if q == p && (p.PlotType? || p.TofBins?) then v else Read(ViewOf(s, d).lens.cfg, q))
            && ViewOf(t, d).lens.tofMax == ViewOf(s, d).lens.tofMax
            && ViewOf(t, d).lens.pixelMap == ViewOf(s, d).lens.pixelMap
            && ViewOf(t, d).start == ViewOf(s, d).start && ViewOf(t, d).tofStart == ViewOf(s, d).tofStart
  {
    hide SetParam;
    ParamsApart(s.dets[d].cfg, p, v);
  }

  lemma ParamsApart(c: Config, p: Param, v: Int32)
    ensures var e := SetParam(c, p, v);
            && e.plotType == (if p.PlotType? then v else c.plotType)
            && e.tofBins == (if p.TofBins? then v else c.tofBins)
  {
  }

  /** A copy takes over every parameter as it reads now, and where the regions are. */
  lemma CopyTakesAll(s: State, d: nat, q: Param)
    requires Shaped(s) && 1 <= d <= s.numDet && Snapshot(s).1.Some?
    ensures var t := Snapshot(s).0;
            && Shaped(t) && Read(t.snaps[d].cfg, q) == Read(s.dets[d].cfg, q)
            && t.snaps[d].cfg.transScale == s.dets[d].cfg.transScale
            && t.snaps[d].cfg.transOffset == s.dets[d].cfg.transOffset
            && t.snaps[d].start == s.dets[d].region.start && t.snaps[d].tofStart == s.dets[d].region.tofStart
            && Read(ViewOf(t, d).lens.cfg, q) == Read(s.dets[d].cfg, q)
            && ViewOf(t, d).lens.transform == s.dets[d].transform && ViewOf(t, d).lens.tofMax == s.tofMax
  {
    hide FirstNarrow;
  }

  // ---------- clearing ----------

  /** A clear leaves the counters, streams and totals of a driver just constructed, zeros in the whole buffer, and
      everything a client configured. */
  lemma ClearIsNew(s: State, transform: Transform)
    requires Sound(s)
    ensures var t, made := Clear(s), InitState(MaxDets(s), |s.channels|, transform);
            && t.pulses == made.pulses && t.charge == made.charge && t.channels == made.channels
            && t.totals == made.totals
            && t.data.Some? == s.data.Some? && (t.data.Some? ==> |t.data.value| == |s.data.value|)
            && (t.data.Some? ==> forall i :: 0 <= i < |t.data.value| ==> t.data.value[i] == 0)
            && t == s.(data := t.data, pulses := t.pulses, charge := t.charge, channels := t.channels,
                       totals := t.totals)
  {
    hide InForce, UpToDate, MapSound;
  }
}
