/**
 The driver object: its members and the buffer, updated in place. Every method is proved equal to
 the value-level section of Driver.dfy, so that what is proved of runs is proved of this code.
 */
module DriverObject {
  import opened Base
  import opened Events
  import opened Histogram
  import opened Stream
  import opened Driver
  import opened Soundness
  import opened Acquisition
  import MapFile
  import L = Layout

  /** Writes that go through writeInt32. */
  predicate IsInt32(w: Write) {
    w.OnDet? ==> w.write.SetDet? || w.write.TofReset?
  }

  /** The status writeInt32 returns: configuration is refused while acquiring, counts beyond the limits,
      a Start while acquiring, a Stop while not, and addresses that do not exist. */
  predicate Accepts(s: State, w: Write)
    requires Shaped(s)
  {
    match w
    case Start(v) => v == 0 || StartAccepted(s, w)
    case Stop(v) => v == 0 || StopAccepted(s, w)
    case SetNumDet(v) => s.status != Acquire && v <= MaxDets(s)
    case SetNumChannels(v) => s.status != Acquire && v <= |s.channels|
    case SetTofMax(_) => s.status != Acquire
    case AllocSpace(memory) => s.status != Acquire && Allocate(s, memory).1
    case OnDet(a, dw) => a < |s.dets| && !(dw.SetDet? && IsLayout(dw.param) && s.status == Acquire)
    case _ => true
  }

  /** The write w takes the driver from s to t, as in every run, and returns the status ok. */
  ghost predicate Written(s: State, w: Write, t: State, ok: bool) {
    Sound(s) && t == ClientWrite(s, w) && (ok <==> Accepts(s, w))
  }

  class ADnED {
    var numDet: Int32
    var numChannels: Int32
    var tofMaxParam: Int32
    var paused: Int32
    var dets: seq<Det>
    var maps: seq<PixelMap>
    var data: array?<nat>
    var dataAlloc: bool
    var dataMaxSize: int
    var bufferMaxSize: int
    var tofMax: nat
    var snaps: seq<Snap>
    var totals: seq<nat>
    var channels: seq<Channel>
    var pulses: nat
    var charge: real
    var status: Status
    var startEvent: bool
    var stopEvent: bool
    ghost var laidOut: nat
    ghost var epoch: nat
    ghost var lastOk: bool

    /** The object as a value; its two semaphores are in the system of Acquisition.dfy. */
    ghost function Value(): State
      reads this, data
    {
      State(numDet, numChannels, tofMaxParam, paused, dets, maps,
            if data == null then None else Some(data[..]),
            dataAlloc, dataMaxSize, bufferMaxSize, tofMax, snaps, totals, channels, pulses, charge, status, laidOut,
            epoch, lastOk)
    }

    constructor (maxDets: nat, maxChannels: nat, transform: Transform)
      ensures Value() == InitState(maxDets, maxChannels, transform) && !startEvent && !stopEvent
    {
      var n := maxDets + 1;
      numDet, numChannels, tofMaxParam, paused := 0, 0, 0, 0;
      dets, maps := seq(n, _ => FirstDet(transform)), seq(n, _ => PixelMap(None, 0, 0));
      data, dataAlloc, dataMaxSize, bufferMaxSize, tofMax := null, true, 0, 0, 0;
      snaps, totals := seq(n, _ => FirstSnap()), seq(n, _ => 0);
      channels, pulses, charge := seq(maxChannels, _ => Cleared), 0, 0.0;
      status, startEvent, stopEvent, laidOut, epoch, lastOk := Idle, false, false, 0, 0, false;
    }

    // ---------- the event loop ----------

    /** The copied parameters of a detector, with plot type, bins, map and tofMax read now. */
    function LoopView(det: nat): View
      requires 1 <= det < |dets| == |snaps| == |maps|
      reads this`dets, this`snaps, this`maps, this`tofMax
    {
      var snap, cfg := snaps[det], dets[det].cfg;
      View(Lens(snap.cfg.(plotType := cfg.plotType, tofBins := cfg.tofBins), tofMax, LoadedMap(maps[det]),
          dets[det].transform),
           snap.start, snap.tofStart)
    }

    /** The loop over n detectors sees them as vs. */
    ghost predicate LoopSees(n: nat, vs: seq<View>)
      reads this`dets, this`snaps, this`maps, this`tofMax, this`data
    {
      && data != null && n < |dets| == |snaps| == |maps| && |vs| == n
      && forall d :: 1 <= d <= n ==> LoopView(d) == vs[d - 1]
    }

    /** The 2-D plot increment of an event in range, filtered on TOF, and the plot index to keep. */
    method StrikePlot(v: View, e: Event, carry: int) returns (tofIndex: int)
      requires data != null && InRange(v.lens, e) && SafePixel(v, e, carry, data.Length)
      modifies data
      ensures data[..] == BumpCell(old(data[..]), v.start, PixelCell(v.lens, e, carry))
      ensures tofIndex == NextCarry(v.lens, e, carry)
    {
      hide MappedIndex, TofValue, Bin, Bins, RowOf, ColumnOf, TofCell;
      var l, c := v.lens, v.lens.cfg;
      var index, tof := MappedIndex(l, e), TofValue(l, e);
      tofIndex := carry;
      if c.tofRoiOn != 0 {
        if c.tofRoiStart as real <= tof < (c.tofRoiStart + c.tofRoiSize) as real {
          data[v.start + index] := data[v.start + index] + 1;
        }
      } else if c.plotType == 0 {
        data[v.start + index] := data[v.start + index] + 1;
      } else if tof <= l.tofMax as real && tof >= 0.0 {
        if c.plotType == 1 {
          tofIndex := ColumnOf(index, c.sizeX) * Bins(l) + Bin(l, tof);
        } else if c.plotType == 2 {
          tofIndex := RowOf(index, c.sizeX) * Bins(l) + Bin(l, tof);
        } else if c.plotType == 3 {
          tofIndex := index * Bins(l) + Bin(l, tof);
        }
        if tofIndex < c.pixelSize - 1 {
          data[v.start + tofIndex] := data[v.start + tofIndex] + 1;
        }
      }
    }

    /** The TOF increment of an event in range, filtered on the pixel rectangle. */
    method StrikeTof(v: View, e: Event)
      requires data != null && InRange(v.lens, e) && SafeTof(v, e, data.Length)
      modifies data
      ensures data[..] == BumpCell(old(data[..]), v.tofStart, TofCell(v.lens, e))
    {
      hide MappedIndex, TofValue, PixelCell;
      var l, c := v.lens, v.lens.cfg;
      var index, tof := MappedIndex(l, e), TofValue(l, e);
      if tof <= l.tofMax as real && tof >= 0.0 {
        var cell := v.tofStart + tof.Floor;
        if c.roiOn != 0 {
          if c.mapOn == 0 {
            data[cell] := data[cell] + 1;
          } else if c.sizeX > 0 {
            if c.roiStartX <= index % c.sizeX < c.roiStartX + c.roiSizeX {
              if c.roiStartY * c.sizeX <= index < (c.roiStartY + c.roiSizeY) * c.sizeX {
                data[cell] := data[cell] + 1;
              }
            }
          }
        } else {
          data[cell] := data[cell] + 1;
        }
      }
    }

    /** One (event, detector) pair. */
    method Strike(v: View, e: Event, carry: int) returns (tofIndex: int, matched: bool)
      requires data != null && Safe(v, e, carry, data.Length)
      modifies data
      ensures Tally(data[..], tofIndex) == StrikeDet(Tally(old(data[..]), carry), v, e)
      ensures matched <==> InRange(v.lens, e)
    {
      tofIndex, matched := carry, InRange(v.lens, e);
      if matched {
        hide SafePixel, SafeTof, PixelCell, TofCell, NextCarry;
        tofIndex := StrikePlot(v, e, carry);
        StrikeTof(v, e);
      }
    }

    /** One event against all detectors. */
    method StrikeDetectors(n: nat, e: Event, carry: int, ghost vs: seq<View>) returns (tofIndex: int)
      requires LoopSees(n, vs) && n < |totals| && EventSafe(Tally(data[..], carry), vs, e)
      modifies this`totals, data
      ensures Tally(data[..], tofIndex) == StrikeEvent(Tally(old(data[..]), carry), vs, e)
      ensures |totals| == |old(totals)|
      ensures forall d :: 0 <= d < |totals| ==>
                totals[d] == old(totals)[d] + if 1 <= d <= n && InRange(vs[d - 1].lens, e) then 1 else 0
    {
      hide StrikeDet, InRange, Safe;
      ghost var before := Tally(data[..], carry);
      tofIndex := carry;
      for det := 1 to n + 1
        invariant Tally(data[..], tofIndex) == StrikeEvent(before, vs[..det - 1], e)
        invariant |totals| == |old(totals)|
        invariant forall d :: 0 <= d < |totals| ==>
                    totals[d] == old(totals)[d] + if 1 <= d < det && InRange(vs[d - 1].lens, e) then 1 else 0
      {
        assert vs[..det][..det - 1] == vs[..det - 1];
        EventSafeAt(before, vs, e, det - 1);
        var matched;
        tofIndex, matched := Strike(LoopView(det), e, tofIndex);
        if matched {
          totals := totals[det := totals[det] + 1];
        }
      }
      assert vs[..n] == vs;
    }

    /** The nested loop over events and detectors. */
    method StrikeLoop(n: nat, es: seq<Event>, ghost vs: seq<View>)
      requires LoopSees(n, vs) && n < |totals| && LoopSafe(Tally(data[..], 0), vs, es)
      modifies this`totals, data
      ensures data[..] == StrikeAll(Tally(old(data[..]), 0), vs, es).cells
      ensures |totals| == |old(totals)|
      ensures forall d :: 0 <= d < |totals| ==>
                totals[d] == old(totals)[d] + if 1 <= d <= n then Matches(vs[d - 1].lens, es) else 0
    {
      hide StrikeEvent, InRange, EventSafe;
      ghost var start := Tally(data[..], 0);
      var tofIndex: int := 0;
      assert es[..0] == [];
      MatchesNone();
      for i := 0 to |es|
        invariant Tally(data[..], tofIndex) == StrikeAll(start, vs, es[..i])
        invariant |totals| == |old(totals)|
        invariant forall d :: 0 <= d < |totals| ==>
                    totals[d] == old(totals)[d] + if 1 <= d <= n then Matches(vs[d - 1].lens, es[..i]) else 0
      {
        assert es[..i + 1][..i] == es[..i];
        LoopSafeAt(start, vs, es, i);
        tofIndex := StrikeDetectors(n, es[i], tofIndex, vs);
      }
      assert es[..|es|] == es;
    }

    lemma SeesViews(n: nat)
      requires Shaped(Value()) && n <= MaxDets(Value()) && data != null
      ensures LoopSees(n, Views(Value(), n))
    {
    }

    /** Buffer and totals after the loop. */
    method IntegrateEvents(n: nat, es: seq<Event>)
      requires Shaped(Value()) && n <= MaxDets(Value()) && data != null
               && LoopSafe(Tally(data[..], 0), Views(Value(), n), es)
      modifies this`totals, data
      ensures Value()
              == old(Value()).(data := Some(StrikeAll(Tally(old(data[..]), 0), Views(old(Value()), n), es).cells),
                                       totals := NewTotals(old(Value()), n, es))
    {
      ghost var s := Value();
      ghost var vs := Views(s, n);
      SeesViews(n);
      hide StrikeAll, Matches, ViewOf, LoopSafe, LoopSees;
      StrikeLoop(n, es, vs);
      assert totals == NewTotals(s, n, es);
    }

    /** The integration section. */
    method IntegrateSection(n: nat, p: Packet, newPulse: bool)
      requires Shaped(Value()) && n <= MaxDets(Value()) && data != null && Complete(p)
      requires LoopSafe(Tally(data[..], 0), Views(Value(), n), EventsOf(p))
      modifies this`totals, this`pulses, this`charge, data
      ensures Value() == Integrate(old(Value()), n, p, newPulse)
    {
      hide StrikeAll, Views, NewTotals, EventsOf, LoopSafe;
      IntegrateEvents(n, EventsOf(p));
      if newPulse {
        charge := charge + p.charge.value;
        pulses := pulses + 1;
      }
    }

    // ---------- the rest of the handler ----------

    /** The parameter copy: one detector after the other, stopping at an ROI without width. */
    method CopyParameters() returns (n: Option<nat>)
      requires Shaped(Value())
      modifies this`snaps
      ensures (Value(), n) == Snapshot(old(Value()))
    {
      ghost var s := Value();
      hide FirstNarrow;
      var count := if numDet > 0 then numDet else 0;
      for det := 1 to count + 1
        invariant snaps == Refresh(s, det - 1).snaps
        invariant FirstNarrow(s.dets, 1, count) == FirstNarrow(s.dets, det, count)
      {
        FirstNarrowStep(s.dets, det, count);
        snaps := snaps[det := Snap(dets[det].cfg, dets[det].region.start, dets[det].region.tofStart)];
        assert snaps == Refresh(s, det).snaps;
        if dets[det].cfg.roiSizeX <= 0 {
          return None;
        }
      }
      FirstNarrowEnd(s.dets, count);
      n := Some(count);
    }

    /** The timestamp section: accepted or not, and whether a pulse starts. */
    method StampPacket(c: nat, stamp: Option<Stamp>) returns (accepted: bool, newPulse: bool)
      requires c < |channels|
      modifies this`channels
      ensures (Value(), accepted, newPulse) == StampSection(old(Value()), c, stamp)
    {
      var ch := channels[c];
      accepted, newPulse := false, false;
      ch := ch.(seqCounter := ch.seqCounter + 1);
      if stamp.Some? {
        ch := ch.(time := stamp.value.time);
        if c == 0 && ch.lastTime != ch.time {
          newPulse := true;
        }
        if ch.lastTime > ch.time {
          ch := ch.(badTime := true);
          newPulse := false;
        } else {
          ch := ch.(lastTime := ch.time, seqId := stamp.value.tag);
          if ch.lastSeqId != -1 && ch.seqId != ch.lastSeqId + 1 {
            ch := ch.(missing := ch.lastSeqId + 1, numMissing := ch.numMissing + (ch.seqId - ch.lastSeqId + 1));
          }
          ch := ch.(lastSeqId := ch.seqId);
          accepted := true;
        }
      }
      channels := channels[c := ch];
    }

    /** A whole handler call; an out-of-range channel is refused. */
    method EventHandler(c: nat, p: Packet)
      requires Shaped(Value())
      requires c < |channels| ==>
                 var (s1, n) := Snapshot(Value());
                 var s2 := StampSection(s1, c, p.stamp);
                 n.Some? && s2.1 && Integrable(s2.0, p) && paused == 0 ==>
                   LoopSafe(Tally(s2.0.data.value, 0), Views(s2.0, n.value), EventsOf(p))
      modifies this`snaps, this`channels, this`totals, this`pulses, this`charge, data
      ensures Value() == if c < |old(channels)| then Handle(old(Value()), c, p) else old(Value())
    {
      hide Integrate, LoopSafe, Views, EventsOf, FirstNarrow, Receive;
      if c >= |channels| {
        return;
      }
      var n := CopyParameters();
      if n.None? {
        return;
      }
      var accepted, newPulse := StampPacket(c, p.stamp);
      if !accepted || p.charge.None? || data == null || dataMaxSize == 0 {
        return;
      }
      if p.pixels.None? || p.tofs.None? || |p.pixels.value| != |p.tofs.value| {
        return;
      }
      if paused == 0 {
        IntegrateSection(n.value, p, newPulse);
      }
    }

    // ---------- allocation ----------

    /** One detector of the first loop of allocArray; false for an empty pixel range. */
    method PublishPixel(det: nat, ghost was: seq<Det>) returns (ok: bool)
      requires 1 <= det < |was| && dets == PlacePixels(was, det - 1)
      requires dataMaxSize == L.Offset(Sizes(was, det - 1), det - 1)
      modifies this`dets, this`dataMaxSize
      ensures ok <==> was[det].cfg.pixelStart <= was[det].cfg.pixelEnd
      ensures var k := if ok then det else det - 1;
              dets == PlacePixels(was, k) && dataMaxSize == L.Offset(Sizes(was, k), k)
    {
      PlaceOneMore(was, det - 1);
      assert PlacePixel(was[det], Sizes(was, det), det).region.start == dataMaxSize;
      hide PlacePixels, Sizes, L.Offset;
      var d := dets[det];
      if d.cfg.pixelStart <= d.cfg.pixelEnd {
        var size := d.cfg.pixelSize;
        if size == 0 {
          size := Wrap32(d.cfg.pixelEnd - d.cfg.pixelStart + 1);
        }
        dets := dets[det := d.(cfg := d.cfg.(pixelSize := size),
                               region := d.region.(start := dataMaxSize, end := dataMaxSize + size - 1, size := size))];
        dataMaxSize := dataMaxSize + size;
        ok := true;
      } else {
        ok := false;
      }
    }

    /** First loop of allocArray: pixel regions published up to the first empty range. */
    method PublishPixels(n: nat) returns (ok: bool)
      requires n < |dets|
      modifies this`dets, this`dataMaxSize
      ensures var good := FirstBad(old(dets), 1, n) - 1;
              && (ok <==> good == n)
              && dets == PlacePixels(old(dets), good)
              && dataMaxSize == L.Offset(Sizes(old(dets), good), good)
    {
      ghost var was := dets;
      dataMaxSize := 0;
      PlaceNone(was);
      hide PlacePixels, Sizes, L.Offset, FirstBad;
      for det := 1 to n + 1
        invariant FirstBad(was, 1, n) == FirstBad(was, det, n)
        invariant dets == PlacePixels(was, det - 1)
        invariant dataMaxSize == L.Offset(Sizes(was, det - 1), det - 1)
      {
        FirstBadStep(was, det, n);
        ok := PublishPixel(det, was);
        if !ok {
          return;
        }
      }
      FirstBadEnd(was, n);
      ok := true;
    }

    /** Second loop of allocArray: TOF regions published after the pixel regions. */
    method PublishTofs(n: nat)
      requires n < |dets|
      modifies this`dets
      ensures dets == PlaceTofs(old(dets), n, dataMaxSize, tofMaxParam)
    {
      var tofStart := dataMaxSize;
      for det := 1 to n + 1
        invariant |dets| == |old(dets)| && tofStart == dataMaxSize + (det - 1) * (tofMaxParam + 1)
        invariant forall i :: 0 <= i < |dets| ==>
                    dets[i] == if 1 <= i < det then PlaceTof(old(dets)[i], dataMaxSize, tofMaxParam, i)
                        else old(dets)[i]
      {
        var tofEnd := tofStart + tofMaxParam;
        dets := dets[det := dets[det].(region := dets[det].region.(tofStart := tofStart, tofEnd := tofEnd))];
        tofStart := tofEnd + 1;
      }
    }

    /** Both publishing loops; false at the first empty pixel range. */
    method PublishRegions(n: nat) returns (ok: bool)
      requires n < |dets|
      modifies this`dets, this`dataMaxSize
      ensures (Value(), ok) == Publish(old(Value()), n)
    {
      hide PlacePixels, PlaceTofs, Sizes, L.Offset, FirstBad;
      ok := PublishPixels(n);
      if ok {
        PublishTofs(n);
      }
    }

    /** Free and calloc. */
    method ReplaceBuffer(n: nat, memory: bool) returns (ok: bool)
      modifies this`data, this`bufferMaxSize, this`dataAlloc, this`laidOut, this`lastOk
      ensures (Value(), ok) == NewBuffer(old(Value()), n, memory)
      ensures data == null || fresh(data)
    {
      data := null;
      if dataMaxSize == 0 {
        return false;
      }
      var cells := dataMaxSize + n * (tofMaxParam + 1);
      bufferMaxSize := cells;
      if !memory || !Allocatable(cells) {
        return false;
      }
      data := new nat[cells](_ => 0);
      assert data[..] == Zeros(cells);
      dataAlloc := false;
      laidOut, lastOk := n, true;
      ok := true;
    }

    /** allocArray. The old buffer is dropped; `memory` says whether calloc finds a new one. */
    method AllocArray(memory: bool) returns (ok: bool)
      requires Shaped(Value())
      modifies this`dets, this`dataMaxSize, this`tofMax, this`data, this`bufferMaxSize, this`dataAlloc, this`laidOut,
               this`epoch, this`lastOk
      ensures (Value(), ok) == Allocate(old(Value()), memory)
      ensures data == old(data) || data == null || fresh(data)
    {
      hide Publish, NewBuffer;
      if !dataAlloc {
        return true;
      }
      tofMax := U32(tofMaxParam);
      epoch, lastOk := epoch + 1, false;
      if numDet == 0 {
        return false;
      }
      var n := if numDet > 0 then numDet else 0;
      ok := PublishRegions(n);
      if ok {
        ok := ReplaceBuffer(n, memory);
      }
    }

    // ---------- clearing ----------

    /** memset of the whole buffer; its length is the recorded one. */
    method WipeBuffer()
      requires Sound(Value())
      modifies data
      ensures Value() == Wipe(old(Value()))
    {
      if data != null {
        ghost var s := Value();
        for i := 0 to bufferMaxSize
          invariant forall k :: 0 <= k < i ==> data[k] == 0
        {
          data[i] := 0;
        }
        assert data[..] == Zeros(data.Length);
      }
    }

    /** clearParams. */
    method ClearParams()
      requires Sound(Value())
      modifies this`pulses, this`charge, this`channels, this`totals, data
      ensures Value() == Clear(old(Value()))
    {
      WipeBuffer();
      pulses, charge := 0, 0.0;
      channels := seq(|channels|, _ => Cleared);
      totals := seq(|totals|, _ => 0);
    }

    /** resetTOFArray; the cells cleared are inside the buffer when the detector is laid out. */
    method ResetTofArray(addr: nat)
      requires addr < |dets| && ResetInside(Value(), addr)
      modifies data
      ensures Value() == ResetTof(old(Value()), addr)
    {
      if tofMax > 0 {
        var tofStart := dets[addr].region.tofStart;
        if data != null && tofStart > 0 {
          for i := 0 to tofMax + 1
            invariant forall k :: 0 <= k < data.Length ==>
                        data[k] == if tofStart <= k < tofStart + i then 0 else old(data[..])[k]
          {
            data[tofStart + i] := 0;
          }
          assert data[..] == ZeroRange(old(data[..]), tofStart, tofMax + 1);
        }
      }
    }

    // ---------- parameter writes ----------

    /** The side effects of a detector write: the value stored, and the parameters around it. */
    static method Adjust(c: Config, p: Param, v: Int32) returns (cfg: Config, value: Int32)
      ensures Store(cfg, p, value) == SetParam(c, p, v)
    {
      hide Store;
      cfg, value := c, v;
      if p == RoiSizeX {
        if value <= 0 {
          value := 1;
        }
      } else if p == RoiEnable {
        if value == 1 {
          cfg := cfg.(tofRoiOn := 0);
        }
      } else if p == TofRoiEnable {
        if value == 1 {
          cfg := cfg.(roiOn := 0);
        }
      }
    }

    /** writeInt32 of a detector parameter. */
    method WriteParam(addr: nat, p: Param, v: Int32) returns (ok: bool)
      requires addr < |dets|
      modifies this`dets, this`dataAlloc
      ensures (Value(), ok) == WriteDet(old(Value()), addr, p, v)
    {
      hide Store, SetParam;
      if p == PixelStart || p == PixelEnd || p == PixelSize {
        if status != Acquire {
          dataAlloc := true;
        } else {
          return false;
        }
      }
      var cfg, value := Adjust(dets[addr].cfg, p, v);
      dets := dets[addr := dets[addr].(cfg := Store(cfg, p, value))];
      ok := true;
    }

    /** A Start: counters cleared and the event thread signalled, unless acquiring. */
    method WriteStart(value: Int32) returns (ok: bool)
      requires Sound(Value())
      modifies this`pulses, this`charge, this`channels, this`totals, this`paused, this`startEvent, data
      ensures Written(old(Value()), Start(value), Value(), ok)
      ensures startEvent == (old(startEvent) || StartAccepted(old(Value()), Start(value)))
    {
      StartIsWritten(Value(), value);
      hide Clear, Sound, Written;
      ok := true;
      if value != 0 {
        if status == Idle || status == Error || status == Aborted {
          ClearParams();
          paused := 0;
          startEvent := true;
        } else {
          ok := false;
        }
      }
    }

    method WriteStop(value: Int32) returns (ok: bool)
      requires Sound(Value())
      modifies this`paused, this`stopEvent
      ensures Written(old(Value()), Stop(value), Value(), ok)
      ensures stopEvent == (old(stopEvent) || StopAccepted(old(Value()), Stop(value)))
    {
      hide Sound;
      ok := true;
      if value != 0 {
        if status == Acquire {
          paused := 0;
          stopEvent := true;
        } else {
          ok := false;
        }
      }
    }

    /** Pause, the counts and the TOF range. */
    method WriteCount(w: Write) returns (ok: bool)
      requires Sound(Value()) && (w.Pause? || w.SetNumDet? || w.SetNumChannels? || w.SetTofMax?)
      modifies this`paused, this`numDet, this`numChannels, this`tofMaxParam, this`dataAlloc
      ensures Written(old(Value()), w, Value(), ok)
    {
      hide InForce, UpToDate, MapSound;
      ok := true;
      match w
      case Pause(v) => paused := v;
      case SetNumDet(v) =>
        if status == Acquire || v > |dets| - 1 {
          return false;
        }
        numDet := v;
      case SetNumChannels(v) =>
        if status == Acquire || v > |channels| {
          return false;
        }
        numChannels := v;
      case SetTofMax(v) =>
        if status == Acquire {
          return false;
        }
        tofMaxParam, dataAlloc := v, true;
    }

    /** writeInt32: the driver changes as in every run, and what is accepted signals the semaphores. */
    method WriteInt32(w: Write) returns (ok: bool)
      requires Sound(Value()) && IsInt32(w)
      requires w.OnDet? && w.write.TofReset? && w.addr < |dets| ==> ResetInside(Value(), w.addr)
      modifies this, data
      ensures Written(old(Value()), w, Value(), ok)
      ensures startEvent == (old(startEvent) || StartAccepted(old(Value()), w))
      ensures stopEvent == (old(stopEvent) || StopAccepted(old(Value()), w))
    {
      hide Sound, Written, Clear;
      match w
      case Reset =>
        ghost var s := Value();
        ClearParams();
        ok := true;
        ResetIsWritten(s);
      case Start(v) => ok := WriteStart(v);
      case Stop(v) => ok := WriteStop(v);
      case AllocSpace(memory) => ok := WriteAlloc(memory);
      case OnDet(a, dw) =>
        if a < |dets| {
          ok := WriteOnDetector(a, dw);
        } else {
          ok := false;
          AddressIsRefused(Value(), a, dw);
        }
      case _ => ok := WriteCount(w);
    }

    method WriteAlloc(memory: bool) returns (ok: bool)
      requires Sound(Value())
      modifies this`dets, this`dataMaxSize, this`tofMax, this`data, this`bufferMaxSize, this`dataAlloc, this`laidOut,
               this`epoch, this`lastOk, this`status
      ensures Written(old(Value()), AllocSpace(memory), Value(), ok)
    {
      hide Allocate, Sound, Written;
      AllocIsWritten(Value(), memory);
      if status == Acquire {
        return false;
      }
      ok := AllocArray(memory);
      if !ok {
        status := Error;
      }
    }

    method WriteOnDetector(a: nat, dw: DetWrite) returns (ok: bool)
      requires Sound(Value()) && a < |dets| && (dw.SetDet? || dw.TofReset?)
               && (dw.TofReset? ==> ResetInside(Value(), a))
      modifies this`dets, this`dataAlloc, data
      ensures Written(old(Value()), OnDet(a, dw), Value(), ok)
    {
      hide ResetTof, InForce, UpToDate, MapSound, SetParam;
      ok := true;
      match dw
      case SetDet(p, v) => ok := WriteParam(a, p, v);
      case TofReset => ResetTofArray(a);
    }

    // ---------- pixel maps ----------

    /** checkPixelMap: every entry at most the size. */
    static method CheckPixelMap(entries: array<nat>, size: Int32) returns (ok: bool)
      ensures ok <==> MapPasses(entries[..], size)
    {
      if entries.Length == 0 {
        return false;
      }
      for index := 0 to entries.Length
        invariant forall i :: 0 <= i < index ==> entries[i] <= U32(size)
      {
        if entries[index] > U32(size) {
          return false;
        }
      }
      ok := true;
    }

    /** The pixel-map branch of writeOctet. */
    method LoadPixelMap(addr: nat, f: File, memory: bool) returns (ok: bool)
      requires Shaped(Value()) && addr < |dets|
      modifies this`maps
      ensures (Value(), ok) == WriteMapFile(old(Value()), addr, f, memory)
    {
      hide MapFile.Entries, MapFile.SizeLine, MapFile.LineLength;
      ok := true;
      var m := maps[addr];
      if m.entries.Some? {
        m := m.(entries := None, size := 0);
      }
      if f.Text? && MapFile.SizeLine(f.text).Some? {
        var file := new MapFile.ADnEDFile(f.text);
        var n := file.size;
        if n != 0 {
          m := m.(size := n);
          if memory {
            var a := new nat[n](_ => 0);
            ghost var pos := file.pos;
            var read := file.ReadDataIntoIntArray(a);
            ghost var r := MapFile.Entries(f.text, pos, n);
            assert read ==> a[..] == r.value + seq(n - |r.value|, _ => 0);
            if read {
              ok := CheckPixelMap(a, dets[addr].cfg.pixelSize);
              if ok {
                m := PixelMap(Some(a[..]), n, U32(dets[addr].cfg.pixelSize));
              } else {
                m := m.(size := 0);
              }
            }
          }
        }
      }
      maps := maps[addr := m];
    }
  }

  lemma StartIsWritten(s: State, v: Int32)
    requires Sound(s)
    ensures if v == 0 then Written(s, Start(v), s, true)
            else if s.status != Acquire then Written(s, Start(v), Clear(s).(paused := 0), true)
            else Written(s, Start(v), s, false)
  {
    hide Clear, Sound;
  }

  lemma AllocIsWritten(s: State, memory: bool)
    requires Sound(s)
    ensures Shaped(s)
    ensures if s.status == Acquire then Written(s, AllocSpace(memory), s, false)
            else
              var (t, ok) := Allocate(s, memory);
              Written(s, AllocSpace(memory), if ok then t else t.(status := Error), ok)
  {
    hide Allocate, InForce, MapSound;
  }

  lemma ResetIsWritten(s: State)
    requires Sound(s)
    ensures Written(s, Reset, Clear(s), true)
  {
  }

  lemma AddressIsRefused(s: State, a: nat, dw: DetWrite)
    requires Sound(s) && a >= |s.dets|
    ensures Written(s, OnDet(a, dw), s, false)
  {
  }

  lemma FirstBadStep(dets: seq<Det>, k: nat, n: nat)
    requires 1 <= k <= n < |dets|
    ensures FirstBad(dets, k, n) == if dets[k].cfg.pixelStart > dets[k].cfg.pixelEnd then k
            else FirstBad(dets, k + 1, n)
  {
  }

  lemma FirstBadEnd(dets: seq<Det>, n: nat)
    requires n < |dets|
    ensures FirstBad(dets, n + 1, n) == n + 1
  {
  }

  lemma FirstNarrowStep(dets: seq<Det>, k: nat, n: nat)
    requires 1 <= k <= n < |dets|
    ensures FirstNarrow(dets, k, n) == if dets[k].cfg.roiSizeX <= 0 then k else FirstNarrow(dets, k + 1, n)
  {
  }

  lemma FirstNarrowEnd(dets: seq<Det>, n: nat)
    requires n < |dets|
    ensures FirstNarrow(dets, n + 1, n) == n + 1
  {
  }

  lemma PlaceNone(was: seq<Det>)
    requires 0 < |was|
    ensures PlacePixels(was, 0) == was && L.Offset(Sizes(was, 0), 0) == 0
  {
  }

  /** Publishing one more detector extends the prefix sums. */
  lemma PlaceOneMore(was: seq<Det>, k: nat)
    requires k + 1 < |was|
    ensures PlacePixels(was, k)[k + 1] == was[k + 1]
    ensures L.Offset(Sizes(was, k + 1), k + 1) == L.Offset(Sizes(was, k), k) + SizeOf(was[k + 1].cfg)
    ensures PlacePixels(was, k + 1)
         == PlacePixels(was, k)[k + 1 := PlacePixel(was[k + 1], Sizes(was, k + 1), k + 1)]
    ensures L.Offset(Sizes(was, k + 1), k) == L.Offset(Sizes(was, k), k)
  {
    forall j | 0 <= j <= k
      ensures L.Offset(Sizes(was, k + 1), j) == L.Offset(Sizes(was, k), j)
    {
      OffsetPrefix(Sizes(was, k + 1), Sizes(was, k), j);
    }
  }

  lemma {:induction false} OffsetPrefix(a: seq<int>, b: seq<int>, j: nat)
    requires j <= |b| <= |a| && forall i :: 0 <= i < j ==> a[i] == b[i]
    ensures L.Offset(a, j) == L.Offset(b, j)
  {
    if j > 0 { OffsetPrefix(a, b, j - 1); }
  }
}
