/** What every run does to the buffer: tiling, containment, conservation, and no lost events. */
module Conservation {
  import opened Base
  import opened Arith
  import opened Events
  import opened Histogram
  import opened Stream
  import opened Driver
  import opened Soundness
  import opened Acquisition
  import opened Runs
  import L = Layout

  // ---------- tiling and containment in every run ----------

  /** In every reachable state with no allocation pending, the published regions tile the buffer. */
  lemma TiledInEveryRun(maxDets: nat, maxChannels: nat, transform: Transform, ls: seq<Label>)
    requires 1 <= maxChannels
    ensures var s := Run(Init(maxDets, maxChannels, transform), ls).s;
            Laid(s) ==>
              && (forall i :: Owned(s, i) <==> 0 <= i < s.bufferMaxSize)
              && (forall i, q: L.RegionId, r: L.RegionId ::
                    q.det < s.laidOut && r.det < s.laidOut && Owns(s, q, i) && Owns(s, r, i) ==> q == r)
  {
    var s := Run(Init(maxDets, maxChannels, transform), ls).s;
    if Laid(s) { PublishedRegionsTile(s); }
    hide Run, Init, Owned, Owns;
  }

  /** In every reachable state, whatever was loaded, refused or cut short: a detector without a map
      maps by plain offset, and a map is as long as its recorded size and never maps past the
      detector size in force at its load. */
  lemma MappingInEveryRun(maxDets: nat, maxChannels: nat, transform: Transform, ls: seq<Label>, d: nat, l: Lens,
      e: Event)
    requires 1 <= maxChannels && InRange(l, e)
    requires var s := Run(Init(maxDets, maxChannels, transform), ls).s;
             d < |s.maps| && l.pixelMap == LoadedMap(s.maps[d])
    ensures var m := Run(Init(maxDets, maxChannels, transform), ls).s.maps[d];
            if m.entries.None? || l.cfg.mapOn == 0 then MappedIndex(l, e) == Events.Offset(l, e)
            else
              && |m.entries.value| == m.size > 0
              && (Events.Offset(l, e) < m.size ==> MappedIndex(l, e) == m.entries.value[Events.Offset(l, e)] <= m.bound)
  {
    var y := Run(Init(maxDets, maxChannels, transform), ls);
    hide Run, Init, InForce;
    assert MapSound(y.s.maps[d]);
  }

  /** If the last allocation attempted succeeded, no other was attempted between the copy of a job about
      to be integrated and now, and its detectors are laid out and usable. */
  ghost predicate Careful(y: System, c: nat)
    requires Formed(y) && c < |y.jobs|
  {
    var j := y.jobs[c];
    Integrates(y.s, j) && Laid(y.s) ==>
      j.epoch == y.s.epoch && j.dets <= y.s.laidOut && forall d :: 1 <= d <= j.dets ==> Usable(y.s, d)
  }

  lemma CarefulIsReady(y: System, c: nat)
    requires Formed(y) && Fresh(y) && c < |y.jobs| && Careful(y, c) && Integrates(y.s, y.jobs[c]) && Laid(y.s)
    ensures Ready(y.s, y.jobs[c].dets)
  {
    assert Copies(y.s, y.jobs[c].dets);
    hide Sound, AtRegion, Usable, Integrates;
  }

  /** A careful integration does nothing undefined. */
  lemma CarefulIsSafe(y: System, c: nat)
    requires Formed(y) && Fresh(y) && c < |y.jobs| && Careful(y, c) && Integrates(y.s, y.jobs[c]) && Laid(y.s)
    ensures JobSafe(y.s, y.jobs[c])
  {
    CarefulIsReady(y, c);
    hide Laid, Ready, Careful, LoopSafe, Views;
    ReadyIsSafe(y.s, y.jobs[c].dets, EventsOf(y.jobs[c].packet));
  }

  lemma JobContained(y: System, c: nat, d: nat, e: Event, carry: nat)
    requires Formed(y) && Fresh(y) && c < |y.jobs| && Integrates(y.s, y.jobs[c]) && Laid(y.s) && Careful(y, c)
             && 1 <= d <= y.jobs[c].dets
    ensures Contained(y.s, d, e, carry)
  {
    CarefulIsReady(y, c);
    hide Laid, Usable, AtRegion, Contained;
    IncrementsContained(y.s, d, e, carry);
  }

  /** In every run a careful integration does nothing undefined, and each increment it makes for a
      detector lands in that detector's own regions, whatever the event and the carried index. */
  lemma ContainedInEveryRun(maxDets: nat, maxChannels: nat, transform: Transform, ls: seq<Label>, c: nat, d: nat)
    requires 1 <= maxChannels
    requires var y := Run(Init(maxDets, maxChannels, transform), ls);
             && c < |y.jobs| && Integrates(y.s, y.jobs[c]) && Laid(y.s) && Careful(y, c) && 1 <= d <= y.jobs[c].dets
    ensures var y := Run(Init(maxDets, maxChannels, transform), ls);
            JobSafe(y.s, y.jobs[c]) && forall e: Event, carry: nat :: Contained(y.s, d, e, carry)
  {
    var y := Run(Init(maxDets, maxChannels, transform), ls);
    hide Run, Init, Fresh, Laid, Careful, Integrates, Contained, JobSafe;
    CarefulIsSafe(y, c);
    forall e: Event, carry: nat
      ensures Contained(y.s, d, e, carry)
    {
      JobContained(y, c, d, e, carry);
    }
  }

  // ---------- conservation ----------

  /** A change that touches neither the counts nor the layout in force. */
  predicate CountsKept(s: State, t: State) {
    t.data == s.data && t.totals == s.totals && KeepsRegions(s, t)
  }

  /** Totals, streams, pulses and charge are the same. */
  predicate SameCounters(s: State, t: State) {
    t.totals == s.totals && t.channels == s.channels && t.pulses == s.pulses && t.charge == s.charge
  }

  lemma CountsKeptSums(s: State, t: State)
    requires Sound(s) && Sound(t) && CountsKept(s, t) && Laid(t)
    ensures NoGrowth(s, t)
  {
    LaidFrame(s, t);
  }

  lemma CountsKeptConserves(s: State, t: State)
    requires Sound(s) && Sound(t) && CountsKept(s, t) && Conserves(s)
    ensures Conserves(t)
  {
    if Laid(t) { CountsKeptSums(s, t); }
    ConservesFrame(s, t);
  }

  lemma WriteOnDetCounts(s: State, a: nat, w: DetWrite)
    requires Sound(s) && a < |s.dets| && !w.TofReset?
    ensures CountsKept(s, WriteOnDet(s, a, w)) && SameCounters(s, WriteOnDet(s, a, w))
  {
    hide Sound, LoadMap;
  }

  lemma ResetTofNoGrowth(s: State, a: nat)
    requires Laid(s) && a < |s.dets|
    ensures NoGrowth(s, ResetTof(s, a)) && ResetTof(s, a).totals == s.totals
  {
    ResetTofSound(s, a);
    LaidFrame(s, ResetTof(s, a));
  }

  lemma ResetTofConserves(s: State, a: nat)
    requires Sound(s) && a < |s.dets| && Conserves(s)
    ensures Conserves(ResetTof(s, a))
  {
    ResetTofSound(s, a);
    if Laid(ResetTof(s, a)) {
      LaidFrame(s, ResetTof(s, a));
      ResetTofNoGrowth(s, a);
    }
    ConservesFrame(s, ResetTof(s, a));
  }

  lemma AllocateConserves(s: State, memory: bool)
    requires Sound(s) && Conserves(s)
    ensures Conserves(Allocate(s, memory).0)
  {
    var t := Allocate(s, memory).0;
    AllocateSound(s, memory);
    hide Allocate;
    if s.dataAlloc && t.lastOk { ZeroConserves(t); }
  }

  lemma AllocSpaceConserves(s: State, memory: bool)
    requires Sound(s) && Conserves(s)
    ensures Conserves(WriteAllocSpace(s, memory).0)
  {
    if s.status != Acquire {
      AllocateConserves(s, memory);
      AllocateSound(s, memory);
      WriteAllocSpaceSound(s, memory);
      hide Allocate, Sound, Conserves;
      CountsKeptConserves(Allocate(s, memory).0, WriteAllocSpace(s, memory).0);
    }
  }

  lemma ClearConserves(s: State)
    ensures Conserves(Clear(s)) && Conserves(Clear(s).(paused := 0))
  {
    ZeroConserves(Clear(s));
    ZeroConserves(Clear(s).(paused := 0));
  }

  lemma ClientWriteConserves(s: State, w: Write)
    requires Sound(s) && Conserves(s)
    ensures Conserves(ClientWrite(s, w))
  {
    ClientWriteGrows(s, w);
    hide Sound, Conserves, Clear, WriteOnDet, WriteAllocSpace;
    match w {
      case Reset => ClearConserves(s);
      case Start(_) => ClearConserves(s);
      case AllocSpace(memory) => AllocSpaceConserves(s, memory);
      case OnDet(a, dw) =>
        if a < |s.dets| {
          if dw.TofReset? {
            TofResetIs(s, a);
            ResetTofConserves(s, a);
          } else {
            WriteOnDetCounts(s, a, dw);
            CountsKeptConserves(s, WriteOnDet(s, a, dw));
          }
        }
      case _ => CountsKeptConserves(s, ClientWrite(s, w));
    }
  }

  lemma TofResetIs(s: State, a: nat)
    requires Sound(s) && a < |s.dets|
    ensures WriteOnDet(s, a, TofReset) == ResetTof(s, a)
  {
  }

  lemma BeginConserves(s: State, memory: bool, connected: bool)
    requires Sound(s) && Conserves(s)
    ensures Conserves(BeginState(s, memory, connected))
  {
    var (t, ok) := Allocate(s, memory);
    AllocateSound(s, memory);
    if ok {
      hide Allocate;
      ZeroConserves(BeginState(s, memory, connected));
    } else {
      assert !BeginState(s, memory, connected).lastOk;
    }
  }

  /** Integration keeps the layout, so the regions can be compared. */
  lemma IntegrateLaid(s: State, n: nat, p: Packet, newPulse: bool)
    requires Sound(s) && n <= MaxDets(s) && Complete(p) && s.data.Some?
    ensures var t := Integrate(s, n, p, newPulse);
            Laid(t) == Laid(s) && t.laidOut == s.laidOut && |t.totals| == |s.totals|
  {
    IntegrateSound(s, n, p, newPulse);
    LaidFrame(s, Integrate(s, n, p, newPulse));
  }

  lemma IntegrateConserves(s: State, n: nat, p: Packet, newPulse: bool)
    requires Sound(s) && n <= MaxDets(s) && Complete(p) && s.data.Some? && (Laid(s) ==> Ready(s, n)) && Conserves(s)
    ensures Conserves(Integrate(s, n, p, newPulse))
  {
    var t := Integrate(s, n, p, newPulse);
    hide Sound, Laid, Ready, RegionSum, Integrate;
    IntegrateLaid(s, n, p, newPulse);
    if Laid(s) {
      forall d | 1 <= d <= t.laidOut
        ensures RegionSum(t, L.PixelOf(d - 1)) <= t.totals[d] && RegionSum(t, L.TofOf(d - 1)) <= t.totals[d]
      {
        IntegrateSums(s, n, p, newPulse, L.PixelOf(d - 1));
        IntegrateSums(s, n, p, newPulse, L.TofOf(d - 1));
      }
    }
  }

  lemma HandlerConserves(y: System, c: nat, a: HandlerAct)
    requires Formed(y) && Fresh(y) && Conserves(y.s)
    requires a.IntegratePacket? && c < |y.jobs| ==> Careful(y, c)
    ensures Conserves(HandlerStep(y, c, a).s)
  {
    hide Sound, Conserves, Careful, Snapshot, StampSection, Integrate, Ready, Laid;
    if c < |y.jobs| {
      match a {
        case Deliver(_) => SnapshotConserves(y.s);
        case StampPacket => if y.jobs[c].Copied? { StampConserves(y.s, c, y.jobs[c].packet.stamp); }
        case CheckPacket =>
        case IntegratePacket =>
          if Integrates(y.s, y.jobs[c]) {
            if Laid(y.s) { CarefulIsReady(y, c); }
            IntegrateConserves(y.s, y.jobs[c].dets, y.jobs[c].packet, y.jobs[c].newPulse);
          }
      }
    }
  }

  lemma SnapshotConserves(s: State)
    requires Sound(s) && Conserves(s)
    ensures Conserves(Snapshot(s).0)
  {
    SnapshotSound(s);
    hide InForce, Conserves;
    CountsKeptConserves(s, Snapshot(s).0);
  }

  lemma StampConserves(s: State, c: nat, stamp: Option<Stamp>)
    requires Sound(s) && c < |s.channels| && Conserves(s)
    ensures Conserves(StampSection(s, c, stamp).0)
  {
    StampSound(s, c, stamp);
    hide Receive, InForce, Conserves;
    CountsKeptConserves(s, StampSection(s, c, stamp).0);
  }

  lemma StatusCounts(s: State)
    requires Sound(s) && Conserves(s)
    ensures Conserves(s.(status := Idle))
  {
    WithStatusSound(s, Idle);
    CountsKeptConserves(s, s.(status := Idle));
  }

  /** The step is defined, and if it integrates a packet it is careful. */
  ghost predicate CarefulStep(y: System, l: Label)
    requires Formed(y)
  {
    StepDefined(y, l) &&
    (l.OfHandler? && l.handler.IntegratePacket? && l.channel < |y.jobs| ==> Careful(y, l.channel))
  }

  lemma StepConserves(y: System, l: Label)
    requires Formed(y) && Fresh(y) && Conserves(y.s) && CarefulStep(y, l)
    ensures Conserves(Step(y, l).s)
  {
    hide Sound, Fresh, Conserves, Careful, ClientWrite, HandlerStep, BeginState, StepDefined;
    match l {
      case Client(w) => ClientWriteConserves(y.s, w);
      case OfEvent(a) =>
        StatusCounts(y.s);
        if a.BeginAcquire? { BeginConserves(y.s, a.memory, a.connected); }
      case OfFrame(a) =>
      case OfHandler(c, a) => HandlerConserves(y, c, a);
    }
  }

  /** Every integration of the run is careful. */
  ghost predicate CarefulRun(y: System, ls: seq<Label>)
    requires Formed(y) && Fresh(y)
    decreases |ls|
  {
    ls != [] ==>
      var n := |ls| - 1;
      CarefulRun(y, ls[..n]) && CarefulStep(Run(y, ls[..n]), ls[n])
  }

  /** Across starts, stops, resets, TOF resets and reallocations, no region ever holds more counts
      than its detector has events. */
  lemma {:induction false} RunConserves(y: System, ls: seq<Label>)
    requires Formed(y) && Fresh(y) && Conserves(y.s) && CarefulRun(y, ls)
    ensures Conserves(Run(y, ls).s)
    decreases |ls|
  {
    if ls != [] {
      var n := |ls| - 1;
      hide Step, Formed, Fresh, Conserves, CarefulStep;
      RunConserves(y, ls[..n]);
      StepConserves(Run(y, ls[..n]), ls[n]);
    }
  }

  lemma ConservedInEveryRun(maxDets: nat, maxChannels: nat, transform: Transform, ls: seq<Label>)
    requires 1 <= maxChannels && CarefulRun(Init(maxDets, maxChannels, transform), ls)
    ensures Conserves(Run(Init(maxDets, maxChannels, transform), ls).s)
  {
    InitHolds(maxDets, maxChannels, transform);
    hide Run, Init, Conserves, CarefulRun;
    RunConserves(Init(maxDets, maxChannels, transform), ls);
  }

  // ---------- equality for X/Y detectors ----------

  /** The pixel region of detector d holds exactly as many counts as d has events. */
  predicate Balanced(s: State, d: nat) {
    Laid(s) && 1 <= d <= s.laidOut ==> RegionSum(s, L.PixelOf(d - 1)) == s.totals[d]
  }

  /** The integration is careful and sees d as an X/Y detector without TOF filter. */
  ghost predicate BalancedJob(y: System, c: nat, a: HandlerAct, d: nat)
    requires Formed(y)
  {
    a.IntegratePacket? && c < |y.jobs| ==>
      && Careful(y, c)
      && (Integrates(y.s, y.jobs[c]) && Laid(y.s) && 1 <= d <= y.s.laidOut ==> PlainXY(ViewOf(y.s, d).lens))
  }

  /** A new buffer is asked for only while d has no events, and TOF resets name a detector that is laid
      out, or one of which they clear nothing. */
  predicate BalancedWrite(s: State, w: Write, d: nat)
    requires Sound(s) && d < |s.totals|
  {
    && (w.AllocSpace? && s.status != Acquire && s.dataAlloc ==> s.totals[d] == 0)
    && (w.OnDet? && w.write.TofReset? && w.addr < |s.dets| && Laid(s) ==>
          w.addr <= s.laidOut || ClearsNothing(s, w.addr))
  }

  /** Conditions on one step; an acquisition begins (and wipes the buffer) only while d has no events. */
  ghost predicate BalancedStep(y: System, l: Label, d: nat)
    requires Formed(y)
  {
    && d < |y.s.totals| && StepDefined(y, l)
    && match l
       case OfHandler(c, a) => BalancedJob(y, c, a, d)
       case OfEvent(a) => a.BeginAcquire? && y.event == Starting ==> y.s.totals[d] == 0
       case Client(w) => BalancedWrite(y.s, w, d)
       case OfFrame(_) => true
  }

  lemma KeptBalanced(s: State, t: State, d: nat)
    requires Sound(s) && Sound(t) && CountsKept(s, t) && Balanced(s, d)
    ensures Balanced(t, d)
  {
    if Laid(t) && 1 <= d <= t.laidOut {
      CountsKeptSums(s, t);
      SumsShrink(s, t, L.PixelOf(d - 1));
    }
  }

  lemma ZeroBalanced(s: State, d: nat)
    requires s.data.Some? ==> s.data.value == Zeros(|s.data.value|)
    requires d < |s.totals| ==> s.totals[d] == 0
    ensures Balanced(s, d)
  {
    ZeroConserves(s);
  }

  /** A TOF reset of address a writes no cell at all. */
  predicate ClearsNothing(s: State, a: nat)
    requires a < |s.dets|
  {
    s.tofMax == 0 || s.data.None? || s.dets[a].region.tofStart <= 0
  }

  /** A TOF reset of address a writes cell i. */
  predicate ClearsCell(s: State, a: nat, i: int)
    requires a < |s.dets|
  {
    !ClearsNothing(s, a) && s.dets[a].region.tofStart <= i <= s.dets[a].region.tofStart + s.tofMax
  }

  /** A TOF reset zeroes the cells it writes and no other. They are all in the buffer and in no region but
      the TOF region of the detector named, if and only if the detector is laid out or nothing is written. */
  lemma TofResetClearsOwnIff(s: State, a: nat)
    requires Laid(s) && a < |s.dets|
    ensures forall i :: 0 <= i < |s.data.value| ==>
              ResetTof(s, a).data.value[i] == if ClearsCell(s, a, i) then 0 else s.data.value[i]
    ensures a <= s.laidOut || ClearsNothing(s, a) <==>
              forall i :: ClearsCell(s, a, i) ==>
                && 0 <= i < |s.data.value|
                && forall r: L.RegionId :: r.det < s.laidOut && Owns(s, r, i) ==> r.TofOf? && r.det + 1 == a
  {
    PublishedRegionsTile(s);
    if 1 <= a <= s.laidOut {
      RegionBounds(s, L.TofOf(a - 1));
      forall i, r: L.RegionId | ClearsCell(s, a, i) && r.det < s.laidOut && Owns(s, r, i)
        ensures r == L.TofOf(a - 1)
      {
        assert Published(s, a, s.tofMax);
        assert Owns(s, L.TofOf(a - 1), i);
      }
      assert Published(s, a, s.tofMax);
    } else if !ClearsNothing(s, a) {
      var i := s.dets[a].region.tofStart;
      assert ClearsCell(s, a, i);
      if 0 <= i < |s.data.value| {
        assert Owned(s, i);
      }
    }
    hide Sound;
  }

  /** A TOF reset of a detector that is laid out clears its TOF region and touches no other cell. */
  lemma TofResetClearsOneRegion(s: State, a: nat)
    requires Laid(s) && 1 <= a <= s.laidOut && s.tofMax > 0
    ensures var t := ResetTof(s, a);
            && Laid(t) && t.data.Some? && |t.data.value| == |s.data.value|
            && forall i :: 0 <= i < |s.data.value| ==>
                 t.data.value[i] == if Owns(s, L.TofOf(a - 1), i) then 0 else s.data.value[i]
  {
    ResetTofNoGrowth(s, a);
    RegionInBuffer(s, a);
    hide Sound;
  }

  lemma RegionInBuffer(s: State, a: nat)
    requires Laid(s) && 1 <= a <= s.laidOut
    ensures 0 < s.dets[a].region.tofStart
            && s.dets[a].region.tofEnd == s.dets[a].region.tofStart + s.tofMax < |s.data.value|
  {
    assert Published(s, a, s.tofMax);
    RegionBounds(s, L.TofOf(a - 1));
    L.OffsetMono(RegionSizes(s), 0, s.laidOut);
    assert s.dataMaxSize == L.Offset(RegionSizes(s), s.laidOut) != 0;
    hide Sound, Held, AllPublished, L.NonNegative;
    MulLe(0, a - 1, s.tofMax + 1);
  }

  lemma TofResetBalanced(s: State, a: nat, d: nat)
    requires Sound(s) && a < |s.dets| && Balanced(s, d) && (Laid(s) ==> a <= s.laidOut || ClearsNothing(s, a))
    ensures Balanced(ResetTof(s, a), d)
  {
    var t := ResetTof(s, a);
    ResetTofSound(s, a);
    LaidFrame(s, t);
    if Laid(t) && 1 <= d <= t.laidOut {
      var q := L.PixelOf(d - 1);
      TofResetClearsOwnIff(s, a);
      RegionBounds(s, q);
      assert Lo(t, q) == Lo(s, q) && Hi(t, q) == Hi(s, q);
      hide ClearsNothing, ClearsCell, Owns, Laid, ResetTof;
      SumSame(s.data.value, t.data.value, Lo(s, q), Hi(s, q));
    }
  }

  lemma SumSame(a: seq<nat>, b: seq<nat>, lo: nat, hi: nat)
    requires lo <= hi <= |a| == |b| && forall i :: lo <= i < hi ==> a[i] == b[i]
    ensures Sum(a, lo, hi) == Sum(b, lo, hi)
  {
    SumMono(a, b, lo, hi);
    SumMono(b, a, lo, hi);
  }

  lemma AllocSpaceBalanced(s: State, memory: bool, d: nat)
    requires Sound(s) && Balanced(s, d) && d < |s.totals|
    requires s.status != Acquire && s.dataAlloc ==> s.totals[d] == 0
    ensures Balanced(WriteAllocSpace(s, memory).0, d)
  {
    var t := WriteAllocSpace(s, memory).0;
    WriteAllocSpaceSound(s, memory);
    if s.status != Acquire {
      AllocateSound(s, memory);
      AllocateKeepsTotals(s, memory);
      if s.dataAlloc && !t.dataAlloc {
        AllocatePublishes(s, memory);
        hide Allocate;
        ZeroBalanced(t, d);
      } else if !s.dataAlloc {
        KeptBalanced(s, t, d);
      }
    }
  }

  lemma AllocateKeepsTotals(s: State, memory: bool)
    requires Sound(s)
    ensures SameCounters(s, Allocate(s, memory).0)
  {
    hide FirstBad, Sizes, L.Offset, PlacePixels, PlaceTofs, InForce;
  }

  lemma ClientWriteBalanced(s: State, w: Write, d: nat)
    requires Sound(s) && Balanced(s, d) && d < |s.totals| && BalancedWrite(s, w, d)
    ensures Balanced(ClientWrite(s, w), d)
  {
    ClientWriteGrows(s, w);
    hide Sound, Balanced, Laid, WriteOnDet, WriteAllocSpace;
    match w {
      case Reset => ZeroBalanced(Clear(s), d);
      case Start(_) => ZeroBalanced(Clear(s).(paused := 0), d);
      case AllocSpace(memory) => AllocSpaceBalanced(s, memory, d);
      case OnDet(a, dw) =>
        if a < |s.dets| {
          if dw.TofReset? {
            TofResetIs(s, a);
            TofResetBalanced(s, a, d);
          } else {
            WriteOnDetCounts(s, a, dw);
            KeptBalanced(s, WriteOnDet(s, a, dw), d);
          }
        }
      case _ => KeptBalanced(s, ClientWrite(s, w), d);
    }
  }

  lemma BeginBalanced(s: State, memory: bool, connected: bool, d: nat)
    requires Sound(s) && Balanced(s, d) && d < |s.totals| && s.totals[d] == 0
    ensures Balanced(BeginState(s, memory, connected), d)
  {
    AllocateSound(s, memory);
    AllocateKeepsTotals(s, memory);
    if Allocate(s, memory).1 {
      hide Allocate;
      ZeroBalanced(BeginState(s, memory, connected), d);
    } else {
      assert !BeginState(s, memory, connected).lastOk;
    }
  }

  lemma HandlerBalanced(y: System, c: nat, a: HandlerAct, d: nat)
    requires Formed(y) && Fresh(y) && Balanced(y.s, d) && BalancedJob(y, c, a, d)
    ensures Balanced(HandlerStep(y, c, a).s, d)
  {
    HandlerGrows(y, c, a);
    var t := HandlerStep(y, c, a).s;
    if c < |y.jobs| && a.IntegratePacket? && Integrates(y.s, y.jobs[c]) {
      IntegrateBalanced(y, c, d);
    } else {
      HandlerCounts(y, c, a);
      hide HandlerStep, Sound, Balanced, BalancedJob;
      KeptBalanced(y.s, t, d);
    }
  }

  lemma HandlerCounts(y: System, c: nat, a: HandlerAct)
    requires Formed(y) && !(c < |y.jobs| && a.IntegratePacket? && Integrates(y.s, y.jobs[c]))
    ensures CountsKept(y.s, HandlerStep(y, c, a).s)
  {
    hide Sound, JobFormed, KeepsRegions, Integrate, Snapshot, StampSection;
    HandlerKeepsLayout(y, c, a);
    if c < |y.jobs| {
      match a {
        case Deliver(_) => SnapshotKeepsCounts(y.s);
        case StampPacket => if y.jobs[c].Copied? { StampKeepsCounts(y.s, c, y.jobs[c].packet.stamp); }
        case CheckPacket =>
        case IntegratePacket =>
      }
    }
  }

  lemma SnapshotKeepsCounts(s: State)
    requires Sound(s)
    ensures Snapshot(s).0.data == s.data && Snapshot(s).0.totals == s.totals
  {
    hide InForce, UpToDate, MapSound, FirstNarrow;
  }

  lemma StampKeepsCounts(s: State, c: nat, stamp: Option<Stamp>)
    requires c < |s.channels|
    ensures var t := StampSection(s, c, stamp).0; t.data == s.data && t.totals == s.totals
  {
    hide Receive;
  }

  lemma IntegrateBalanced(y: System, c: nat, d: nat)
    requires Formed(y) && Fresh(y) && Balanced(y.s, d) && c < |y.jobs| && Integrates(y.s, y.jobs[c])
    requires BalancedJob(y, c, IntegratePacket, d)
    ensures Balanced(Integrate(y.s, y.jobs[c].dets, y.jobs[c].packet, y.jobs[c].newPulse), d)
  {
    if Laid(y.s) { CarefulIsReady(y, c); }
    hide Sound, Laid, Ready, Integrate, Careful, Fresh, Balanced, ViewOf;
    IntegrateStateBalanced(y.s, y.jobs[c].dets, y.jobs[c].packet, y.jobs[c].newPulse, d);
  }

  lemma IntegrateStateBalanced(s: State, n: nat, p: Packet, newPulse: bool, d: nat)
    requires Sound(s) && n <= MaxDets(s) && Complete(p) && s.data.Some? && (Laid(s) ==> Ready(s, n)) && Balanced(s, d)
    requires Laid(s) && 1 <= d <= s.laidOut ==> PlainXY(ViewOf(s, d).lens)
    ensures Balanced(Integrate(s, n, p, newPulse), d)
  {
    IntegrateLaid(s, n, p, newPulse);
    if Laid(s) && 1 <= d <= s.laidOut {
      hide Sound, Laid, Ready, RegionSum, Integrate, ViewOf;
      IntegrateSums(s, n, p, newPulse, L.PixelOf(d - 1));
    }
  }

  lemma StatusBalanced(s: State, d: nat)
    requires Sound(s) && Balanced(s, d)
    ensures Balanced(s.(status := Idle), d)
  {
    WithStatusSound(s, Idle);
    KeptBalanced(s, s.(status := Idle), d);
  }

  lemma StepBalanced(y: System, l: Label, d: nat)
    requires Formed(y) && Fresh(y) && Balanced(y.s, d) && BalancedStep(y, l, d)
    ensures Balanced(Step(y, l).s, d)
  {
    hide Sound, Fresh, Balanced, ClientWrite, BeginState, HandlerStep, BalancedJob, BalancedWrite, Own, StepDefined;
    match l {
      case Client(w) => ClientWriteBalanced(y.s, w, d);
      case OfEvent(a) =>
        StatusBalanced(y.s, d);
        if a.BeginAcquire? && y.event == Starting { BeginBalanced(y.s, a.memory, a.connected, d); }
      case OfFrame(a) =>
      case OfHandler(c, a) => HandlerBalanced(y, c, a, d);
    }
  }

  /** Every step of the run meets the conditions. */
  ghost predicate BalancedRun(y: System, ls: seq<Label>, d: nat)
    requires Formed(y) && Fresh(y)
    decreases |ls|
  {
    ls != [] ==>
      var n := |ls| - 1;
      BalancedRun(y, ls[..n], d) && BalancedStep(Run(y, ls[..n]), ls[n], d)
  }

  /** On such runs the pixel sum of d equals its event total in every state. */
  lemma {:induction false} RunBalances(y: System, ls: seq<Label>, d: nat)
    requires Formed(y) && Fresh(y) && Balanced(y.s, d) && BalancedRun(y, ls, d)
    ensures Balanced(Run(y, ls).s, d)
    decreases |ls|
  {
    if ls != [] {
      var n := |ls| - 1;
      hide Step, Formed, Fresh, Balanced, BalancedStep;
      RunBalances(y, ls[..n], d);
      StepBalanced(Run(y, ls[..n]), ls[n], d);
    }
  }

  // ---------- what is counted between the clear and the wipe ----------

  /** The step clears the totals. */
  predicate Clears(s: State, l: Label) {
    l.Client? && (l.write.Reset? || StartAccepted(s, l.write))
  }

  /** Events in the range of d that the step adds. */
  function Counted(y: System, l: Label, d: nat): nat
    requires Formed(y)
  {
    if && l.OfHandler? && l.handler.IntegratePacket? && l.channel < |y.jobs| && Integrates(y.s, y.jobs[l.channel])
       && 1 <= d <= y.jobs[l.channel].dets
    then Matches(ViewOf(y.s, d).lens, EventsOf(y.jobs[l.channel].packet))
    else 0
  }

  lemma ClientWriteKeepsTotals(s: State, w: Write)
    requires Sound(s) && !Clears(s, Client(w))
    ensures SameCounters(s, ClientWrite(s, w))
  {
    hide Sound, Allocate, WriteOnDet;
    match w {
      case AllocSpace(memory) => AllocateKeepsTotals(s, memory);
      case OnDet(a, dw) =>
        if a < |s.dets| {
          if dw.TofReset? { TofResetIs(s, a); } else { WriteOnDetCounts(s, a, dw); }
        }
      case _ =>
    }
  }

  lemma BeginKeepsTotals(s: State, memory: bool, connected: bool)
    requires Sound(s)
    ensures SameCounters(s, BeginState(s, memory, connected))
  {
    AllocateKeepsTotals(s, memory);
    hide Sound, Allocate;
  }

  lemma EventKeepsTotals(y: System, a: EventAct)
    requires Formed(y)
    ensures SameCounters(y.s, EventStep(y, a).s)
  {
    hide Sound, BeginState, Own;
    if a.BeginAcquire? { BeginKeepsTotals(y.s, a.memory, a.connected); }
  }

  lemma StepTotals(y: System, l: Label, d: nat)
    requires Formed(y) && d < |y.s.totals| && !Clears(y.s, l)
    ensures var t := Step(y, l).s; d < |t.totals| && t.totals[d] == y.s.totals[d] + Counted(y, l, d)
  {
    hide Sound, ClientWrite, EventStep, HandlerStep, Matches, ViewOf, Clears;
    match l {
      case Client(w) => ClientWriteKeepsTotals(y.s, w);
      case OfEvent(a) => EventKeepsTotals(y, a);
      case OfFrame(a) =>
      case OfHandler(c, a) => HandlerTotals(y, c, a, d);
    }
  }

  lemma HandlerTotals(y: System, c: nat, a: HandlerAct, d: nat)
    requires Formed(y) && d < |y.s.totals|
    ensures var t := HandlerStep(y, c, a).s;
            d < |t.totals| && t.totals[d] == y.s.totals[d] + Counted(y, OfHandler(c, a), d)
  {
    if c < |y.jobs| && a.IntegratePacket? && Integrates(y.s, y.jobs[c]) {
      var j := y.jobs[c];
      var t := Integrate(y.s, j.dets, j.packet, j.newPulse);
      assert HandlerStep(y, c, a).s == t by { hide Integrate, Sound; }
      hide Sound, Matches, ViewOf, StrikeAll, Views, HandlerStep, EventsOf;
      assert t.totals == NewTotals(y.s, j.dets, EventsOf(j.packet));
    } else {
      HandlerCounts(y, c, a);
      hide HandlerStep, Sound, Matches, ViewOf;
    }
  }

  /** No step of the stretch clears the totals. */
  predicate NoClear(y: System, ls: seq<Label>)
    requires Formed(y) && Fresh(y)
    decreases |ls|
  {
    ls != [] ==> var n := |ls| - 1; NoClear(y, ls[..n]) && !Clears(Run(y, ls[..n]).s, ls[n])
  }

  /** Events in the range of d that the stretch adds. */
  function CountedIn(y: System, ls: seq<Label>, d: nat): nat
    requires Formed(y) && Fresh(y)
    decreases |ls|
  {
    if ls == [] then 0
    else var n := |ls| - 1; CountedIn(y, ls[..n], d) + Counted(Run(y, ls[..n]), ls[n], d)
  }

  /** Between clears the total of d is the number of events in its range that were integrated. */
  lemma {:induction false} TotalsCountEvents(y: System, ls: seq<Label>, d: nat)
    requires Formed(y) && Fresh(y) && d < |y.s.totals| && NoClear(y, ls)
    ensures var t := Run(y, ls).s; d < |t.totals| && t.totals[d] == y.s.totals[d] + CountedIn(y, ls, d)
    decreases |ls|
  {
    hide Formed, Fresh, Step, Counted, Clears;
    if ls != [] {
      var n := |ls| - 1;
      TotalsCountEvents(y, ls[..n], d);
      StepTotals(Run(y, ls[..n]), ls[n], d);
    }
  }

  lemma BeginBalancesIff(s: State, memory: bool, connected: bool, d: nat)
    requires Sound(s) && Allocate(s, memory).1
    requires var t := BeginState(s, memory, connected); Laid(t) && 1 <= d <= t.laidOut
    ensures d < |s.totals| && (Balanced(BeginState(s, memory, connected), d) <==> s.totals[d] == 0)
  {
    AllocateSound(s, memory);
    BeginKeepsTotals(s, memory, connected);
    hide Allocate;
    ZeroConserves(BeginState(s, memory, connected));
  }

  /** After a clear, the start-time wipe leaves the pixel sum of d equal to its event total if and
      only if no event in its range was integrated in between; otherwise it leaves the sum, which is 0, behind. */
  lemma WipeBalancesIffNothingCounted(y: System, ls: seq<Label>, memory: bool, connected: bool, d: nat)
    requires Formed(y) && Fresh(y) && d < |y.s.totals| && y.s.totals[d] == 0 && NoClear(y, ls)
    requires var s := Run(y, ls).s;
             var t := BeginState(s, memory, connected);
             Allocate(s, memory).1 && Laid(t) && 1 <= d <= t.laidOut
    ensures Balanced(BeginState(Run(y, ls).s, memory, connected), d) <==> CountedIn(y, ls, d) == 0
  {
    TotalsCountEvents(y, ls, d);
    hide Run, Fresh, NoClear, CountedIn, Balanced, BeginState, Allocate, Laid;
    BeginBalancesIff(Run(y, ls).s, memory, connected, d);
  }

  // ---------- no event is lost ----------

  predicate OneFilter(c: Config) {
    c.tofRoiOn == 0 || c.roiOn == 0
  }

  predicate AllOneFilter(s: State) {
    && (forall d :: 0 <= d < |s.dets| ==> OneFilter(s.dets[d].cfg))
    && (forall d :: 0 <= d < |s.snaps| ==> OneFilter(s.snaps[d].cfg))
  }

  /** Filter enables are written as 0 or 1. */
  predicate BooleanWrite(l: Label) {
    l.Client? && l.write.OnDet? && l.write.write.SetDet?
        && (l.write.write.param == TofRoiEnable || l.write.write.param == RoiEnable) ==>
      l.write.write.value == 0 || l.write.write.value == 1
  }

  lemma WriteOnDetOneFilter(s: State, a: nat, w: DetWrite)
    requires Sound(s) && a < |s.dets| && AllOneFilter(s) && BooleanWrite(Client(OnDet(a, w)))
    ensures AllOneFilter(WriteOnDet(s, a, w))
  {
    hide Sound, LoadMap;
  }

  lemma AllocateOneFilter(s: State, memory: bool)
    requires Sound(s) && AllOneFilter(s)
    ensures AllOneFilter(Allocate(s, memory).0)
  {
    PublishOneFilter(Attempt(s), Max(s.numDet, 0));
    hide InForce, UpToDate, MapSound, Publish, OneFilter;
  }

  lemma PublishOneFilter(s: State, n: nat)
    requires AllOneFilter(s) && n < |s.dets|
    ensures AllOneFilter(Publish(s, n).0)
  {
    hide FirstBad, Sizes, L.Offset, SizeOf;
  }

  lemma ClientWriteOneFilter(s: State, w: Write)
    requires Sound(s) && AllOneFilter(s) && BooleanWrite(Client(w))
    ensures AllOneFilter(ClientWrite(s, w))
  {
    hide Sound, WriteOnDet, Allocate, BooleanWrite;
    match w {
      case AllocSpace(memory) => AllocateOneFilter(s, memory);
      case OnDet(a, dw) => if a < |s.dets| { WriteOnDetOneFilter(s, a, dw); }
      case _ =>
    }
  }

  lemma SnapshotOneFilter(s: State)
    requires Sound(s) && AllOneFilter(s)
    ensures AllOneFilter(Snapshot(s).0)
  {
    hide InForce, MapSound, FirstNarrow, OneFilter;
  }

  lemma HandlerOneFilter(y: System, c: nat, a: HandlerAct)
    requires Formed(y) && AllOneFilter(y.s)
    ensures AllOneFilter(HandlerStep(y, c, a).s)
  {
    SnapshotOneFilter(y.s);
    hide Sound, Snapshot, Receive, StrikeAll, NewTotals, Views, OneFilter;
  }

  lemma BeginOneFilter(s: State, memory: bool, connected: bool)
    requires Sound(s) && AllOneFilter(s)
    ensures AllOneFilter(BeginState(s, memory, connected))
  {
    AllocateOneFilter(s, memory);
    hide Sound, Allocate, OneFilter;
  }

  lemma StepOneFilter(y: System, l: Label)
    requires Formed(y) && AllOneFilter(y.s) && BooleanWrite(l)
    ensures AllOneFilter(Step(y, l).s)
  {
    hide Sound, ClientWrite, HandlerStep, BeginState, BooleanWrite, OneFilter;
    match l {
      case Client(w) => ClientWriteOneFilter(y.s, w);
      case OfEvent(a) => if a.BeginAcquire? { BeginOneFilter(y.s, a.memory, a.connected); }
      case OfFrame(a) =>
      case OfHandler(c, a) => HandlerOneFilter(y, c, a);
    }
  }

  /** With 0/1 enables at most one filter is on per detector, in the parameters and in the copies. */
  lemma {:induction false} RunOneFilter(y: System, ls: seq<Label>)
    requires Formed(y) && Fresh(y) && AllOneFilter(y.s) && forall i :: 0 <= i < |ls| ==> BooleanWrite(ls[i])
    ensures AllOneFilter(Run(y, ls).s)
    decreases |ls|
  {
    if ls != [] {
      var n := |ls| - 1;
      hide Step, Formed, Fresh, AllOneFilter, BooleanWrite;
      RunOneFilter(y, ls[..n]);
      StepOneFilter(Run(y, ls[..n]), ls[n]);
    }
  }

  /** In every run with 0/1 enables, a careful integration adds to the pixel and TOF regions of an X/Y
      detector, taken together, at least its events in range and on scale. */
  lemma NoEventLostInEveryRun(maxDets: nat, maxChannels: nat, transform: Transform, ls: seq<Label>, c: nat, d: nat)
    requires 1 <= maxChannels && forall i :: 0 <= i < |ls| ==> BooleanWrite(ls[i])
    requires var y := Run(Init(maxDets, maxChannels, transform), ls);
             && c < |y.jobs| && Integrates(y.s, y.jobs[c]) && Laid(y.s) && Careful(y, c) && 1 <= d <= y.jobs[c].dets
             && d <= y.s.laidOut && ViewOf(y.s, d).lens.cfg.plotType == 0
    ensures var y := Run(Init(maxDets, maxChannels, transform), ls);
            var z := Step(y, OfHandler(c, IntegratePacket));
            var q, r := L.PixelOf(d - 1), L.TofOf(d - 1);
            && Laid(z.s) && z.s.laidOut == y.s.laidOut
            && RegionSum(z.s, q) + RegionSum(z.s, r)
               >= RegionSum(y.s, q) + RegionSum(y.s, r)
                   + SumOf(OnScaleCount(ViewOf(y.s, d).lens), EventsOf(y.jobs[c].packet))
  {
    var x := Init(maxDets, maxChannels, transform);
    var y := Run(x, ls);
    hide Run, Init, Fresh, AllOneFilter, BooleanWrite, InForce, Laid, Careful, RegionSum, Integrate, ViewOf, Integrates;
    InitOneFilter(maxDets, maxChannels, transform);
    RunOneFilter(x, ls);
    JobLosesNothing(y, c, d);
  }

  lemma JobLosesNothing(y: System, c: nat, d: nat)
    requires Formed(y) && Fresh(y) && AllOneFilter(y.s)
    requires c < |y.jobs| && Integrates(y.s, y.jobs[c]) && Laid(y.s) && Careful(y, c) && 1 <= d <= y.jobs[c].dets
    requires d <= y.s.laidOut && ViewOf(y.s, d).lens.cfg.plotType == 0
    ensures var z := Step(y, OfHandler(c, IntegratePacket));
            var q, r := L.PixelOf(d - 1), L.TofOf(d - 1);
            && Laid(z.s) && z.s.laidOut == y.s.laidOut
            && RegionSum(z.s, q) + RegionSum(z.s, r)
               >= RegionSum(y.s, q) + RegionSum(y.s, r)
                   + SumOf(OnScaleCount(ViewOf(y.s, d).lens), EventsOf(y.jobs[c].packet))
  {
    var j := y.jobs[c];
    CarefulIsReady(y, c);
    IntegrateLaid(y.s, j.dets, j.packet, j.newPulse);
    assert OneFilter(y.s.snaps[d].cfg) && OneFilter(ViewOf(y.s, d).lens.cfg);
    hide Laid, Ready, RegionSum, Integrate, ViewOf, Careful, AllOneFilter, Fresh, SumOf, OnScaleCount;
    IntegrateLosesNothing(y.s, j.dets, j.packet, j.newPulse, d);
  }

  lemma InitOneFilter(maxDets: nat, maxChannels: nat, transform: Transform)
    requires 1 <= maxChannels
    ensures AllOneFilter(Init(maxDets, maxChannels, transform).s)
  {
  }

  /** A detector with at most one filter on keeps that under an enable write if and only if the value
      is 0 or 1, or the other filter is off: any other value switches nothing off. */
  lemma EnableKeepsOneFilterIff(c: Config, v: Int32)
    requires OneFilter(c)
    ensures OneFilter(SetParam(c, RoiEnable, v)) <==> v == 0 || v == 1 || c.tofRoiOn == 0
    ensures OneFilter(SetParam(c, TofRoiEnable, v)) <==> v == 0 || v == 1 || c.roiOn == 0
  {
  }
}
