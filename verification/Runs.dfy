/** What holds in every state of every run. */
module Runs {
  import opened Base
  import opened Events
  import opened Histogram
  import opened Stream
  import opened Driver
  import opened Soundness
  import opened Acquisition
  import L = Layout

  // ---------- runs ----------

  /** The driver the constructor leaves, for any number of detectors and channels. */
  function Init(maxDets: nat, maxChannels: nat, transform: Transform): (y: System)
    requires 1 <= maxChannels
    ensures Formed(y) && Fresh(y)
  {
    System(InitState(maxDets, maxChannels, transform), Draining, FrameDraining, false, false, false, false,
      seq(maxChannels, _ => NoJob), {}, {}, 0, None, 0, 0)
  }

  // ---------- the protocol ----------

  /** The event thread is in its acquire loop. */
  predicate InLoop(y: System) {
    y.event == Acquiring || y.event == Stopping
  }

  predicate Protocol(y: System) {
    && (y.s.status == Acquire <==> InLoop(y))
    && y.running == (if InLoop(y) then Own(y.monitors, y.channelsInUse) else {})
    && (!InLoop(y) && y.event != Draining ==> !y.stopEvent)
    && (InLoop(y) && y.stopEvent ==> y.stopFor == y.acquisitions)
    && (InLoop(y) ==> !y.s.dataAlloc)
  }

  /** Everything allocArray publishes, and the counts, are the same; the buffer is the same one. */
  predicate SameLayout(s: State, t: State) {
    && KeepsRegions(s, t) && t.dataAlloc == s.dataAlloc && t.tofMaxParam == s.tofMaxParam
    && t.numDet == s.numDet && t.numChannels == s.numChannels
    && forall d :: 0 <= d < |s.dets| ==>
         && t.dets[d].cfg.pixelSize == s.dets[d].cfg.pixelSize
         && t.dets[d].cfg.pixelStart == s.dets[d].cfg.pixelStart && t.dets[d].cfg.pixelEnd == s.dets[d].cfg.pixelEnd
  }

  /** While acquiring, a client write changes neither the status nor the layout; otherwise it never
      makes the status Acquire. */
  lemma ClientWriteLocked(s: State, w: Write)
    requires Sound(s)
    ensures var t := ClientWrite(s, w);
            && (t.status == Acquire <==> s.status == Acquire)
            && (s.status == Acquire ==> SameLayout(s, t))
  {
    hide Sound, Clear, WriteOnDet, Allocate;
    match w {
      case OnDet(a, dw) => if a < |s.dets| { WriteOnDetLocked(s, a, dw); }
      case Reset => ClearKeepsLayout(s);
      case Start(_) => ClearKeepsLayout(s);
      case AllocSpace(memory) => if s.status != Acquire { AllocateKeepsStatus(s, memory); }
      case _ =>
    }
  }

  lemma ClearKeepsLayout(s: State)
    ensures Clear(s).status == s.status && SameLayout(s, Clear(s))
  {
  }

  lemma AllocateKeepsStatus(s: State, memory: bool)
    requires Sound(s)
    ensures Allocate(s, memory).0.status == s.status
  {
    hide Sound, FirstBad, Sizes, L.Offset, PlacePixels, PlaceTofs;
  }

  lemma WriteOnDetLocked(s: State, a: nat, w: DetWrite)
    requires Sound(s) && a < |s.dets|
    ensures var t := WriteOnDet(s, a, w);
            && t.status == s.status
            && (s.status == Acquire ==> SameLayout(s, t))
  {
    hide Sound, LoadMap;
  }

  lemma SnapshotKeepsLayout(s: State)
    requires Sound(s)
    ensures Snapshot(s).0.status == s.status && SameLayout(s, Snapshot(s).0)
  {
    hide Sound;
  }

  lemma StampKeepsLayout(s: State, c: nat, stamp: Option<Stamp>)
    requires c < |s.channels|
    ensures StampSection(s, c, stamp).0.status == s.status && SameLayout(s, StampSection(s, c, stamp).0)
  {
    hide Receive;
  }

  lemma IntegrateKeepsLayout(s: State, n: nat, p: Packet, newPulse: bool)
    requires Sound(s) && n <= MaxDets(s) && Complete(p) && s.data.Some?
    ensures Integrate(s, n, p, newPulse).status == s.status && SameLayout(s, Integrate(s, n, p, newPulse))
  {
    hide Sound, StrikeAll, NewTotals, Views;
  }

  lemma HandlerKeepsLayout(y: System, c: nat, a: HandlerAct)
    requires Formed(y)
    ensures var z := HandlerStep(y, c, a);
            z.s.status == y.s.status && SameLayout(y.s, z.s)
  {
    assert SameLayout(y.s, y.s);
    hide Sound, SameLayout, Snapshot, StampSection, Integrate;
    if c < |y.jobs| {
      match a {
        case Deliver(_) => SnapshotKeepsLayout(y.s);
        case StampPacket => if y.jobs[c].Copied? { StampKeepsLayout(y.s, c, y.jobs[c].packet.stamp); }
        case CheckPacket =>
        case IntegratePacket =>
          if Integrates(y.s,
              y.jobs[c]) { IntegrateKeepsLayout(y.s, y.jobs[c].dets, y.jobs[c].packet, y.jobs[c].newPulse); }
      }
    }
  }

  /** A handler step leaves the threads alone. */
  lemma HandlerKeepsThreads(y: System, c: nat, a: HandlerAct)
    requires Formed(y)
    ensures var z := HandlerStep(y, c, a);
            && z.event == y.event && z.running == y.running && z.monitors == y.monitors
            && z.channelsInUse == y.channelsInUse
            && z.stopEvent == y.stopEvent && z.stopFor == y.stopFor && z.acquisitions == y.acquisitions
  {
    hide Sound, Snapshot, StampSection, Integrate;
  }

  /** A start event leads to an acquisition or to an error, never to a half-started one. */
  lemma BeginKeepsProtocol(y: System, memory: bool, created: set<nat>, connected: bool)
    requires Formed(y) && Protocol(y) && y.event == Starting
    ensures Protocol(Begin(y, memory, created, connected))
  {
    BeginStatus(y.s, memory, connected);
    hide Sound, Formed, Allocate, BeginState, Own;
    var z := Begin(y, memory, created, connected);
    assert y.running == {};
    assert {} + Own(z.monitors, z.channelsInUse) == Own(z.monitors, z.channelsInUse);
  }

  lemma BeginStatus(s: State, memory: bool, connected: bool)
    requires Sound(s)
    ensures var t, ok := BeginState(s, memory, connected), Allocate(s, memory).1;
            && t.status == (if ok && connected then Acquire else Error)
            && (ok ==> !t.dataAlloc)
  {
    AllocateSound(s, memory);
    WipeKeeps(Allocate(s, memory).0);
    hide Sound, Allocate, Wipe;
  }

  lemma EventKeepsProtocol(y: System, a: EventAct)
    requires Formed(y) && Protocol(y)
    ensures Protocol(EventStep(y, a))
  {
    hide Sound, Formed, Begin, Own;
    match a {
      case BeginAcquire(memory, created, connected) =>
        if y.event == Starting { BeginKeepsProtocol(y, memory, created, connected); }
      case _ =>
        assert y.running - Own(y.monitors, y.channelsInUse) == {};
    }
  }

  lemma WipeKeeps(s: State)
    ensures Wipe(s).dataAlloc == s.dataAlloc
  {
  }

  /** Every step of every thread keeps the protocol invariant. */
  lemma StepKeepsProtocol(y: System, l: Label)
    requires Formed(y) && Protocol(y)
    ensures Protocol(Step(y, l))
  {
    hide Sound, ClientWrite, HandlerStep, EventStep, SameLayout;
    match l {
      case Client(w) =>
        ClientWriteLocked(y.s, w);
        LockedKeepsAlloc(y.s, ClientWrite(y.s, w));
      case OfEvent(a) => EventKeepsProtocol(y, a);
      case OfFrame(a) =>
      case OfHandler(c, a) =>
        HandlerKeepsLayout(y, c, a);
        HandlerKeepsThreads(y, c, a);
        LockedKeepsAlloc(y.s, HandlerStep(y, c, a).s);
    }
  }

  lemma LockedKeepsAlloc(s: State, t: State)
    ensures SameLayout(s, t) ==> t.dataAlloc == s.dataAlloc
  {
  }

  // ---------- parameter copies ----------

  /** The handler's copies of detectors 1..n have the regions published now. */
  predicate Copies(s: State, n: nat)
    requires Shaped(s) && n <= MaxDets(s)
  {
    forall d :: 1 <= d <= n ==> AtRegion(s, d)
  }

  /** A job since whose copy no allocation was attempted has the regions right, whatever was written. */
  predicate Fresh(y: System)
    requires Formed(y)
  {
    forall c :: 0 <= c < |y.jobs| && y.jobs[c] != NoJob && y.jobs[c].epoch == y.s.epoch ==>
      Copies(y.s, y.jobs[c].dets)
  }

  /** Without an allocation attempt no region moves, and no copy of one gets out of date. */
  predicate KeepsCopies(s: State, t: State)
    requires Shaped(s) && Shaped(t)
  {
    && |t.dets| == |s.dets|
    && (t.epoch == s.epoch ==>
          KeepsRegions(s, t) && forall d :: 1 <= d <= MaxDets(s) && AtRegion(s, d) ==> AtRegion(t, d))
  }

  lemma WriteOnDetKeepsCopies(s: State, a: nat, w: DetWrite)
    requires Sound(s) && a < |s.dets|
    ensures Shaped(WriteOnDet(s, a, w)) && KeepsCopies(s, WriteOnDet(s, a, w))
  {
    hide LoadMap, InForce;
  }

  lemma AllocateKeepsCopies(s: State, memory: bool)
    requires Sound(s)
    ensures var t := Allocate(s, memory).0;
            && Shaped(t) && |t.dets| == |s.dets|
            && (t.epoch == s.epoch ==> t == s)
  {
    hide FirstBad, Sizes, L.Offset, PlacePixels, PlaceTofs, InForce;
  }

  lemma ClientWriteKeepsCopies(s: State, w: Write)
    requires Sound(s)
    ensures Shaped(ClientWrite(s, w)) && KeepsCopies(s, ClientWrite(s, w))
  {
    hide WriteOnDet, Allocate, InForce, UpToDate, MapSound;
    match w {
      case OnDet(a, dw) => if a < |s.dets| { WriteOnDetKeepsCopies(s, a, dw); }
      case AllocSpace(memory) => AllocateKeepsCopies(s, memory);
      case _ =>
    }
  }

  lemma BeginKeepsCopies(s: State, memory: bool, connected: bool)
    requires Sound(s)
    ensures Shaped(BeginState(s, memory, connected)) && KeepsCopies(s, BeginState(s, memory, connected))
  {
    hide Allocate, InForce, UpToDate, MapSound;
    AllocateKeepsCopies(s, memory);
  }

  lemma SnapshotKeepsCopies(s: State)
    requires Sound(s)
    ensures var (t, n) := Snapshot(s);
            && Shaped(t) && KeepsCopies(s, t)
            && (n.Some? ==> n.value <= MaxDets(t) && Copies(t, n.value))
  {
    hide InForce;
  }

  lemma StampKeepsCopies(s: State, c: nat, stamp: Option<Stamp>)
    requires Sound(s) && c < |s.channels|
    ensures Shaped(StampSection(s, c, stamp).0) && KeepsCopies(s, StampSection(s, c, stamp).0)
  {
    hide Receive, InForce;
  }

  lemma IntegrateKeepsCopies(s: State, n: nat, p: Packet, newPulse: bool)
    requires Sound(s) && n <= MaxDets(s) && Complete(p) && s.data.Some?
    ensures Shaped(Integrate(s, n, p, newPulse)) && KeepsCopies(s, Integrate(s, n, p, newPulse))
  {
    hide StrikeAll, Matches, ViewOf, InForce;
  }

  /** A step that adds no job keeps jobs fresh if it keeps copies. */
  lemma FreshFrame(y: System, z: System)
    requires Formed(y) && Fresh(y) && Grows(y.s, z.s) && KeepsCopies(y.s, z.s) && |z.jobs| == |y.jobs|
    requires forall c :: 0 <= c < |y.jobs| && z.jobs[c] != NoJob ==>
               && y.jobs[c] != NoJob && z.jobs[c].dets == y.jobs[c].dets && z.jobs[c].epoch == y.jobs[c].epoch
               && (z.jobs[c].Checked? ==> Complete(z.jobs[c].packet))
    ensures Formed(z) && Fresh(z)
  {
    hide InForce, UpToDate, MapSound, AtRegion, KeepsRegions;
    forall c | 0 <= c < |z.jobs| && z.jobs[c] != NoJob && z.jobs[c].epoch == z.s.epoch
      ensures Copies(z.s, z.jobs[c].dets)
    {
      assert y.s.epoch == z.s.epoch;
      assert Copies(y.s, y.jobs[c].dets);
    }
  }

  lemma DeliverKeepsFresh(y: System, c: nat, p: Packet)
    requires Formed(y) && Fresh(y) && c < |y.jobs| && y.jobs[c] == NoJob
    ensures var z := DeliverStep(y, c, p); Formed(z) && Fresh(z)
  {
    var z := DeliverStep(y, c, p);
    var (t, n) := Snapshot(y.s);
    SnapshotSound(y.s);
    SnapshotKeepsCopies(y.s);
    SnapshotKeepsLayout(y.s);
    assert t.epoch == y.s.epoch;
    hide Snapshot, Sound, SameLayout;
    FreshFrame(y, y.(s := t));
  }

  lemma StampKeepsFresh(y: System, c: nat)
    requires Formed(y) && Fresh(y) && c < |y.jobs| && y.jobs[c].Copied?
    ensures var z := StampStep(y, c); Formed(z) && Fresh(z)
  {
    HandlerGrows(y, c, StampPacket);
    StampKeepsCopies(y.s, c, y.jobs[c].packet.stamp);
    hide Grows, Sound, StampSection, KeepsCopies, Copies, Fresh;
    FreshFrame(y, StampStep(y, c));
  }

  lemma CheckKeepsFresh(y: System, c: nat)
    requires Formed(y) && Fresh(y) && c < |y.jobs| && y.jobs[c].Stamped?
    ensures var z := CheckStep(y, c); Formed(z) && Fresh(z)
  {
    HandlerGrows(y, c, CheckPacket);
    SelfKeepsCopies(y.s);
    hide Grows, Sound, KeepsCopies, Copies, Fresh;
    FreshFrame(y, CheckStep(y, c));
  }

  lemma IntegrateKeepsFresh(y: System, c: nat)
    requires Formed(y) && Fresh(y) && c < |y.jobs| && y.jobs[c].Checked?
    ensures var z := IntegrateStep(y, c); Formed(z) && Fresh(z)
  {
    HandlerGrows(y, c, IntegratePacket);
    if Integrates(y.s, y.jobs[c]) {
      IntegrateKeepsCopies(y.s, y.jobs[c].dets, y.jobs[c].packet, y.jobs[c].newPulse);
    } else {
      SelfKeepsCopies(y.s);
    }
    hide Grows, Sound, Integrate, KeepsCopies, Copies, Fresh;
    FreshFrame(y, IntegrateStep(y, c));
  }

  lemma HandlerKeepsFresh(y: System, c: nat, a: HandlerAct)
    requires Formed(y) && Fresh(y)
    ensures var z := HandlerStep(y, c, a); Formed(z) && Fresh(z)
  {
    hide Formed, Fresh, DeliverStep, StampStep, CheckStep, IntegrateStep;
    if c < |y.jobs| {
      match a {
        case Deliver(p) => if y.jobs[c] == NoJob { DeliverKeepsFresh(y, c, p); }
        case StampPacket => if y.jobs[c].Copied? { StampKeepsFresh(y, c); }
        case CheckPacket => if y.jobs[c].Stamped? { CheckKeepsFresh(y, c); }
        case IntegratePacket => if y.jobs[c].Checked? { IntegrateKeepsFresh(y, c); }
      }
    }
  }

  lemma SelfKeepsCopies(s: State)
    requires Sound(s)
    ensures KeepsCopies(s, s)
  {
  }

  lemma EventKeepsFresh(y: System, a: EventAct)
    requires Formed(y) && Fresh(y)
    ensures var z := EventStep(y, a); Formed(z) && Fresh(z)
  {
    EventGrows(y, a);
    SelfKeepsCopies(y.s);
    hide Sound, Grows, Fresh, Begin, KeepsCopies, Own;
    if a.BeginAcquire? {
      if y.event == Starting { BeginKeepsFresh(y, a.memory, a.created, a.connected); }
    } else {
      StatusKeepsCopies(y.s);
      FreshFrame(y, EventStep(y, a));
    }
  }

  lemma BeginKeepsFresh(y: System, memory: bool, created: set<nat>, connected: bool)
    requires Formed(y) && Fresh(y)
    ensures var z := Begin(y, memory, created, connected); Formed(z) && Fresh(z)
  {
    BeginGrows(y.s, memory, connected);
    BeginKeepsCopies(y.s, memory, connected);
    hide Sound, Grows, Fresh, BeginState, KeepsCopies, Allocate, Own;
    FreshFrame(y, Begin(y, memory, created, connected));
  }

  lemma StepKeepsFresh(y: System, l: Label)
    requires Formed(y) && Fresh(y)
    ensures Formed(Step(y, l)) && Fresh(Step(y, l))
  {
    hide Sound, Grows, Fresh, ClientWrite, HandlerStep, EventStep, KeepsCopies;
    match l {
      case Client(w) =>
        ClientWriteGrows(y.s, w);
        ClientWriteKeepsCopies(y.s, w);
        FreshFrame(y, ClientStep(y, w));
      case OfEvent(a) => EventKeepsFresh(y, a);
      case OfFrame(a) =>
        GrowsSelf(y.s);
        SelfKeepsCopies(y.s);
        FreshFrame(y, FrameStep(y, a));
      case OfHandler(c, a) => HandlerKeepsFresh(y, c, a);
    }
  }

  lemma GrowsSelf(s: State)
    requires Sound(s)
    ensures Grows(s, s)
  {
  }

  lemma StatusKeepsCopies(s: State)
    requires Sound(s)
    ensures Shaped(s.(status := Idle)) && KeepsCopies(s, s.(status := Idle))
  {
  }

  // ---------- runs ----------

  /** The state after any sequence of steps. Well-formedness and fresh copies go with it. */
  function Run(y: System, ls: seq<Label>): (z: System)
    requires Formed(y) && Fresh(y)
    ensures Formed(z) && Fresh(z)
    decreases |ls|
  {
    if ls == [] then y
    else
      var n := |ls| - 1;
      StepKeepsFresh(Run(y, ls[..n]), ls[n]);
      Step(Run(y, ls[..n]), ls[n])
  }

  lemma RunStep(y: System, ls: seq<Label>, l: Label)
    requires Formed(y) && Fresh(y)
    ensures Run(y, ls + [l]) == Step(Run(y, ls), l)
  {
    hide Formed, Fresh, Step;
    assert (ls + [l])[..|ls|] == ls;
  }

  lemma RunThree(y: System, a: Label, b: Label, c: Label)
    requires Formed(y) && Fresh(y)
    ensures Formed(Step(y, a)) && Formed(Step(Step(y, a), b))
    ensures Run(y, [a] + [b] + [c]) == Step(Step(Step(y, a), b), c)
  {
    assert [] + [a] == [a] && Run(y, []) == y;
    hide Formed, Fresh, Step, Run;
    RunStep(y, [], a);
    RunStep(y, [a], b);
    RunStep(y, [a] + [b], c);
  }

  lemma {:induction false} RunConcat(y: System, a: seq<Label>, b: seq<Label>)
    requires Formed(y) && Fresh(y)
    ensures Run(y, a + b) == Run(Run(y, a), b)
    decreases |b|
  {
    hide Formed, Fresh, Step;
    if b == [] {
      assert a + b == a;
    } else {
      RunConcat(y, a, b[..|b| - 1]);
      assert (a + b)[..|a + b| - 1] == a + b[..|b| - 1];
    }
  }

  /** No run changes how many detector addresses there are. */
  lemma {:induction false} RunKeepsDets(y: System, ls: seq<Label>)
    requires Formed(y) && Fresh(y)
    ensures |Run(y, ls).s.dets| == |y.s.dets|
    decreases |ls|
  {
    hide Formed, Fresh, Step;
    if ls != [] {
      var n := |ls| - 1;
      RunKeepsDets(y, ls[..n]);
      StepGrows(Run(y, ls[..n]), ls[n]);
    }
  }

  /** Every run starts within the protocol, with no counts. */
  lemma InitHolds(maxDets: nat, maxChannels: nat, transform: Transform)
    requires 1 <= maxChannels
    ensures var y := Init(maxDets, maxChannels, transform); Formed(y) && Protocol(y) && Fresh(y) && Conserves(y.s)
  {
  }

  lemma {:induction false} RunKeepsProtocol(y: System, ls: seq<Label>)
    requires Formed(y) && Fresh(y) && Protocol(y)
    ensures Protocol(Run(y, ls))
    decreases |ls|
  {
    if ls != [] {
      var n := |ls| - 1;
      RunKeepsProtocol(y, ls[..n]);
      StepKeepsProtocol(Run(y, ls[..n]), ls[n]);
      hide Step, Protocol, Formed, Fresh;
    }
  }

  /** Whenever the event thread waits for a start no stop is pending, and the stop that ends an
      acquisition was accepted during that same acquisition. */
  lemma StopNeverEndsALaterAcquisition(maxDets: nat, maxChannels: nat, transform: Transform, ls: seq<Label>)
    requires 1 <= maxChannels
    ensures var y := Run(Init(maxDets, maxChannels, transform), ls);
            && (y.event == Waiting ==> !y.stopEvent)
            && (y.event == Acquiring && y.stopEvent ==> y.stopFor == y.acquisitions)
  {
    InitHolds(maxDets, maxChannels, transform);
    RunKeepsProtocol(Init(maxDets, maxChannels, transform), ls);
    hide Run, Init, Formed, Fresh;
  }

  /** In every reachable state: acquiring status, acquire loop and running monitors go together,
      and then the layout is in force. */
  lemma StatusLoopAndMonitorsAgree(maxDets: nat, maxChannels: nat, transform: Transform, ls: seq<Label>)
    requires 1 <= maxChannels
    ensures var y := Run(Init(maxDets, maxChannels, transform), ls);
            && (y.s.status == Acquire <==> y.event == Acquiring || y.event == Stopping)
            && y.running == (if y.s.status == Acquire then Own(y.monitors, y.channelsInUse) else {})
            && (y.s.status == Acquire ==> !y.s.dataAlloc && y.s.data.Some? && |y.s.data.value| == y.s.bufferMaxSize)
  {
    InitHolds(maxDets, maxChannels, transform);
    RunKeepsProtocol(Init(maxDets, maxChannels, transform), ls);
    hide Run, Init, Fresh;
  }

  lemma SameLayoutTransitive(a: State, b: State, c: State)
    requires SameLayout(a, b) && SameLayout(b, c)
    ensures SameLayout(a, c)
  {
  }

  lemma StepHoldsLayout(y: System, l: Label)
    requires Formed(y) && Protocol(y) && y.s.status == Acquire && Step(y, l).s.status == Acquire
    ensures SameLayout(y.s, Step(y, l).s) && Step(y, l).acquisitions == y.acquisitions
  {
    LayoutSelf(y.s);
    hide Sound, SameLayout, ClientWrite, HandlerStep, EventStep;
    match l {
      case Client(w) => ClientWriteLocked(y.s, w);
      case OfEvent(a) => EventHoldsLayout(y, a);
      case OfFrame(a) =>
      case OfHandler(c, a) =>
        HandlerKeepsLayout(y, c, a);
        HandlerKeepsThreads(y, c, a);
    }
  }

  lemma LayoutSelf(s: State)
    ensures SameLayout(s, s)
  {
  }

  /** In the acquire loop the event thread begins nothing. */
  lemma EventHoldsLayout(y: System, a: EventAct)
    requires Formed(y) && Protocol(y) && y.s.status == Acquire && EventStep(y, a).s.status == Acquire
    ensures EventStep(y, a).s == y.s && EventStep(y, a).acquisitions == y.acquisitions
  {
    hide Formed, Begin, Own;
  }

  /** The status is Acquire in every state of the stretch. */
  predicate AcquiringThroughout(y: System, ls: seq<Label>)
    requires Formed(y) && Fresh(y)
    decreases |ls|
  {
    Run(y, ls).s.status == Acquire && (ls != [] ==> AcquiringThroughout(y, ls[..|ls| - 1]))
  }

  /** Through any stretch of a run in which the status stays Acquire, the buffer, its size, tofMax,
      the detector and channel counts and all published offsets stay as they were. */
  lemma {:induction false} LayoutHeldWhileAcquiring(y: System, ls: seq<Label>)
    requires Formed(y) && Fresh(y) && Protocol(y)
    requires AcquiringThroughout(y, ls)
    ensures SameLayout(y.s, Run(y, ls).s) && Run(y, ls).acquisitions == y.acquisitions && !Run(y, ls).s.dataAlloc
    decreases |ls|
  {
    RunKeepsProtocol(y, ls);
    if ls == [] {
      assert SameLayout(y.s, y.s);
    } else {
      var n := |ls| - 1;
      hide SameLayout, Step, Formed, Fresh;
      LayoutHeldWhileAcquiring(y, ls[..n]);
      RunKeepsProtocol(y, ls[..n]);
      StepHoldsLayout(Run(y, ls[..n]), ls[n]);
      SameLayoutTransitive(y.s, Run(y, ls[..n]).s, Run(y, ls).s);
    }
  }

  // ---------- regions ----------

  lemma StepKeepsRegions(y: System, l: Label)
    requires Formed(y) && Step(y, l).s.epoch == y.s.epoch
    ensures KeepsRegions(y.s, Step(y, l).s)
  {
    LayoutSelf(y.s);
    hide Sound, ClientWrite, HandlerStep, EventStep, KeepsRegions;
    match l {
      case Client(w) => ClientWriteKeepsCopies(y.s, w);
      case OfEvent(a) => EventKeepsRegions(y, a);
      case OfFrame(a) =>
      case OfHandler(c, a) => HandlerKeepsLayout(y, c, a);
    }
  }

  lemma EventKeepsRegions(y: System, a: EventAct)
    requires Formed(y) && EventStep(y, a).s.epoch == y.s.epoch
    ensures KeepsRegions(y.s, EventStep(y, a).s)
  {
    LayoutSelf(y.s);
    hide Sound, BeginState, Own, KeepsRegions;
    if a.BeginAcquire? {
      if y.event == Starting { BeginKeepsCopies(y.s, a.memory, a.connected); }
    } else {
      StatusKeepsCopies(y.s);
    }
  }

  /** Through any stretch of a run without an allocation attempt, whatever is written, started or
      stopped: the buffer, the TOF range in use and all published regions stay as they were. */
  lemma {:induction false} RegionsMoveOnlyByAllocation(y: System, ls: seq<Label>)
    requires Formed(y) && Fresh(y)
    ensures Run(y, ls).s.epoch >= y.s.epoch
    ensures Run(y, ls).s.epoch == y.s.epoch ==> KeepsRegions(y.s, Run(y, ls).s)
    decreases |ls|
  {
    if ls == [] {
      LayoutSelf(y.s);
    } else {
      var n := |ls| - 1;
      var x := Run(y, ls[..n]);
      RegionsMoveOnlyByAllocation(y, ls[..n]);
      StepGrows(x, ls[n]);
      hide Step, Formed, Fresh, Sound;
      if Run(y, ls).s.epoch == y.s.epoch { StepKeepsRegions(x, ls[n]); }
    }
  }

  // ---------- starts ----------

  /** Acquisitions begun, or owed to a start event signalled or taken. */
  function Started(y: System): nat {
    y.acquisitions + (if y.startEvent then 1 else 0) + (if y.event == Starting then 1 else 0)
  }

  function AcceptedStarts(y: System, ls: seq<Label>): nat
    requires Formed(y) && Fresh(y)
    decreases |ls|
  {
    if ls == [] then 0
    else
      var n := |ls| - 1;
      AcceptedStarts(y, ls[..n]) + if ls[n].Client? && StartAccepted(Run(y, ls[..n]).s, ls[n].write) then 1 else 0
  }

  lemma StepStarts(y: System, l: Label)
    requires Formed(y)
    ensures Started(Step(y, l)) <= Started(y) + if l.Client? && StartAccepted(y.s, l.write) then 1 else 0
  {
    hide Sound, ClientWrite, EventStep, HandlerStep, StartAccepted, StopAccepted;
    match l {
      case Client(w) =>
      case OfEvent(a) => EventStarts(y, a);
      case OfFrame(a) =>
      case OfHandler(c, a) =>
        HandlerKeepsThreads(y, c, a);
        HandlerKeepsStart(y, c, a);
    }
  }

  lemma EventStarts(y: System, a: EventAct)
    requires Formed(y)
    ensures Started(EventStep(y, a)) <= Started(y)
  {
    hide Sound, BeginState, Own, Allocate;
  }

  lemma HandlerKeepsStart(y: System, c: nat, a: HandlerAct)
    requires Formed(y)
    ensures HandlerStep(y, c, a).startEvent == y.startEvent
  {
    hide Sound, Snapshot, StampSection, Integrate;
  }

  /** No acquisition begins without its own accepted Start. */
  lemma {:induction false} AcquisitionsAreAsked(y: System, ls: seq<Label>)
    requires Formed(y) && Fresh(y)
    ensures Started(Run(y, ls)) <= Started(y) + AcceptedStarts(y, ls)
    decreases |ls|
  {
    if ls != [] {
      var n := |ls| - 1;
      hide Step, Formed, Fresh, Started, StartAccepted;
      AcquisitionsAreAsked(y, ls[..n]);
      StepStarts(Run(y, ls[..n]), ls[n]);
    }
  }
}
