/**
 One acquisition from Start to Stop: what an accepted command leads to when the event thread gets to run, and what
 a refused one leaves.
 */
module Cycles {
  import opened Base
  import opened Histogram
  import opened Stream
  import opened Driver
  import opened Soundness
  import opened Acquisition
  import opened Runs

  // ---------- refused commands ----------

  /** A Start while acquiring, a Stop while not, and commands with value 0 change nothing at all. */
  lemma RefusedCommands(y: System, v: Int32)
    requires Formed(y)
    ensures v == 0 || y.s.status == Acquire ==> Step(y, Client(Start(v))) == y
    ensures v == 0 || y.s.status != Acquire ==> Step(y, Client(Stop(v))) == y
  {
    hide Sound, JobFormed, Clear;
  }

  /** An accepted Start clears, ends the pause and signals the event thread; an accepted Stop ends the pause and
      signals it. */
  lemma AcceptedCommands(y: System, v: Int32)
    requires Formed(y) && v != 0
    ensures y.s.status != Acquire ==> Step(y, Client(Start(v))) == y.(s := Clear(y.s).(paused := 0), startEvent := true)
    ensures y.s.status == Acquire ==>
              Step(y, Client(Stop(v))) == y.(s := y.s.(paused := 0), stopEvent := true, stopFor := y.acquisitions)
  {
    hide Sound, JobFormed, Clear;
  }

  // ---------- start ----------

  function StartUp(v: Int32, memory: bool, created: set<nat>, connected: bool): seq<Label> {
    [Client(Start(v))] + [OfEvent(TakeStart)] + [OfEvent(BeginAcquire(memory, created, connected))]
  }

  /** The acquisition runs: status and event thread say so, exactly the monitors there are below the channel count are
      running, the frame thread has its start, nothing is paused, and buffer, totals and counters are zero. */
  ghost predicate Running(y: System, z: System, created: set<nat>) {
    && z.s.status == Acquire && z.event == Acquiring && z.acquisitions == y.acquisitions + 1
    && (forall c: nat :: c in z.running <==> (c in y.monitors || c in created) && c < y.s.numChannels)
    && z.startFrame && z.s.paused == 0 && z.s.pulses == 0 && z.s.charge == 0.0
    && (forall c :: 0 <= c < |z.s.channels| ==> z.s.channels[c] == Cleared)
    && (forall d :: 0 <= d < |z.s.totals| ==> z.s.totals[d] == 0)
    && z.s.data.Some? && (forall i :: 0 <= i < |z.s.data.value| ==> z.s.data.value[i] == 0)
  }

  /** Nothing runs: the status is Error and the event thread is about to go back to waiting. */
  predicate Failed(y: System, z: System) {
    z.s.status == Error && z.event == Unwinding && z.acquisitions == y.acquisitions && z.running == {}
  }

  /** A Start that finds the event thread waiting leads to a running acquisition if and only if the allocation that
      is due, if any, succeeds and the channels connect; otherwise to an error with nothing running. */
  lemma StartLeadsToAcquisition(y: System, v: Int32, memory: bool, created: set<nat>, connected: bool)
    requires Formed(y) && Fresh(y) && Protocol(y) && y.event == Waiting && v != 0
    ensures Sound(Clear(y.s))
    ensures var z := Run(y, StartUp(v, memory, created, connected));
            if Allocate(y.s, memory).1 && connected then Running(y, z, created) else Failed(y, z)
  {
    var a := [Client(Start(v))];
    var b := a + [OfEvent(TakeStart)];
    ClearSound(y.s);
    StartGrows(y.s);
    assert [] + a == a;
    RunStep(y, [], Client(Start(v)));
    RunStep(y, a, OfEvent(TakeStart));
    RunStep(y, b, OfEvent(BeginAcquire(memory, created, connected)));
    assert Run(y, []) == y && y.s.status != Acquire && y.running == {};
    hide Run, Fresh, Formed, Step, Sound, Clear, Allocate, Protocol;
    AcceptedCommands(y, v);
    TakesStart(Run(y, a));
    SameOutcome(y.s, memory);
    Begun(Run(y, b), y, memory, created, connected);
  }

  lemma TakesStart(y: System)
    requires Formed(y) && y.event == Waiting && y.startEvent
    ensures Step(y, OfEvent(TakeStart)) == y.(startEvent := false, event := Starting)
  {
    hide Sound, JobFormed, Begin;
  }

  /** Clearing does not change how an allocation ends. */
  lemma SameOutcome(s: State, memory: bool)
    requires Sound(s) && Sound(Clear(s).(paused := 0))
    ensures Allocate(Clear(s).(paused := 0), memory).1 == Allocate(s, memory).1
  {
    hide InForce, UpToDate, MapSound, Allocate;
    OutcomeDependsOn(s, Clear(s).(paused := 0), memory);
  }

  lemma OutcomeDependsOn(s: State, t: State, memory: bool)
    requires Shaped(s) && Shaped(t) && t.dets == s.dets && t.numDet == s.numDet
    requires t.dataAlloc == s.dataAlloc && t.tofMaxParam == s.tofMaxParam
    ensures Allocate(t, memory).1 == Allocate(s, memory).1
  {
    hide FirstBad, Sizes, PlacePixels, PlaceTofs;
  }

  lemma Begun(z: System, y: System, memory: bool, created: set<nat>, connected: bool)
    requires Formed(z) && Sound(y.s) && z.event == Starting && z.running == {} && y.running == {}
    requires z.s == Clear(y.s).(paused := 0) && z.monitors == y.monitors && z.acquisitions == y.acquisitions
    ensures var u := Step(z, OfEvent(BeginAcquire(memory, created, connected)));
            if Allocate(z.s, memory).1 && connected then Running(y, u, created) else Failed(y, u)
  {
    hide JobFormed, Sound, BeginState, Allocate, Clear, Step;
    BeginsClear(z.s, y.s, memory, connected);
    BeginThreads(z, memory, created, connected);
  }

  lemma BeginThreads(z: System, memory: bool, created: set<nat>, connected: bool)
    requires Formed(z) && z.event == Starting && z.running == {}
    ensures var u := Step(z, OfEvent(BeginAcquire(memory, created, connected)));
            var ok := Allocate(z.s, memory).1 && connected;
            && u.s == BeginState(z.s, memory, connected)
            && u.event == (if ok then Acquiring else Unwinding)
            && u.acquisitions == (if ok then z.acquisitions + 1 else z.acquisitions)
            && (ok ==> u.startFrame
                       && forall c: nat :: c in u.running <==> (c in z.monitors || c in created) && c < z.s.numChannels)
            && (!ok ==> u.running == {})
  {
    hide Sound, JobFormed, BeginState, Allocate;
  }

  lemma BeginsClear(s: State, was: State, memory: bool, connected: bool)
    requires Sound(s) && s == Clear(was).(paused := 0)
    ensures s.numChannels == was.numChannels
    ensures var t, ok := BeginState(s, memory, connected), Allocate(s, memory).1;
            && t.status == (if ok && connected then Acquire else Error)
            && t.paused == 0 && t.pulses == 0 && t.charge == 0.0
            && (forall c :: 0 <= c < |t.channels| ==> t.channels[c] == Cleared)
            && (forall d :: 0 <= d < |t.totals| ==> t.totals[d] == 0)
            && (ok ==> t.data.Some? && forall i :: 0 <= i < |t.data.value| ==> t.data.value[i] == 0)
  {
    BeginStatus(s, memory, connected);
    AllocateSound(s, memory);
    AllocateKeepsCounters(s, memory);
    hide Allocate, UpToDate, MapSound;
  }

  lemma AllocateKeepsCounters(s: State, memory: bool)
    requires Shaped(s)
    ensures var t := Allocate(s, memory).0;
            && t.paused == s.paused && t.pulses == s.pulses && t.charge == s.charge && t.channels == s.channels
            && t.totals == s.totals
  {
    hide Publish, Allocatable;
    PublishKeepsCounters(Attempt(s), Max(s.numDet, 0));
  }

  lemma PublishKeepsCounters(s: State, n: nat)
    requires n < |s.dets|
    ensures var t := Publish(s, n).0; t == s.(dataMaxSize := t.dataMaxSize, dets := t.dets)
  {
    hide FirstBad, Sizes, PlacePixels, PlaceTofs;
  }

  // ---------- stop ----------

  function ShutDown(v: Int32): seq<Label> {
    [Client(Stop(v))] + [OfEvent(SeeStop)] + [OfEvent(EndAcquire)] + [OfEvent(DrainStop)] + [OfEvent(MarkIdle)]
  }

  /** A Stop leads back to waiting: the status is Idle, no monitor runs, the frame thread has its stop, no stop is
      left over for a later acquisition, and everything counted is still there. */
  lemma StopLeadsToIdle(y: System, v: Int32)
    requires Formed(y) && Fresh(y) && Protocol(y) && y.event == Acquiring && v != 0
    ensures var z := Run(y, ShutDown(v));
            && z.s == y.s.(paused := 0, status := Idle) && z.event == Waiting && z.running == {}
            && z.stopFrame && !z.stopEvent && z.acquisitions == y.acquisitions && z.jobs == y.jobs
  {
    var a := [Client(Stop(v))];
    var b := a + [OfEvent(SeeStop)];
    var c := b + [OfEvent(EndAcquire)];
    var d := c + [OfEvent(DrainStop)];
    assert [] + a == a;
    RunStep(y, [], Client(Stop(v)));
    RunStep(y, a, OfEvent(SeeStop));
    RunStep(y, b, OfEvent(EndAcquire));
    RunStep(y, c, OfEvent(DrainStop));
    RunStep(y, d, OfEvent(MarkIdle));
    assert Run(y, []) == y && y.s.status == Acquire && y.running == Own(y.monitors, y.channelsInUse);
    hide Run, Fresh, Formed, Step, Protocol, Own;
    AcceptedCommands(y, v);
    Ends(Run(y, a));
    GoesBack(Run(y, c));
  }

  lemma Ends(y: System)
    requires Formed(y) && y.event == Acquiring && y.stopEvent && y.running == Own(y.monitors, y.channelsInUse)
    ensures var z := Step(y, OfEvent(SeeStop));
            Formed(z) && Step(z, OfEvent(EndAcquire))
            == y.(s := y.s.(status := Idle), stopEvent := false, stopFrame := true, event := Draining, running := {})
  {
    assert y.running - Own(y.monitors, y.channelsInUse) == {};
    hide Sound, JobFormed, Begin, Own;
  }

  lemma GoesBack(y: System)
    requires Formed(y) && y.event == Draining
    ensures var z := Step(y, OfEvent(DrainStop));
            Formed(z) && Step(z, OfEvent(MarkIdle)) == y.(stopEvent := false, event := Waiting)
  {
    hide Sound, JobFormed, Begin;
  }

  /** After a failed start the event thread stops what monitors it has and waits again; the status stays Error. */
  lemma FailedStartLeadsBack(y: System)
    requires Formed(y) && Fresh(y) && Protocol(y) && y.event == Unwinding
    ensures var z := Run(y, [OfEvent(Unwind)] + [OfEvent(DrainStop)] + [OfEvent(MarkIdle)]);
            z == y.(stopEvent := false, event := Waiting) && z.running == {}
  {
    assert y.running == {};
    hide Run, Fresh, Formed, Step, Protocol;
    RunThree(y, OfEvent(Unwind), OfEvent(DrainStop), OfEvent(MarkIdle));
    Unwinds(y);
    GoesBack(Step(y, OfEvent(Unwind)));
  }

  lemma Unwinds(y: System)
    requires Formed(y) && y.event == Unwinding && y.running == {}
    ensures Step(y, OfEvent(Unwind)) == y.(event := Draining)
  {
    assert y.running - Own(y.monitors, y.channelsInUse) == {};
    hide Sound, JobFormed, Begin, Own;
  }
}
