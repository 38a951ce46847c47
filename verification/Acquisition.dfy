/**
 The acquisition protocol: a client writing parameters, the event thread, the frame thread and one
 packet handler per channel, over binary semaphores and one lock. Each lock..unlock section is one
 step, taken whole; a run is any sequence of steps.
 */
module Acquisition {
  import opened Base
  import opened Events
  import opened Histogram
  import opened Driver
  import opened Soundness

  /** Where the event thread is. */
  datatype EventPc =
    | Draining    // timed wait on the stop event before the next start
    | Marking     // about to publish "not acquiring"
    | Waiting     // waiting for the start event
    | Starting    // got it, about to take the lock
    | Acquiring   // in the acquire loop
    | Stopping    // consumed a stop event, about to take the lock
    | Unwinding   // start failed, about to stop the monitors

  /** Where the frame thread is; its timed waits are outside the lock. */
  datatype FramePc =
    | FrameDraining  // timed wait on the stop event before the next start
    | FrameWaiting   // waiting for the start event
    | FrameRunning   // timed wait on the stop event between frames
    | FrameTimedOut  // the wait timed out, about to take the lock and copy a frame

  /** A handler call in progress: parameters copied, then accepted by the timestamp section, then past
      the tests for a complete packet and a buffer, about to take the lock and integrate. `epoch`
      records how many allocations had been attempted when its parameters were copied. */
  datatype Job =
    | NoJob
    | Copied(packet: Packet, paused: bool, dets: nat, epoch: nat)
    | Stamped(packet: Packet, paused: bool, dets: nat, epoch: nat, newPulse: bool)
    | Checked(packet: Packet, paused: bool, dets: nat, epoch: nat, newPulse: bool)

  /** `acquisitions` counts the acquisitions begun and `stopFor` is the one during which the last
      Stop was accepted; both are history. */
  datatype System = System(
    s: State, event: EventPc, frame: FramePc,
    startEvent: bool, stopEvent: bool, startFrame: bool, stopFrame: bool,
    jobs: seq<Job>,
    monitors: set<nat>, running: set<nat>, channelsInUse: nat,
    lastFrame: Option<seq<nat>>,
    acquisitions: nat, stopFor: nat)

  /** Client writes; those for one detector carry its address. */
  datatype DetWrite =
    | SetDet(param: Param, value: Int32)
    | SetTransform(transform: Transform) | SetScale(scale: real) | SetOffset(offset: real)
    | LoadMapFile(file: File, memory: bool)
    | TofReset

  datatype Write =
    | Reset | Start(value: Int32) | Stop(value: Int32) | Pause(value: Int32)
    | SetNumDet(value: Int32) | SetNumChannels(value: Int32) | SetTofMax(value: Int32)
    | AllocSpace(memory: bool)
    | OnDet(addr: nat, write: DetWrite)

  /** Steps of the event thread. `memory`, `created` and `connected` are what calloc and PVAccess give. */
  datatype EventAct =
    | DrainStop | MarkIdle | TakeStart
    | BeginAcquire(memory: bool, created: set<nat>, connected: bool)
    | SeeStop | EndAcquire | Unwind

  datatype FrameAct = DrainFrame | TakeFrame | SeeStopFrame | TimeOut | CopyFrame

  datatype HandlerAct = Deliver(packet: Packet) | StampPacket | CheckPacket | IntegratePacket

  datatype Label =
    | Client(write: Write) | OfEvent(event: EventAct) | OfFrame(frame: FrameAct)
    | OfHandler(channel: nat, handler: HandlerAct)

  predicate JobFormed(s: State, j: Job) {
    && (j != NoJob ==> j.dets <= MaxDets(s) && j.epoch <= s.epoch)
    && (j.Checked? ==> Complete(j.packet))
  }

  predicate Formed(y: System) {
    && Sound(y.s)
    && |y.jobs| == |y.s.channels|
    && forall c :: 0 <= c < |y.jobs| ==> JobFormed(y.s, y.jobs[c])
  }

  // ---------- client ----------

  function WriteOnDet(s: State, a: nat, w: DetWrite): State
    requires Sound(s) && a < |s.dets|
  {
    var det := s.dets[a];
    match w
    case SetDet(p, v) => WriteDet(s, a, p, v).0
    case SetTransform(f) => s.(dets := s.dets[a := det.(transform := f)])
    case SetScale(x) => s.(dets := s.dets[a := det.(cfg := det.cfg.(transScale := x))])
    case SetOffset(x) => s.(dets := s.dets[a := det.(cfg := det.cfg.(transOffset := x))])
    case LoadMapFile(f, memory) => WriteMapFile(s, a, f, memory).0
    case TofReset => ResetTof(s, a)
  }

  /** A Start is accepted when not acquiring, a Stop when acquiring. */
  predicate StartAccepted(s: State, w: Write) {
    w.Start? && w.value != 0 && (s.status == Idle || s.status == Error || s.status == Aborted)
  }

  predicate StopAccepted(s: State, w: Write) {
    w.Stop? && w.value != 0 && s.status == Acquire
  }

  /** What a client write does to the driver. */
  function ClientWrite(s: State, w: Write): State
    requires Sound(s)
  {
    match w
    case Reset => Clear(s)
    case Start(_) => if StartAccepted(s, w) then Clear(s).(paused := 0) else s
    case Stop(_) => if StopAccepted(s, w) then s.(paused := 0) else s
    case Pause(v) => s.(paused := v)
    case SetNumDet(v) => WriteNumDet(s, v).0
    case SetNumChannels(v) => WriteNumChannels(s, v).0
    case SetTofMax(v) => WriteTofMax(s, v).0
    case AllocSpace(memory) => WriteAllocSpace(s, memory).0
    case OnDet(a, dw) => if a < |s.dets| then WriteOnDet(s, a, dw) else s
  }

  function ClientStep(y: System, w: Write): System
    requires Formed(y)
  {
    y.(s := ClientWrite(y.s, w),
       startEvent := y.startEvent || StartAccepted(y.s, w),
       stopEvent := y.stopEvent || StopAccepted(y.s, w),
       stopFor := if StopAccepted(y.s, w) then y.acquisitions else y.stopFor)
  }

  // ---------- event thread ----------

  /** The monitors the event thread starts and stops: those it has, below its channel count. */
  function Own(monitors: set<nat>, n: nat): set<nat> {
    set c | c in monitors && c < n
  }

  /** The driver after the locked section that follows a start event. */
  function BeginState(s: State, memory: bool, connected: bool): State
    requires Sound(s)
  {
    var (t, ok) := Allocate(s, memory);
    if !ok then t.(status := Error) else Wipe(t).(status := if connected then Acquire else Error)
  }

  function Begin(y: System, memory: bool, created: set<nat>, connected: bool): System
    requires Formed(y)
  {
    var n := Max(y.s.numChannels, 0);
    var ok := Allocate(y.s, memory).1;
    var monitors := if ok then y.monitors + Own(created, n) else y.monitors;
    var z := y.(s := BeginState(y.s, memory, connected), channelsInUse := n, monitors := monitors,
                startFrame := y.startFrame || ok, stopFrame := y.stopFrame || (ok && !connected));
    if ok && connected
    then z.(running := y.running + Own(monitors, n), event := Acquiring, acquisitions := y.acquisitions + 1)
    else z.(event := Unwinding)
  }

  function EventStep(y: System, a: EventAct): System
    requires Formed(y)
  {
    match a
    case DrainStop => if y.event == Draining then y.(stopEvent := false, event := Marking) else y
    case MarkIdle => if y.event == Marking then y.(event := Waiting) else y
    case TakeStart => if y.event == Waiting && y.startEvent then y.(startEvent := false, event := Starting) else y
    case BeginAcquire(memory, created, connected) =>
      if y.event == Starting then Begin(y, memory, created, connected) else y
    case SeeStop => if y.event == Acquiring && y.stopEvent then y.(stopEvent := false, event := Stopping) else y
    case EndAcquire =>
      if y.event == Stopping
      then y.(s := y.s.(status := Idle), stopFrame := true, running := y.running - Own(y.monitors, y.channelsInUse),
          event := Draining)
      else y
    case Unwind =>
      if y.event == Unwinding then y.(running := y.running - Own(y.monitors, y.channelsInUse), event := Draining) else y
  }

  // ---------- frame thread ----------

  function FrameStep(y: System, a: FrameAct): System {
    match a
    case DrainFrame => if y.frame == FrameDraining then y.(stopFrame := false, frame := FrameWaiting) else y
    case TakeFrame => if y.frame == FrameWaiting && y.startFrame then y.(startFrame := false, frame := FrameRunning)
        else y
    case SeeStopFrame => if y.frame == FrameRunning
        && y.stopFrame then y.(stopFrame := false, frame := FrameDraining) else y
    case TimeOut => if y.frame == FrameRunning && !y.stopFrame then y.(frame := FrameTimedOut) else y
    case CopyFrame => if y.frame == FrameTimedOut then y.(lastFrame := y.s.data, frame := FrameRunning) else y
  }

  // ---------- packet handlers ----------

  /** The parameter copy made when a packet is delivered. */
  function DeliverStep(y: System, c: nat, p: Packet): System
    requires Formed(y) && c < |y.jobs|
  {
    var (t, n) := Snapshot(y.s);
    y.(s := t, jobs := if n.None? then y.jobs else y.jobs[c := Copied(p, y.s.paused != 0, n.value, y.s.epoch)])
  }

  function StampStep(y: System, c: nat): System
    requires Formed(y) && c < |y.jobs| && y.jobs[c].Copied?
  {
    var j := y.jobs[c];
    var (t, accepted, newPulse) := StampSection(y.s, c, j.packet.stamp);
    y.(s := t, jobs := y.jobs[c := if accepted then Stamped(j.packet, j.paused, j.dets, j.epoch, newPulse) else NoJob])
  }

  function CheckStep(y: System, c: nat): System
    requires Formed(y) && c < |y.jobs| && y.jobs[c].Stamped?
  {
    var j := y.jobs[c];
    y.(jobs := y.jobs[c := if Integrable(y.s, j.packet) then Checked(j.packet, j.paused, j.dets, j.epoch, j.newPulse)
        else NoJob])
  }

  /** The packet of a job is really added to the buffer. */
  predicate Integrates(s: State, j: Job) {
    j.Checked? && Complete(j.packet) && !j.paused && s.data.Some?
  }

  function IntegrateStep(y: System, c: nat): System
    requires Formed(y) && c < |y.jobs| && y.jobs[c].Checked?
  {
    var j := y.jobs[c];
    y.(s := if Integrates(y.s, j) then Integrate(y.s, j.dets, j.packet, j.newPulse) else y.s,
       jobs := y.jobs[c := NoJob])
  }

  function HandlerStep(y: System, c: nat, a: HandlerAct): System
    requires Formed(y)
  {
    if c >= |y.jobs| then y
    else match a
    case Deliver(p) => if y.jobs[c] == NoJob then DeliverStep(y, c, p) else y
    case StampPacket => if y.jobs[c].Copied? then StampStep(y, c) else y
    case CheckPacket => if y.jobs[c].Stamped? then CheckStep(y, c) else y
    case IntegratePacket => if y.jobs[c].Checked? then IntegrateStep(y, c) else y
  }

  /** One step; a step that is not enabled changes nothing. */
  function Step(y: System, l: Label): System
    requires Formed(y)
  {
    match l
    case Client(w) => ClientStep(y, w)
    case OfEvent(a) => EventStep(y, a)
    case OfFrame(a) => FrameStep(y, a)
    case OfHandler(c, a) => HandlerStep(y, c, a)
  }

  // ---------- steps the source defines ----------

  /** The integration of a job finds a buffer, and the loop does nothing undefined in it. */
  predicate JobSafe(s: State, j: Job)
    requires Shaped(s) && JobFormed(s, j)
  {
    j.Checked? && !j.paused ==>
      s.data.Some? && LoopSafe(Tally(s.data.value, 0), Views(s, j.dets), EventsOf(j.packet))
  }

  /** The cells a TOF reset clears are in the buffer. */
  predicate ResetInside(s: State, a: nat)
    requires a < |s.dets|
  {
    s.tofMax > 0 && s.data.Some? && s.dets[a].region.tofStart > 0 ==>
        s.dets[a].region.tofStart + s.tofMax < |s.data.value|
  }

  /** What the step reads and writes exists; after a step that is not defined nothing is claimed of
      the source. */
  predicate StepDefined(y: System, l: Label)
    requires Formed(y)
  {
    match l
    case OfHandler(c, a) => a.IntegratePacket? && c < |y.jobs| ==> JobSafe(y.s, y.jobs[c])
    case Client(w) => w.OnDet? && w.addr < |y.s.dets| && w.write.TofReset? ==> ResetInside(y.s, w.addr)
    case OfFrame(a) => a.CopyFrame? && y.frame == FrameTimedOut ==> y.s.data.Some?
    case OfEvent(_) => true
  }

  // ---------- every step keeps the driver invariant ----------

  lemma WriteOnDetGrows(s: State, a: nat, w: DetWrite)
    requires Sound(s) && a < |s.dets|
    ensures Grows(s, WriteOnDet(s, a, w))
  {
    hide Sound, Grows, WriteDet, WriteMapFile, ResetTof;
    match w {
      case SetDet(p, v) => WriteDetSound(s, a, p, v);
      case SetTransform(f) => WithDetSound(s, a, s.dets[a].(transform := f));
      case SetScale(x) => WithDetSound(s, a, s.dets[a].(cfg := s.dets[a].cfg.(transScale := x)));
      case SetOffset(x) => WithDetSound(s, a, s.dets[a].(cfg := s.dets[a].cfg.(transOffset := x)));
      case LoadMapFile(f, memory) => WriteMapFileSound(s, a, f, memory);
      case TofReset => ResetTofSound(s, a);
    }
  }

  lemma ClientWriteGrows(s: State, w: Write)
    requires Sound(s)
    ensures Grows(s, ClientWrite(s, w))
  {
    assert Grows(s, s);
    hide Sound, Grows, Clear, WriteNumDet, WriteNumChannels, WriteTofMax, WriteAllocSpace, WriteOnDet;
    match w {
      case Reset => ClearSound(s);
      case Start(_) => StartGrows(s);
      case Stop(_) => WriteCountsSound(s, 0);
      case Pause(v) => WriteCountsSound(s, v);
      case SetNumDet(v) => WriteCountsSound(s, v);
      case SetNumChannels(v) => WriteCountsSound(s, v);
      case SetTofMax(v) => WriteTofMaxSound(s, v);
      case AllocSpace(memory) => WriteAllocSpaceSound(s, memory);
      case OnDet(a, dw) => if a < |s.dets| { WriteOnDetGrows(s, a, dw); }
    }
  }

  lemma StartGrows(s: State)
    requires Sound(s)
    ensures Grows(s, Clear(s).(paused := 0))
  {
    ClearSound(s);
    WriteCountsSound(Clear(s), 0);
    hide Sound, Clear;
  }

  lemma BeginGrows(s: State, memory: bool, connected: bool)
    requires Sound(s)
    ensures Grows(s, BeginState(s, memory, connected))
  {
    var t := Allocate(s, memory).0;
    AllocateSound(s, memory);
    hide Sound, Allocate, Wipe;
    WipeSound(t);
    WithStatusSound(t, Error);
    WithStatusSound(Wipe(t), Error);
    WithStatusSound(Wipe(t), Acquire);
  }

  lemma HandlerGrows(y: System, c: nat, a: HandlerAct)
    requires Formed(y)
    ensures Grows(y.s, HandlerStep(y, c, a).s)
  {
    assert Grows(y.s, y.s);
    hide Sound, Grows, Snapshot, StampSection, Integrate;
    if c < |y.jobs| {
      match a {
        case Deliver(_) => SnapshotSound(y.s);
        case StampPacket => if y.jobs[c].Copied? { StampSound(y.s, c, y.jobs[c].packet.stamp); }
        case CheckPacket =>
        case IntegratePacket =>
          if Integrates(y.s, y.jobs[c]) {
            IntegrateSound(y.s, y.jobs[c].dets, y.jobs[c].packet, y.jobs[c].newPulse);
          }
      }
    }
  }

  lemma EventGrows(y: System, a: EventAct)
    requires Formed(y)
    ensures Grows(y.s, EventStep(y, a).s)
  {
    assert Grows(y.s, y.s);
    hide Sound, Grows, BeginState;
    if a.BeginAcquire? {
      BeginGrows(y.s, a.memory, a.connected);
    } else {
      WithStatusSound(y.s, Idle);
    }
  }

  /** Every step keeps the driver invariant, in particular the tiling of the buffer. */
  lemma StepGrows(y: System, l: Label)
    requires Formed(y)
    ensures Grows(y.s, Step(y, l).s)
  {
    assert Grows(y.s, y.s);
    hide Sound, Grows, Formed, ClientWrite, HandlerStep, EventStep;
    match l {
      case Client(w) => ClientWriteGrows(y.s, w);
      case OfEvent(a) => EventGrows(y, a);
      case OfFrame(a) =>
      case OfHandler(c, a) => HandlerGrows(y, c, a);
    }
  }
}
