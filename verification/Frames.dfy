/**
 The frame thread: when it can copy a frame although no acquisition runs. Its waits are outside the
 lock, so a stop signal can find it with a wait already timed out, or busy with an earlier acquisition.
 */
module Frames {
  import opened Base
  import opened Events
  import opened Driver
  import opened Soundness
  import opened Acquisition
  import opened Runs
  import Layout

  // ---------- the frame thread on its own ----------

  /** Left alone, the frame thread copies no frame: it has not timed out, it has its stop, and there is
      no start it could still take without one. */
  predicate Quiet(y: System) {
    && y.frame != FrameTimedOut
    && (y.frame == FrameRunning ==> y.stopFrame && !y.startFrame)
    && (y.frame == FrameDraining ==> !y.startFrame)
    && (y.frame == FrameWaiting && y.startFrame ==> y.stopFrame)
  }

  function FrameRun(y: System, fs: seq<FrameAct>): System {
    if fs == [] then y else FrameStep(FrameRun(y, fs[..|fs| - 1]), fs[|fs| - 1])
  }

  /** Some steps of the frame thread alone take it to the copy of a frame. */
  ghost predicate CanCopy(y: System) {
    exists fs: seq<FrameAct> :: FrameRun(y, fs).frame == FrameTimedOut
  }

  lemma {:induction false} QuietStays(y: System, fs: seq<FrameAct>)
    requires Quiet(y)
    ensures Quiet(FrameRun(y, fs))
  {
    if fs != [] { QuietStays(y, fs[..|fs| - 1]); }
  }

  lemma {:induction false} FrameRunConcat(y: System, a: seq<FrameAct>, b: seq<FrameAct>)
    ensures FrameRun(y, a + b) == FrameRun(FrameRun(y, a), b)
  {
    hide FrameStep;
    if b == [] {
      assert a + b == a;
    } else {
      FrameRunConcat(y, a, b[..|b| - 1]);
      assert (a + b)[..|a + b| - 1] == a + b[..|b| - 1];
    }
  }

  lemma CanCopyAfter(y: System, a: FrameAct)
    requires CanCopy(FrameStep(y, a))
    ensures CanCopy(y)
  {
    hide FrameStep;
    var fs :| FrameRun(FrameStep(y, a), fs).frame == FrameTimedOut;
    FrameRunConcat(y, [a], fs);
    assert [a][..0] == [];
    assert FrameRun(y, [a]) == FrameStep(FrameRun(y, []), a);
  }

  lemma TimesOut(y: System)
    requires y.frame == FrameTimedOut
    ensures CanCopy(y)
  {
    assert FrameRun(y, []) == y;
  }

  /** In every state whatsoever, the frame thread alone can get to a copy exactly when it is not quiet. */
  lemma CanCopyIff(y: System)
    ensures CanCopy(y) <==> !Quiet(y)
  {
    hide CanCopy, FrameRun;
    if Quiet(y) {
      NeverCopies(y);
    } else if y.frame == FrameTimedOut {
      TimesOut(y);
    } else {
      var running := y.(frame := FrameRunning, startFrame := false, stopFrame := false);
      assert FrameStep(running, TimeOut).frame == FrameTimedOut;
      TimesOut(FrameStep(running, TimeOut));
      CanCopyAfter(running, TimeOut);
      if y.frame == FrameRunning && !y.stopFrame {
        TimesOut(FrameStep(y, TimeOut));
        CanCopyAfter(y, TimeOut);
      } else {
        var waiting := y.(frame := FrameWaiting, stopFrame := false);
        assert FrameStep(waiting, TakeFrame) == running;
        CanCopyAfter(waiting, TakeFrame);
        var draining := y.(frame := FrameDraining, stopFrame := false);
        assert FrameStep(draining, DrainFrame) == waiting;
        CanCopyAfter(draining, DrainFrame);
        if y.frame == FrameDraining {
          CanCopyAfter(y, DrainFrame);
        } else if y.frame == FrameRunning {
          CanCopyAfter(y, SeeStopFrame);
        }
      }
    }
  }

  lemma NeverCopies(y: System)
    requires Quiet(y)
    ensures !CanCopy(y)
  {
    forall fs: seq<FrameAct>
      ensures FrameRun(y, fs).frame != FrameTimedOut
    {
      QuietStays(y, fs);
    }
  }

  // ---------- stop signals ----------

  /** The step signals the frame thread to stop: at the end of an acquisition, or when one fails to connect. */
  predicate SignalsStop(y: System, l: Label)
    requires Formed(y)
  {
    l.OfEvent? &&
    match l.event
    case EndAcquire => y.event == Stopping
    case BeginAcquire(memory, _, connected) => y.event == Starting && Allocate(y.s, memory).1 && !connected
    case _ => false
  }

  /** At a stop signal no wait has timed out before the lock, and a start not taken yet finds the frame
      thread waiting for it. A start that fails to connect leaves such a start itself. */
  predicate KeepsUp(y: System, l: Label)
    requires Formed(y)
  {
    SignalsStop(y, l) ==>
      && y.frame != FrameTimedOut
      && (y.startFrame || l.event.BeginAcquire? ==> y.frame == FrameWaiting)
  }

  /** After a stop signal no acquisition runs, and the frame thread can still copy frames if and only if
      the signal did not find it up to date. */
  lemma StopEndsFramesIff(y: System, l: Label)
    requires Formed(y) && SignalsStop(y, l)
    ensures var z := Step(y, l); !InLoop(z) && (CanCopy(z) <==> !KeepsUp(y, l))
  {
    CanCopyIff(Step(y, l));
    hide Formed, CanCopy, Allocate, BeginState, Own;
  }

  // ---------- runs ----------

  predicate FramesAgree(y: System) {
    InLoop(y) || Quiet(y)
  }

  lemma HandlerKeepsSignals(y: System, c: nat, a: HandlerAct)
    requires Formed(y)
    ensures var z := HandlerStep(y, c, a);
            z.event == y.event && z.frame == y.frame && z.startFrame == y.startFrame && z.stopFrame == y.stopFrame
  {
    hide Formed, Snapshot, StampSection, Integrate, Integrates, Integrable;
  }

  lemma EventKeepsFrames(y: System, a: EventAct)
    requires Formed(y) && FramesAgree(y) && KeepsUp(y, OfEvent(a))
    ensures FramesAgree(EventStep(y, a))
  {
    hide Formed, Allocate, BeginState, Own;
  }

  lemma StepKeepsFrames(y: System, l: Label)
    requires Formed(y) && FramesAgree(y) && KeepsUp(y, l)
    ensures FramesAgree(Step(y, l))
  {
    hide Formed, ClientWrite, EventStep, HandlerStep, KeepsUp;
    match l {
      case Client(_) =>
      case OfEvent(a) => EventKeepsFrames(y, a);
      case OfFrame(_) =>
      case OfHandler(c, a) => HandlerKeepsSignals(y, c, a);
    }
  }

  /** Every stop signal of the run finds the frame thread up to date. */
  predicate KeptUp(y: System, ls: seq<Label>)
    requires Formed(y) && Fresh(y)
    decreases |ls|
  {
    ls != [] ==> var n := |ls| - 1; KeptUp(y, ls[..n]) && KeepsUp(Run(y, ls[..n]), ls[n])
  }

  lemma {:induction false} RunKeepsFrames(y: System, ls: seq<Label>)
    requires Formed(y) && Fresh(y) && FramesAgree(y) && KeptUp(y, ls)
    ensures FramesAgree(Run(y, ls))
    decreases |ls|
  {
    hide Formed, Fresh, FramesAgree, KeepsUp, Step;
    if ls != [] {
      var n := |ls| - 1;
      RunKeepsFrames(y, ls[..n]);
      StepKeepsFrames(Run(y, ls[..n]), ls[n]);
    }
  }

  /** In every run whose stop signals find the frame thread up to date, a frame is only ever copied while
      acquiring, from a buffer of exactly the recorded size. */
  lemma FramesOnlyWhileAcquiring(maxDets: nat, maxChannels: nat, transform: Transform, ls: seq<Label>)
    requires 1 <= maxChannels && KeptUp(Init(maxDets, maxChannels, transform), ls)
    ensures var y := Run(Init(maxDets, maxChannels, transform), ls);
            y.frame == FrameTimedOut ==>
              y.s.status == Acquire && y.s.data.Some? && |y.s.data.value| == y.s.bufferMaxSize
  {
    RunKeepsFrames(Init(maxDets, maxChannels, transform), ls);
    StatusLoopAndMonitorsAgree(maxDets, maxChannels, transform, ls);
    hide Run, Init, KeptUp;
  }

  // ---------- what a frame holds ----------

  /** The buffer as the frame thread last copied it. */
  function LastCopied(y: System, ls: seq<Label>): Option<seq<nat>>
    requires Formed(y) && Fresh(y)
    decreases |ls|
  {
    if ls == [] then y.lastFrame
    else
      var n := |ls| - 1;
      var z := Run(y, ls[..n]);
      if ls[n] == OfFrame(CopyFrame) && z.frame == FrameTimedOut then z.s.data else LastCopied(y, ls[..n])
  }

  lemma StepFrame(y: System, l: Label)
    requires Formed(y)
    ensures Step(y, l).lastFrame
         == if l == OfFrame(CopyFrame) && y.frame == FrameTimedOut then y.s.data else y.lastFrame
  {
    hide Sound, JobFormed, ClientWrite, EventStep, HandlerStep;
    match l {
      case Client(w) =>
      case OfEvent(a) => EventFrame(y, a);
      case OfFrame(a) =>
      case OfHandler(c, a) => HandlerFrame(y, c, a);
    }
  }

  lemma EventFrame(y: System, a: EventAct)
    requires Formed(y)
    ensures EventStep(y, a).lastFrame == y.lastFrame
  {
    hide Sound, JobFormed, BeginState, Own, Allocate;
  }

  lemma HandlerFrame(y: System, c: nat, a: HandlerAct)
    requires Formed(y)
    ensures HandlerStep(y, c, a).lastFrame == y.lastFrame
  {
    hide Sound, JobFormed, Snapshot, StampSection, Integrate, Integrable;
  }

  /** In every run the frame last published is the whole buffer as it was when it was copied. */
  lemma {:induction false} FrameIsTheBuffer(y: System, ls: seq<Label>)
    requires Formed(y) && Fresh(y)
    ensures Run(y, ls).lastFrame == LastCopied(y, ls)
    decreases |ls|
  {
    hide Formed, Fresh, Step;
    if ls != [] {
      var n := |ls| - 1;
      FrameIsTheBuffer(y, ls[..n]);
      StepFrame(Run(y, ls[..n]), ls[n]);
    }
  }

  // ---------- runs that do not keep up ----------

  /** One detector of one pixel, started. */
  function StartRun(): seq<Label> {
    [Client(SetNumDet(1))] + [Client(Start(1))] + [OfEvent(DrainStop)] + [OfEvent(MarkIdle)] + [OfEvent(TakeStart)]
  }

  lemma StartRunStarts(maxDets: nat, maxChannels: nat, transform: Transform)
    requires 1 <= maxDets && 1 <= maxChannels
    ensures var y, z := Init(maxDets, maxChannels, transform), Run(Init(maxDets, maxChannels, transform), StartRun());
            z == y.(s := Clear(y.s.(numDet := 1)), event := Starting)
  {
    var y := Init(maxDets, maxChannels, transform);
    var a := [Client(SetNumDet(1))];
    var b := a + [Client(Start(1))];
    var c := b + [OfEvent(DrainStop)];
    var d := c + [OfEvent(MarkIdle)];
    assert [] + [Client(SetNumDet(1))] == a;
    RunStep(y, [], Client(SetNumDet(1)));
    RunStep(y, a, Client(Start(1)));
    RunStep(y, b, OfEvent(DrainStop));
    RunStep(y, c, OfEvent(MarkIdle));
    RunStep(y, d, OfEvent(TakeStart));
    assert Run(y, []) == y;
    hide Run;
  }

  lemma OnePixelAllocates(s: State, memory: bool)
    requires Shaped(s) && s.dataAlloc && s.numDet == 1 && s.tofMaxParam == 0
    requires s.dets[1].cfg.pixelStart == 0 == s.dets[1].cfg.pixelEnd && 0 <= s.dets[1].cfg.pixelSize <= 1
    ensures Allocate(s, memory).1 == memory && (!memory ==> Allocate(s, memory).0.data == None)
    ensures var t := Allocate(s, memory).0;
            && t.status == s.status && t.numDet == 1 && t.tofMaxParam == 0 && |t.dets| == |s.dets|
            && t.dets[1].cfg == s.dets[1].cfg.(pixelSize := 1)
  {
    var sizes := Sizes(s.dets, 1);
    assert FirstBad(s.dets, 1, 1) == 2 && sizes == [1];
    assert Layout.Offset(sizes, 1) == Layout.Offset(sizes, 0) + 1;
    hide FirstBad, Sizes, Layout.Offset;
  }

  /** The acquisition has begun and the frame thread has not moved yet. */
  predicate JustBegun(y: System) {
    && Formed(y) && Fresh(y)
    && y.event == Acquiring && y.s.status == Acquire && y.frame == FrameDraining && y.startFrame && !y.stopFrame
    && !y.stopEvent
    && y.s.numDet == 1 && y.s.tofMaxParam == 0 && 1 <= MaxDets(y.s)
    && y.s.dets[1].cfg.pixelStart == 0 == y.s.dets[1].cfg.pixelEnd && y.s.dets[1].cfg.pixelSize == 1
  }

  function BeginLabel(): Label {
    OfEvent(BeginAcquire(true, {}, true))
  }

  lemma Begins(maxDets: nat, maxChannels: nat, transform: Transform)
    requires 1 <= maxDets && 1 <= maxChannels
    ensures JustBegun(Run(Init(maxDets, maxChannels, transform), StartRun() + [BeginLabel()]))
  {
    var y := Init(maxDets, maxChannels, transform);
    var z := Run(y, StartRun());
    StartRunStarts(maxDets, maxChannels, transform);
    RunStep(y, StartRun(), BeginLabel());
    OnePixelAllocates(z.s, true);
    hide Run, StartRun, Allocate, Fresh, Formed;
  }

  /** The frame thread takes the start, and its wait times out. */
  function FrameTrack(): seq<Label> {
    [OfFrame(DrainFrame)] + [OfFrame(TakeFrame)] + [OfFrame(TimeOut)]
  }

  /** The acquisition is stopped. */
  function StopTrack(): seq<Label> {
    [Client(Stop(1))] + [OfEvent(SeeStop)] + [OfEvent(EndAcquire)]
  }

  /** The wait times out, and only then the acquisition is stopped. */
  function LateCopy(): seq<Label> {
    FrameTrack() + StopTrack()
  }

  /** Then the client asks for a new buffer and there is no memory for it. */
  function LostBuffer(): seq<Label> {
    [Client(SetTofMax(0))] + [Client(AllocSpace(false))]
  }

  /** The acquisition is stopped before the frame thread gets to wait for its start. */
  function DroppedStop(): seq<Label> {
    StopTrack() + FrameTrack()
  }

  lemma FrameTrackRuns(y: System)
    requires Formed(y) && Fresh(y) && y.frame == FrameDraining && y.startFrame
    ensures Run(y, FrameTrack()) == y.(stopFrame := false, startFrame := false, frame := FrameTimedOut)
  {
    var a := [OfFrame(DrainFrame)];
    var b := a + [OfFrame(TakeFrame)];
    assert [] + a == a;
    RunStep(y, [], OfFrame(DrainFrame));
    RunStep(y, a, OfFrame(TakeFrame));
    RunStep(y, b, OfFrame(TimeOut));
    assert Run(y, []) == y;
    hide Run, Formed, Fresh;
  }

  lemma StopStep(y: System)
    requires Formed(y) && y.s.status == Acquire
    ensures Step(y, Client(Stop(1))) == y.(s := y.s.(paused := 0), stopEvent := true, stopFor := y.acquisitions)
  {
    hide Sound, JobFormed;
  }

  lemma EndSteps(y: System)
    requires Formed(y) && y.event == Acquiring && y.stopEvent
    ensures var z := Step(y, OfEvent(SeeStop));
            && z == y.(stopEvent := false, event := Stopping) && Formed(z)
            && Step(z, OfEvent(EndAcquire)) == z.(s := y.s.(status := Idle), stopFrame := true, event := Draining,
                 running := y.running - Own(y.monitors, y.channelsInUse))
  {
    hide Sound, JobFormed, Own;
  }

  lemma StopTrackRuns(y: System)
    requires Formed(y) && Fresh(y) && y.event == Acquiring && y.s.status == Acquire
    ensures var z := Run(y, StopTrack());
            z.frame == y.frame && z.startFrame == y.startFrame && z.s == y.s.(paused := 0, status := Idle)
  {
    var a := [Client(Stop(1))];
    var b := a + [OfEvent(SeeStop)];
    assert [] + a == a;
    RunStep(y, [], Client(Stop(1)));
    RunStep(y, a, OfEvent(SeeStop));
    RunStep(y, b, OfEvent(EndAcquire));
    assert Run(y, []) == y;
    hide Run, Formed, Fresh, Own, Step;
    StopStep(y);
    EndSteps(Run(y, a));
  }

  lemma LateCopyRuns(y: System)
    requires JustBegun(y)
    ensures var z := Run(y, LateCopy()); z.frame == FrameTimedOut && z.s == y.s.(paused := 0, status := Idle)
  {
    hide Run, Formed, Fresh, FrameTrack, StopTrack;
    RunConcat(y, FrameTrack(), StopTrack());
    FrameTrackRuns(y);
    StopTrackRuns(Run(y, FrameTrack()));
  }

  lemma DroppedStopRuns(y: System)
    requires JustBegun(y)
    ensures var z := Run(y, DroppedStop()); z.frame == FrameTimedOut && z.s.status == Idle
  {
    hide Run, Formed, Fresh, FrameTrack, StopTrack;
    RunConcat(y, StopTrack(), FrameTrack());
    StopTrackRuns(y);
    FrameTrackRuns(Run(y, StopTrack()));
  }

  lemma RangeWritten(y: System)
    requires Formed(y) && y.s.status == Idle
    ensures var z := Step(y, Client(SetTofMax(0)));
            z.frame == y.frame && z.s == y.s.(tofMaxParam := 0, dataAlloc := true)
  {
    hide Sound, JobFormed;
  }

  lemma NoMemory(y: System)
    requires Formed(y) && y.s.status == Idle && y.s.dataAlloc && y.s.numDet == 1 && y.s.tofMaxParam == 0
    requires y.s.dets[1].cfg.pixelStart == 0 == y.s.dets[1].cfg.pixelEnd && y.s.dets[1].cfg.pixelSize == 1
    ensures var z := Step(y, Client(AllocSpace(false))); z.frame == y.frame && z.s.status == Error && z.s.data == None
  {
    OnePixelAllocates(y.s, false);
    hide Allocate, InForce, MapSound, JobFormed;
  }

  lemma LostBufferRuns(y: System)
    requires Formed(y) && Fresh(y) && y.s.status == Idle && y.frame == FrameTimedOut
    requires y.s.numDet == 1 && 1 <= MaxDets(y.s)
    requires y.s.dets[1].cfg.pixelStart == 0 == y.s.dets[1].cfg.pixelEnd && y.s.dets[1].cfg.pixelSize == 1
    ensures var z := Run(y, LostBuffer()); z.frame == FrameTimedOut && z.s.status == Error && z.s.data == None
  {
    var a := [Client(SetTofMax(0))];
    assert [] + [Client(SetTofMax(0))] == a;
    RunStep(y, [], Client(SetTofMax(0)));
    RunStep(y, a, Client(AllocSpace(false)));
    assert Run(y, []) == y;
    hide Run, Fresh, Formed, Step;
    RangeWritten(y);
    NoMemory(Run(y, a));
  }

  /** From the constructed driver: runs that end with the frame thread about to copy although the
      acquisition is over, because its wait had timed out or because it dropped the stop; and a run in
      which the buffer it is about to copy from is gone. */
  lemma FramesAfterTheEnd(maxDets: nat, maxChannels: nat, transform: Transform)
    requires 1 <= maxDets && 1 <= maxChannels
    ensures var x, start := Init(maxDets, maxChannels, transform), StartRun() + [BeginLabel()];
            && (var y := Run(x, start + LateCopy()); y.frame == FrameTimedOut && y.s.status == Idle)
            && (var y := Run(x, start + DroppedStop()); y.frame == FrameTimedOut && y.s.status == Idle)
            && (var y := Run(x, start + LateCopy() + LostBuffer());
                y.frame == FrameTimedOut && y.s.data == None && !StepDefined(y, OfFrame(CopyFrame)))
  {
    var x, start := Init(maxDets, maxChannels, transform), StartRun() + [BeginLabel()];
    var y := Run(x, start);
    Begins(maxDets, maxChannels, transform);
    LateCopyRuns(y);
    DroppedStopRuns(y);
    RunConcat(x, start, LateCopy());
    RunConcat(x, start, DroppedStop());
    RunConcat(x, start + LateCopy(), LostBuffer());
    LostBufferRuns(Run(y, LateCopy()));
    hide Run, Init, Fresh, StartRun, BeginLabel, LateCopy, DroppedStop, LostBuffer, Own, Sound;
  }
}
