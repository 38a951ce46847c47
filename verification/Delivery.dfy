/**
 A packet from its delivery to the integration section, whatever the other handlers, the threads and the
 clients do in between: what decides whether it is counted.
 */
module Delivery {
  import opened Base
  import opened Stream
  import opened Driver
  import opened Soundness
  import opened Acquisition
  import opened Runs
  import opened Conservation
  import opened Counts

  // ---------- a job waits for its own handler ----------

  /** No step of the handler of channel c. */
  predicate Elsewhere(ls: seq<Label>, c: nat) {
    forall i :: 0 <= i < |ls| ==> !(ls[i].OfHandler? && ls[i].channel == c)
  }

  lemma StepElsewhere(y: System, l: Label, c: nat)
    requires Formed(y) && c < |y.jobs| && !(l.OfHandler? && l.channel == c)
    ensures c < |Step(y, l).jobs| && Step(y, l).jobs[c] == y.jobs[c]
  {
    if !l.OfHandler? { OthersKeepJobs(y, l); } else { OtherHandler(y, l.channel, l.handler, c); }
    hide Step, Formed;
  }

  lemma OtherHandler(y: System, i: nat, a: HandlerAct, c: nat)
    requires Formed(y) && c < |y.jobs| && i != c
    ensures var z := HandlerStep(y, i, a); c < |z.jobs| && z.jobs[c] == y.jobs[c]
  {
    hide Sound, JobFormed, Snapshot, StampSection, Integrate, Integrable;
  }

  lemma {:induction false} JobWaits(y: System, ls: seq<Label>, c: nat)
    requires Formed(y) && Fresh(y) && c < |y.jobs| && Elsewhere(ls, c)
    ensures c < |Run(y, ls).jobs| && Run(y, ls).jobs[c] == y.jobs[c]
    decreases |ls|
  {
    hide Formed, Fresh, Step;
    if ls != [] {
      var n := |ls| - 1;
      JobWaits(y, ls[..n], c);
      StepElsewhere(Run(y, ls[..n]), ls[n], c);
    }
  }

  // ---------- the timestamp section ----------

  /** The packet starts a pulse: it is the first stamped later than all before it. */
  ghost predicate StartsPulse(ss: seq<Option<Stamp>>, i: nat)
    requires i < |ss|
  {
    InTime(ss, i) && 0 < ss[i].value.time &&
    forall j :: 0 <= j < i && ss[j].Some? ==> ss[j].value.time < ss[i].value.time
  }

  lemma StampDecides(s: State, c: nat, prior: seq<Option<Stamp>>, stamp: Option<Stamp>)
    requires c < |s.channels| && s.channels[c] == Feed(prior)
    ensures var (t, accepted, newPulse) := StampSection(s, c, stamp);
            var ss := prior + [stamp];
            && (accepted <==> InTime(ss, |prior|))
            && (newPulse <==> c == 0 && StartsPulse(ss, |prior|))
  {
    var ss, n := prior + [stamp], |prior|;
    assert ss[..n] == prior;
    KeptIff(ss, n);
    LastTimeIsLatest(prior);
    assert forall j :: 0 <= j < n ==> ss[j] == prior[j];
    if stamp.Some? && Latest(prior) < stamp.value.time {
      forall j | 0 <= j < n && ss[j].Some?
        ensures ss[j].value.time < stamp.value.time
      {
        assert prior[j].value.time <= Latest(prior);
      }
    }
    hide Feed, Latest;
  }

  // ---------- from delivery to integration ----------

  /** The job of channel c in state y is p, copied for n detectors, with the pause it was copied under. */
  predicate Carries(y: System, c: nat, p: Packet, paused: bool, n: nat) {
    c < |y.jobs| && y.jobs[c].Copied? && y.jobs[c].packet == p && y.jobs[c].paused == paused && y.jobs[c].dets == n
  }

  /** A delivered packet is taken up, unless the handler is busy or a detector in use has no ROI width. */
  lemma DeliveryIsTakenUp(y: System, c: nat, p: Packet)
    requires Formed(y) && c < |y.jobs|
    ensures var z := Step(y, OfHandler(c, Deliver(p)));
            && (y.jobs[c] != NoJob ==> z == y)
            && (y.jobs[c] == NoJob && (forall d :: 1 <= d <= y.s.numDet ==> y.s.dets[d].cfg.roiSizeX > 0) ==>
                  Carries(z, c, p, y.s.paused != 0, if y.s.numDet < 0 then 0 else y.s.numDet))
            && (y.jobs[c] == NoJob && (exists d :: 1 <= d <= y.s.numDet && y.s.dets[d].cfg.roiSizeX <= 0) ==>
                  c < |z.jobs| && z.jobs[c] == NoJob)
  {
    hide InForce, UpToDate, MapSound, JobFormed;
  }

  /** What becomes of a job at the timestamp section: the stamps its channel saw since a clear decide. */
  lemma StampedIff(x: System, ls: seq<Label>, c: nat)
    requires Formed(x) && Fresh(x) && c < |x.s.channels| && x.s.channels[c] == Cleared && NoClear(x, ls)
    requires var y := Run(x, ls); c < |y.jobs| && y.jobs[c].Copied?
    ensures var y := Run(x, ls); var j, z := y.jobs[c], Step(y, OfHandler(c, StampPacket));
            var ss := StampsIn(x, ls, c) + [j.packet.stamp];
            c < |z.jobs| &&
            if InTime(ss, |ss| - 1)
            then z.jobs[c] == Stamped(j.packet, j.paused, j.dets, j.epoch, c == 0 && StartsPulse(ss, |ss| - 1))
            else z.jobs[c] == NoJob
  {
    var y := Run(x, ls);
    ChannelFollowsItsStream(x, ls, c);
    CallSteps(y, c, StampPacket);
    hide Run, StampsIn, NoClear, Fresh, Formed, Step, StampSection, InTime, StartsPulse;
    StampDecides(y.s, c, StampsIn(x, ls, c), y.jobs[c].packet.stamp);
  }

  /** The packet has a charge, pixels and TOF values, as many of the one as of the other. */
  predicate Whole(p: Packet) {
    p.charge.Some? && p.pixels.Some? && p.tofs.Some? && |p.pixels.value| == |p.tofs.value|
  }

  /** Past the timestamp section a packet is added to the buffer if and only if it is whole, was not copied
      under a pause, and finds a buffer at the test and at the integration; otherwise it changes nothing. */
  lemma IntegratedIff(y: System, a: seq<Label>, b: seq<Label>, c: nat)
    requires Formed(y) && Fresh(y) && c < |y.jobs| && y.jobs[c].Stamped? && Elsewhere(a, c) && Elsewhere(b, c)
    ensures var tested, checked := Run(y, a).s, Run(y, a + [OfHandler(c, CheckPacket)] + b);
            var z, j := Step(checked, OfHandler(c, IntegratePacket)), y.jobs[c];
            var counts := && Whole(j.packet) && !j.paused && tested.data.Some? && tested.dataMaxSize != 0
                          && checked.s.data.Some?;
            && j.dets <= MaxDets(checked.s) && Shaped(checked.s) && c < |z.jobs| && z.jobs[c] == NoJob
            && z.s == if counts then Integrate(checked.s, j.dets, j.packet, j.newPulse) else checked.s
  {
    var tested, j := Run(y, a), y.jobs[c];
    var mid := Step(tested, OfHandler(c, CheckPacket));
    JobWaits(y, a, c);
    RunStep(y, a, OfHandler(c, CheckPacket));
    RunConcat(y, a + [OfHandler(c, CheckPacket)], b);
    StepKeepsFresh(tested, OfHandler(c, CheckPacket));
    hide Run, Fresh, Formed, Step, Integrate, Elsewhere;
    CallSteps(tested, c, CheckPacket);
    JobWaits(mid, b, c);
    var checked := Run(y, a + [OfHandler(c, CheckPacket)] + b);
    CallSteps(checked, c, IntegratePacket);
    DetsStay(y, a + [OfHandler(c, CheckPacket)] + b, c);
  }

  /** The detector count of a job fits every later state. */
  lemma DetsStay(y: System, ls: seq<Label>, c: nat)
    requires Formed(y) && Fresh(y) && c < |y.jobs| && y.jobs[c] != NoJob
    ensures Shaped(Run(y, ls).s) && y.jobs[c].dets <= MaxDets(Run(y, ls).s)
  {
    RunKeepsDets(y, ls);
    hide Run, InForce, UpToDate, MapSound, Fresh;
  }

  /** Only its own timestamp section adds to the stamps of a channel. */
  lemma {:induction false} StampsElsewhere(x: System, a: seq<Label>, b: seq<Label>, c: nat)
    requires Formed(x) && Fresh(x) && forall i :: 0 <= i < |b| ==> b[i] != OfHandler(c, StampPacket)
    ensures StampsIn(x, a + b, c) == StampsIn(x, a, c)
    decreases |b|
  {
    if b == [] {
      assert a + b == a;
    } else {
      var n := |b| - 1;
      StampsElsewhere(x, a, b[..n], c);
      assert (a + b)[..|a + b| - 1] == a + b[..n] && (a + b)[|a + b| - 1] == b[n];
      hide Run, Formed, Fresh;
    }
  }

  lemma ArrivesCopied(x: System, a: seq<Label>, b: seq<Label>, c: nat, p: Packet)
    requires Formed(x) && Fresh(x) && Elsewhere(b, c)
    requires var y := Run(x, a);
             && c < |y.jobs| && y.jobs[c] == NoJob
             && forall i :: 1 <= i <= y.s.numDet ==> y.s.dets[i].cfg.roiSizeX > 0
    ensures var y := Run(x, a);
            Carries(Run(x, a + [OfHandler(c, Deliver(p))] + b), c, p, y.s.paused != 0,
                    if y.s.numDet < 0 then 0 else y.s.numDet)
  {
    var l := OfHandler(c, Deliver(p));
    DeliveryIsTakenUp(Run(x, a), c, p);
    RunStep(x, a, l);
    RunConcat(x, a + [l], b);
    hide Run, Fresh, Formed, Step;
    JobWaits(Run(x, a + [l]), b, c);
  }

  /** The job of channel c in state y is p past the timestamp section. */
  predicate CarriesOn(y: System, c: nat, p: Packet, paused: bool, n: nat, newPulse: bool) {
    && c < |y.jobs| && y.jobs[c].Stamped? && y.jobs[c].packet == p && y.jobs[c].paused == paused
    && y.jobs[c].dets == n && y.jobs[c].newPulse == newPulse
  }

  lemma ArrivesStamped(x: System, a: seq<Label>, b: seq<Label>, c: nat, p: Packet)
    requires Formed(x) && Fresh(x) && c < |x.s.channels| && x.s.channels[c] == Cleared
    requires Elsewhere(b, c) && NoClear(x, a + [OfHandler(c, Deliver(p))] + b)
    requires var y := Run(x, a);
             && c < |y.jobs| && y.jobs[c] == NoJob
             && forall i :: 1 <= i <= y.s.numDet ==> y.s.dets[i].cfg.roiSizeX > 0
    ensures var y, z := Run(x, a).s, Run(x, a + [OfHandler(c, Deliver(p))] + b + [OfHandler(c, StampPacket)]);
            var ss := StampsIn(x, a, c) + [p.stamp];
            if InTime(ss, |ss| - 1)
            then CarriesOn(z, c, p, y.paused != 0, if y.numDet < 0 then 0 else y.numDet,
                   c == 0 && StartsPulse(ss, |ss| - 1))
            else c < |z.jobs| && z.jobs[c] == NoJob
  {
    hide *;
    var took := a + [OfHandler(c, Deliver(p))] + b;
    ArrivesCopied(x, a, b, c, p);
    SameStamps(x, a, b, c, p);
    StampedCarries(x, took, c, p, Run(x, a).s.paused != 0, if Run(x, a).s.numDet < 0 then 0 else Run(x, a).s.numDet);
    RunStep(x, took, OfHandler(c, StampPacket));
  }

  lemma SameStamps(x: System, a: seq<Label>, b: seq<Label>, c: nat, p: Packet)
    requires Formed(x) && Fresh(x) && Elsewhere(b, c)
    ensures StampsIn(x, a + [OfHandler(c, Deliver(p))] + b, c) == StampsIn(x, a, c)
  {
    var rest := [OfHandler(c, Deliver(p))] + b;
    assert a + rest == a + [OfHandler(c, Deliver(p))] + b;
    hide Run, Fresh, Formed, StampsIn;
    StampsElsewhere(x, a, rest, c);
  }

  lemma StampedCarries(x: System, ls: seq<Label>, c: nat, p: Packet, paused: bool, n: nat)
    requires Formed(x) && Fresh(x) && c < |x.s.channels| && x.s.channels[c] == Cleared && NoClear(x, ls)
    requires Carries(Run(x, ls), c, p, paused, n)
    ensures var z, ss := Step(Run(x, ls), OfHandler(c, StampPacket)), StampsIn(x, ls, c) + [p.stamp];
            if InTime(ss, |ss| - 1)
            then CarriesOn(z, c, p, paused, n, c == 0 && StartsPulse(ss, |ss| - 1))
            else c < |z.jobs| && z.jobs[c] == NoJob
  {
    hide Run, Fresh, Formed, Step, StampsIn, NoClear, InTime, StartsPulse;
    StampedIff(x, ls, c);
  }

  /** In every run, from delivery to integration, with any steps of the other handlers, the threads and the
      clients in between: a packet is added to the buffer if and only if its stamp is in time among those its
      channel saw since the last clear, it is whole, acquisition was not paused when it came, and there is a
      buffer when the handler tests for one and when it integrates. It counts as a pulse if it came on channel 0
      and is the first stamped later than all before it. */
  lemma PacketIsIntegratedIff(x: System, a: seq<Label>, b: seq<Label>, d: seq<Label>, e: seq<Label>, c: nat, p: Packet)
    requires Formed(x) && Fresh(x) && c < |x.s.channels| && x.s.channels[c] == Cleared
    requires NoClear(x, a + [OfHandler(c, Deliver(p))] + b)
    requires Elsewhere(b, c) && Elsewhere(d, c) && Elsewhere(e, c)
    requires var y := Run(x, a);
             && c < |y.jobs| && y.jobs[c] == NoJob
             && forall i :: 1 <= i <= y.s.numDet ==> y.s.dets[i].cfg.roiSizeX > 0
    ensures var came := Run(x, a).s;
            var stamped := Run(x, a + [OfHandler(c, Deliver(p))] + b + [OfHandler(c, StampPacket)]);
            var tested, checked := Run(stamped, d).s, Run(stamped, d + [OfHandler(c, CheckPacket)] + e);
            var z, ss := Step(checked, OfHandler(c, IntegratePacket)), StampsIn(x, a, c) + [p.stamp];
            var counts := && InTime(ss, |ss| - 1) && Whole(p) && came.paused == 0
                          && tested.data.Some? && tested.dataMaxSize != 0 && checked.s.data.Some?;
            Outcome(checked.s, z.s, counts, came.numDet, p, c == 0 && StartsPulse(ss, |ss| - 1))
  {
    hide *;
    ArrivesStamped(x, a, b, c, p);
    var stamped := Run(x, a + [OfHandler(c, Deliver(p))] + b + [OfHandler(c, StampPacket)]);
    var ss := StampsIn(x, a, c) + [p.stamp];
    if InTime(ss, |ss| - 1) {
      StampedOutcome(stamped, d, e, c, p, Run(x, a).s.paused, Run(x, a).s.numDet, c == 0 && StartsPulse(ss, |ss| - 1));
    } else {
      NoJobChangesNothing(stamped, d, e, c);
      NothingHappened(Run(stamped, d + [OfHandler(c, CheckPacket)] + e).s, Run(x, a).s.numDet, p,
        c == 0 && StartsPulse(ss, |ss| - 1));
    }
  }

  /** t is s with the packet integrated for n detectors, or s itself. */
  ghost predicate Outcome(s: State, t: State, counts: bool, n: int, p: Packet, newPulse: bool) {
    var dets := if n < 0 then 0 else n;
    if counts
    then Shaped(s) && dets <= MaxDets(s) && Complete(p) && s.data.Some? && t == Integrate(s, dets, p, newPulse)
    else t == s
  }

  lemma NothingHappened(s: State, n: int, p: Packet, newPulse: bool)
    ensures Outcome(s, s, false, n, p, newPulse)
  {
  }

  lemma StampedOutcome(y: System, a: seq<Label>, b: seq<Label>, c: nat, p: Packet, paused: int, n: int, newPulse: bool)
    requires Formed(y) && Fresh(y) && Elsewhere(a, c) && Elsewhere(b, c)
    requires CarriesOn(y, c, p, paused != 0, if n < 0 then 0 else n, newPulse)
    ensures var tested, checked := Run(y, a).s, Run(y, a + [OfHandler(c, CheckPacket)] + b);
            var counts := && Whole(p) && paused == 0 && tested.data.Some? && tested.dataMaxSize != 0
                          && checked.s.data.Some?;
            Outcome(checked.s, Step(checked, OfHandler(c, IntegratePacket)).s, counts, n, p, newPulse)
  {
    hide Run, Fresh, Formed, Step, Integrate, Elsewhere;
    IntegratedIff(y, a, b, c);
  }

  lemma NoJobChangesNothing(y: System, a: seq<Label>, b: seq<Label>, c: nat)
    requires Formed(y) && Fresh(y) && c < |y.jobs| && y.jobs[c] == NoJob && Elsewhere(a, c) && Elsewhere(b, c)
    ensures var checked := Run(y, a + [OfHandler(c, CheckPacket)] + b);
            Step(checked, OfHandler(c, IntegratePacket)).s == checked.s
  {
    JobWaits(y, a, c);
    RunStep(y, a, OfHandler(c, CheckPacket));
    RunConcat(y, a + [OfHandler(c, CheckPacket)], b);
    hide Run, Fresh, Formed, Step, Elsewhere;
    CallSteps(Run(y, a), c, CheckPacket);
    JobWaits(Run(y, a + [OfHandler(c, CheckPacket)]), b, c);
    CallSteps(Run(y, a + [OfHandler(c, CheckPacket)] + b), c, IntegratePacket);
  }
}
