/** Pulses and charge in every run: what the packets of channel 0 add up to since a clear. */
module Pulses {
  import opened Base
  import opened Stream
  import opened Histogram
  import opened Driver
  import opened Soundness
  import opened Acquisition
  import opened Runs
  import opened Conservation

  function BeamOf(s: State): Beam
    requires 1 <= |s.channels|
  {
    Beam(s.channels[0], s.pulses, s.charge)
  }

  /** The packets of channel 0 after a step: one more when it is stamped, and the last one marked when
      it is integrated. */
  function NextPulses(ps: seq<Pulse>, y: System, l: Label): seq<Pulse>
    requires Formed(y)
  {
    if l == OfHandler(0, StampPacket) && y.jobs[0].Copied? then
      ps + [Pulse(y.jobs[0].packet.stamp, ChargeIn(y.jobs[0].packet), false)]
    else if l == OfHandler(0, IntegratePacket) && Integrates(y.s, y.jobs[0]) && ps != [] then
      ps[..|ps| - 1] + [ps[|ps| - 1].(integrated := true)]
    else ps
  }

  function ChargeIn(p: Packet): real {
    if p.charge.Some? then p.charge.value else 0.0
  }

  function PulsesIn(y: System, ls: seq<Label>): seq<Pulse>
    requires Formed(y) && Fresh(y)
    decreases |ls|
  {
    if ls == [] then []
    else var n := |ls| - 1; NextPulses(PulsesIn(y, ls[..n]), Run(y, ls[..n]), ls[n])
  }

  predicate InFlight(j: Job) {
    j.Stamped? || j.Checked?
  }

  /** The last packet is that of the job in flight on channel 0, accepted and not integrated yet. */
  predicate LastIs(ps: seq<Pulse>, j: Job)
    requires InFlight(j)
  {
    ps != [] &&
    var n := |ps| - 1;
    && ps[n] == Pulse(j.packet.stamp, ChargeIn(j.packet), false)
    && StartsPulse(Account(ps[..n]).channel, j.packet.stamp) == j.newPulse
  }

  /** An accepted packet with a changed timestamp. */
  predicate StartsPulse(ch: Channel, stamp: Option<Stamp>) {
    Receive(ch, stamp).1 == Accepted && ch.lastTime != stamp.value.time
  }

  /** The driver has added up the packets ps. */
  predicate Tracks(y: System, ps: seq<Pulse>)
    requires Formed(y)
  {
    && BeamOf(y.s) == Account(ps)
    && (InFlight(y.jobs[0]) ==> LastIs(ps, y.jobs[0]))
    && forall c :: 1 <= c < |y.jobs| && InFlight(y.jobs[c]) ==> !y.jobs[c].newPulse
  }

  lemma TrackIs(b: Beam, p: Pulse)
    ensures Track(b, p) == Beam(Receive(b.channel, p.stamp).0,
              if StartsPulse(b.channel, p.stamp) && p.integrated then b.pulses + 1 else b.pulses,
              if StartsPulse(b.channel, p.stamp) && p.integrated then b.charge + p.charge else b.charge)
  {
    hide Receive;
  }

  lemma AccountLast(ps: seq<Pulse>)
    requires ps != []
    ensures Account(ps) == Track(Account(ps[..|ps| - 1]), ps[|ps| - 1])
  {
  }

  lemma StampTracks(y: System, c: nat, ps: seq<Pulse>)
    requires Formed(y) && Tracks(y, ps) && c < |y.jobs| && y.jobs[c].Copied? && Formed(StampStep(y, c))
    ensures Tracks(StampStep(y, c), NextPulses(ps, y, OfHandler(c, StampPacket)))
  {
    var z, p := StampStep(y, c), Pulse(y.jobs[c].packet.stamp, ChargeIn(y.jobs[c].packet), false);
    AccountSnoc(ps, p);
    TrackIs(Account(ps), p);
    assert (ps + [p])[..|ps|] == ps;
    hide Account, Track, Receive, Sound, JobFormed, ChargeIn;
  }

  lemma CheckTracks(y: System, c: nat, ps: seq<Pulse>)
    requires Formed(y) && Tracks(y, ps) && c < |y.jobs| && y.jobs[c].Stamped? && Formed(CheckStep(y, c))
    ensures Tracks(CheckStep(y, c), ps)
  {
    hide Account, Integrable, Sound, JobFormed, StartsPulse, ChargeIn;
  }

  lemma IntegratedBeam(s: State, n: nat, p: Packet, newPulse: bool)
    requires Shaped(s) && n <= MaxDets(s) && Complete(p) && s.data.Some?
    ensures BeamOf(Integrate(s, n, p, newPulse))
         == Beam(s.channels[0], if newPulse then s.pulses + 1 else s.pulses,
                 if newPulse then s.charge + p.charge.value else s.charge)
  {
    hide StrikeAll, NewTotals, Views;
  }

  lemma IntegrateTracks(y: System, c: nat, ps: seq<Pulse>)
    requires Formed(y) && Tracks(y, ps) && c < |y.jobs| && y.jobs[c].Checked? && Formed(IntegrateStep(y, c))
    ensures Tracks(IntegrateStep(y, c), NextPulses(ps, y, OfHandler(c, IntegratePacket)))
  {
    var j := y.jobs[c];
    assert Shaped(y.s);
    if Integrates(y.s, j) {
      IntegratedBeam(y.s, j.dets, j.packet, j.newPulse);
      if c == 0 {
        var n := |ps| - 1;
        var p := ps[n].(integrated := true);
        AccountLast(ps);
        AccountSnoc(ps[..n], p);
        TrackIs(Account(ps[..n]), ps[n]);
        TrackIs(Account(ps[..n]), p);
      }
    }
    hide Account, Track, StartsPulse, Receive, Sound, JobFormed, Integrate;
  }

  lemma HandlerTracks(y: System, c: nat, a: HandlerAct, ps: seq<Pulse>)
    requires Formed(y) && Tracks(y, ps) && Formed(HandlerStep(y, c, a))
    ensures Tracks(HandlerStep(y, c, a), NextPulses(ps, y, OfHandler(c, a)))
  {
    if c < |y.jobs| {
      match a {
        case Deliver(p) => if y.jobs[c] == NoJob { DeliverTracks(y, c, p, ps); }
        case StampPacket => if y.jobs[c].Copied? { StampTracks(y, c, ps); }
        case CheckPacket => if y.jobs[c].Stamped? { CheckTracks(y, c, ps); }
        case IntegratePacket => if y.jobs[c].Checked? { IntegrateTracks(y, c, ps); }
      }
    }
    hide Tracks, Formed, DeliverStep, StampStep, CheckStep, IntegrateStep;
  }

  lemma DeliverTracks(y: System, c: nat, p: Packet, ps: seq<Pulse>)
    requires Formed(y) && Tracks(y, ps) && c < |y.jobs| && y.jobs[c] == NoJob && Formed(DeliverStep(y, c, p))
    ensures Tracks(DeliverStep(y, c, p), ps)
  {
    assert Snapshot(y.s).0 == y.s.(snaps := Snapshot(y.s).0.snaps);
    hide Account, Snapshot, Sound, JobFormed, LastIs;
  }

  lemma OthersTrack(y: System, z: System, ps: seq<Pulse>)
    requires Formed(y) && Formed(z) && Tracks(y, ps) && z.jobs == y.jobs && SameCounters(y.s, z.s)
    ensures Tracks(z, ps)
  {
    hide Formed, Account, LastIs;
  }

  lemma StepTracks(y: System, l: Label, ps: seq<Pulse>)
    requires Formed(y) && Fresh(y) && Tracks(y, ps) && !Clears(y.s, l)
    ensures Formed(Step(y, l)) && Tracks(Step(y, l), NextPulses(ps, y, l))
  {
    hide Formed, Fresh, Tracks, ClientWrite, EventStep, HandlerStep, Clears, NextPulses, SameCounters;
    StepKeepsFresh(y, l);
    OnlyHandlers(ps, y, l);
    match l {
      case Client(w) =>
        WriteKeepsCounters(y, w);
        OthersTrack(y, Step(y, l), ps);
      case OfEvent(a) =>
        EventKeepsTotals(y, a);
        EventKeepsJobs(y, a);
        OthersTrack(y, Step(y, l), ps);
      case OfFrame(a) => OthersTrack(y, Step(y, l), ps);
      case OfHandler(c, a) => HandlerTracks(y, c, a, ps);
    }
  }

  lemma OnlyHandlers(ps: seq<Pulse>, y: System, l: Label)
    requires Formed(y)
    ensures !l.OfHandler? ==> NextPulses(ps, y, l) == ps
    ensures SameCounters(y.s, y.s)
  {
  }

  lemma WriteKeepsCounters(y: System, w: Write)
    requires Formed(y) && !Clears(y.s, Client(w))
    ensures Sound(y.s) && SameCounters(y.s, ClientWrite(y.s, w))
  {
    ClientWriteKeepsTotals(y.s, w);
  }

  lemma EventKeepsJobs(y: System, a: EventAct)
    requires Formed(y)
    ensures EventStep(y, a).jobs == y.jobs
  {
    hide Sound, BeginState, Own, Allocate;
  }

  /** No pulse is in flight. */
  predicate NoPulse(y: System) {
    && 1 <= |y.jobs| && !InFlight(y.jobs[0])
    && forall c :: 1 <= c < |y.jobs| && InFlight(y.jobs[c]) ==> !y.jobs[c].newPulse
  }

  /** In every run since a clear, pulse counter and charge are what the packets of channel 0 add up to,
      however the handlers interleave. */
  lemma {:induction false} RunTracks(y: System, ls: seq<Label>)
    requires Formed(y) && Fresh(y) && NoPulse(y) && BeamOf(y.s) == Beam(Cleared, 0, 0.0) && NoClear(y, ls)
    ensures Tracks(Run(y, ls), PulsesIn(y, ls))
    decreases |ls|
  {
    if ls != [] {
      var n := |ls| - 1;
      hide Formed, Fresh, Step, Clears, Tracks, NextPulses, BeamOf, NoPulse;
      RunTracks(y, ls[..n]);
      StepTracks(Run(y, ls[..n]), ls[n], PulsesIn(y, ls[..n]));
    }
  }

  /** In every run since a clear the pulse counter is at most the number of distinct non-zero timestamps
      accepted on channel 0, and equal to it exactly when the first packet of each was integrated; the
      charge is that of those packets. */
  lemma PulseAccounting(y: System, ls: seq<Label>)
    requires Formed(y) && Fresh(y) && NoPulse(y) && BeamOf(y.s) == Beam(Cleared, 0, 0.0) && NoClear(y, ls)
    ensures var t, ps := Run(y, ls).s, PulsesIn(y, ls);
            && t.pulses == |IntegratedFirsts(ps)| <= |PulseTimes(Times(ps))|
            && (t.pulses == |PulseTimes(Times(ps))| <==>
                  forall i :: 0 <= i < |ps| && FirstAt(Times(ps), i) ==> ps[i].integrated)
            && t.charge == ChargeOf(ps, |ps|)
  {
    RunTracks(y, ls);
    hide Run, PulsesIn, Account, Formed, Fresh, NoClear;
    PulsesCountFirsts(PulsesIn(y, ls));
    PulsesAreDistinctTimes(PulsesIn(y, ls));
  }
}
