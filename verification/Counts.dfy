/**
 What runs count: with a fixed configuration the buffer is the number of hits, whatever the order of
 the events, their packing, their channels and the interleaving of the handlers; and every channel
 follows the stream of its own packets.
 */
module Counts {
  import opened Base
  import opened Events
  import opened Histogram
  import opened Stream
  import opened Driver
  import opened Soundness
  import opened Acquisition
  import opened Runs
  import opened Conservation

  /** Detector d with its published regions and current parameters. */
  function FixedView(s: State, d: nat): View
    requires Shaped(s) && 1 <= d <= MaxDets(s)
  {
    var det := s.dets[d];
    View(Lens(det.cfg, s.tofMax, LoadedMap(s.maps[d]), det.transform), det.region.start, det.region.tofStart)
  }

  function FixedViews(s: State): (r: seq<View>)
    requires Shaped(s)
    ensures |r| == HandlerDets(s)
  {
    seq(HandlerDets(s), k requires 0 <= k < HandlerDets(s) => FixedView(s, k + 1))
  }

  /** Only counts, copies and streams differ. */
  ghost predicate SameConfig(s: State, t: State) {
    && t == s.(data := t.data, snaps := t.snaps, totals := t.totals, channels := t.channels,
               pulses := t.pulses, charge := t.charge, status := t.status)
    && t.data.Some? == s.data.Some? && (t.data.Some? ==> |t.data.value| == |s.data.value|)
    && |t.snaps| == |s.snaps| && |t.totals| == |s.totals| && |t.channels| == |s.channels|
  }

  /** The step changes no configuration: a handler step, or one that leaves the driver as it is but for
      its status, such as those of the other threads and client writes that are refused or change nothing. */
  ghost predicate Inert(y: System, l: Label)
    requires Formed(y)
  {
    l.OfHandler? || Step(y, l).s == y.s.(status := Step(y, l).s.status)
  }

  /** The frame thread, the event thread unless it begins an acquisition, and a client write that leaves the
      driver as it was (a refused one, a Stop while not paused, a count or mode set to what it is) are inert. */
  lemma InertSteps(y: System, l: Label)
    requires Formed(y)
    requires match l
             case Client(w) => ClientWrite(y.s, w) == y.s
             case OfEvent(a) => a.BeginAcquire? ==> y.event != Starting
             case OfFrame(_) => true
             case OfHandler(_, _) => true
    ensures Inert(y, l)
  {
    if l.OfEvent? { InertEvent(y, l.event); }
    hide Sound, JobFormed, ClientWrite, EventStep, HandlerStep;
  }

  lemma InertEvent(y: System, a: EventAct)
    requires Formed(y) && (a.BeginAcquire? ==> y.event != Starting)
    ensures EventStep(y, a).s == y.s.(status := EventStep(y, a).s.status)
  {
    hide Sound, JobFormed, Begin, Own;
  }

  predicate NoJobs(y: System) {
    forall c :: 0 <= c < |y.jobs| ==> y.jobs[c] == NoJob
  }

  /** Every copy made since x is that of the configuration of x. */
  predicate CopiedFrom(x: State, t: State)
    requires Shaped(x) && |t.snaps| == |x.snaps|
  {
    forall d :: 1 <= d <= HandlerDets(x) ==> t.snaps[d] == SnapOf(x.dets[d])
  }

  /** A job was made from the configuration of x. */
  ghost predicate JobSteady(x: State, t: State, j: Job)
    requires Shaped(x) && |t.snaps| == |x.snaps|
  {
    j != NoJob ==> j.dets == HandlerDets(x) && j.paused == (x.paused != 0) && CopiedFrom(x, t)
  }

  /** The configuration is still that of x, and so are the jobs. */
  ghost predicate Steady(x: State, y: System) {
    && Shaped(x) && CopyCompletes(x) && Formed(y) && SameConfig(x, y.s)
    && forall c :: 0 <= c < |y.jobs| ==> JobSteady(x, y.s, y.jobs[c])
  }

  lemma SteadyViews(x: State, t: State)
    requires Shaped(x) && Shaped(t) && SameConfig(x, t) && CopiedFrom(x, t)
    ensures HandlerDets(t) == HandlerDets(x) <= MaxDets(t) && Views(t, HandlerDets(x)) == FixedViews(x)
  {
    forall d | 1 <= d <= HandlerDets(x)
      ensures ViewOf(t, d) == FixedView(x, d)
    {
      assert t.snaps[d] == SnapOf(x.dets[d]);
    }
  }

  /** Events of the packet a step adds to the buffer. */
  function Adds(y: System, l: Label): seq<Event>
    requires Formed(y)
  {
    if l.OfHandler? && l.handler.IntegratePacket? && l.channel < |y.jobs| && Integrates(y.s, y.jobs[l.channel])
    then EventsOf(y.jobs[l.channel].packet) else []
  }

  /** Events of detector d among those given. */
  function Added(x: State, d: nat, es: seq<Event>): nat
    requires Shaped(x) && d < |x.totals|
  {
    if 1 <= d <= HandlerDets(x) then Matches(FixedView(x, d).lens, es) else 0
  }

  /** What one step does to the counts. */
  ghost predicate Adds1(x: State, s: State, t: State, es: seq<Event>)
    requires Shaped(x) && |s.totals| == |x.totals|
  {
    && (if es == [] || s.data.None? then t.data == s.data
        else t.data == Some(StrikeAll(Tally(s.data.value, 0), FixedViews(x), es).cells))
    && |t.totals| == |x.totals|
    && forall d :: 0 <= d < |x.totals| ==> t.totals[d] == s.totals[d] + Added(x, d, es)
  }

  /** z has the configuration of x, jobs made from it, and the counts of y plus those of es. */
  ghost predicate Follows(x: State, y: System, z: System, es: seq<Event>)
    requires Shaped(x) && |y.s.totals| == |x.totals|
  {
    && SameConfig(x, z.s)
    && (forall c :: 0 <= c < |z.jobs| ==> JobSteady(x, z.s, z.jobs[c]))
    && Adds1(x, y.s, z.s, es)
  }

  lemma AddsNothing(x: State, s: State, t: State)
    requires Shaped(x) && |s.totals| == |x.totals| && t.data == s.data && t.totals == s.totals
    ensures Adds1(x, s, t, [])
  {
    MatchesNone();
    hide StrikeAll, FixedView;
  }

  lemma DeliverSteady(x: State, y: System, c: nat, p: Packet)
    requires Steady(x, y) && c < |y.jobs| && y.jobs[c] == NoJob
    ensures Follows(x, y, DeliverStep(y, c, p), [])
  {
    hide FirstNarrow, Adds1;
    var z := DeliverStep(y, c, p);
    AddsNothing(x, y.s, z.s);
    assert CopiedFrom(x, z.s);
    hide Sound, CopiedFrom;
  }

  lemma StampSteady(x: State, y: System, c: nat)
    requires Steady(x, y) && c < |y.jobs| && y.jobs[c].Copied?
    ensures Follows(x, y, StampStep(y, c), [])
  {
    hide Receive, Sound, Adds1;
    AddsNothing(x, y.s, StampStep(y, c).s);
    assert JobSteady(x, y.s, y.jobs[c]);
  }

  lemma CheckSteady(x: State, y: System, c: nat)
    requires Steady(x, y) && c < |y.jobs| && y.jobs[c].Stamped?
    ensures Follows(x, y, CheckStep(y, c), [])
  {
    hide Sound, Adds1, CopiedFrom, Integrable;
    AddsNothing(x, y.s, y.s);
    assert JobSteady(x, y.s, y.jobs[c]);
  }

  lemma IntegrateState(x: State, y: System, c: nat)
    requires Steady(x, y) && c < |y.jobs| && Integrates(y.s, y.jobs[c])
    ensures var t := Integrate(y.s, y.jobs[c].dets, y.jobs[c].packet, y.jobs[c].newPulse);
            && SameConfig(x, t) && t.snaps == y.s.snaps
            && Adds1(x, y.s, t, EventsOf(y.jobs[c].packet))
  {
    var j, n, es := y.jobs[c], HandlerDets(x), EventsOf(y.jobs[c].packet);
    assert JobSteady(x, y.s, j);
    SteadyViews(x, y.s);
    forall d | 1 <= d <= n
      ensures ViewOf(y.s, d).lens == FixedView(x, d).lens
    {
      assert Views(y.s, n)[d - 1] == FixedViews(x)[d - 1];
    }
    assert StrikeAll(Tally(y.s.data.value, 0), FixedViews(x), []).cells == y.s.data.value;
    hide Views, FixedViews, ViewOf, FixedView, Matches, StrikeAll, CopiedFrom, EventsOf, Sound, CopyCompletes;
  }

  lemma IntegrateSteady(x: State, y: System, c: nat)
    requires Steady(x, y) && c < |y.jobs| && y.jobs[c].Checked?
    ensures Follows(x, y, IntegrateStep(y, c), Adds(y, OfHandler(c, IntegratePacket)))
  {
    if Integrates(y.s, y.jobs[c]) { IntegrateState(x, y, c); } else { AddsNothing(x, y.s, y.s); }
    hide Adds1, Integrate, SameConfig, CopiedFrom, EventsOf, Sound, CopyCompletes;
  }

  lemma HandlerSteady(x: State, y: System, c: nat, a: HandlerAct)
    requires Steady(x, y)
    ensures Follows(x, y, HandlerStep(y, c, a), Adds(y, OfHandler(c, a)))
  {
    SteadyFollows(x, y);
    hide Follows, DeliverStep, StampStep, CheckStep, IntegrateStep, Steady, Integrates;
    if c < |y.jobs| {
      match a {
        case Deliver(p) => if y.jobs[c] == NoJob { DeliverSteady(x, y, c, p); }
        case StampPacket => if y.jobs[c].Copied? { StampSteady(x, y, c); }
        case CheckPacket => if y.jobs[c].Stamped? { CheckSteady(x, y, c); }
        case IntegratePacket =>
          if y.jobs[c].Checked? { IntegrateSteady(x, y, c); } else { NotChecked(y, c); }
      }
    }
  }

  lemma NotChecked(y: System, c: nat)
    requires Formed(y) && c < |y.jobs| && !y.jobs[c].Checked?
    ensures Adds(y, OfHandler(c, IntegratePacket)) == []
  {
  }

  lemma SteadyFollows(x: State, y: System)
    requires Steady(x, y)
    ensures |y.s.totals| == |x.totals| && Follows(x, y, y, [])
  {
    AddsNothing(x, y.s, y.s);
    hide Adds1;
  }

  /** What follows depends only on the driver and the jobs, and is steady again. */
  lemma FollowsIsSteady(x: State, y: System, z: System, es: seq<Event>)
    requires Steady(x, y) && Formed(z) && Follows(x, y, z, es)
    ensures Steady(x, z)
  {
    hide SameConfig, JobSteady, Adds1, Formed, CopyCompletes;
  }

  lemma FollowsFrame(x: State, y: System, z: System, z': System, es: seq<Event>)
    requires Shaped(x) && |y.s.totals| == |x.totals| && Follows(x, y, z, es) && z'.s == z.s && z'.jobs == z.jobs
    ensures Follows(x, y, z', es)
  {
    hide SameConfig, JobSteady, Adds1;
  }

  lemma StepFollows(x: State, y: System, l: Label)
    requires Steady(x, y) && Inert(y, l)
    ensures |y.s.totals| == |x.totals| && Follows(x, y, Step(y, l), Adds(y, l))
  {
    if l.OfHandler? {
      hide Follows, HandlerStep, Integrates, EventsOf;
      HandlerSteady(x, y, l.channel, l.handler);
    } else {
      var z := Step(y, l);
      StatusSteady(x, y, z.s.status);
      OthersKeepJobs(y, l);
      hide Follows, Step, Steady;
      FollowsFrame(x, y, y.(s := z.s), z, []);
    }
  }

  lemma OthersKeepJobs(y: System, l: Label)
    requires Formed(y) && !l.OfHandler?
    ensures Step(y, l).jobs == y.jobs
  {
    hide Sound, JobFormed, ClientWrite, BeginState, Own, Allocate;
  }

  lemma StepSteady(x: State, y: System, l: Label)
    requires Steady(x, y) && Fresh(y) && Inert(y, l)
    ensures Steady(x, Step(y, l)) && Follows(x, y, Step(y, l), Adds(y, l))
  {
    StepKeepsFresh(y, l);
    hide Follows, Step, Adds, Inert, Fresh, SameConfig, JobSteady, CopyCompletes, Sound;
    StepFollows(x, y, l);
    FollowsIsSteady(x, y, Step(y, l), Adds(y, l));
  }

  lemma StatusSteady(x: State, y: System, status: Status)
    requires Steady(x, y)
    ensures |y.s.totals| == |x.totals| && Follows(x, y, y.(s := y.s.(status := status)), [])
  {
    AddsNothing(x, y.s, y.s.(status := status));
    hide Adds1, Sound, CopyCompletes;
  }

  // ---------- the buffer counts hits ----------

  /** All events the run adds, in the order it adds them. */
  function AllAdds(y: System, ls: seq<Label>): seq<Event>
    requires Formed(y) && Fresh(y)
    decreases |ls|
  {
    if ls == [] then [] else var n := |ls| - 1; AllAdds(y, ls[..n]) + Adds(Run(y, ls[..n]), ls[n])
  }

  /** No step of the run changes the configuration. */
  ghost predicate AllInert(y: System, ls: seq<Label>)
    requires Formed(y) && Fresh(y)
    decreases |ls|
  {
    ls != [] ==> var n := |ls| - 1; AllInert(y, ls[..n]) && Inert(Run(y, ls[..n]), ls[n])
  }

  /** Handlers are between packets, and copies complete. */
  predicate Settled(y: System) {
    Formed(y) && Fresh(y) && NoJobs(y) && CopyCompletes(y.s)
  }

  lemma SettledSteady(y: System)
    requires Settled(y)
    ensures Steady(y.s, y)
  {
    hide FirstNarrow, InForce, MapSound;
  }

  lemma {:induction false} RunSteady(y: System, ls: seq<Label>)
    requires Settled(y) && AllInert(y, ls)
    ensures Steady(y.s, Run(y, ls))
    decreases |ls|
  {
    if ls == [] {
      SettledSteady(y);
    } else {
      var n := |ls| - 1;
      hide Settled, Steady, Step, Follows, Inert;
      RunSteady(y, ls[..n]);
      StepSteady(y.s, Run(y, ls[..n]), ls[n]);
    }
  }

  /** The counts after a run are those of one loop over all events it added. */
  ghost predicate OneLoop(x: State, t: State, es: seq<Event>)
    requires Shaped(x) && x.data.Some?
  {
    && t.data == Some(StrikeAll(Tally(x.data.value, 0), FixedViews(x), es).cells)
    && |t.totals| == |x.totals|
    && forall d :: 0 <= d < |x.totals| ==> t.totals[d] == x.totals[d] + Added(x, d, es)
  }

  lemma OneLoopStep(x: State, s: State, t: State, a: seq<Event>, b: seq<Event>)
    requires Shaped(x) && x.data.Some? && AllCarryFree(FixedViews(x)) && AllSafe(FixedViews(x), a + b, |x.data.value|)
    requires OneLoop(x, s, a) && Adds1(x, s, t, b)
    ensures OneLoop(x, t, a + b)
  {
    var first := Tally(x.data.value, 0);
    if b == [] {
      assert a + b == a;
    } else {
      hide StrikeAll, AllSafe, FixedViews, Matches, FixedView, CarryFree;
      LoopIsSplittable(first, FixedViews(x), a, b);
    }
    forall d | 0 <= d < |x.totals|
      ensures Added(x, d, a + b) == Added(x, d, a) + Added(x, d, b)
    {
      hide StrikeAll, AllSafe, FixedViews, FixedView, CarryFree;
      if 1 <= d <= HandlerDets(x) { SumOfConcat(InRangeCount(FixedView(x, d).lens), a, b); }
    }
    hide StrikeAll, AllSafe, FixedViews, Added, CarryFree;
  }

  /** However the handlers interleave, the run does what one loop over all its events does. */
  lemma {:induction false} RunIsOneLoop(y: System, ls: seq<Label>)
    requires Settled(y) && y.s.data.Some? && AllInert(y, ls)
    requires AllCarryFree(FixedViews(y.s)) && AllSafe(FixedViews(y.s), AllAdds(y, ls), |y.s.data.value|)
    ensures OneLoop(y.s, Run(y, ls).s, AllAdds(y, ls))
    decreases |ls|
  {
    if ls == [] {
      MatchesNone();
      hide FixedView;
    } else {
      var n := |ls| - 1;
      var z, a, b := Run(y, ls[..n]), AllAdds(y, ls[..n]), Adds(Run(y, ls[..n]), ls[n]);
      AllSafeParts(FixedViews(y.s), a, b, |y.s.data.value|);
      hide Settled, Steady, Step, Inert, OneLoop, Adds, AllSafe, AllCarryFree;
      RunIsOneLoop(y, ls[..n]);
      RunSteady(y, ls[..n]);
      StepSteady(y.s, z, ls[n]);
      OneLoopStep(y.s, z.s, Step(z, ls[n]).s, a, b);
    }
  }

  /** After any run that keeps the configuration, on any channels, however they interleave, every cell has grown by
      the number of (event, detector) pairs that hit it. */
  lemma BufferCountsHits(y: System, ls: seq<Label>, cell: nat)
    requires Settled(y) && y.s.data.Some? && AllInert(y, ls) && cell < |y.s.data.value|
    requires AllCarryFree(FixedViews(y.s)) && AllSafe(FixedViews(y.s), AllAdds(y, ls), |y.s.data.value|)
    ensures var t, vs, es := Run(y, ls).s, FixedViews(y.s), AllAdds(y, ls);
            && t.data.Some? && |t.data.value| == |y.s.data.value|
            && t.data.value[cell] == y.s.data.value[cell] + |Hitters(false, vs, es, cell)|
               + |Hitters(true, vs, es, cell)|
  {
    RunIsOneLoop(y, ls);
    hide Run, AllAdds, StrikeAll, FixedViews, Hitters, AllSafe, AllCarryFree, Settled;
    LoopCountsHits(Tally(y.s.data.value, 0), FixedViews(y.s), AllAdds(y, ls), cell);
  }

  /** The same events, in any order, in any packets, over any channels, with any interleaving of the
      handlers, give the same buffer and the same totals. */
  lemma SameEventsSameBuffer(y: System, a: seq<Label>, b: seq<Label>)
    requires Settled(y) && y.s.data.Some? && AllInert(y, a) && AllInert(y, b)
    requires AllCarryFree(FixedViews(y.s)) && AllSafe(FixedViews(y.s), AllAdds(y, a), |y.s.data.value|)
    requires multiset(AllAdds(y, a)) == multiset(AllAdds(y, b))
    ensures Run(y, a).s.data == Run(y, b).s.data && Run(y, a).s.totals == Run(y, b).s.totals
  {
    SafeOrderFree(FixedViews(y.s), AllAdds(y, a), AllAdds(y, b), |y.s.data.value|);
    RunIsOneLoop(y, a);
    RunIsOneLoop(y, b);
    hide Run, AllAdds, OneLoop, FixedViews, AllSafe, AllCarryFree, Settled;
    LoopsAgree(y.s, Run(y, a).s, Run(y, b).s, AllAdds(y, a), AllAdds(y, b));
  }

  lemma LoopsAgree(x: State, t: State, u: State, a: seq<Event>, b: seq<Event>)
    requires Shaped(x) && x.data.Some? && OneLoop(x, t, a) && OneLoop(x, u, b) && multiset(a) == multiset(b)
    requires AllCarryFree(FixedViews(x)) && AllSafe(FixedViews(x), a, |x.data.value|)
             && AllSafe(FixedViews(x), b, |x.data.value|)
    ensures t.data == u.data && t.totals == u.totals
  {
    hide StrikeAll, FixedViews, AllSafe, AllCarryFree, Added;
    LoopIsOrderFree(Tally(x.data.value, 0), FixedViews(x), a, b);
    forall d | 0 <= d < |x.totals|
      ensures t.totals[d] == u.totals[d]
    {
      AddedIsOrderFree(x, d, a, b);
    }
  }

  lemma SafeOrderFree(vs: seq<View>, a: seq<Event>, b: seq<Event>, cells: nat)
    requires AllSafe(vs, a, cells) && multiset(a) == multiset(b)
    ensures AllSafe(vs, b, cells)
  {
    hide Safe;
    forall i, d | 0 <= i < |b| && 0 <= d < |vs|
      ensures Safe(vs[d], b[i], 0, cells)
    {
      assert b[i] in multiset(b);
      assert b[i] in a;
    }
  }

  lemma AddedIsOrderFree(x: State, d: nat, a: seq<Event>, b: seq<Event>)
    requires Shaped(x) && d < |x.totals| && multiset(a) == multiset(b)
    ensures Added(x, d, a) == Added(x, d, b)
  {
    if 1 <= d <= HandlerDets(x) { SumOfIsOrderFree(InRangeCount(FixedView(x, d).lens), a, b); }
  }

  // ---------- streams ----------

  /** The stamp a step hands to the timestamp section of channel c. */
  function StampAt(y: System, l: Label, c: nat): seq<Option<Stamp>>
    requires Formed(y)
  {
    if l == OfHandler(c, StampPacket) && c < |y.jobs| && y.jobs[c].Copied? then [y.jobs[c].packet.stamp] else []
  }

  function StampsIn(y: System, ls: seq<Label>, c: nat): seq<Option<Stamp>>
    requires Formed(y) && Fresh(y)
    decreases |ls|
  {
    if ls == [] then [] else var n := |ls| - 1; StampsIn(y, ls[..n], c) + StampAt(Run(y, ls[..n]), ls[n], c)
  }

  lemma HandlerChannel(y: System, i: nat, a: HandlerAct, c: nat)
    requires Formed(y) && c < |y.s.channels|
    ensures var t, ss := HandlerStep(y, i, a).s, StampAt(y, OfHandler(i, a), c);
            && |t.channels| == |y.s.channels|
            && t.channels[c] == if ss == [] then y.s.channels[c] else Receive(y.s.channels[c], ss[0]).0
  {
    if a.StampPacket? {
      hide Receive, Sound, JobFormed;
    } else {
      OthersKeepChannels(y, i, a);
      hide HandlerStep, Receive, Formed;
    }
  }

  lemma OthersKeepChannels(y: System, i: nat, a: HandlerAct)
    requires Formed(y) && !a.StampPacket?
    ensures HandlerStep(y, i, a).s.channels == y.s.channels
  {
    SnapshotChannels(y.s);
    if i < |y.jobs| && Integrates(y.s, y.jobs[i]) {
      var j := y.jobs[i];
      IntegrateChannels(y.s, j.dets, j.packet, j.newPulse);
    }
    hide Sound, Snapshot, Integrate, JobFormed, Integrable;
  }

  lemma SnapshotChannels(s: State)
    requires Shaped(s)
    ensures Snapshot(s).0.channels == s.channels
  {
  }

  lemma IntegrateChannels(s: State, n: nat, p: Packet, newPulse: bool)
    requires Shaped(s) && n <= MaxDets(s) && Complete(p) && s.data.Some?
    ensures Integrate(s, n, p, newPulse).channels == s.channels
  {
    hide StrikeAll, NewTotals, Views;
  }

  lemma StepChannel(y: System, l: Label, c: nat)
    requires Formed(y) && c < |y.s.channels| && !Clears(y.s, l)
    ensures var t, ss := Step(y, l).s, StampAt(y, l, c);
            && |t.channels| == |y.s.channels|
            && t.channels[c] == if ss == [] then y.s.channels[c] else Receive(y.s.channels[c], ss[0]).0
  {
    hide Sound, ClientWrite, EventStep, HandlerStep, Receive;
    match l {
      case Client(w) => ClientWriteKeepsTotals(y.s, w);
      case OfEvent(a) => EventKeepsTotals(y, a);
      case OfFrame(a) =>
      case OfHandler(i, a) => HandlerChannel(y, i, a, c);
    }
  }

  /** Since a clear, in every run, a channel is the stream of its own packets. */
  lemma {:induction false} ChannelFollowsItsStream(y: System, ls: seq<Label>, c: nat)
    requires Formed(y) && Fresh(y) && c < |y.s.channels| && y.s.channels[c] == Cleared && NoClear(y, ls)
    ensures c < |Run(y, ls).s.channels| && Run(y, ls).s.channels[c] == Feed(StampsIn(y, ls, c))
    decreases |ls|
  {
    hide Formed, Fresh, Step, Receive, StampAt, Feed, Clears;
    if ls != [] {
      var n := |ls| - 1;
      var z, prior := Run(y, ls[..n]), StampsIn(y, ls[..n], c);
      ChannelFollowsItsStream(y, ls[..n], c);
      StepChannel(z, ls[n], c);
      StampAtMostOne(z, ls[n], c);
      var ss := StampAt(z, ls[n], c);
      if ss == [] { assert prior + ss == prior; } else { FeedSnoc(prior, ss[0]); }
    } else {
      FeedNone();
    }
  }

  lemma StampAtMostOne(y: System, l: Label, c: nat)
    requires Formed(y)
    ensures StampAt(y, l, c) == [] || StampAt(y, l, c) == [StampAt(y, l, c)[0]]
  {
  }

  lemma FeedNone()
    ensures Feed([]) == Cleared
  {
  }

  /** So in every run since a clear the accepted timestamps of a channel are in order, NumMissing
      telescopes, and for IDs that do not decrease it is 0 exactly on a consecutive stream. */
  lemma ChannelInEveryRun(y: System, ls: seq<Label>, c: nat)
    requires Formed(y) && Fresh(y) && c < |y.s.channels| && y.s.channels[c] == Cleared && NoClear(y, ls)
    ensures c < |Run(y, ls).s.channels|
    ensures var ch, kept := Run(y, ls).s.channels[c], Kept(StampsIn(y, ls, c));
            && InOrder(kept, ch.lastTime)
            && ch.numMissing == (if kept == [] then 0
                                 else (kept[|kept| - 1].tag - kept[0].tag) - (|kept| - 1) + 2 * Breaks(kept))
            && (NonDecreasing(kept) ==> (ch.numMissing == 0 <==> Consecutive(kept)))
  {
    hide Run, StampsIn, Feed, Kept, NoClear, Fresh, Formed, Receive, InOrder, Consecutive, NonDecreasing, Breaks;
    ChannelFollowsItsStream(y, ls, c);
    var ss := StampsIn(y, ls, c);
    KeptInOrder(ss);
    MissingTelescopes(ss);
    if NonDecreasing(Kept(ss)) { ZeroMissingIffConsecutive(ss); }
  }

  // ---------- a whole call ----------

  /** The four steps of one handler call on channel c. */
  function CallOn(c: nat, p: Packet): seq<Label> {
    [OfHandler(c, Deliver(p))] + [OfHandler(c, StampPacket)] + [OfHandler(c, CheckPacket)]
        + [OfHandler(c, IntegratePacket)]
  }

  /** What a step of handler c does to a job of its own channel. */
  lemma CallSteps(y: System, c: nat, a: HandlerAct)
    requires Formed(y) && c < |y.jobs|
    ensures var z, j := Step(y, OfHandler(c, a)), y.jobs[c];
            && Shaped(y.s) && c < |z.jobs|
            && (j == NoJob && !a.Deliver? ==> z == y)
            && (j == NoJob && a.Deliver? ==>
                  var (t, n) := Snapshot(y.s);
                  z.s == t && z.jobs[c] == if n.None? then NoJob
                      else Copied(a.packet, y.s.paused != 0, n.value, y.s.epoch))
            && (j.Copied? && a.StampPacket? ==>
                  var (t, ok, pulse) := StampSection(y.s, c, j.packet.stamp);
                  z.s == t && z.jobs[c] == if ok then Stamped(j.packet, j.paused, j.dets, j.epoch, pulse) else NoJob)
            && (j.Stamped? && a.CheckPacket? ==>
                  z.s == y.s && z.jobs[c] == if Integrable(y.s, j.packet)
                      then Checked(j.packet, j.paused, j.dets, j.epoch, j.newPulse) else NoJob)
            && (j.Checked? && a.IntegratePacket? ==>
                  z.jobs[c] == NoJob
                      && z.s == if Integrates(y.s, j) then Integrate(y.s, j.dets, j.packet, j.newPulse) else y.s)
  {
    assert Shaped(y.s);
    hide Sound, Snapshot, StampSection, Integrate, Integrable;
  }

  /** Taken one after the other they are the call in one piece. */
  lemma CallIsFourSteps(y: System, c: nat, p: Packet)
    requires Formed(y) && Fresh(y) && c < |y.jobs| && y.jobs[c] == NoJob
    ensures Run(y, CallOn(c, p)).s == Handle(y.s, c, p)
    ensures c < |Run(y, CallOn(c, p)).jobs| && Run(y, CallOn(c, p)).jobs[c] == NoJob
  {
    var a := [OfHandler(c, Deliver(p))];
    var b := a + [OfHandler(c, StampPacket)];
    var d := b + [OfHandler(c, CheckPacket)];
    assert [] + [OfHandler(c, Deliver(p))] == a;
    RunStep(y, [], OfHandler(c, Deliver(p)));
    RunStep(y, a, OfHandler(c, StampPacket));
    RunStep(y, b, OfHandler(c, CheckPacket));
    RunStep(y, d, OfHandler(c, IntegratePacket));
    assert Run(y, []) == y && d + [OfHandler(c, IntegratePacket)] == CallOn(c, p);
    hide Run, Fresh, Formed, Step, Snapshot, StampSection, Integrate, CallOn;
    CallSteps(y, c, Deliver(p));
    CallSteps(Run(y, a), c, StampPacket);
    CallSteps(Run(y, b), c, CheckPacket);
    CallSteps(Run(y, d), c, IntegratePacket);
  }
}
