/**
 What the handler keeps per channel: timestamp order and sequence-ID gaps; and, for channel 0, the
 pulse counter and the integrated proton charge. Timestamps are nanosecond counts.
 */
module Stream {
  import opened Base

  datatype Stamp = Stamp(time: int, tag: nat)

  datatype Channel = Channel(
    seqCounter: nat, seqId: nat, lastSeqId: int,
    time: int, lastTime: int,
    missing: int, numMissing: int, badTime: bool)

  /** The state clearParams leaves. */
  const Cleared := Channel(0, 0, -1, 0, 0, 0, 0, false)

  datatype Verdict = Unstamped | Backwards | Accepted

  /** The locked timestamp section of the handler. A packet without a timestamp is only counted. */
  function Receive(ch: Channel, s: Option<Stamp>): (Channel, Verdict) {
    var c := ch.(seqCounter := ch.seqCounter + 1);
    if s.None? then (c, Unstamped)
    else if c.lastTime > s.value.time then (c.(time := s.value.time, badTime := true), Backwards)
    else
      var gap := c.lastSeqId != -1 && s.value.tag != c.lastSeqId + 1;
      (c.(time := s.value.time, lastTime := s.value.time, seqId := s.value.tag, lastSeqId := s.value.tag,
          missing := if gap then c.lastSeqId + 1 else c.missing,
          numMissing := if gap then c.numMissing + (s.value.tag - c.lastSeqId + 1) else c.numMissing),
       Accepted)
  }

  function Feed(ss: seq<Option<Stamp>>): Channel {
    if ss == [] then Cleared else Receive(Feed(ss[..|ss| - 1]), ss[|ss| - 1]).0
  }

  lemma FeedSnoc(ss: seq<Option<Stamp>>, s: Option<Stamp>)
    ensures Feed(ss + [s]) == Receive(Feed(ss), s).0
  {
    assert (ss + [s])[..|ss|] == ss;
  }

  /** The stamps of the accepted packets, in order. */
  function Kept(ss: seq<Option<Stamp>>): seq<Stamp> {
    if ss == [] then []
    else
      var n := |ss| - 1;
      Kept(ss[..n]) + if Receive(Feed(ss[..n]), ss[n]).1 == Accepted then [ss[n].value] else []
  }

  // ---------- timestamps ----------

  /** Non-decreasing, not negative, and ending with `last`. */
  predicate InOrder(ks: seq<Stamp>, last: int) {
    && (forall i, j :: 0 <= i < j < |ks| ==> ks[i].time <= ks[j].time)
    && (forall i :: 0 <= i < |ks| ==> 0 <= ks[i].time)
    && last == if ks == [] then 0 else ks[|ks| - 1].time
  }

  /** Accepted timestamps never go back, and the channel remembers the last one. */
  lemma {:induction false} KeptInOrder(ss: seq<Option<Stamp>>)
    ensures InOrder(Kept(ss), Feed(ss).lastTime)
  {
    if ss != [] {
      var n := |ss| - 1;
      KeptInOrder(ss[..n]);
      ReceiveTime(Feed(ss[..n]), ss[n]);
      hide Receive;
    }
  }

  lemma ReceiveTime(ch: Channel, s: Option<Stamp>)
    ensures var (ch', v) := Receive(ch, s);
            if v == Accepted then s.Some? && ch.lastTime <= s.value.time == ch'.lastTime
            else ch'.lastTime == ch.lastTime
  {
  }

  /** Packet i has a stamp that is not negative and not older than any stamp before it. */
  predicate InTime(ss: seq<Option<Stamp>>, i: nat)
    requires i < |ss|
  {
    && ss[i].Some? && 0 <= ss[i].value.time
    && forall j :: 0 <= j < i && ss[j].Some? ==> ss[j].value.time <= ss[i].value.time
  }

  /** The latest time stamped so far, or 0. */
  function Latest(ss: seq<Option<Stamp>>): (t: int)
    ensures 0 <= t && forall j :: 0 <= j < |ss| && ss[j].Some? ==> ss[j].value.time <= t
    ensures t == 0 || exists j :: 0 <= j < |ss| && ss[j].Some? && ss[j].value.time == t
  {
    if ss == [] then 0
    else
      var n := |ss| - 1;
      if ss[n].Some? then Max(Latest(ss[..n]), ss[n].value.time) else Latest(ss[..n])
  }

  /** The stamps of the packets that are in time, in order. */
  function AllInTime(ss: seq<Option<Stamp>>): seq<Stamp> {
    if ss == [] then []
    else
      var n := |ss| - 1;
      AllInTime(ss[..n]) + if InTime(ss, n) then [ss[n].value] else []
  }

  /** Refused or not, stamps only ever raise the time the channel compares with. */
  lemma {:induction false} LastTimeIsLatest(ss: seq<Option<Stamp>>)
    ensures Feed(ss).lastTime == Latest(ss)
  {
    if ss != [] { LastTimeIsLatest(ss[..|ss| - 1]); }
  }

  /** A packet is accepted if and only if it is in time: the second packet of a pulse is, an older one is not,
      and a packet refused before makes no difference. */
  lemma KeptIff(ss: seq<Option<Stamp>>, i: nat)
    requires i < |ss|
    ensures Receive(Feed(ss[..i]), ss[i]).1 == Accepted <==> InTime(ss, i)
  {
    var prior := ss[..i];
    LastTimeIsLatest(prior);
    assert forall j :: 0 <= j < i ==> prior[j] == ss[j];
    if ss[i].Some? && Latest(prior) <= ss[i].value.time {
      forall j | 0 <= j < i && ss[j].Some?
        ensures ss[j].value.time <= ss[i].value.time
      {
        assert prior[j].value.time <= Latest(prior);
      }
    }
  }

  lemma {:induction false} KeptAreInTime(ss: seq<Option<Stamp>>)
    ensures Kept(ss) == AllInTime(ss)
  {
    if ss != [] {
      KeptAreInTime(ss[..|ss| - 1]);
      KeptIff(ss, |ss| - 1);
    }
  }

  // ---------- sequence IDs ----------

  /** Consecutive accepted IDs that do not differ by one. */
  function Breaks(ks: seq<Stamp>): nat {
    if |ks| < 2 then 0
    else Breaks(ks[..|ks| - 1]) + if ks[|ks| - 1].tag != ks[|ks| - 2].tag + 1 then 1 else 0
  }

  lemma BreaksSnoc(ks: seq<Stamp>, k: Stamp)
    ensures Breaks(ks + [k]) == Breaks(ks) + if ks != [] && k.tag != ks[|ks| - 1].tag + 1 then 1 else 0
  {
    assert (ks + [k])[..|ks|] == ks;
  }

  /** NumMissing telescopes over the accepted packets; refused packets do not enter it. */
  lemma {:induction false} MissingTelescopes(ss: seq<Option<Stamp>>)
    ensures var ch, ks := Feed(ss), Kept(ss);
            if ks == [] then ch.numMissing == 0 && ch.lastSeqId == -1
            else
              var n := |ks|;
              && ch.lastSeqId == ks[n - 1].tag
              && ch.numMissing == (ks[n - 1].tag - ks[0].tag) - (n - 1) + 2 * Breaks(ks)
  {
    if ss != [] {
      var n := |ss| - 1;
      MissingTelescopes(ss[..n]);
      var prior := Kept(ss[..n]);
      if Receive(Feed(ss[..n]), ss[n]).1 == Accepted {
        assert Kept(ss) == prior + [ss[n].value];
        BreaksSnoc(prior, ss[n].value);
      } else {
        assert Kept(ss) == prior;
      }
    }
  }

  predicate Consecutive(ks: seq<Stamp>) {
    forall i :: 0 < i < |ks| ==> ks[i].tag == ks[i - 1].tag + 1
  }

  predicate NonDecreasing(ks: seq<Stamp>) {
    forall i :: 0 < i < |ks| ==> ks[i - 1].tag <= ks[i].tag
  }

  lemma {:induction false} BreaksBound(ks: seq<Stamp>)
    requires ks != []
    ensures Breaks(ks) == 0 <==> Consecutive(ks)
    ensures NonDecreasing(ks) ==> ks[|ks| - 1].tag - ks[0].tag >= |ks| - 1 - Breaks(ks)
    ensures Consecutive(ks) ==> ks[|ks| - 1].tag - ks[0].tag == |ks| - 1
  {
    var n := |ks| - 1;
    if n > 0 {
      BreaksBound(ks[..n]);
      assert Consecutive(ks) <==> Consecutive(ks[..n]) && ks[n].tag == ks[n - 1].tag + 1;
    }
  }

  /** While accepted IDs do not decrease, NumMissing is zero exactly on a consecutive stream. */
  lemma ZeroMissingIffConsecutive(ss: seq<Option<Stamp>>)
    requires NonDecreasing(Kept(ss))
    ensures Feed(ss).numMissing == 0 <==> Consecutive(Kept(ss))
  {
    MissingTelescopes(ss);
    if Kept(ss) != [] { BreaksBound(Kept(ss)); }
  }

  /** A step back by one contributes nothing, so the condition on the IDs is needed. */
  lemma StepBackIsInvisible()
    ensures exists ss: seq<Option<Stamp>> :: Feed(ss).numMissing == 0 && !Consecutive(Kept(ss))
  {
    var one, two := [Some(Stamp(1, 5))], [Some(Stamp(1, 5)), Some(Stamp(2, 4))];
    assert one[..0] == [] && two[..1] == one;
    assert Feed(one).lastSeqId == 5 && Kept(one) == [Stamp(1, 5)];
    assert Kept(two) == [Stamp(1, 5), Stamp(2, 4)] && Kept(two)[1].tag != Kept(two)[0].tag + 1;
    assert Feed(two).numMissing == 0;
  }

  function Interval(lo: int, hi: int): (r: set<int>)
    requires lo <= hi
    ensures forall x :: x in r <==> lo <= x < hi
    ensures |r| == hi - lo
    decreases hi - lo
  {
    if lo == hi then {} else Interval(lo, hi - 1) + {hi - 1}
  }

  predicate HasTag(ks: seq<Stamp>, x: int) {
    exists i :: 0 <= i < |ks| && ks[i].tag == x
  }

  /** The IDs from first to last that were never accepted. */
  function Absent(ks: seq<Stamp>): set<int>
    requires ks != [] && ks[0].tag <= ks[|ks| - 1].tag
  {
    set x | x in Interval(ks[0].tag, ks[|ks| - 1].tag + 1) && !HasTag(ks, x)
  }

  predicate Increasing(ks: seq<Stamp>) {
    forall i, j :: 0 <= i < j < |ks| ==> ks[i].tag < ks[j].tag
  }

  lemma {:induction false} AbsentCount(ks: seq<Stamp>)
    requires ks != [] && Increasing(ks)
    ensures |Absent(ks)| == (ks[|ks| - 1].tag - ks[0].tag) - (|ks| - 1)
  {
    var n := |ks| - 1;
    if n == 0 {
      assert Absent(ks) == {};
    } else {
      AbsentCount(ks[..n]);
      AbsentSnoc(ks);
    }
  }

  lemma AbsentSnoc(ks: seq<Stamp>)
    requires |ks| > 1 && Increasing(ks)
    ensures var n := |ks| - 1;
            |Absent(ks)| == |Absent(ks[..n])| + ks[n].tag - ks[n - 1].tag - 1
  {
    var n := |ks| - 1;
    var prior, gap := ks[..n], Interval(ks[n - 1].tag + 1, ks[n].tag);
    TagsOf(ks);
    hide HasTag;
    assert Absent(ks) == Absent(prior) + gap;
    assert Absent(prior) !! gap;
  }

  lemma TagsOf(ks: seq<Stamp>)
    requires |ks| > 1 && Increasing(ks)
    ensures var n := |ks| - 1;
            && (forall x :: HasTag(ks, x) <==> HasTag(ks[..n], x) || x == ks[n].tag)
            && (forall x :: HasTag(ks[..n], x) ==> x <= ks[n - 1].tag)
            && HasTag(ks[..n], ks[n - 1].tag)
  {
    var n := |ks| - 1;
    var prior := ks[..n];
    forall x
      ensures HasTag(ks, x) <==> HasTag(prior, x) || x == ks[n].tag
      ensures HasTag(prior, x) ==> x <= ks[n - 1].tag
    {
      if HasTag(prior, x) {
        var i :| 0 <= i < |prior| && prior[i].tag == x;
        assert ks[i].tag == x;
      }
    }
    assert prior[n - 1].tag == ks[n - 1].tag;
  }

  /** On increasing IDs NumMissing is the number of IDs really absent, plus two per gap. */
  lemma MissingOvercountsByTwoPerGap(ss: seq<Option<Stamp>>)
    requires Kept(ss) != [] && Increasing(Kept(ss))
    ensures Feed(ss).numMissing == |Absent(Kept(ss))| + 2 * Breaks(Kept(ss))
  {
    MissingTelescopes(ss);
    AbsentCount(Kept(ss));
  }

  /** The ID that was due at the last break, or 0. */
  function LastDue(ks: seq<Stamp>): int {
    if |ks| < 2 then 0
    else if ks[|ks| - 1].tag != ks[|ks| - 2].tag + 1 then ks[|ks| - 2].tag + 1
    else LastDue(ks[..|ks| - 1])
  }

  lemma LastDueSnoc(ks: seq<Stamp>, k: Stamp)
    ensures LastDue(ks + [k]) == if ks != [] && k.tag != ks[|ks| - 1].tag + 1 then ks[|ks| - 1].tag + 1 else LastDue(ks)
  {
    assert (ks + [k])[..|ks|] == ks;
  }

  /** The time of the last stamp, accepted or not, or 0. */
  function LastStamped(ss: seq<Option<Stamp>>): int {
    if ss == [] then 0
    else if ss[|ss| - 1].Some? then ss[|ss| - 1].value.time
    else LastStamped(ss[..|ss| - 1])
  }

  ghost predicate SomeLate(ss: seq<Option<Stamp>>) {
    exists i :: 0 <= i < |ss| && ss[i].Some? && !InTime(ss, i)
  }

  /** The sequence-ID fields tell of the IDs ks. */
  predicate TellsIds(ch: Channel, ks: seq<Stamp>) {
    && ch.seqId == (if ks == [] then 0 else ks[|ks| - 1].tag)
    && ch.lastSeqId == (if ks == [] then -1 else ks[|ks| - 1].tag)
    && ch.missing == LastDue(ks)
  }

  lemma ReceiveIds(ch: Channel, s: Option<Stamp>, ks: seq<Stamp>)
    requires TellsIds(ch, ks)
    ensures var (c, v) := Receive(ch, s);
            && c.seqCounter == ch.seqCounter + 1 && c.time == (if s.Some? then s.value.time else ch.time)
            && c.badTime == (ch.badTime || (s.Some? && v != Accepted))
            && (v == Accepted ==> s.Some? && TellsIds(c, ks + [s.value]))
            && (v != Accepted ==> TellsIds(c, ks))
  {
    if s.Some? { LastDueSnoc(ks, s.value); }
    hide LastDue;
  }

  /** Everything a channel keeps, in terms of the packets it received. */
  lemma {:induction false} ChannelIs(ss: seq<Option<Stamp>>)
    ensures var ch, ks := Feed(ss), AllInTime(ss);
            && ch.seqCounter == |ss| && ch.lastTime == Latest(ss) && ch.time == LastStamped(ss)
            && TellsIds(ch, ks) && (ch.badTime <==> SomeLate(ss))
  {
    LastTimeIsLatest(ss);
    if ss != [] {
      var n := |ss| - 1;
      hide Receive, InTime, SomeLate, LastDue, Latest, TellsIds;
      ChannelIs(ss[..n]);
      KeptIff(ss, n);
      LateSnoc(ss);
      ReceiveIds(Feed(ss[..n]), ss[n], AllInTime(ss[..n]));
      assert AllInTime(ss[..n]) + [] == AllInTime(ss[..n]);
    }
  }

  lemma LateSnoc(ss: seq<Option<Stamp>>)
    requires ss != []
    ensures var n := |ss| - 1; SomeLate(ss) <==> SomeLate(ss[..n]) || (ss[n].Some? && !InTime(ss, n))
  {
    var n := |ss| - 1;
    var prior := ss[..n];
    assert forall i :: 0 <= i < n ==> prior[i] == ss[i] && (InTime(prior, i) <==> InTime(ss, i));
    if SomeLate(prior) {
      var i :| 0 <= i < n && prior[i].Some? && !InTime(prior, i);
      assert ss[i].Some? && !InTime(ss, i);
    }
  }

  // ---------- pulses ----------

  /** A channel-0 packet: its stamp, its charge, and whether it reached the integration section. */
  datatype Pulse = Pulse(stamp: Option<Stamp>, charge: real, integrated: bool)

  datatype Beam = Beam(channel: Channel, pulses: nat, charge: real)

  /** One handler call on channel 0. */
  function Track(b: Beam, p: Pulse): Beam {
    var (ch, verdict) := Receive(b.channel, p.stamp);
    if verdict == Accepted && b.channel.lastTime != p.stamp.value.time && p.integrated
    then Beam(ch, b.pulses + 1, b.charge + p.charge)
    else b.(channel := ch)
  }

  function Account(ps: seq<Pulse>): Beam {
    if ps == [] then Beam(Cleared, 0, 0.0) else Track(Account(ps[..|ps| - 1]), ps[|ps| - 1])
  }

  lemma AccountSnoc(ps: seq<Pulse>, p: Pulse)
    ensures Account(ps + [p]) == Track(Account(ps), p)
  {
    assert (ps + [p])[..|ps|] == ps;
  }

  /** For each packet its timestamp if it was accepted. */
  function Times(ps: seq<Pulse>): (ts: seq<Option<int>>)
    ensures |ts| == |ps|
  {
    if ps == [] then []
    else
      var n := |ps| - 1;
      var accepted := Receive(Account(ps[..n]).channel, ps[n].stamp).1 == Accepted;
      Times(ps[..n]) + [if accepted then Some(ps[n].stamp.value.time) else None]
  }

  /** Packet i is the first accepted one with its (non-zero) timestamp. */
  predicate FirstAt(ts: seq<Option<int>>, i: nat) {
    && i < |ts| && ts[i].Some? && ts[i].value != 0
    && ts[i] !in ts[..i]
  }

  function Firsts(ts: seq<Option<int>>): set<nat> {
    set i | 0 <= i < |ts| && FirstAt(ts, i)
  }

  function Integrated(ps: seq<Pulse>): set<nat> {
    set i | 0 <= i < |ps| && ps[i].integrated
  }

  function IntegratedFirsts(ps: seq<Pulse>): set<nat> {
    Firsts(Times(ps)) * Integrated(ps)
  }

  /** The distinct non-zero timestamps accepted. */
  function PulseTimes(ts: seq<Option<int>>): set<int> {
    set i | 0 <= i < |ts| && ts[i].Some? && ts[i].value != 0 :: ts[i].value
  }

  /** The charges of the integrated first packets among the first n. */
  function ChargeOf(ps: seq<Pulse>, n: nat): real
    requires n <= |ps|
  {
    if n == 0 then 0.0
    else ChargeOf(ps, n - 1) + if n - 1 in IntegratedFirsts(ps) then ps[n - 1].charge else 0.0
  }

  /** The remembered timestamp bounds the accepted ones, and is zero or one of them. */
  lemma {:induction false} TimesInOrder(ps: seq<Pulse>)
    ensures var t := Account(ps).channel.lastTime;
            && 0 <= t && (t != 0 ==> Some(t) in Times(ps))
            && forall x :: Some(x) in Times(ps) ==> 0 <= x <= t
  {
    if ps != [] { TimesInOrder(ps[..|ps| - 1]); }
  }

  /** The packet just received starts a pulse iff it is accepted with a changed timestamp. */
  lemma NewPulseIsFirst(ps: seq<Pulse>)
    requires ps != []
    ensures var n := |ps| - 1; var ch := Account(ps[..n]).channel;
            FirstAt(Times(ps), n)
            <==> Receive(ch, ps[n].stamp).1 == Accepted && ch.lastTime != ps[n].stamp.value.time
  {
    TimesInOrder(ps[..|ps| - 1]);
  }

  lemma FirstsSnoc(ts: seq<Option<int>>, t: Option<int>)
    ensures Firsts(ts + [t]) == Firsts(ts) + if FirstAt(ts + [t], |ts|) then {|ts|} else {}
  {
    assert forall i :: 0 <= i < |ts| ==> (ts + [t])[..i] == ts[..i];
  }

  lemma {:induction false} ChargeOfPrefix(ps: seq<Pulse>, k: nat)
    requires k < |ps|
    ensures ChargeOf(ps[..|ps| - 1], k) == ChargeOf(ps, k)
  {
    if k > 0 {
      var n := |ps| - 1;
      ChargeOfPrefix(ps, k - 1);
      FirstsSnoc(Times(ps[..n]), Times(ps)[n]);
      assert k - 1 in IntegratedFirsts(ps) <==> k - 1 in IntegratedFirsts(ps[..n]);
    }
  }

  lemma IntegratedSnoc(ps: seq<Pulse>)
    requires ps != []
    ensures var n := |ps| - 1;
            |IntegratedFirsts(ps)| == |IntegratedFirsts(ps[..n])| + if FirstAt(Times(ps), n)
                && ps[n].integrated then 1 else 0
  {
    var n := |ps| - 1;
    FirstsSnoc(Times(ps[..n]), Times(ps)[n]);
    assert Times(ps) == Times(ps[..n]) + [Times(ps)[n]];
    IntegratedGrows(ps);
    MeetGrows(Firsts(Times(ps[..n])), Integrated(ps[..n]), n, FirstAt(Times(ps), n), ps[n].integrated);
  }

  lemma IntegratedGrows(ps: seq<Pulse>)
    requires ps != []
    ensures var n := |ps| - 1;
            Integrated(ps) == Integrated(ps[..n]) + if ps[n].integrated then {n} else {}
  {
  }

  lemma MeetGrows(a: set<nat>, b: set<nat>, n: nat, p: bool, q: bool)
    requires n !in a && n !in b
    ensures |(a + if p then {n} else {}) * (b + if q then {n} else {})| == |a * b| + if p && q then 1 else 0
  {
    assert (a + if p then {n} else {}) * (b + if q then {n} else {}) == a * b + if p && q then {n} else {};
    AddOne(a * b, n);
  }

  lemma AddOne<T>(s: set<T>, x: T)
    ensures |s + {x}| == |s| + if x in s then 0 else 1
  {
    if x in s { assert s + {x} == s; }
  }

  /** The pulse counter is the number of pulses whose first packet was integrated, and the
      integrated charge is the sum of the charges of those packets. */
  lemma {:induction false} PulsesCountFirsts(ps: seq<Pulse>)
    ensures Account(ps).pulses == |IntegratedFirsts(ps)|
    ensures Account(ps).charge == ChargeOf(ps, |ps|)
  {
    if ps == [] {
      assert IntegratedFirsts(ps) == {};
    } else {
      var n := |ps| - 1;
      PulsesCountFirsts(ps[..n]);
      NewPulseIsFirst(ps);
      IntegratedSnoc(ps);
      ChargeOfPrefix(ps, n);
      hide FirstAt, Times, Receive;
    }
  }

  /** Each pulse has one first packet. */
  lemma {:induction false} FirstsArePulses(ts: seq<Option<int>>)
    ensures |Firsts(ts)| == |PulseTimes(ts)|
  {
    if ts == [] {
      assert Firsts(ts) == {} && PulseTimes(ts) == {};
    } else {
      var n := |ts| - 1;
      FirstsArePulses(ts[..n]);
      PulseTimesSnoc(ts[..n], ts[n]);
      FirstsSnoc(ts[..n], ts[n]);
      assert ts == ts[..n] + [ts[n]];
      AddOne(Firsts(ts[..n]), n);
    }
  }

  lemma PulseTimesSnoc(ts: seq<Option<int>>, t: Option<int>)
    ensures |PulseTimes(ts + [t])| == |PulseTimes(ts)| + if FirstAt(ts + [t], |ts|) then 1 else 0
  {
    var live := t.Some? && t.value != 0;
    assert (ts + [t])[..|ts|] == ts;
    var ps, ps' := PulseTimes(ts), PulseTimes(ts + [t]);
    forall x
      ensures x in ps' <==> x in ps || (live && x == t.value)
    {
      assert live ==> (ts + [t])[|ts|].value in ps';
      if x in ps {
        var i :| 0 <= i < |ts| && ts[i].Some? && ts[i].value != 0 && ts[i].value == x;
        assert (ts + [t])[i].value in ps';
      }
    }
    assert ps' == ps + if live then {t.value} else {};
    if live { AddOne(ps, t.value); }
  }

  /** The counter is the number of distinct non-zero timestamps exactly when the first packet of
      each was integrated. */
  lemma PulsesAreDistinctTimes(ps: seq<Pulse>)
    ensures Account(ps).pulses <= |PulseTimes(Times(ps))|
    ensures Account(ps).pulses == |PulseTimes(Times(ps))|
            <==> forall i :: 0 <= i < |ps| && FirstAt(Times(ps), i) ==> ps[i].integrated
  {
    PulsesCountFirsts(ps);
    FirstsArePulses(Times(ps));
    SubsetSize(IntegratedFirsts(ps), Firsts(Times(ps)));
    if forall i :: 0 <= i < |ps| && FirstAt(Times(ps), i) ==> ps[i].integrated {
      assert IntegratedFirsts(ps) == Firsts(Times(ps));
    } else {
      var i :| 0 <= i < |ps| && FirstAt(Times(ps), i) && !ps[i].integrated;
      assert i in Firsts(Times(ps)) && i !in IntegratedFirsts(ps);
    }
  }

  lemma {:induction false} SubsetSize<T>(a: set<T>, b: set<T>)
    requires a <= b
    ensures |a| <= |b| && (|a| == |b| <==> a == b)
  {
    assert |b| == |a| + |b - a| by { assert b == a + (b - a); }
  }
}
