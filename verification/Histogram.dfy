/**
 The shared buffer under the event loop: the loop as folds over detectors and events, the
 declarative count it computes, the sums of one detector's regions, and one detector seen alone.
 */
module Histogram {
  import opened Base
  import opened Events
  import opened Arith

  /** One detector as the loop sees it: its lens and where its two regions start. */
  datatype View = View(lens: Lens, start: int, tofStart: int)

  /** Buffer cells and the plot index carried from one (event, detector) pair to the next. */
  datatype Tally = Tally(cells: seq<nat>, carry: int)

  /** `p_Data[i]++`. Outside the buffer the source is undefined; nothing is claimed there. */
  function Bump(cells: seq<nat>, i: int): (r: seq<nat>)
    ensures |r| == |cells|
  {
    if 0 <= i < |cells| then cells[i := cells[i] + 1] else cells
  }

  function BumpCell(cells: seq<nat>, base: int, c: Option<int>): (r: seq<nat>)
    ensures |r| == |cells|
  {
    if c.Some? then Bump(cells, base + c.value) else cells
  }

  function StrikeDet(t: Tally, v: View, e: Event): (r: Tally)
    ensures |r.cells| == |t.cells|
  {
    var pixel := BumpCell(t.cells, v.start, PixelCell(v.lens, e, t.carry));
    Tally(BumpCell(pixel, v.tofStart, TofCell(v.lens, e)), NextCarry(v.lens, e, t.carry))
  }

  function StrikeEvent(t: Tally, vs: seq<View>, e: Event): (r: Tally)
    ensures |r.cells| == |t.cells|
  {
    if vs == [] then t else StrikeDet(StrikeEvent(t, vs[..|vs| - 1], e), vs[|vs| - 1], e)
  }

  function StrikeAll(t: Tally, vs: seq<View>, es: seq<Event>): (r: Tally)
    ensures |r.cells| == |t.cells|
  {
    if es == [] then t else StrikeEvent(StrikeAll(t, vs, es[..|es| - 1]), vs, es[|es| - 1])
  }

  // ---------- where the loop is defined ----------

  /** What the source computes for the pair is defined, and the increment is inside the buffer. */
  predicate SafePixel(v: View, e: Event, carry: int, cells: nat) {
    && Defined(v.lens, e)
    && (PixelCell(v.lens, e, carry).Some? ==> 0 <= v.start + PixelCell(v.lens, e, carry).value < cells)
  }

  predicate SafeTof(v: View, e: Event, cells: nat) {
    && (InRange(v.lens, e) ==> ReadsMap(v.lens, e))
    && (TofCell(v.lens, e).Some? ==> 0 <= v.tofStart + TofCell(v.lens, e).value < cells)
  }

  /** Both increments of the pair. */
  predicate Safe(v: View, e: Event, carry: int, cells: nat) {
    SafePixel(v, e, carry, cells) && SafeTof(v, e, cells)
  }

  /** Every pair is safe with the plot index the loop carries to it. */
  predicate EventSafe(t: Tally, vs: seq<View>, e: Event) {
    vs != [] ==>
      var n := |vs| - 1;
      EventSafe(t, vs[..n], e) && Safe(vs[n], e, StrikeEvent(t, vs[..n], e).carry, |t.cells|)
  }

  predicate LoopSafe(t: Tally, vs: seq<View>, es: seq<Event>) {
    es != [] ==>
      var n := |es| - 1;
      LoopSafe(t, vs, es[..n]) && EventSafe(StrikeAll(t, vs, es[..n]), vs, es[n])
  }

  lemma {:induction false} EventSafeAt(t: Tally, vs: seq<View>, e: Event, k: nat)
    requires EventSafe(t, vs, e) && k < |vs|
    ensures Safe(vs[k], e, StrikeEvent(t, vs[..k], e).carry, |t.cells|)
  {
    hide Safe, StrikeEvent;
    var n := |vs| - 1;
    if k < n {
      EventSafeAt(t, vs[..n], e, k);
      assert vs[..n][..k] == vs[..k];
    }
  }

  lemma {:induction false} LoopSafeAt(t: Tally, vs: seq<View>, es: seq<Event>, i: nat)
    requires LoopSafe(t, vs, es) && i < |es|
    ensures EventSafe(StrikeAll(t, vs, es[..i]), vs, es[i])
  {
    hide EventSafe, StrikeAll;
    var n := |es| - 1;
    if i < n {
      LoopSafeAt(t, vs, es[..n], i);
      assert es[..n][..i] == es[..i];
    }
  }

  /** Every pair is safe; for detectors that do not show the carried index. */
  predicate AllSafe(vs: seq<View>, es: seq<Event>, cells: nat) {
    forall i, d :: 0 <= i < |es| && 0 <= d < |vs| ==> Safe(vs[d], es[i], 0, cells)
  }

  ghost predicate AllCarryFree(vs: seq<View>) {
    forall d :: 0 <= d < |vs| ==> CarryFree(vs[d].lens)
  }

  lemma AllSafeParts(vs: seq<View>, a: seq<Event>, b: seq<Event>, cells: nat)
    ensures AllSafe(vs, a + b, cells) <==> AllSafe(vs, a, cells) && AllSafe(vs, b, cells)
  {
    hide Safe;
    if AllSafe(vs, a + b, cells) {
      assert forall i :: 0 <= i < |a| ==> (a + b)[i] == a[i];
      assert forall i :: 0 <= i < |b| ==> (a + b)[|a| + i] == b[i];
    }
  }

  lemma SafeAnyCarry(v: View, e: Event, c1: int, c2: int, cells: nat)
    requires CarryFree(v.lens)
    ensures Safe(v, e, c1, cells) == Safe(v, e, c2, cells)
  {
    if Defined(v.lens, e) { CarryIsIrrelevant(v.lens, e, c1, c2); }
    hide PixelCell, TofCell, CarryFree, Defined;
  }

  lemma {:induction false} SafeEvent(t: Tally, vs: seq<View>, e: Event)
    requires AllCarryFree(vs) && AllSafe(vs, [e], |t.cells|)
    ensures EventSafe(t, vs, e)
  {
    hide Safe, CarryFree;
    if vs != [] {
      var n := |vs| - 1;
      SafeEvent(t, vs[..n], e);
      assert Safe(vs[n], [e][0], 0, |t.cells|);
      SafeAnyCarry(vs[n], e, 0, StrikeEvent(t, vs[..n], e).carry, |t.cells|);
    }
  }

  lemma {:induction false} SafeLoop(t: Tally, vs: seq<View>, es: seq<Event>)
    requires AllCarryFree(vs) && AllSafe(vs, es, |t.cells|)
    ensures LoopSafe(t, vs, es)
  {
    hide Safe, CarryFree;
    if es != [] {
      var n := |es| - 1;
      SafeLoop(t, vs, es[..n]);
      SafeEvent(StrikeAll(t, vs, es[..n]), vs, es[n]);
    }
  }

  // ---------- the declarative count ----------

  predicate HitBy(inTof: bool, v: View, e: Event, cell: int) {
    if inTof then TofCell(v.lens, e).Some? && v.tofStart + TofCell(v.lens, e).value == cell
    else PixelCell(v.lens, e, 0).Some? && v.start + PixelCell(v.lens, e, 0).value == cell
  }

  /** The (event, detector) pairs that hit a cell through the pixel (or TOF) increment. */
  function Hitters(inTof: bool, vs: seq<View>, es: seq<Event>, cell: int): set<(int, int)> {
    set i, d | 0 <= i < |es| && 0 <= d < |vs| && HitBy(inTof, vs[d], es[i], cell) :: (i, d)
  }

  /** The pairs up to event i, and of event i up to detector d. */
  function HittersBefore(inTof: bool, vs: seq<View>, es: seq<Event>, cell: int, i: int, d: int): set<(int, int)> {
    set p | p in Hitters(inTof, vs, es, cell) && (p.0 < i || (p.0 == i && p.1 < d))
  }

  lemma HittersStep(inTof: bool, vs: seq<View>, es: seq<Event>, cell: int, i: nat, d: nat)
    requires i < |es| && d < |vs|
    ensures |HittersBefore(inTof, vs, es, cell, i, d + 1)|
         == |HittersBefore(inTof, vs, es, cell, i, d)| + if HitBy(inTof, vs[d], es[i], cell) then 1 else 0
  {
    assert (i, d) in Hitters(inTof, vs, es, cell) <==> HitBy(inTof, vs[d], es[i], cell) by { hide HitBy; }
    hide Hitters, HitBy;
    var h, h' := HittersBefore(inTof, vs, es, cell, i, d), HittersBefore(inTof, vs, es, cell, i, d + 1);
    assert h' == h + if HitBy(inTof, vs[d], es[i], cell) then {(i, d)} else {};
  }

  lemma StrikeDetCell(t: Tally, v: View, e: Event, cell: nat)
    requires CarryFree(v.lens) && Safe(v, e, 0, |t.cells|) && cell < |t.cells|
    ensures StrikeDet(t, v, e).cells[cell]
         == t.cells[cell] + (if HitBy(false, v, e, cell) then 1 else 0) + (if HitBy(true, v, e, cell) then 1 else 0)
  {
    CarryIsIrrelevant(v.lens, e, t.carry, 0);
  }

  lemma {:induction false} EventCounts(t: Tally, vs: seq<View>, es: seq<Event>, i: nat, d: nat, cell: nat)
    requires AllCarryFree(vs) && AllSafe(vs, es, |t.cells|) && cell < |t.cells| && i < |es| && d <= |vs|
    ensures StrikeEvent(StrikeAll(t, vs, es[..i]), vs[..d], es[i]).cells[cell]
         == t.cells[cell] + |HittersBefore(false, vs, es, cell, i, d)| + |HittersBefore(true, vs, es, cell, i, d)|
    decreases i, d + 1
  {
    if d == 0 {
      AllCounts(t, vs, es, i, cell);
    } else {
      EventCounts(t, vs, es, i, d - 1, cell);
      HittersStep(false, vs, es, cell, i, d - 1);
      HittersStep(true, vs, es, cell, i, d - 1);
      assert vs[..d][..d - 1] == vs[..d - 1];
      var before := StrikeEvent(StrikeAll(t, vs, es[..i]), vs[..d - 1], es[i]);
      StrikeDetCell(before, vs[d - 1], es[i], cell);
    }
  }

  lemma {:induction false} AllCounts(t: Tally, vs: seq<View>, es: seq<Event>, i: nat, cell: nat)
    requires AllCarryFree(vs) && AllSafe(vs, es, |t.cells|) && cell < |t.cells| && i <= |es|
    ensures StrikeAll(t, vs, es[..i]).cells[cell]
         == t.cells[cell] + |HittersBefore(false, vs, es, cell, i, 0)| + |HittersBefore(true, vs, es, cell, i, 0)|
    decreases i, 0
  {
    if i == 0 {
      assert HittersBefore(false, vs, es, cell, 0, 0) == {} == HittersBefore(true, vs, es, cell, 0, 0);
    } else {
      hide HitBy;
      EventCounts(t, vs, es, i - 1, |vs|, cell);
      assert es[..i][..i - 1] == es[..i - 1] && vs[..|vs|] == vs;
      assert HittersBefore(false, vs, es, cell, i, 0) == HittersBefore(false, vs, es, cell, i - 1, |vs|);
      assert HittersBefore(true, vs, es, cell, i, 0) == HittersBefore(true, vs, es, cell, i - 1, |vs|);
    }
  }

  /** The in-place loop adds to every cell the number of (event, detector) pairs that hit it. */
  lemma LoopCountsHits(t: Tally, vs: seq<View>, es: seq<Event>, cell: nat)
    requires AllCarryFree(vs) && AllSafe(vs, es, |t.cells|) && cell < |t.cells|
    ensures StrikeAll(t, vs, es).cells[cell]
         == t.cells[cell] + |Hitters(false, vs, es, cell)| + |Hitters(true, vs, es, cell)|
  {
    hide HitBy;
    AllCounts(t, vs, es, |es|, cell);
    assert es[..|es|] == es;
    assert HittersBefore(false, vs, es, cell, |es|, 0) == Hitters(false, vs, es, cell);
    assert HittersBefore(true, vs, es, cell, |es|, 0) == Hitters(true, vs, es, cell);
  }

  // ---------- order and grouping of events ----------

  lemma {:induction false} StrikeAllConcat(t: Tally, vs: seq<View>, a: seq<Event>, b: seq<Event>)
    ensures StrikeAll(t, vs, a + b) == StrikeAll(StrikeAll(t, vs, a), vs, b)
  {
    if b == [] {
      assert a + b == a;
    } else {
      StrikeAllConcat(t, vs, a, b[..|b| - 1]);
      assert (a + b)[..|a + b| - 1] == a + b[..|b| - 1];
    }
  }

  /** A count added up over events. */
  function SumOf(f: Event -> nat, es: seq<Event>): nat {
    if es == [] then 0 else SumOf(f, es[..|es| - 1]) + f(es[|es| - 1])
  }

  lemma {:induction false} SumOfConcat(f: Event -> nat, a: seq<Event>, b: seq<Event>)
    ensures SumOf(f, a + b) == SumOf(f, a) + SumOf(f, b)
  {
    if b == [] {
      assert a + b == a;
    } else {
      SumOfConcat(f, a, b[..|b| - 1]);
      assert (a + b)[..|a + b| - 1] == a + b[..|b| - 1];
    }
  }

  lemma {:induction false} SumOfWithout(f: Event -> nat, es: seq<Event>, j: nat)
    requires j < |es|
    ensures SumOf(f, es) == SumOf(f, es[..j] + es[j + 1..]) + f(es[j])
  {
    var n := |es| - 1;
    if j == n {
      assert es[..j] + es[j + 1..] == es[..n];
    } else {
      SumOfWithout(f, es[..n], j);
      assert (es[..j] + es[j + 1..])[..n - 1] == es[..n][..j] + es[..n][j + 1..];
    }
  }

  lemma {:induction false} SumOfIsOrderFree(f: Event -> nat, a: seq<Event>, b: seq<Event>)
    requires multiset(a) == multiset(b)
    ensures SumOf(f, a) == SumOf(f, b)
    decreases |a|
  {
    if a == [] {
      assert |multiset(b)| == 0;
    } else {
      var j := RemoveOne(a, b);
      SumOfIsOrderFree(f, a[..|a| - 1], b[..j] + b[j + 1..]);
      SumOfWithout(f, b, j);
    }
  }

  /** Where in b the last event of a is, and that the rest of a and b agree. */
  lemma RemoveOne(a: seq<Event>, b: seq<Event>) returns (j: nat)
    requires multiset(a) == multiset(b) && a != []
    ensures j < |b| && b[j] == a[|a| - 1]
    ensures multiset(a[..|a| - 1]) == multiset(b[..j] + b[j + 1..])
  {
    var e, prior := a[|a| - 1], a[..|a| - 1];
    assert a == prior + [e];
    assert e in multiset(b);
    j :| 0 <= j < |b| && b[j] == e;
    assert b == b[..j] + [e] + b[j + 1..];
    assert multiset(prior) == multiset(a) - multiset{e};
    assert multiset(b[..j] + b[j + 1..]) == multiset(b) - multiset{e};
  }

  /** The increments one event makes to a cell do not depend on the state. */
  function EventGain(vs: seq<View>, cell: int): Event -> nat {
    e => |Hitters(false, vs, [e], cell)| + |Hitters(true, vs, [e], cell)|
  }

  lemma {:induction false} StrikeAllGains(t: Tally, vs: seq<View>, es: seq<Event>, cell: nat)
    requires AllCarryFree(vs) && AllSafe(vs, es, |t.cells|) && cell < |t.cells|
    ensures StrikeAll(t, vs, es).cells[cell] == t.cells[cell] + SumOf(EventGain(vs, cell), es)
  {
    hide Safe, CarryFree;
    if es != [] {
      var prior, e := es[..|es| - 1], es[|es| - 1];
      AllSafeParts(vs, prior, [e], |t.cells|);
      assert prior + [e] == es;
      StrikeAllGains(t, vs, prior, cell);
      LoopCountsHits(StrikeAll(t, vs, prior), vs, [e], cell);
      StrikeAllConcat(t, vs, prior, [e]);
      hide StrikeAll, Hitters;
    }
  }

  /** Reordering the events leaves the same buffer. */
  lemma LoopIsOrderFree(t: Tally, vs: seq<View>, a: seq<Event>, b: seq<Event>)
    requires AllCarryFree(vs) && multiset(a) == multiset(b)
    requires AllSafe(vs, a, |t.cells|) && AllSafe(vs, b, |t.cells|)
    ensures StrikeAll(t, vs, a).cells == StrikeAll(t, vs, b).cells
  {
    forall cell | 0 <= cell < |t.cells|
      ensures StrikeAll(t, vs, a).cells[cell] == StrikeAll(t, vs, b).cells[cell]
    {
      StrikeAllGains(t, vs, a, cell);
      StrikeAllGains(t, vs, b, cell);
      SumOfIsOrderFree(EventGain(vs, cell), a, b);
    }
  }

  /** Splitting a packet in two, which resets the carried index, leaves the same buffer. */
  lemma LoopIsSplittable(t: Tally, vs: seq<View>, a: seq<Event>, b: seq<Event>)
    requires AllCarryFree(vs) && AllSafe(vs, a + b, |t.cells|)
    ensures StrikeAll(Tally(StrikeAll(t, vs, a).cells, 0), vs, b).cells == StrikeAll(t, vs, a + b).cells
  {
    hide AllSafe, AllCarryFree, StrikeAll, EventGain;
    AllSafeParts(vs, a, b, |t.cells|);
    var mid := Tally(StrikeAll(t, vs, a).cells, 0);
    forall cell | 0 <= cell < |t.cells|
      ensures StrikeAll(mid, vs, b).cells[cell] == StrikeAll(t, vs, a + b).cells[cell]
    {
      StrikeAllGains(t, vs, a, cell);
      StrikeAllGains(mid, vs, b, cell);
      StrikeAllGains(t, vs, a + b, cell);
      SumOfConcat(EventGain(vs, cell), a, b);
    }
  }

  /** A detector with two pixels and a pixel/TOF plot, and one with plot type 4, which is not offered. */
  function PlottedExample(): View {
    View(Lens(Config(0, 1, 10, 3, 1, 0, 0, 0, 0, 0, 0.0, 1.0, 0, 0, 0, 0, 1, 0), 1, None, (_, _, _) => 0.0), 0, 10)
  }

  function StaleExample(): View {
    View(Lens(Config(5, 5, 10, 4, 1, 0, 0, 0, 0, 0, 0.0, 1.0, 0, 0, 0, 0, 1, 0), 1, None, (_, _, _) => 0.0), 0, 10)
  }

  lemma PlottedIndex(l: Lens, e: Event)
    requires InRange(l, e) && e.tof == 0 && l.cfg.transType == 0 && l.cfg.mapOn == 0
    requires l.tofMax >= 1 && l.cfg.plotType == 3 && l.cfg.tofBins == 1
    ensures TofValue(l, e) == 0.0 && MappedIndex(l, e) == Offset(l, e)
    ensures TofIndex(l, MappedIndex(l, e), TofValue(l, e), 0) == Offset(l, e)
  {
    FirstBin(l);
    hide Bin, BinWidth;
    assert Bins(l) == 1;
  }

  /** What a pixel/TOF plot with one bin makes of an event with TOF 0. */
  lemma PlottedCell(l: Lens, e: Event)
    requires InRange(l, e) && e.tof == 0 && l.cfg.transType == 0 && l.cfg.mapOn == 0 && l.cfg.roiOn == 0
    requires l.tofMax >= 1 && l.cfg.plotType == 3 && l.cfg.tofBins == 1 && l.cfg.tofRoiOn == 0
    requires Offset(l, e) < l.cfg.pixelSize - 1
    ensures PixelCell(l, e, 0) == Some(Offset(l, e)) && NextCarry(l, e, 0) == Offset(l, e) && TofCell(l, e) == Some(0)
  {
    PlottedIndex(l, e);
    hide TofIndex, TofValue, MappedIndex;
  }

  lemma PlottedFacts()
    ensures var v := PlottedExample(); var l := v.lens;
            && v.start == 0 && v.tofStart == 10 && CarryFree(l) && UsableLens(l)
            && PixelCell(l, Event(1, 0), 0) == Some(1) && NextCarry(l, Event(1, 0), 0) == 1
            && TofCell(l, Event(1, 0)) == Some(0) && !InRange(l, Event(5, 0))
  {
    hide PixelCell, NextCarry, TofCell;
    PlottedCell(PlottedExample().lens, Event(1, 0));
  }

  lemma FirstBin(l: Lens)
    requires l.tofMax >= 1
    ensures Bin(l, 0.0) == 0
  {
    FloorBelow(0.0, BinWidth(l), 1);
  }

  lemma StaleFacts(c: nat)
    requires c < 9
    ensures var v := StaleExample(); var l := v.lens;
            && v.start == 0 && v.tofStart == 10 && UsableLens(l) && l.cfg.plotType == 4
            && PixelCell(l, Event(5, 0), c) == Some(c) && NextCarry(l, Event(5, 0), c) == c
            && TofCell(l, Event(5, 0)) == Some(0) && !InRange(l, Event(1, 0))
  {
  }

  /** Two detectors for which everything is defined, one with an offered plot and one with plot type
      4: the order of two events shows in the buffer. */
  lemma StalePlotTypeIsOrderDependent()
    ensures exists t: Tally, v: View, w: View, a: Event, b: Event ::
              && UsableLens(v.lens) && UsableLens(w.lens) && CarryFree(v.lens) && w.lens.cfg.plotType == 4
              && LoopSafe(t, [v, w], [a, b]) && LoopSafe(t, [v, w], [b, a])
              && StrikeAll(t, [v, w], [a, b]).cells != StrikeAll(t, [v, w], [b, a]).cells
  {
    hide *;
    var t := Tally(seq(12, _ => 0), 0);
    PlottedFacts();
    StaleFacts(0);
    StaleFacts(1);
    var v, w, a, b := PlottedExample(), StaleExample(), Event(1, 0), Event(5, 0);
    OrderShows(t, v, w, a, b);
    ExampleIsSafe(t, v, w, a, b);
  }

  lemma ExampleIsSafe(t: Tally, v: View, w: View, a: Event, b: Event)
    requires |t.cells| == 12 && t.carry == 0 && UsableLens(v.lens) && UsableLens(w.lens)
    requires v.start == 0 == w.start && v.tofStart == 10 == w.tofStart
    requires PixelCell(v.lens, a, 0) == Some(1) && NextCarry(v.lens, a, 0) == 1 && TofCell(v.lens, a) == Some(0)
    requires PixelCell(w.lens, b, 1) == Some(1) && PixelCell(w.lens, b, 0) == Some(0)
    requires TofCell(w.lens, b) == Some(0) && NextCarry(w.lens, b, 0) == 0
    requires !InRange(w.lens, a) && !InRange(v.lens, b)
    ensures LoopSafe(t, [v, w], [a, b]) && LoopSafe(t, [v, w], [b, a])
  {
    CellsInside(v.lens, a, 0, v.lens.cfg.pixelSize);
    CellsInside(w.lens, b, 0, w.lens.cfg.pixelSize);
    hide UsableLens, Defined;
    TwoSafe(t, v, w, a, b);
    TwoSafe(t, v, w, b, a);
  }

  lemma TwoSafe(t: Tally, v: View, w: View, a: Event, b: Event)
    ensures var va := StrikeDet(t, v, a); var wa := StrikeDet(va, w, a); var vb := StrikeDet(wa, v, b);
            LoopSafe(t, [v, w], [a, b]) ==
            (&& Safe(v, a, t.carry, |t.cells|) && Safe(w, a, va.carry, |t.cells|)
             && Safe(v, b, wa.carry, |t.cells|) && Safe(w, b, vb.carry, |t.cells|))
  {
    hide Safe, StrikeDet;
    assert [a, b][..1] == [a] && [a][..0] == [];
    PairSafe(t, v, w, a);
    TwoDetectors(t, v, w, a);
    assert StrikeAll(t, [v, w], [a]) == StrikeEvent(StrikeAll(t, [v, w], []), [v, w], a);
    PairSafe(StrikeEvent(t, [v, w], a), v, w, b);
    assert LoopSafe(t, [v, w], [a]) == (LoopSafe(t, [v, w], []) && EventSafe(t, [v, w], a));
  }

  lemma PairSafe(t: Tally, v: View, w: View, e: Event)
    ensures EventSafe(t, [v, w], e)
         == (Safe(v, e, t.carry, |t.cells|) && Safe(w, e, StrikeDet(t, v, e).carry, |t.cells|))
  {
    hide Safe, StrikeDet;
    assert [v, w][..1] == [v] && [v][..0] == [];
    assert StrikeEvent(t, [v], e) == StrikeDet(StrikeEvent(t, [], e), v, e);
    assert EventSafe(t, [v], e) == (EventSafe(t, [], e) && Safe(v, e, t.carry, |t.cells|));
  }

  lemma OrderShows(t: Tally, v: View, w: View, a: Event, b: Event)
    requires |t.cells| == 12 && t.carry == 0 && t.cells[1] == 0
    requires v.start == 0 == w.start && v.tofStart == 10 == w.tofStart
    requires PixelCell(v.lens, a, 0) == Some(1) && NextCarry(v.lens, a, 0) == 1 && TofCell(v.lens, a) == Some(0)
    requires PixelCell(w.lens, b, 1) == Some(1) && PixelCell(w.lens, b, 0) == Some(0)
    requires TofCell(w.lens, b) == Some(0) && NextCarry(w.lens, b, 0) == 0
    requires !InRange(w.lens, a) && !InRange(v.lens, b)
    ensures StrikeAll(t, [v, w], [a, b]).cells[1] == 2
    ensures StrikeAll(t, [v, w], [b, a]).cells[1] == 1
  {
    TwoEvents(t, v, w, a, b);
    TwoEvents(t, v, w, b, a);
    var va := StrikeDet(t, v, a);
    assert va.carry == 1 && va.cells[1] == 1;
    var wa := StrikeDet(va, w, a);
    assert wa == va;
    var vb := StrikeDet(wa, v, b);
    assert vb == wa;
    assert StrikeDet(vb, w, b).cells[1] == 2;
    var vb' := StrikeDet(t, v, b);
    assert vb' == t;
    var wb := StrikeDet(vb', w, b);
    assert wb.cells[1] == 0 && wb.carry == 0;
    var va' := StrikeDet(wb, v, a);
    assert va'.cells[1] == 1 && va'.carry == 1;
  }

  lemma TwoEvents(t: Tally, v: View, w: View, a: Event, b: Event)
    ensures StrikeAll(t, [v, w], [a, b])
         == StrikeDet(StrikeDet(StrikeDet(StrikeDet(t, v, a), w, a), v, b), w, b)
  {
    assert [a, b][..1] == [a] && [a][..0] == [];
    TwoDetectors(t, v, w, a);
    assert StrikeAll(t, [v, w], [a]) == StrikeEvent(StrikeAll(t, [v, w], []), [v, w], a);
    TwoDetectors(StrikeEvent(t, [v, w], a), v, w, b);
  }

  lemma TwoDetectors(t: Tally, v: View, w: View, e: Event)
    ensures StrikeEvent(t, [v, w], e) == StrikeDet(StrikeDet(t, v, e), w, e)
  {
    assert [v, w][..1] == [v] && [v][..0] == [];
    assert StrikeEvent(t, [v], e) == StrikeDet(StrikeEvent(t, [], e), v, e);
  }

  // ---------- sums over one region ----------

  function Sum(s: seq<nat>, lo: nat, hi: nat): nat
    requires lo <= hi <= |s|
  {
    if lo == hi then 0 else Sum(s, lo, hi - 1) + s[hi - 1]
  }

  lemma {:induction false} SumBump(s: seq<nat>, lo: nat, hi: nat, i: int)
    requires lo <= hi <= |s|
    ensures Sum(Bump(s, i), lo, hi) == Sum(s, lo, hi) + if lo <= i < hi then 1 else 0
  {
    if lo < hi { SumBump(s, lo, hi - 1, i); }
  }

  lemma {:induction false} SumZero(s: seq<nat>, lo: nat, hi: nat)
    requires lo <= hi <= |s| && forall i :: lo <= i < hi ==> s[i] == 0
    ensures Sum(s, lo, hi) == 0
  {
    if lo < hi { SumZero(s, lo, hi - 1); }
  }

  lemma {:induction false} SumMono(s: seq<nat>, s': seq<nat>, lo: nat, hi: nat)
    requires lo <= hi <= |s| == |s'| && forall i :: lo <= i < hi ==> s[i] <= s'[i]
    ensures Sum(s, lo, hi) <= Sum(s', lo, hi)
  {
    if lo < hi { SumMono(s, s', lo, hi - 1); }
  }

  function Into(base: int, c: Option<int>, lo: int, hi: int): nat {
    if c.Some? && lo <= base + c.value < hi then 1 else 0
  }

  /** How many of the two increments of one (event, detector) pair land in [lo, hi). */
  function Weight(v: View, e: Event, carry: int, lo: int, hi: int): nat {
    Into(v.start, PixelCell(v.lens, e, carry), lo, hi) + Into(v.tofStart, TofCell(v.lens, e), lo, hi)
  }

  /** Events in a detector's range. */
  function InRangeCount(l: Lens): Event -> nat {
    e => if InRange(l, e) then 1 else 0
  }

  function Matches(l: Lens, es: seq<Event>): nat {
    SumOf(InRangeCount(l), es)
  }

  lemma MatchesNone()
    ensures forall l: Lens :: Matches(l, []) == 0
  {
  }

  /** The detector never increments a cell of [lo, hi). */
  ghost predicate Quiet(v: View, lo: int, hi: int) {
    forall e: Event, carry: nat :: Weight(v, e, carry, lo, hi) == 0
  }

  /** The detector increments [lo, hi) at most once per event in its range. */
  ghost predicate AtMostOnce(v: View, lo: int, hi: int) {
    forall e: Event, carry: nat :: Weight(v, e, carry, lo, hi) <= if InRange(v.lens, e) then 1 else 0
  }

  /** The detector increments [lo, hi) exactly once per event in its range. */
  ghost predicate Always(v: View, lo: int, hi: int) {
    forall e: Event, carry: nat :: Weight(v, e, carry, lo, hi) == if InRange(v.lens, e) then 1 else 0
  }

  /** No detector of the list leaves a negative plot index behind. */
  ghost predicate Rising(vs: seq<View>) {
    forall j :: 0 <= j < |vs| ==> Rises(vs[j].lens)
  }

  ghost predicate Rises(l: Lens) {
    forall e: Event, carry: nat :: 0 <= NextCarry(l, e, carry)
  }

  lemma ConfinedRises(l: Lens, b: int)
    requires Confined(l, b)
    ensures Rises(l)
  {
    forall e: Event, carry: nat
      ensures 0 <= NextCarry(l, e, carry)
    {
      CellsInside(l, e, carry, b);
    }
  }

  lemma {:induction false} CarryRises(t: Tally, vs: seq<View>, e: Event)
    requires Rising(vs) && 0 <= t.carry
    ensures 0 <= StrikeEvent(t, vs, e).carry
  {
    hide NextCarry, PixelCell, TofCell;
    if vs != [] {
      var n := |vs| - 1;
      CarryRises(t, vs[..n], e);
      assert Rises(vs[n].lens);
    }
  }

  lemma {:induction false} CarryRisesAll(t: Tally, vs: seq<View>, es: seq<Event>)
    requires Rising(vs) && 0 <= t.carry
    ensures 0 <= StrikeAll(t, vs, es).carry
  {
    if es != [] {
      var n := |es| - 1;
      CarryRisesAll(t, vs, es[..n]);
      CarryRises(StrikeAll(t, vs, es[..n]), vs, es[n]);
    }
  }

  /** Only detector k of the list (if it is in the list at all) increments [lo, hi). */
  ghost predicate OnlyOne(vs: seq<View>, k: nat, lo: int, hi: int) {
    && Rising(vs)
    && (forall j :: 0 <= j < |vs| && j != k ==> Quiet(vs[j], lo, hi))
    && (k < |vs| ==> AtMostOnce(vs[k], lo, hi))
  }

  lemma StrikeDetSum(t: Tally, v: View, e: Event, lo: nat, hi: nat)
    requires lo <= hi <= |t.cells|
    ensures Sum(StrikeDet(t, v, e).cells, lo, hi) == Sum(t.cells, lo, hi) + Weight(v, e, t.carry, lo, hi)
  {
    var pixel, tof := PixelCell(v.lens, e, t.carry), TofCell(v.lens, e);
    var mid := BumpCell(t.cells, v.start, pixel);
    if pixel.Some? { SumBump(t.cells, lo, hi, v.start + pixel.value); }
    if tof.Some? { SumBump(mid, lo, hi, v.tofStart + tof.value); }
  }

  lemma {:induction false} StrikeEventSum(t: Tally, vs: seq<View>, e: Event, k: nat, lo: nat, hi: nat)
    requires lo <= hi <= |t.cells| && OnlyOne(vs, k, lo, hi) && 0 <= t.carry
    ensures var gain := Sum(StrikeEvent(t, vs, e).cells, lo, hi) - Sum(t.cells, lo, hi);
            && 0 <= gain <= (if k < |vs| && InRange(vs[k].lens, e) then 1 else 0)
            && (k < |vs| && Always(vs[k], lo, hi) && InRange(vs[k].lens, e) ==> gain == 1)
  {
    if vs != [] {
      var n := |vs| - 1;
      StrikeEventSum(t, vs[..n], e, k, lo, hi);
      CarryRises(t, vs[..n], e);
      var before := StrikeEvent(t, vs[..n], e);
      StrikeDetSum(before, vs[n], e, lo, hi);
      assert n != k ==> Weight(vs[n], e, before.carry, lo, hi) == 0;
    }
  }

  /** Over a packet, a region grows by at most the events in range of its own detector. */
  lemma {:induction false} StrikeAllSum(t: Tally, vs: seq<View>, es: seq<Event>, k: nat, lo: nat, hi: nat)
    requires lo <= hi <= |t.cells| && OnlyOne(vs, k, lo, hi) && 0 <= t.carry
    ensures var gain := Sum(StrikeAll(t, vs, es).cells, lo, hi) - Sum(t.cells, lo, hi);
            && 0 <= gain <= (if k < |vs| then Matches(vs[k].lens, es) else 0)
            && (k < |vs| && Always(vs[k], lo, hi) ==> gain == Matches(vs[k].lens, es))
  {
    if es != [] {
      var n := |es| - 1;
      StrikeAllSum(t, vs, es[..n], k, lo, hi);
      CarryRisesAll(t, vs, es[..n]);
      StrikeEventSum(StrikeAll(t, vs, es[..n]), vs, es[n], k, lo, hi);
    }
  }

  /** Events in a detector's range with a TOF on scale. */
  function OnScaleCount(l: Lens): Event -> nat {
    e => if InRange(l, e) && TofOnScale(l, TofValue(l, e)) then 1 else 0
  }

  /** Every event in range and on scale increments one of two stretches. */
  ghost predicate Keeps(v: View, lo: int, hi: int, lo': int, hi': int) {
    forall e: Event, carry: nat :: Weight(v, e, carry, lo, hi) + Weight(v, e, carry, lo', hi')
        >= OnScaleCount(v.lens)(e)
  }

  lemma {:induction false} StrikeEventKeeps(t: Tally, vs: seq<View>, e: Event, k: nat, lo: nat, hi: nat, lo': nat,
      hi': nat)
    requires lo <= hi <= |t.cells| && lo' <= hi' <= |t.cells| && Rising(vs) && 0 <= t.carry
    requires k < |vs| ==> Keeps(vs[k], lo, hi, lo', hi')
    ensures var r := StrikeEvent(t, vs, e).cells;
            Sum(r, lo, hi) + Sum(r, lo', hi')
            >= Sum(t.cells, lo, hi) + Sum(t.cells, lo', hi') + if k < |vs| then OnScaleCount(vs[k].lens)(e) else 0
  {
    hide Weight, StrikeDet, OnScaleCount;
    if vs != [] {
      var n := |vs| - 1;
      StrikeEventKeeps(t, vs[..n], e, k, lo, hi, lo', hi');
      CarryRises(t, vs[..n], e);
      var before := StrikeEvent(t, vs[..n], e);
      StrikeDetSum(before, vs[n], e, lo, hi);
      StrikeDetSum(before, vs[n], e, lo', hi');
    }
  }

  /** Over a packet the two stretches together grow by at least the events of detector k that are on scale. */
  lemma {:induction false} StrikeAllKeeps(t: Tally, vs: seq<View>, es: seq<Event>, k: nat, lo: nat, hi: nat,
      lo': nat, hi': nat)
    requires lo <= hi <= |t.cells| && lo' <= hi' <= |t.cells| && Rising(vs) && 0 <= t.carry
    requires k < |vs| && Keeps(vs[k], lo, hi, lo', hi')
    ensures var r := StrikeAll(t, vs, es).cells;
            Sum(r, lo, hi) + Sum(r, lo', hi')
            >= Sum(t.cells, lo, hi) + Sum(t.cells, lo', hi') + SumOf(OnScaleCount(vs[k].lens), es)
  {
    hide Keeps, OnScaleCount, StrikeEvent, Sum;
    if es != [] {
      var n := |es| - 1;
      StrikeAllKeeps(t, vs, es[..n], k, lo, hi, lo', hi');
      CarryRisesAll(t, vs, es[..n]);
      StrikeEventKeeps(StrikeAll(t, vs, es[..n]), vs, es[n], k, lo, hi, lo', hi');
    }
  }

  // ---------- one detector alone ----------

  /** The two regions of one detector: `size` pixel cells and `tofMax + 1` TOF cells, apart from each other. */
  predicate Placed(v: View, size: nat, cells: int) {
    && 0 <= v.start && v.start + size <= cells
    && 0 <= v.tofStart && v.tofStart + v.lens.tofMax < cells
    && (v.start + size <= v.tofStart || v.tofStart + v.lens.tofMax < v.start)
  }

  function PixelRegion(cells: seq<nat>, v: View, size: nat): seq<nat>
    requires Placed(v, size, |cells|)
  {
    cells[v.start..v.start + size]
  }

  function TofRegion(cells: seq<nat>, v: View, size: nat): seq<nat>
    requires Placed(v, size, |cells|)
  {
    cells[v.tofStart..v.tofStart + v.lens.tofMax + 1]
  }

  /** Both regions of v in `a` read the same as those of w in `b`. */
  predicate SameRegions(a: seq<nat>, v: View, b: seq<nat>, w: View, size: nat)
    requires Placed(v, size, |a|) && Placed(w, size, |b|)
  {
    PixelRegion(a, v, size) == PixelRegion(b, w, size) && TofRegion(a, v, size) == TofRegion(b, w, size)
  }

  /** The detector reaches neither region of v. */
  ghost predicate Avoids(other: View, v: View, size: nat) {
    && Quiet(other, v.start, v.start + size)
    && Quiet(other, v.tofStart, v.tofStart + v.lens.tofMax + 1)
  }

  ghost predicate Undisturbed(vs: seq<View>, k: nat, size: nat)
    requires k < |vs|
  {
    Rising(vs) && forall j :: 0 <= j < |vs| && j != k ==> Avoids(vs[j], vs[k], size)
  }

  lemma SliceBump(s: seq<nat>, base: int, c: Option<int>, lo: nat, hi: nat)
    requires lo <= hi <= |s|
    ensures BumpCell(s, base, c)[lo..hi]
         == if Into(base, c, lo, hi) == 1 then Bump(s[lo..hi], base + c.value - lo) else s[lo..hi]
  {
  }

  /** The slice [lo, hi) after one pixel and one TOF increment. */
  lemma SliceOfTwo(s: seq<nat>, a: int, c: Option<int>, b: int, d: Option<int>, lo: nat, hi: nat)
    requires lo <= hi <= |s|
    ensures var r := BumpCell(BumpCell(s, a, c), b, d)[lo..hi];
            && (Into(a, c, lo, hi) == 0 && Into(b, d, lo, hi) == 0 ==> r == s[lo..hi])
            && (a == lo && (c.Some? ==> a <= a + c.value < hi) && Into(b, d, lo, hi) == 0 ==>
               r == BumpCell(s[lo..hi], 0, c))
            && (b == lo && (d.Some? ==> b <= b + d.value < hi) && Into(a, c, lo, hi) == 0 ==>
               r == BumpCell(s[lo..hi], 0, d))
  {
    SliceBump(s, a, c, lo, hi);
    SliceBump(BumpCell(s, a, c), b, d, lo, hi);
  }

  lemma AvoidsKeeps(t: Tally, other: View, e: Event, v: View, size: nat)
    requires Placed(v, size, |t.cells|) && Avoids(other, v, size) && 0 <= t.carry
    ensures SameRegions(StrikeDet(t, other, e).cells, v, t.cells, v, size)
  {
    var pixel, tof := PixelCell(other.lens, e, t.carry), TofCell(other.lens, e);
    var p, q := v.start + size, v.tofStart + v.lens.tofMax + 1;
    assert Weight(other, e, t.carry, v.start, p) == 0 && Weight(other, e, t.carry, v.tofStart, q) == 0;
    SliceOfTwo(t.cells, other.start, pixel, other.tofStart, tof, v.start, p);
    SliceOfTwo(t.cells, other.start, pixel, other.tofStart, tof, v.tofStart, q);
  }

  /** Seen from its own regions, a detector's increments do not depend on where the regions are. */
  lemma OwnRegions(t: Tally, v: View, e: Event, size: nat)
    requires CarryFree(v.lens) && Confined(v.lens, size) && Placed(v, size, |t.cells|)
    ensures PixelRegion(StrikeDet(t, v, e).cells, v, size)
         == BumpCell(PixelRegion(t.cells, v, size), 0, PixelCell(v.lens, e, 0))
    ensures TofRegion(StrikeDet(t, v, e).cells, v, size)
         == BumpCell(TofRegion(t.cells, v, size), 0, TofCell(v.lens, e))
  {
    CellsInside(v.lens, e, 0, size);
    CarryIsIrrelevant(v.lens, e, t.carry, 0);
    hide PixelCell, TofCell, Confined, CarryFree;
    OwnSlices(t.cells, v, PixelCell(v.lens, e, t.carry), TofCell(v.lens, e), size);
  }

  lemma OwnSlices(s: seq<nat>, v: View, c: Option<int>, d: Option<int>, size: nat)
    requires Placed(v, size, |s|)
    requires c.Some? ==> 0 <= c.value < size
    requires d.Some? ==> 0 <= d.value <= v.lens.tofMax
    ensures var r := BumpCell(BumpCell(s, v.start, c), v.tofStart, d);
            && PixelRegion(r, v, size) == BumpCell(PixelRegion(s, v, size), 0, c)
            && TofRegion(r, v, size) == BumpCell(TofRegion(s, v, size), 0, d)
  {
    SliceOfTwo(s, v.start, c, v.tofStart, d, v.start, v.start + size);
    SliceOfTwo(s, v.start, c, v.tofStart, d, v.tofStart, v.tofStart + v.lens.tofMax + 1);
  }

  lemma {:induction false} AllAvoidKeep(t: Tally, vs: seq<View>, e: Event, v: View, size: nat)
    requires Placed(v, size, |t.cells|) && Rising(vs) && 0 <= t.carry
    requires forall j :: 0 <= j < |vs| ==> Avoids(vs[j], v, size)
    ensures SameRegions(StrikeEvent(t, vs, e).cells, v, t.cells, v, size)
  {
    hide StrikeDet, PixelRegion, TofRegion, Quiet;
    if vs != [] {
      var n := |vs| - 1;
      AllAvoidKeep(t, vs[..n], e, v, size);
      CarryRises(t, vs[..n], e);
      AvoidsKeeps(StrikeEvent(t, vs[..n], e), vs[n], e, v, size);
    }
  }

  lemma {:induction false} LoopAvoids(t: Tally, vs: seq<View>, es: seq<Event>, v: View, size: nat)
    requires Placed(v, size, |t.cells|) && Rising(vs) && 0 <= t.carry
    requires forall j :: 0 <= j < |vs| ==> Avoids(vs[j], v, size)
    ensures SameRegions(StrikeAll(t, vs, es).cells, v, t.cells, v, size)
  {
    hide Avoids, PixelRegion, TofRegion, StrikeEvent, Rising;
    if es != [] {
      var n := |es| - 1;
      LoopAvoids(t, vs, es[..n], v, size);
      CarryRisesAll(t, vs, es[..n]);
      AllAvoidKeep(StrikeAll(t, vs, es[..n]), vs, es[n], v, size);
    }
  }

  lemma {:induction false} EventAlone(t: Tally, vs: seq<View>, k: nat, u: Tally, w: View, e: Event, size: nat)
    requires k < |vs| && Undisturbed(vs, k, size) && w.lens == vs[k].lens && 0 <= t.carry
    requires CarryFree(w.lens) && Confined(w.lens, size)
    requires Placed(vs[k], size, |t.cells|) && Placed(w, size, |u.cells|)
             && SameRegions(t.cells, vs[k], u.cells, w, size)
    ensures SameRegions(StrikeEvent(t, vs, e).cells, vs[k], StrikeEvent(u, [w], e).cells, w, size)
  {
    hide StrikeDet, PixelRegion, TofRegion, Quiet, PixelCell, TofCell;
    var n, v := |vs| - 1, vs[k];
    var before := StrikeEvent(t, vs[..n], e);
    assert [w][..0] == [];
    if k == n {
      AllAvoidKeep(t, vs[..n], e, v, size);
      OwnRegions(before, v, e, size);
      OwnRegions(u, w, e, size);
    } else {
      EventAlone(t, vs[..n], k, u, w, e, size);
      CarryRises(t, vs[..n], e);
      AvoidsKeeps(before, vs[n], e, v, size);
    }
  }

  /** After any events, the regions of detector k are those of a loop over k alone, up to offset. */
  lemma {:induction false} DetectorAlone(t: Tally, vs: seq<View>, k: nat, u: Tally, w: View, es: seq<Event>, size: nat)
    requires k < |vs| && Undisturbed(vs, k, size) && w.lens == vs[k].lens && 0 <= t.carry
    requires CarryFree(w.lens) && Confined(w.lens, size)
    requires Placed(vs[k], size, |t.cells|) && Placed(w, size, |u.cells|)
             && SameRegions(t.cells, vs[k], u.cells, w, size)
    ensures SameRegions(StrikeAll(t, vs, es).cells, vs[k], StrikeAll(u, [w], es).cells, w, size)
  {
    if es != [] {
      var n := |es| - 1;
      DetectorAlone(t, vs, k, u, w, es[..n], size);
      CarryRisesAll(t, vs, es[..n]);
      EventAlone(StrikeAll(t, vs, es[..n]), vs, k, StrikeAll(u, [w], es[..n]), w, es[n], size);
    }
  }
}
