/**
 Loading a pixel map: exactly when a file is installed as the map of a detector, and how events are mapped by
 it from then on.
 */
module PixelMaps {
  import opened Base
  import opened Events
  import opened Histogram
  import opened Stream
  import opened Driver
  import opened Soundness
  import opened Acquisition
  import opened Runs
  import MapFile

  /** The values in a file that can be read: a count that is not 0, memory for as many, and lines that parse. */
  function Readable(f: File, memory: bool): Option<seq<nat>> {
    if f.Text? && memory && MapFile.SizeLine(f.text).Some? && MapFile.SizeLine(f.text).value > 0
    then MapFile.Load(f.text, MapFile.SizeLine(f.text).value)
    else None
  }

  /** A map is installed if and only if the file can be read and no entry exceeds the size; it is then the values
      read. The write is refused if and only if the file can be read and some entry does. Otherwise no map is
      left, whatever was there before. */
  lemma InstalledIff(m: PixelMap, size: Int32, f: File, memory: bool)
    ensures var (m', ok) := LoadMap(m, size, f, memory);
            var read := Readable(f, memory);
            var fits := read.Some? && forall i :: 0 <= i < |read.value| ==> read.value[i] <= U32(size);
            && (LoadedMap(m').Some? <==> fits) && (fits ==> LoadedMap(m') == read && m'.bound == U32(size))
            && (m'.entries.Some? <==> fits)
            && (!ok <==> read.Some? && exists i :: 0 <= i < |read.value| && read.value[i] > U32(size))
  {
    if Readable(f, memory).Some? { ReadIsFull(f, memory); }
    hide MapFile.Load, MapFile.SizeLine;
  }

  lemma ReadIsFull(f: File, memory: bool)
    requires Readable(f, memory).Some?
    ensures |Readable(f, memory).value| == MapFile.SizeLine(f.text).value > 0
  {
    hide MapFile.Entries, MapFile.SizeLine, MapFile.LineLength;
  }

  /** A printed file whose values do not exceed the size is installed as those values. */
  lemma PrintedMapInstalls(m: PixelMap, size: Int32, vs: seq<nat>, extra: string)
    requires 0 < |vs| < 0x1_0000_0000 && MapFile.Storable(vs)
    requires forall i :: 0 <= i < |vs| ==> vs[i] <= U32(size)
    ensures LoadMap(m, size, Text(MapFile.Print(vs) + extra), true) == (PixelMap(Some(vs), |vs|, U32(size)), true)
  {
    hide MapFile.Load, MapFile.SizeLine, MapFile.Print, MapFile.Storable;
    MapFile.RoundTrip(vs, extra);
  }

  // ---------- in runs ----------

  /** The step loads a map file for detector d. */
  predicate LoadsFor(l: Label, d: nat) {
    l.Client? && l.write.OnDet? && l.write.addr == d && l.write.write.LoadMapFile?
  }

  lemma WriteOnDetKeepsMap(s: State, a: nat, w: DetWrite, d: nat)
    requires Sound(s) && a < |s.dets| && d < |s.maps| && !(a == d && w.LoadMapFile?)
    ensures var t := WriteOnDet(s, a, w); d < |t.maps| && t.maps[d] == s.maps[d]
  {
    assert |s.maps| == |s.dets|;
    hide Sound, LoadMap;
  }

  lemma WriteKeepsMap(s: State, w: Write, d: nat)
    requires Sound(s) && d < |s.maps| && !LoadsFor(Client(w), d)
    ensures d < |ClientWrite(s, w).maps| && ClientWrite(s, w).maps[d] == s.maps[d]
  {
    match w {
      case AllocSpace(memory) =>
        AllocateKeepsMaps(s, memory);
        hide Sound, Allocate;
      case OnDet(a, dw) =>
        hide Sound, WriteOnDet;
        if a < |s.dets| { WriteOnDetKeepsMap(s, a, dw, d); }
      case _ => hide Sound, Allocate, WriteOnDet;
    }
  }

  lemma AllocateKeepsMaps(s: State, memory: bool)
    requires Shaped(s)
    ensures Allocate(s, memory).0.maps == s.maps
  {
    hide FirstBad, Sizes, PlacePixels, PlaceTofs;
  }

  lemma EventKeepsMaps(y: System, a: EventAct)
    requires Formed(y)
    ensures EventStep(y, a).s.maps == y.s.maps
  {
    if a.BeginAcquire? {
      BeginStateKeepsMaps(y.s, a.memory, a.connected);
      hide BeginState, Sound, Own;
    } else {
      hide Begin, Sound, Own;
    }
  }

  lemma BeginStateKeepsMaps(s: State, memory: bool, connected: bool)
    requires Sound(s)
    ensures BeginState(s, memory, connected).maps == s.maps
  {
    AllocateKeepsMaps(s, memory);
    hide Sound, Allocate;
  }

  lemma StepKeepsMap(y: System, l: Label, d: nat)
    requires Formed(y) && d < |y.s.maps| && !LoadsFor(l, d)
    ensures d < |Step(y, l).s.maps| && Step(y, l).s.maps[d] == y.s.maps[d]
  {
    hide Sound, ClientWrite, EventStep, HandlerStep;
    match l {
      case Client(w) => WriteKeepsMap(y.s, w, d);
      case OfEvent(a) => EventKeepsMaps(y, a);
      case OfFrame(a) =>
      case OfHandler(c, a) => HandlerKeepsMaps(y, c, a);
    }
  }

  lemma HandlerKeepsMaps(y: System, c: nat, a: HandlerAct)
    requires Formed(y)
    ensures HandlerStep(y, c, a).s.maps == y.s.maps
  {
    hide Sound, JobFormed, Receive, StrikeAll, NewTotals, Views, FirstNarrow;
  }

  lemma {:induction false} MapStays(y: System, ls: seq<Label>, d: nat)
    requires Formed(y) && Fresh(y) && d < |y.s.maps| && forall i :: 0 <= i < |ls| ==> !LoadsFor(ls[i], d)
    ensures d < |Run(y, ls).s.maps| && Run(y, ls).s.maps[d] == y.s.maps[d]
    decreases |ls|
  {
    hide Formed, Fresh, Step;
    if ls != [] {
      var n := |ls| - 1;
      MapStays(y, ls[..n], d);
      StepKeepsMap(Run(y, ls[..n]), ls[n], d);
    }
  }

  /** After a printed map is loaded for a detector, until the next load for it, whatever else happens: with mapping
      enabled in the copy, an event in range that the map reaches is mapped to its entry. */
  lemma LoadedMapIsUsed(y: System, d: nat, vs: seq<nat>, extra: string, ls: seq<Label>, e: Event)
    requires Formed(y) && Fresh(y) && 1 <= d < |y.s.dets|
    requires 0 < |vs| < 0x1_0000_0000 && MapFile.Storable(vs)
    requires forall i :: 0 <= i < |vs| ==> vs[i] <= U32(y.s.dets[d].cfg.pixelSize)
    requires forall i :: 0 <= i < |ls| ==> !LoadsFor(ls[i], d)
    ensures var load := Client(OnDet(d, LoadMapFile(Text(MapFile.Print(vs) + extra), true)));
            var s := Run(y, [load] + ls).s;
            && Shaped(s) && d <= MaxDets(s)
            && var l := ViewOf(s, d).lens;
               && l.pixelMap == Some(vs)
               && (l.cfg.mapOn != 0 && InRange(l, e) && e.pixel - U32(l.cfg.pixelStart) < |vs| ==>
                     MappedIndex(l, e) == vs[e.pixel - U32(l.cfg.pixelStart)])
  {
    hide *;
    var load := Client(OnDet(d, LoadMapFile(Text(MapFile.Print(vs) + extra), true)));
    LoadStep(y, d, vs, extra);
    RunOne(y, load);
    RunConcat(y, [load], ls);
    MapStays(Run(y, [load]), ls, d);
    MapIsSeen(Run(y, [load] + ls), d, vs, U32(y.s.dets[d].cfg.pixelSize), e);
  }

  lemma LoadStep(y: System, d: nat, vs: seq<nat>, extra: string)
    requires Formed(y) && d < |y.s.dets|
    requires 0 < |vs| < 0x1_0000_0000 && MapFile.Storable(vs)
    requires forall i :: 0 <= i < |vs| ==> vs[i] <= U32(y.s.dets[d].cfg.pixelSize)
    ensures var load := Client(OnDet(d, LoadMapFile(Text(MapFile.Print(vs) + extra), true)));
            var t := Step(y, load).s;
            d < |t.maps| && t.maps[d] == PixelMap(Some(vs), |vs|, U32(y.s.dets[d].cfg.pixelSize))
  {
    hide InForce, UpToDate, MapSound, LoadMap, JobFormed, MapFile.Print, MapFile.Storable;
    PrintedMapInstalls(y.s.maps[d], y.s.dets[d].cfg.pixelSize, vs, extra);
  }

  lemma RunOne(y: System, l: Label)
    requires Formed(y) && Fresh(y)
    ensures Run(y, [l]) == Step(y, l)
  {
    RunStep(y, [], l);
    assert [] + [l] == [l] && Run(y, []) == y;
    hide Run, Formed, Fresh, Step;
  }

  lemma MapIsSeen(y: System, d: nat, vs: seq<nat>, bound: nat, e: Event)
    requires Formed(y) && 1 <= d < |y.s.maps| && vs != [] && y.s.maps[d] == PixelMap(Some(vs), |vs|, bound)
    ensures Shaped(y.s) && d <= MaxDets(y.s)
    ensures var l := ViewOf(y.s, d).lens;
            && l.pixelMap == Some(vs)
            && (l.cfg.mapOn != 0 && InRange(l, e) && e.pixel - U32(l.cfg.pixelStart) < |vs| ==>
                  MappedIndex(l, e) == vs[e.pixel - U32(l.cfg.pixelStart)])
  {
    hide InForce, UpToDate, MapSound, JobFormed;
  }
}
