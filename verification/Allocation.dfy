/**
 allocArray in numbers: exactly when it succeeds, and what it then publishes, in terms of the parameters.
 */
module Allocation {
  import opened Base
  import opened Arith
  import opened Events
  import opened Histogram
  import opened Driver
  import opened Soundness
  import L = Layout

  /** The size a detector is given: the size parameter, or the length of the pixel range where that is 0. The
      length is kept in 32 bits, so one of 2^31 or more comes out negative. */
  predicate Given(c: Config, size: int) {
    if c.pixelSize != 0 then size == c.pixelSize
    else
      var range := c.pixelEnd - c.pixelStart + 1;
      size == if range < 0x8000_0000 then range else range - 0x1_0000_0000
  }

  /** The sizes given to detectors 1..n. */
  predicate AllGiven(dets: seq<Det>, n: nat, sizes: seq<int>)
    requires n < |dets|
  {
    |sizes| == n && forall d :: 1 <= d <= n ==> Given(dets[d].cfg, sizes[d - 1])
  }

  lemma GivenIs(c: Config, size: int)
    requires Given(c, size) && c.pixelStart <= c.pixelEnd
    ensures SizeOf(c) == size
  {
  }

  lemma GivenSizes(dets: seq<Det>, n: nat, sizes: seq<int>)
    requires n < |dets| && AllGiven(dets, n, sizes)
    requires forall d :: 1 <= d <= n ==> dets[d].cfg.pixelStart <= dets[d].cfg.pixelEnd
    ensures Sizes(dets, n) == sizes
  {
    hide Given, SizeOf;
    forall k | 0 <= k < n
      ensures Sizes(dets, n)[k] == sizes[k]
    {
      GivenIs(dets[k + 1].cfg, sizes[k]);
    }
  }

  /** A pending allocation succeeds if and only if there is memory and at least one detector, no pixel range is
      empty, the sizes do not add up to 0, and the buffer has between 0 and 2^31 - 1 cells. */
  lemma SucceedsIff(s: State, memory: bool, sizes: seq<int>)
    requires Shaped(s) && s.dataAlloc && (1 <= s.numDet ==> AllGiven(s.dets, s.numDet, sizes))
    ensures Allocate(s, memory).1 <==>
              && memory && 1 <= s.numDet
              && (forall d :: 1 <= d <= s.numDet ==> s.dets[d].cfg.pixelStart <= s.dets[d].cfg.pixelEnd)
              && L.Offset(sizes, s.numDet) != 0
              && 0 <= L.Offset(sizes, s.numDet) + s.numDet * (s.tofMaxParam + 1) < 0x8000_0000
  {
    hide Allocate, AllGiven, Sizes, L.Offset;
    if 1 <= s.numDet && forall d :: 1 <= d <= s.numDet ==> s.dets[d].cfg.pixelStart <= s.dets[d].cfg.pixelEnd {
      GivenSizes(s.dets, s.numDet, sizes);
      NoEmptyRange(s, memory);
    } else if Allocate(s, memory).1 {
      AllocateNeedsDetectors(s, memory);
      assert false;
    }
  }

  lemma NoEmptyRange(s: State, memory: bool)
    requires Shaped(s) && s.dataAlloc && 1 <= s.numDet
    requires forall d :: 1 <= d <= s.numDet ==> s.dets[d].cfg.pixelStart <= s.dets[d].cfg.pixelEnd
    ensures var base := L.Offset(Sizes(s.dets, s.numDet), s.numDet);
            Allocate(s, memory).1 <==>
              memory && base != 0 && 0 <= base + s.numDet * (s.tofMaxParam + 1) < 0x8000_0000
  {
    hide Sizes, L.Offset, FirstBad, PlacePixels, PlaceTofs, U32;
    AllGood(s.dets, s.numDet);
    PublishSucceeds(s);
    hide Publish, PlacedAll;
  }

  lemma AllGood(dets: seq<Det>, n: nat)
    requires n < |dets| && forall d :: 1 <= d <= n ==> dets[d].cfg.pixelStart <= dets[d].cfg.pixelEnd
    ensures FirstBad(dets, 1, n) == n + 1
  {
  }

  /** A detector before and after it is published for TOF values up to m: it keeps its pixel range and gets the
      size it is given, and the size parameter shows it. */
  ghost predicate PublishedAs(was: Det, det: Det, m: int) {
    && Given(was.cfg, det.region.size) && det.cfg == was.cfg.(pixelSize := det.cfg.pixelSize)
    && det.cfg.pixelSize == det.region.size && det.transform == was.transform
    && det.region.end == det.region.start + det.region.size - 1 && det.region.tofEnd == det.region.tofStart + m
  }

  /** The pixel regions of detectors 1..n follow each other from cell 0, then their TOF regions do. */
  predicate InRow(dets: seq<Det>, n: nat)
    requires 1 <= n < |dets|
  {
    && dets[1].region.start == 0 && dets[1].region.tofStart == dets[n].region.end + 1
    && forall d :: 2 <= d <= n ==> Next(dets[d - 1].region, dets[d].region)
  }

  predicate Next(g: Region, h: Region) {
    h.start == g.end + 1 && h.tofStart == g.tofEnd + 1
  }

  /** What a successful allocation publishes: every detector in use with its size, the regions in a row, a buffer
      of zeros that ends with the last of them, and nothing of the other detectors. */
  lemma Publishes(s: State, memory: bool)
    requires Shaped(s) && s.dataAlloc && Allocate(s, memory).1
    ensures var t, n := Allocate(s, memory).0, s.numDet;
            && 1 <= n && |t.dets| == |s.dets| && t.tofMax == U32(s.tofMaxParam) && !t.dataAlloc && t.data.Some?
            && (forall d :: 1 <= d <= n ==> PublishedAs(s.dets[d], t.dets[d], s.tofMaxParam))
            && InRow(t.dets, n)
            && |t.data.value| == t.dets[n].region.tofEnd + 1
            && (forall i :: 0 <= i < |t.data.value| ==> t.data.value[i] == 0)
            && (forall d :: 0 <= d < |s.dets| && (d == 0 || n < d) ==> t.dets[d] == s.dets[d])
  {
    hide Allocate, PlacedAll, Sizes, L.Offset, L.Total, Given, FirstBad, PublishedAs, InRow;
    AllocateSucceeds(s, memory);
    var n, m := s.numDet, s.tofMaxParam;
    forall d | 1 <= d <= n
      ensures PublishedAs(s.dets[d], PlacedAll(s.dets, n, m)[d], m)
    {
      PublishesSize(s.dets, n, m, d);
    }
    PublishesInRow(s.dets, n, m);
    PublishesOnly(s.dets, n, m);
  }

  lemma PublishesInRow(dets: seq<Det>, n: nat, m: int)
    requires 1 <= n < |dets|
    ensures var p := PlacedAll(dets, n, m); InRow(p, n) && L.Total(Sizes(dets, n), m) == p[n].region.tofEnd + 1
  {
    hide PlacedAll, Sizes, L.Offset, L.Total;
    PublishesEnds(dets, n, m);
    var p := PlacedAll(dets, n, m);
    forall d | 2 <= d <= n
      ensures Next(p[d - 1].region, p[d].region)
    {
      PublishesNext(dets, n, m, d);
    }
  }

  lemma PublishesSize(dets: seq<Det>, n: nat, m: int, d: nat)
    requires 1 <= d <= n < |dets| && dets[d].cfg.pixelStart <= dets[d].cfg.pixelEnd
    ensures PublishedAs(dets[d], PlacedAll(dets, n, m)[d], m)
  {
    PlacedDet(dets, n, m, d);
    assert PlacedAll(dets, n, m)[d].transform == dets[d].transform;
    hide PlacedAll, L.First, Sizes;
  }

  lemma PublishesNext(dets: seq<Det>, n: nat, m: int, d: nat)
    requires 2 <= d <= n < |dets|
    ensures var p := PlacedAll(dets, n, m);
            Next(p[d - 1].region, p[d].region)
  {
    var sizes := Sizes(dets, n);
    PlacedDet(dets, n, m, d);
    PlacedDet(dets, n, m, d - 1);
    assert L.Offset(sizes, d - 1) == L.Offset(sizes, d - 2) + sizes[d - 2];
    assert (d - 1) * (m + 1) == (d - 2) * (m + 1) + m + 1;
    hide PlacedAll, Sizes, L.Offset;
  }

  lemma PublishesEnds(dets: seq<Det>, n: nat, m: int)
    requires 1 <= n < |dets|
    ensures var p := PlacedAll(dets, n, m);
            && p[1].region.start == 0 && p[1].region.tofStart == p[n].region.end + 1
            && L.Total(Sizes(dets, n), m) == p[n].region.tofEnd + 1
  {
    var sizes := Sizes(dets, n);
    PlacedDet(dets, n, m, 1);
    PlacedDet(dets, n, m, n);
    assert L.Offset(sizes, n) == L.Offset(sizes, n - 1) + sizes[n - 1];
    assert L.Offset(sizes, 0) == 0;
    assert n * (m + 1) == (n - 1) * (m + 1) + m + 1;
    hide PlacedAll, Sizes, L.Offset;
  }

  lemma PublishesOnly(dets: seq<Det>, n: nat, m: int)
    requires n < |dets|
    ensures forall d :: 0 <= d < |dets| && (d == 0 || n < d) ==> PlacedAll(dets, n, m)[d] == dets[d]
  {
    hide Sizes, L.Offset;
  }
}
