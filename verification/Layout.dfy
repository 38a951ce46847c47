/**
 How the buffer is divided: the pixel regions of all detectors one after the other, then one TOF
 region of tofMax + 1 cells per detector.
 */
module Layout {
  import opened Arith

  /** Detectors are numbered from 0 here. */
  datatype RegionId = PixelOf(det: nat) | TofOf(det: nat)

  /** Cells taken by the pixel regions of the first k detectors. */
  function Offset(sizes: seq<int>, k: nat): int
    requires k <= |sizes|
  {
    if k == 0 then 0 else Offset(sizes, k - 1) + sizes[k - 1]
  }

  function Total(sizes: seq<int>, tofMax: int): int {
    Offset(sizes, |sizes|) + |sizes| * (tofMax + 1)
  }

  function First(sizes: seq<int>, tofMax: int, r: RegionId): int
    requires r.det < |sizes|
  {
    if r.PixelOf? then Offset(sizes, r.det) else Offset(sizes, |sizes|) + r.det * (tofMax + 1)
  }

  function Length(sizes: seq<int>, tofMax: int, r: RegionId): int
    requires r.det < |sizes|
  {
    if r.PixelOf? then sizes[r.det] else tofMax + 1
  }

  predicate Inside(sizes: seq<int>, tofMax: int, r: RegionId, i: int)
    requires r.det < |sizes|
  {
    First(sizes, tofMax, r) <= i < First(sizes, tofMax, r) + Length(sizes, tofMax, r)
  }

  predicate NonNegative(sizes: seq<int>) {
    forall k :: 0 <= k < |sizes| ==> 0 <= sizes[k]
  }

  lemma {:induction false} OffsetMono(sizes: seq<int>, a: nat, b: nat)
    requires a <= b <= |sizes| && NonNegative(sizes)
    ensures Offset(sizes, a) <= Offset(sizes, b)
  {
    if a < b { OffsetMono(sizes, a, b - 1); }
  }

  /** The order of the regions in the buffer. */
  predicate Before(r: RegionId, s: RegionId) {
    if r.PixelOf? == s.PixelOf? then r.det < s.det else r.PixelOf?
  }

  lemma RegionsFollow(sizes: seq<int>, m: int, r: RegionId, s: RegionId)
    requires NonNegative(sizes) && 0 <= m && r.det < |sizes| && s.det < |sizes| && Before(r, s)
    ensures First(sizes, m, r) + Length(sizes, m, r) <= First(sizes, m, s)
  {
    var n := |sizes|;
    if r.PixelOf? {
      if s.PixelOf? {
        OffsetMono(sizes, r.det + 1, s.det);
      } else {
        OffsetMono(sizes, r.det + 1, n);
        MulLe(0, s.det, m + 1);
      }
    } else {
      MulLe(r.det + 1, s.det, m + 1);
    }
  }

  lemma RegionInBuffer(sizes: seq<int>, m: int, r: RegionId)
    requires NonNegative(sizes) && 0 <= m && r.det < |sizes|
    ensures 0 <= First(sizes, m, r)
    ensures First(sizes, m, r) + Length(sizes, m, r) <= Total(sizes, m)
  {
    OffsetMono(sizes, 0, r.det);
    OffsetMono(sizes, 0, |sizes|);
    MulLe(0, r.det, m + 1);
    MulLe(0, |sizes|, m + 1);
    if r.PixelOf? {
      OffsetMono(sizes, r.det + 1, |sizes|);
    } else {
      MulLe(r.det + 1, |sizes|, m + 1);
    }
  }

  lemma {:induction false} PixelRegionOf(sizes: seq<int>, k: nat, i: int) returns (d: nat)
    requires NonNegative(sizes) && k <= |sizes| && 0 <= i < Offset(sizes, k)
    ensures d < k && Offset(sizes, d) <= i < Offset(sizes, d) + sizes[d]
  {
    if i < Offset(sizes, k - 1) {
      d := PixelRegionOf(sizes, k - 1, i);
    } else {
      d := k - 1;
    }
  }

  /** Every cell of the buffer is in some region. */
  lemma RegionOf(sizes: seq<int>, m: int, i: int) returns (r: RegionId)
    requires NonNegative(sizes) && 0 <= m && 0 <= i < Total(sizes, m)
    ensures r.det < |sizes| && Inside(sizes, m, r, i)
  {
    var t := Offset(sizes, |sizes|);
    if i < t {
      var d := PixelRegionOf(sizes, |sizes|, i);
      r := PixelOf(d);
    } else {
      var d := (i - t) / (m + 1);
      assert i - t == (m + 1) * d + (i - t) % (m + 1);
      if d >= |sizes| { MulLe(|sizes|, d, m + 1); }
      r := TofOf(d);
    }
  }

  ghost predicate Covered(sizes: seq<int>, tofMax: int, i: int) {
    exists r: RegionId :: r.det < |sizes| && Inside(sizes, tofMax, r, i)
  }

  /** The regions exactly tile the buffer: the cells in some region are those of the buffer, and
      no cell is in two regions. */
  lemma RegionsTile(sizes: seq<int>, m: int)
    requires NonNegative(sizes) && 0 <= m
    ensures forall i :: Covered(sizes, m, i) <==> 0 <= i < Total(sizes, m)
    ensures forall i, r: RegionId, s: RegionId ::
              r.det < |sizes| && s.det < |sizes| && Inside(sizes, m, r, i) && Inside(sizes, m, s, i) ==> r == s
  {
    forall i
      ensures Covered(sizes, m, i) <==> 0 <= i < Total(sizes, m)
    {
      if Covered(sizes, m, i) {
        var r: RegionId :| r.det < |sizes| && Inside(sizes, m, r, i);
        RegionInBuffer(sizes, m, r);
      } else if 0 <= i < Total(sizes, m) {
        var r := RegionOf(sizes, m, i);
        assert false;
      }
    }
    forall i, r: RegionId, s: RegionId
      | r.det < |sizes| && s.det < |sizes| && Inside(sizes, m, r, i) && Inside(sizes, m, s, i)
      ensures r == s
    {
      if Before(r, s) {
        RegionsFollow(sizes, m, r, s);
      } else if Before(s, r) {
        RegionsFollow(sizes, m, s, r);
      }
    }
  }
}
