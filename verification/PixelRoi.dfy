/**
 The pixel ROI plugin (ADnEDPixelROI.cpp): a stretch of the 1-D buffer published as a 2-D image.
 Dimension 0 is the stretch, dimensions 1 and 2 are the columns and rows of the image.
 */
module PixelRoi {
  import opened Base
  import opened Arith
  import opened Events
  import opened Histogram

  const SIZE_T := 0x1_0000_0000_0000_0000

  /** One dimension as `size_t` values. */
  datatype Dim = Dim(offset: nat, size: nat)

  /** Client parameters of one dimension. */
  datatype Request = Request(min: Int32, size: Int32)

  /** Length of the input array. */
  type Length = n: int | 0 <= n < 0x8000_0000

  /** The clamped offset, and the clamped size before the product test. */
  function ClampOffset(req: Int32, n: Length): nat {
    Min(SizeT(req), (n - 1) % SIZE_T)
  }

  function AtLeastOne(req: Int32): (r: nat)
    ensures 1 <= r < SIZE_T
  {
    Max(SizeT(req), 1)
  }

  /** Dimension 0 is bounded by nothing but itself, the others by dimension 0. */
  function ClampSize(rs: seq<Request>, dim: nat): (r: nat)
    requires |rs| == 3 && dim < 3
    ensures 1 <= r < SIZE_T
  {
    Min(AtLeastOne(rs[dim].size), AtLeastOne(rs[0].size))
  }

  /** Columns times rows, in `size_t`, reach the input length. */
  predicate TooLarge(rs: seq<Request>, n: Length)
    requires |rs| == 3
  {
    (ClampSize(rs, 1) * ClampSize(rs, 2)) % SIZE_T >= n
  }

  /** The dimensions in force. */
  function Dims(rs: seq<Request>, n: Length): (ds: seq<Dim>)
    requires |rs| == 3
    ensures |ds| == 3
  {
    seq(3, dim requires 0 <= dim < 3 =>
      Dim(ClampOffset(rs[dim].min, n), if dim > 0 && TooLarge(rs, n) then 1 else ClampSize(rs, dim)))
  }

  /** The parameters written back. */
  function WrittenBack(ds: seq<Dim>): (rs: seq<Request>)
    ensures |rs| == |ds|
  {
    seq(|ds|, dim requires 0 <= dim < |ds| => Request(Wrap32(ds[dim].offset), Wrap32(ds[dim].size)))
  }

  // ---------- clamping in place ----------

  class ADnEDPixelROI {
    var params: seq<Request>
    var imageX: nat
    var imageY: nat

    /** The clamping loop of processCallbacks, on the array of dimensions. */
    static method ClampDims(dims: array<Dim>, rs: seq<Request>, n: Length)
      requires |rs| == 3 && dims.Length == 3
      requires forall d :: 0 <= d < 3 ==> dims[d] == Dim(SizeT(rs[d].min), SizeT(rs[d].size))
      modifies dims
      ensures dims[..] == Dims(rs, n)
    {
      hide AtLeastOne, ClampSize, ClampOffset;
      for dim := 0 to 3
        invariant forall d :: 0 <= d < 3 ==>
                    dims[d] == if d < dim then Dim(ClampOffset(rs[d].min, n), ClampSize(rs, d))
                               else Dim(SizeT(rs[d].min), SizeT(rs[d].size))
      {
        ClampOne(rs, dim, n);
        var pDim := dims[dim];
        pDim := pDim.(offset := Min(pDim.offset, (n - 1) % SIZE_T));
        pDim := pDim.(size := Max(pDim.size, 1));
        dims[dim] := pDim;
        pDim := pDim.(size := Min(pDim.size, dims[0].size));
        dims[dim] := pDim;
      }
      if (dims[1].size * dims[2].size) % SIZE_T >= n {
        dims[1] := dims[1].(size := 1);
        dims[2] := dims[2].(size := 1);
      }
    }

    /** processCallbacks up to the published size of the image; the cells are what `convert` extracts. */
    method ProcessCallbacks(n: Length) returns (stretch: Dim)
      requires |params| == 3
      modifies this
      ensures var ds := Dims(old(params), n);
              params == WrittenBack(ds) && stretch == ds[0] && imageX == ds[1].size && imageY == ds[2].size
    {
      hide Dims;
      var rs := params;
      var dims := new Dim[3](d requires 0 <= d < 3 => Dim(SizeT(rs[d].min), SizeT(rs[d].size)));
      ClampDims(dims, rs, n);
      params := [Request(Wrap32(dims[0].offset), Wrap32(dims[0].size)),
                 Request(Wrap32(dims[1].offset), Wrap32(dims[1].size)),
                 Request(Wrap32(dims[2].offset), Wrap32(dims[2].size))];
      stretch, imageX, imageY := dims[0], dims[1].size, dims[2].size;
    }
  }

  lemma ClampOne(rs: seq<Request>, dim: nat, n: Length)
    requires |rs| == 3 && dim < 3
    ensures ClampOffset(rs[dim].min, n) == Min(SizeT(rs[dim].min), (n - 1) % SIZE_T)
    ensures ClampSize(rs, 0) == Max(SizeT(rs[0].size), 1)
    ensures ClampSize(rs, dim) == Min(Max(SizeT(rs[dim].size), 1), ClampSize(rs, 0))
  {
  }

  // ---------- in bounds ----------

  /** For every request: offsets inside the input, columns and rows between 1 and the stretch. */
  lemma ClampLandsInside(rs: seq<Request>, n: Length)
    requires |rs| == 3 && n >= 1
    ensures forall d :: 0 <= d < 3 ==> 0 <= Dims(rs, n)[d].offset < n && 1 <= Dims(rs, n)[d].size <= Dims(rs, n)[0].size
  {
  }

  /** Products of sizes as `size_t` computes them. */
  lemma NegativePair(a: int, b: int)
    requires -0x8000_0000 <= a < 0 && -0x8000_0000 <= b < 0
    ensures ((SIZE_T + a) * (SIZE_T + b)) % SIZE_T == a * b
  {
    assert (SIZE_T + a) * (SIZE_T + b) == (SIZE_T + a + b) * SIZE_T + a * b;
    SmallProduct(-a, -b);
    DivModOf(SIZE_T + a + b, a * b, SIZE_T);
  }

  lemma MixedPair(a: int, b: int)
    requires -0x8000_0000 <= a < 0 && 1 <= b < 0x8000_0000
    ensures ((SIZE_T + a) * b) % SIZE_T == SIZE_T + a * b >= 0x8000_0000
  {
    assert (SIZE_T + a) * b == (b - 1) * SIZE_T + (SIZE_T + a * b);
    SmallProduct(-a, b);
    DivModOf(b - 1, SIZE_T + a * b, SIZE_T);
  }

  lemma SmallProduct(a: int, b: int)
    requires 1 <= a <= 0x8000_0000 && 1 <= b <= 0x8000_0000
    ensures 1 <= a * b <= 0x4000_0000_0000_0000
  {
    MulLe(1, a, b);
    MulLe(a, 0x8000_0000, b);
  }

  /** The wrapped product slips under the input length: all three sizes negative, and small. */
  predicate Overflows(rs: seq<Request>, n: Length)
    requires |rs| == 3
  {
    && rs[0].size < 0 && rs[1].size < 0 && rs[2].size < 0
    && Min(rs[1].size, rs[0].size) * Min(rs[2].size, rs[0].size) < n
  }

  /** A clamped size: large exactly when dimension 0 and the dimension itself are negative. */
  lemma SizeCases(rs: seq<Request>, d: nat)
    requires |rs| == 3 && d < 3
    ensures rs[0].size < 0 && rs[d].size < 0 ==> ClampSize(rs, d) == SIZE_T + Min(rs[d].size, rs[0].size)
    ensures !(rs[0].size < 0 && rs[d].size < 0) ==> ClampSize(rs, d) < 0x8000_0000
  {
  }

  /** Columns times rows stay within the input length, for every request but those that overflow. */
  lemma ProductBoundedIff(rs: seq<Request>, n: Length)
    requires |rs| == 3 && n >= 1
    ensures Dims(rs, n)[1].size * Dims(rs, n)[2].size <= n <==> !Overflows(rs, n)
  {
    hide ClampSize;
    var x, y := ClampSize(rs, 1), ClampSize(rs, 2);
    SizeCases(rs, 1);
    SizeCases(rs, 2);
    var a, b := Min(rs[1].size, rs[0].size), Min(rs[2].size, rs[0].size);
    if rs[0].size < 0 && rs[1].size < 0 && rs[2].size < 0 {
      NegativePair(a, b);
      MulLe(1, x, y);
    } else if rs[0].size < 0 && rs[1].size < 0 {
      MixedPair(a, y);
    } else if rs[0].size < 0 && rs[2].size < 0 {
      MixedPair(b, x);
      assert x * y == y * x;
    } else {
      SmallProduct(x, y);
    }
  }

  // ---------- fixed point ----------

  lemma OffsetFixed(req: Int32, n: Length)
    ensures ClampOffset(Wrap32(ClampOffset(req, n)), n) == ClampOffset(req, n)
  {
  }

  lemma SizeBack(rs: seq<Request>, d: nat)
    requires |rs| == 3 && d < 3
    ensures SizeT(Wrap32(ClampSize(rs, d))) == ClampSize(rs, d)
  {
    SizeCases(rs, d);
  }

  /** Clamping the parameters written back changes nothing, for every request. */
  lemma ClampIsFixed(rs: seq<Request>, n: Length)
    requires |rs| == 3
    ensures Dims(WrittenBack(Dims(rs, n)), n) == Dims(rs, n)
    ensures WrittenBack(Dims(WrittenBack(Dims(rs, n)), n)) == WrittenBack(Dims(rs, n))
  {
    hide ClampOffset, Wrap32, SizeT;
    var ws := WrittenBack(Dims(rs, n));
    forall d | 0 <= d < 3
      ensures ClampOffset(ws[d].min, n) == ClampOffset(rs[d].min, n)
      ensures ClampSize(ws, d) == Dims(rs, n)[d].size
    {
      OffsetFixed(rs[d].min, n);
      SizeBack(rs, d);
      SizeBack(rs, 0);
      OneFixed();
    }
    OneIsNotTooLarge(n);
  }

  lemma OneFixed()
    ensures SizeT(Wrap32(1)) == 1
  {
  }

  lemma OneIsNotTooLarge(n: Length)
    ensures (1 * 1) % SIZE_T >= n <==> n <= 1
  {
  }

  // ---------- in numbers ----------

  /** The size along a dimension of the image: at least 1, at most the stretch, and the stretch for a negative one. */
  predicate Wants(size: Int32, stretch: nat, r: nat) {
    r == if size < 0 || size > stretch then stretch else if size == 0 then 1 else size
  }

  /** For a stretch that is not negative: offsets outside the input become its last cell, the stretch is at least 1
      long, the image has the columns and rows it wants if together they are fewer than the input, and otherwise is
      one cell. What is written back is the same. */
  lemma DimsInNumbers(rs: seq<Request>, n: Length, x: nat, y: nat)
    requires |rs| == 3 && n >= 1 && 0 <= rs[0].size
    requires var s := if rs[0].size == 0 then 1 else rs[0].size; Wants(rs[1].size, s, x) && Wants(rs[2].size, s, y)
    ensures var ds, ws := Dims(rs, n), WrittenBack(Dims(rs, n));
            && (forall d :: 0 <= d < 3 ==> ds[d].offset == if 0 <= rs[d].min < n then rs[d].min else n - 1)
            && ds[0].size == (if rs[0].size == 0 then 1 else rs[0].size)
            && ds[1].size == (if x * y < n then x else 1) && ds[2].size == (if x * y < n then y else 1)
            && forall d :: 0 <= d < 3 ==> ws[d].min == ds[d].offset && ws[d].size == ds[d].size
  {
    WantedSizes(rs, x, y);
    hide ClampSize, AtLeastOne, Wants;
    SmallProduct(x, y);
    assert (x * y) % SIZE_T == x * y;
    StretchSize(rs);
  }

  lemma WantedSizes(rs: seq<Request>, x: nat, y: nat)
    requires |rs| == 3 && 0 <= rs[0].size
    requires var s := if rs[0].size == 0 then 1 else rs[0].size; Wants(rs[1].size, s, x) && Wants(rs[2].size, s, y)
    ensures ClampSize(rs, 1) == x && ClampSize(rs, 2) == y && 1 <= x < 0x8000_0000 && 1 <= y < 0x8000_0000
  {
  }

  // ---------- the published image ----------

  /** Cell (x, y) of an image with rows of length nx, over the cells extracted. */
  function At<T>(cells: seq<T>, nx: nat, x: nat, y: nat): T
    requires x < nx && y * nx + x < |cells|
  {
    cells[y * nx + x]
  }

  /** Columns times rows as requested, for a stretch that is not negative: a negative size means all of it. */
  function Asked(rs: seq<Request>): nat
    requires |rs| == 3 && 0 <= rs[0].size
  {
    var s := Max(rs[0].size, 1);
    (if rs[1].size < 0 then s else Min(Max(rs[1].size, 1), s)) * (if rs[2].size < 0 then s
        else Min(Max(rs[2].size, 1), s))
  }

  /** The image fits the stretch it is drawn from, for every request: if the stretch is not negative,
      exactly when the size asked for is at most the stretch or at least the input length; if it is
      negative, exactly when the product does not overflow. */
  lemma ImageFitsIff(rs: seq<Request>, n: Length)
    requires |rs| == 3 && n >= 1
    ensures var ds := Dims(rs, n);
            ds[1].size * ds[2].size <= ds[0].size <==>
              if rs[0].size >= 0 then Asked(rs) <= Max(rs[0].size, 1) || Asked(rs) >= n else !Overflows(rs, n)
  {
    hide ClampOffset;
    if rs[0].size >= 0 {
      FitsPositive(rs, n);
    } else {
      FitsNegative(rs, n);
    }
  }

  lemma FitsPositive(rs: seq<Request>, n: Length)
    requires |rs| == 3 && n >= 1 && rs[0].size >= 0
    ensures var ds := Dims(rs, n);
            ds[1].size * ds[2].size <= ds[0].size <==> Asked(rs) <= Max(rs[0].size, 1) || Asked(rs) >= n
  {
    var x, y := ClampSize(rs, 1), ClampSize(rs, 2);
    assert Asked(rs) == x * y;
    SmallProduct(x, y);
    assert (x * y) % SIZE_T == x * y;
    hide ClampOffset, ClampSize, Asked, AtLeastOne;
    assert ClampSize(rs, 0) == Max(rs[0].size, 1) by { StretchSize(rs); }
  }

  lemma StretchSize(rs: seq<Request>)
    requires |rs| == 3 && rs[0].size >= 0
    ensures ClampSize(rs, 0) == Max(rs[0].size, 1)
  {
  }

  lemma FitsNegative(rs: seq<Request>, n: Length)
    requires |rs| == 3 && n >= 1 && rs[0].size < 0
    ensures var ds := Dims(rs, n); ds[1].size * ds[2].size <= ds[0].size <==> !Overflows(rs, n)
  {
    hide ClampSize, ClampOffset;
    var x, y := ClampSize(rs, 1), ClampSize(rs, 2);
    SizeCases(rs, 0);
    SizeCases(rs, 1);
    SizeCases(rs, 2);
    var a, b := Min(rs[1].size, rs[0].size), Min(rs[2].size, rs[0].size);
    if rs[1].size < 0 && rs[2].size < 0 {
      NegativePair(a, b);
      if Overflows(rs, n) { MulLe(2, x, y); }
    } else if rs[1].size < 0 {
      MixedPair(a, y);
    } else if rs[2].size < 0 {
      MixedPair(b, x);
      assert x * y == y * x;
    } else {
      SmallProduct(x, y);
    }
  }

  /** A square image as wide as the whole stretch does not fit it. */
  lemma SquareOverrunsItsStretch(s: Int32, n: Length, min: Int32)
    requires 2 <= s && s * s < n
    ensures var q := Request(min, s); var ds := Dims([q, q, q], n);
            ds[1].size * ds[2].size == s * s > ds[0].size
  {
    MulLe(2, s, s);
    SmallProduct(s, s);
  }

  /** The plugin is set up to show one detector: its pixels as rows of its own width. */
  predicate Shows(rs: seq<Request>, n: Length, v: View)
    requires |rs| == 3
  {
    var ds := Dims(rs, n);
    && ds[0].offset == v.start && ds[0].size == v.lens.cfg.pixelSize && v.start + v.lens.cfg.pixelSize <= n
    && ds[1].size == v.lens.cfg.sizeX && ds[2].size * ds[1].size == v.lens.cfg.pixelSize
  }

  /** The cells of the stretch. */
  function Stretch(cells: seq<nat>, d: Dim): (r: seq<nat>)
    requires d.offset + d.size <= |cells|
    ensures |r| == d.size
  {
    cells[d.offset..d.offset + d.size]
  }

  /** Requests in bounds are taken as they are. */
  lemma InBoundsUnchanged(rs: seq<Request>, n: Length)
    requires |rs| == 3 && 0 <= rs[0].min < n
    requires 1 <= rs[1].size <= rs[0].size && 1 <= rs[2].size <= rs[0].size && rs[1].size * rs[2].size < n
    ensures var ds := Dims(rs, n);
            ds[0] == Dim(rs[0].min, rs[0].size) && ds[1].size == rs[1].size && ds[2].size == rs[2].size
  {
    var p := rs[1].size * rs[2].size;
    SmallProduct(rs[1].size, rs[2].size);
    assert p % SIZE_T == p;
    assert ClampSize(rs, 1) * ClampSize(rs, 2) == p;
  }

  /** The request for a detector of at least one row shows it. */
  lemma ShowsItsRequest(v: View, n: Length, rows: Int32, min: Int32)
    requires 0 <= v.start < n && v.start + v.lens.cfg.pixelSize <= n && v.lens.cfg.pixelSize < n
    requires rows >= 1 && v.lens.cfg.sizeX >= 1 && rows * v.lens.cfg.sizeX == v.lens.cfg.pixelSize
    ensures Shows([Request(v.start, v.lens.cfg.pixelSize), Request(min, v.lens.cfg.sizeX), Request(min, rows)], n, v)
  {
    hide Dims;
    var nx := v.lens.cfg.sizeX;
    MulLe(1, rows, nx);
    MulLe(1, nx, rows);
    assert nx * rows == rows * nx;
    InBoundsUnchanged([Request(v.start, v.lens.cfg.pixelSize), Request(min, nx), Request(min, rows)], n);
  }

  /** An event adds one to exactly one image cell, and passes the X/Y filter into the TOF spectrum
      exactly when that image cell is in the rectangle. */
  lemma EventPassesIffItsImageCellIsInside(rs: seq<Request>, cells: seq<nat>, v: View, e: Event, x: nat, y: nat)
    requires |rs| == 3 && |cells| < 0x8000_0000 && Shows(rs, |cells|, v)
    requires InRange(v.lens, e) && IndexInside(v.lens) && TofOnScale(v.lens, TofValue(v.lens, e))
    requires v.lens.cfg.plotType == 0 && v.lens.cfg.tofRoiOn == 0 && v.lens.cfg.roiOn != 0 && v.lens.cfg.mapOn != 0
    requires var ds := Dims(rs, |cells|); x < ds[1].size && y < ds[2].size
    ensures var i, ds := MappedIndex(v.lens, e), Dims(rs, |cells|);
            var nx := ds[1].size;
            && i % nx < nx && i / nx < ds[2].size && y * nx + x < ds[0].size
            && At(Stretch(BumpCell(cells, v.start, PixelCell(v.lens, e, 0)), ds[0]), nx, x, y)
               == At(Stretch(cells, ds[0]), nx, x, y) + (if x == i % nx && y == i / nx then 1 else 0)
            && (TofCell(v.lens, e).Some? <==> InRectangle(v.lens, i % nx, i / nx))
  {
    hide Dims, MappedIndex, PixelRoiPasses, TofValue;
    var i, ds := MappedIndex(v.lens, e), Dims(rs, |cells|);
    var nx := ds[1].size;
    RowMajor(x, y, nx, ds[2].size);
    RowMajorInverse(i, nx, ds[2].size);
    FlatRoiIsRectangle(v.lens, i);
  }
}
