/**
 Which cells one neutron event increments for one detector: range test, TOF transformation,
 pixel mapping, the four 2-D plots, TOF binning and the two region-of-interest filters.
 Cells are numbered from the start of the detector's own pixel or TOF region.
 */
module Events {
  import opened Base
  import opened Arith

  datatype Event = Event(pixel: nat, tof: nat)

  /** `ADnEDTransform::calculate(type, pixel, tof)`, uninterpreted. */
  type Transform = (Int32, nat, nat) -> real

  /** The per-detector parameters that clients write. */
  datatype Config = Config(
    pixelStart: Int32, pixelEnd: Int32, pixelSize: Int32,
    plotType: Int32, tofBins: Int32,
    tofRoiStart: Int32, tofRoiSize: Int32, tofRoiOn: Int32,
    mapOn: Int32,
    transType: Int32, transOffset: real, transScale: real,
    roiStartX: Int32, roiStartY: Int32, roiSizeX: Int32, roiSizeY: Int32,
    sizeX: Int32, roiOn: Int32)

  /** Everything the event loop reads about one detector, apart from where its regions are. */
  datatype Lens = Lens(cfg: Config, tofMax: nat, pixelMap: Option<seq<nat>>, transform: Transform)

  predicate InRange(l: Lens, e: Event) {
    U32(l.cfg.pixelStart) <= e.pixel <= U32(l.cfg.pixelEnd)
  }

  /** Pixel ID relative to the start of the detector's range. */
  function Offset(l: Lens, e: Event): nat
    requires InRange(l, e)
  {
    e.pixel - U32(l.cfg.pixelStart)
  }

  /** TOF after the optional transformation, scale and offset. */
  function TofValue(l: Lens, e: Event): real
    requires InRange(l, e)
  {
    if l.cfg.transType == 0 then e.tof as real
    else
      var t := l.transform(l.cfg.transType, Offset(l, e), e.tof);
      if l.cfg.transScale >= 0.0 then t * l.cfg.transScale + l.cfg.transOffset else t
  }

  /** Offset, replaced by its map entry when mapping is enabled and a map is loaded.
      Past the end of the map the source reads foreign memory; nothing is claimed there. */
  function MappedIndex(l: Lens, e: Event): nat
    requires InRange(l, e)
  {
    var k := Offset(l, e);
    if l.cfg.mapOn != 0 && l.pixelMap.Some? && k < |l.pixelMap.value| then l.pixelMap.value[k] else k
  }

  predicate TofOnScale(l: Lens, t: real) {
    0.0 <= t <= l.tofMax as real
  }

  // ---------- TOF binning ----------

  function Bins(l: Lens): nat {
    if l.cfg.tofBins < 1 then 1
    else if l.cfg.tofBins > l.tofMax then l.tofMax
    else l.cfg.tofBins
  }

  /** Integer width of a bin, and the bin number of a TOF value. */
  function BinWidth(l: Lens): (w: nat)
    requires l.tofMax >= 1
    ensures 1 <= w && Bins(l) * w <= l.tofMax < Bins(l) * w + Bins(l)
  {
    QuotientBounds(l.tofMax, Bins(l));
    l.tofMax / Bins(l)
  }

  function Bin(l: Lens, t: real): nat
    requires l.tofMax >= 1 && TofOnScale(l, t)
  {
    FloorBelow(t, BinWidth(l), 0);
    (t / BinWidth(l) as real).Floor
  }

  /** Row of a pixel index: C division, which truncates towards zero, by a row length of either sign. */
  function RowOf(index: nat, sizeX: int): int
    requires sizeX != 0
  {
    if sizeX > 0 then index / sizeX else -(index / -sizeX)
  }

  /** Column of a pixel index: the C remainder, which has the sign of the index. */
  function ColumnOf(index: nat, sizeX: int): nat
    requires sizeX != 0
  {
    if sizeX > 0 then index % sizeX else index % -sizeX
  }

  /** What a TOF plot has in rows: columns, rows or pixels of the detector. */
  function PlotRow(l: Lens, index: nat): int
    requires 1 <= l.cfg.plotType <= 3 && Divides(l)
  {
    if l.cfg.plotType == 1 then ColumnOf(index, l.cfg.sizeX)
    else if l.cfg.plotType == 2 then RowOf(index, l.cfg.sizeX)
    else index
  }

  /** The plot makes no division by zero. */
  predicate Divides(l: Lens) {
    && (1 <= l.cfg.plotType <= 3 ==> l.tofMax >= 1)
    && (1 <= l.cfg.plotType <= 2 ==> l.cfg.sizeX != 0)
  }

  /** Cell of a TOF plot. A plot type outside 1..3 keeps the index computed for an earlier
      event or detector of the packet (`carry`). Where the source divides by zero nothing is claimed. */
  function TofIndex(l: Lens, index: nat, t: real, carry: int): int
    requires TofOnScale(l, t)
  {
    if 1 <= l.cfg.plotType <= 3 && Divides(l) then PlotRow(l, index) * Bins(l) + Bin(l, t) else carry
  }

  // ---------- the two increments ----------

  predicate TofRoiPasses(l: Lens, t: real) {
    l.cfg.tofRoiStart as real <= t < (l.cfg.tofRoiStart + l.cfg.tofRoiSize) as real
  }

  /** The X/Y filter exactly as computed: modulus for x, multiplied bounds for y. */
  predicate PixelRoiPasses(l: Lens, index: nat) {
    && l.cfg.sizeX > 0
    && l.cfg.roiStartX <= index % l.cfg.sizeX < l.cfg.roiStartX + l.cfg.roiSizeX
    && l.cfg.roiStartY * l.cfg.sizeX <= index < (l.cfg.roiStartY + l.cfg.roiSizeY) * l.cfg.sizeX
  }

  predicate UsesTofPlot(l: Lens, e: Event) {
    InRange(l, e) && l.cfg.tofRoiOn == 0 && l.cfg.plotType != 0 && TofOnScale(l, TofValue(l, e))
  }

  function PixelCell(l: Lens, e: Event, carry: int): Option<int> {
    if !InRange(l, e) then None
    else if l.cfg.tofRoiOn != 0 then
      if TofRoiPasses(l, TofValue(l, e)) then Some(MappedIndex(l, e)) else None
    else if l.cfg.plotType == 0 then Some(MappedIndex(l, e))
    else if UsesTofPlot(l, e) && TofIndex(l, MappedIndex(l, e), TofValue(l, e), carry) < l.cfg.pixelSize - 1 then
      Some(TofIndex(l, MappedIndex(l, e), TofValue(l, e), carry))
    else None
  }

  function NextCarry(l: Lens, e: Event, carry: int): int {
    if UsesTofPlot(l, e) then TofIndex(l, MappedIndex(l, e), TofValue(l, e), carry) else carry
  }

  function TofCell(l: Lens, e: Event): Option<int> {
    if && InRange(l, e) && TofOnScale(l, TofValue(l, e))
       && (l.cfg.roiOn == 0 || l.cfg.mapOn == 0 || PixelRoiPasses(l, MappedIndex(l, e)))
    then Some(TofValue(l, e).Floor) else None
  }

  // ---------- where the source is defined ----------

  /** The map entry the source reads for an event in range exists. */
  predicate ReadsMap(l: Lens, e: Event)
    requires InRange(l, e)
  {
    l.cfg.mapOn == 0 || l.pixelMap.None? || Offset(l, e) < |l.pixelMap.value|
  }

  /** Everything the source computes for the event, before it touches the buffer, is defined. */
  predicate Defined(l: Lens, e: Event) {
    InRange(l, e) ==> ReadsMap(l, e) && (UsesTofPlot(l, e) ==> Divides(l))
  }

  /** An enabled map covers the pixel range. */
  predicate MapCovers(l: Lens) {
    l.cfg.mapOn == 0 || l.pixelMap.None? || U32(l.cfg.pixelEnd) < U32(l.cfg.pixelStart) + |l.pixelMap.value|
  }

  /** Every pixel of the range has a mapped index below b. */
  ghost predicate MappedBelow(l: Lens, b: int) {
    forall e: Event :: InRange(l, e) ==> MappedIndex(l, e) < b
  }

  /** The map covers the range, and mapped indices are inside the detector size. */
  ghost predicate IndexInside(l: Lens) {
    MapCovers(l) && MappedBelow(l, l.cfg.pixelSize)
  }

  /** The highest bin, that of the highest TOF on scale. */
  function LastBin(l: Lens): nat
    requires l.tofMax >= 1
  {
    Bin(l, l.tofMax as real)
  }

  /** The row of a TOF plot is not negative, and the last of its cells that are plotted is below b. */
  predicate RowFits(l: Lens, index: nat, b: int)
    requires 1 <= l.cfg.plotType <= 3 && Divides(l)
  {
    var first := PlotRow(l, index) * Bins(l);
    0 <= first && (first < l.cfg.pixelSize - 1 ==> Min(first + LastBin(l), l.cfg.pixelSize - 2) < b)
  }

  ghost predicate RowsFit(l: Lens, b: int)
    requires 1 <= l.cfg.plotType <= 3 && Divides(l)
  {
    forall e: Event :: InRange(l, e) ==> RowFits(l, MappedIndex(l, e), b)
  }

  /** The configuration keeps the image increments of a detector in a region of b cells: an image by
      pixels needs all mapped indices below b; a TOF plot, which the source guards with the detector
      size, needs defined divisions and rows whose plotted cells are below b; any other plot type
      shows whatever index was carried, up to the guard. */
  ghost predicate Confined(l: Lens, b: int) {
    MapCovers(l) &&
    if l.cfg.tofRoiOn != 0 || l.cfg.plotType == 0 then MappedBelow(l, b)
    else if 1 <= l.cfg.plotType <= 3 then Divides(l) && RowsFit(l, b)
    else l.cfg.pixelSize - 1 <= b
  }

  /** The configuration keeps the increments inside the detector's own size. */
  ghost predicate UsableLens(l: Lens) {
    Confined(l, l.cfg.pixelSize)
  }

  /** Increments of a confined detector are defined and stay inside regions of b and `tofMax + 1`
      cells, and it leaves no negative plot index behind. */
  lemma CellsInside(l: Lens, e: Event, carry: int, b: int)
    requires Confined(l, b) && 0 <= carry
    ensures Defined(l, e) && 0 <= NextCarry(l, e, carry)
    ensures PixelCell(l, e, carry).Some? ==> 0 <= PixelCell(l, e, carry).value < b
    ensures TofCell(l, e).Some? ==> 0 <= TofCell(l, e).value <= l.tofMax
  {
    if UsesTofPlot(l, e) && 1 <= l.cfg.plotType <= 3 {
      var t := TofValue(l, e);
      assert RowFits(l, MappedIndex(l, e), b);
      BinUpTo(l, t);
      hide Bin, Bins, PlotRow, MappedIndex, TofValue;
    }
    hide MappedIndex, TofValue, Bin, Bins, PlotRow;
  }

  lemma BinUpTo(l: Lens, t: real)
    requires l.tofMax >= 1 && TofOnScale(l, t)
    ensures Bin(l, t) <= LastBin(l)
  {
    var w, k := BinWidth(l), LastBin(l);
    FloorBelow(l.tofMax as real, w, k + 1);
    FloorBelow(t, w, k + 1);
  }

  // ---------- the conditions are exact ----------

  /** All image increments are defined and stay in a region of b cells, whatever the event and the
      index carried to it. */
  ghost predicate StaysIn(l: Lens, b: int) {
    forall e: Event, carry: nat :: Lands(l, e, carry, b)
  }

  predicate Lands(l: Lens, e: Event, carry: int, b: int) {
    Defined(l, e) && (PixelCell(l, e, carry).Some? ==> 0 <= PixelCell(l, e, carry).value < b)
  }

  /** For a detector that takes TOF values as they come, has a pixel and, with the TOF filter on, a
      window that some TOF value passes. */
  predicate Plain(l: Lens) {
    && l.cfg.transType == 0 && U32(l.cfg.pixelStart) <= U32(l.cfg.pixelEnd) && 1 <= l.cfg.pixelSize
    && (l.cfg.tofRoiOn != 0 ==> Max(l.cfg.tofRoiStart, 0) < l.cfg.tofRoiStart + l.cfg.tofRoiSize)
  }

  /** The image increments stay in b cells if and only if the configuration confines them. */
  lemma StaysInIffConfined(l: Lens, b: nat)
    requires Plain(l)
    ensures StaysIn(l, b) <==> Confined(l, b)
  {
    if Confined(l, b) {
      forall e: Event, carry: nat
        ensures Lands(l, e, carry, b)
      {
        CellsInside(l, e, carry, b);
      }
    } else if StaysIn(l, b) {
      NotConfinedEscapes(l, b);
    }
  }

  lemma NotConfinedEscapes(l: Lens, b: nat)
    requires Plain(l) && !Confined(l, b)
    ensures !StaysIn(l, b)
  {
    var first := Event(U32(l.cfg.pixelStart), 0);
    if !MapCovers(l) {
      var e := Event(U32(l.cfg.pixelStart) + |l.pixelMap.value|, 0);
      assert InRange(l, e) && !ReadsMap(l, e);
      assert !Lands(l, e, 0, b);
    } else if l.cfg.tofRoiOn != 0 || l.cfg.plotType == 0 {
      var e: Event :| InRange(l, e) && MappedIndex(l, e) >= b;
      PixelEscapes(l, e, b);
    } else if 1 <= l.cfg.plotType <= 3 {
      if !Divides(l) {
        assert UsesTofPlot(l, first);
        assert !Lands(l, first, 0, b);
      } else {
        var e: Event :| InRange(l, e) && !RowFits(l, MappedIndex(l, e), b);
        RowEscapes(l, e, b);
      }
    } else {
      assert PixelCell(l, first, b) == Some(b);
      assert !Lands(l, first, b, b);
    }
  }

  lemma PixelEscapes(l: Lens, e: Event, b: nat)
    requires Plain(l) && (l.cfg.tofRoiOn != 0 || l.cfg.plotType == 0) && InRange(l, e) && MappedIndex(l, e) >= b
    ensures !StaysIn(l, b)
  {
    var f := Event(e.pixel, Max(l.cfg.tofRoiStart, 0));
    assert MappedIndex(l, f) == MappedIndex(l, e);
    assert PixelCell(l, f, 0) == Some(MappedIndex(l, f));
    assert !Lands(l, f, 0, b);
  }

  /** Every bin up to the last is that of some whole TOF value on scale. */
  lemma BinReached(l: Lens, k: nat)
    requires l.tofMax >= 1 && k <= LastBin(l)
    ensures TofOnScale(l, (k * BinWidth(l)) as real) && Bin(l, (k * BinWidth(l)) as real) == k
  {
    var w := BinWidth(l);
    var t := (k * w) as real;
    FloorBelow(l.tofMax as real, w, k);
    MulLe(0, k, w);
    MulLe(k, k + 1, w);
    assert k * w < (k + 1) * w;
    assert !((l.tofMax as real / w as real).Floor < k);
    assert k * w <= l.tofMax;
    FloorBelow(t, w, k);
    FloorBelow(t, w, k + 1);
  }

  lemma RowEscapes(l: Lens, e: Event, b: nat)
    requires Plain(l) && l.cfg.tofRoiOn == 0 && 1 <= l.cfg.plotType <= 3 && Divides(l)
    requires InRange(l, e) && !RowFits(l, MappedIndex(l, e), b)
    ensures !StaysIn(l, b)
  {
    var first := PlotRow(l, MappedIndex(l, e)) * Bins(l);
    var cell := if first < 0 then first else Max(b, first);
    var k := cell - first;
    hide Bin, Bins, PlotRow;
    BinReached(l, k);
    var f := Event(e.pixel, k * BinWidth(l));
    assert MappedIndex(l, f) == MappedIndex(l, e) && TofValue(l, f) == (k * BinWidth(l)) as real;
    assert PixelCell(l, f, 0) == Some(cell);
    assert !Lands(l, f, 0, b);
  }

  // ---------- the carried plot index ----------

  /** The plot type is one the record offers, or no event ever gets to use it: the TOF filter is on,
      or no event in range is on scale. */
  ghost predicate CarryFree(l: Lens) {
    0 <= l.cfg.plotType <= 3 || forall e: Event :: !UsesTofPlot(l, e)
  }

  lemma CarryIsIrrelevant(l: Lens, e: Event, c1: int, c2: int)
    requires CarryFree(l) && Defined(l, e)
    ensures PixelCell(l, e, c1) == PixelCell(l, e, c2)
  {
    hide Bin, Bins, RowOf, ColumnOf, MappedIndex, TofValue;
  }

  /** The cell of an event is the same whatever index earlier events left behind, for every event,
      exactly when the plot type is offered or never used. Among indices that are not negative a
      region of at most one cell does not show them either. */
  lemma CarryIsIrrelevantIff(l: Lens)
    requires Divides(l) && MapCovers(l)
    ensures CarryFree(l) <==> forall e: Event, c1: int, c2: int :: PixelCell(l, e, c1) == PixelCell(l, e, c2)
    ensures CarryFree(l) || l.cfg.pixelSize <= 1
            <==> forall e: Event, c1: nat, c2: nat :: PixelCell(l, e, c1) == PixelCell(l, e, c2)
  {
    if CarryFree(l) {
      forall e: Event, c1: int, c2: int
        ensures PixelCell(l, e, c1) == PixelCell(l, e, c2)
      {
        CarryIsIrrelevant(l, e, c1, c2);
      }
    } else {
      var e: Event :| UsesTofPlot(l, e);
      var n: int := l.cfg.pixelSize;
      CarryShows(l, e, n, n - 2);
      CarryShows(l, e, Max(n, 0), 0);
      assert PixelCell(l, e, n) != PixelCell(l, e, n - 2);
      assert n > 1 ==> PixelCell(l, e, Max(n, 0)) != PixelCell(l, e, 0);
    }
  }

  lemma CarryShows(l: Lens, e: Event, c1: int, c2: int)
    requires UsesTofPlot(l, e) && !(0 <= l.cfg.plotType <= 3) && l.cfg.pixelSize <= c1
    ensures PixelCell(l, e, c1) == None
    ensures PixelCell(l, e, c2) == if c2 < l.cfg.pixelSize - 1 then Some(c2) else None
  {
  }

  // ---------- TOF bin arithmetic ----------

  /** On-scale events never run past twice the bin count, and stay in their own row exactly
      below the last whole bin. */
  lemma BinBounds(l: Lens, t: real)
    requires l.tofMax >= 1 && TofOnScale(l, t)
    ensures Bin(l, t) < 2 * Bins(l)
    ensures Bin(l, t) < Bins(l) <==> t < (Bins(l) * BinWidth(l)) as real
  {
    var w, n := BinWidth(l), Bins(l);
    FloorBelow(t, w, n);
    FloorBelow(t, w, 2 * n);
    assert 2 * n * w == n * w + n * w;
    MulLe(1, w, n);
  }

  /** Row and bin are recovered from the plot index when the bin is in its row; so no two such
      (row, bin) pairs share a cell. */
  lemma RowAndBinDecode(l: Lens, row: nat, t: real)
    requires l.tofMax >= 1 && TofOnScale(l, t)
    ensures var k := row * Bins(l) + Bin(l, t);
            (k / Bins(l) == row && k % Bins(l) == Bin(l, t)) <==> t < (Bins(l) * BinWidth(l)) as real
  {
    var k, n, b := row * Bins(l) + Bin(l, t), Bins(l), Bin(l, t);
    BinBounds(l, t);
    if b < n {
      DivModOf(row, b, n);
    } else {
      assert k % n < n;
    }
  }

  /** Every configuration has an on-scale TOF (the maximum) that is plotted in the next row. */
  lemma LastTofBleedsIntoNextRow(l: Lens, row: nat)
    requires l.tofMax >= 1
    ensures TofOnScale(l, l.tofMax as real)
    ensures (row * Bins(l) + Bin(l, l.tofMax as real)) / Bins(l) == row + 1
  {
    var t, n := l.tofMax as real, Bins(l);
    BinBounds(l, t);
    var b := Bin(l, t);
    assert row * n + b == (row + 1) * n + (b - n);
    DivModOf(row + 1, b - n, n);
  }

  // ---------- the X/Y filter ----------

  /** The rectangle test on the (column, row) of a row-major image with rows of sizeX. */
  predicate InRectangle(l: Lens, x: int, y: int) {
    && l.cfg.roiStartX <= x < l.cfg.roiStartX + l.cfg.roiSizeX
    && l.cfg.roiStartY <= y < l.cfg.roiStartY + l.cfg.roiSizeY
  }

  lemma FlatRoiIsRectangle(l: Lens, index: nat)
    requires l.cfg.sizeX >= 1
    ensures PixelRoiPasses(l, index) <==> InRectangle(l, index % l.cfg.sizeX, index / l.cfg.sizeX)
  {
    var s := l.cfg.sizeX;
    DivGe(index, s, l.cfg.roiStartY);
    DivGe(index, s, l.cfg.roiStartY + l.cfg.roiSizeY);
  }

  /** With at most one filter on, an on-scale event in range of an X/Y detector is never lost. */
  lemma NoEventLost(l: Lens, e: Event, carry: int)
    requires InRange(l, e) && TofOnScale(l, TofValue(l, e)) && l.cfg.plotType == 0
    requires l.cfg.tofRoiOn == 0 || l.cfg.roiOn == 0
    ensures PixelCell(l, e, carry).Some? || TofCell(l, e).Some?
  {
  }

  // ---------- the cells, in numbers ----------

  /** What the source computes of an event before it picks cells: the pixel is in the range; its offset from the
      start is replaced by the entry of an enabled map; the TOF is taken as it is, or transformed and, unless
      the scale is negative, scaled and shifted. */
  predicate Sees(l: Lens, e: Event, i: nat, t: real) {
    && U32(l.cfg.pixelStart) <= e.pixel <= U32(l.cfg.pixelEnd)
    && var k := e.pixel - U32(l.cfg.pixelStart);
       && (if l.cfg.mapOn == 0 || l.pixelMap.None? then i == k else k < |l.pixelMap.value| && l.pixelMap.value[k] == i)
       && (l.cfg.transType == 0 ==> t == e.tof as real)
       && (l.cfg.transType != 0 ==>
             var v := l.transform(l.cfg.transType, k, e.tof);
             if l.cfg.transScale < 0.0 then t == v else t - l.cfg.transOffset == v * l.cfg.transScale)
  }

  lemma SeenIs(l: Lens, e: Event, i: nat, t: real)
    requires Sees(l, e, i, t)
    ensures InRange(l, e) && MappedIndex(l, e) == i && TofValue(l, e) == t
  {
  }

  /** The image by pixels: with the TOF filter on, an event counts at its pixel index from the start of the
      window up to but not including its end; with the filter off, always. Off scale no plot shows it. */
  lemma ImageCell(l: Lens, e: Event, i: nat, t: real, carry: int)
    requires Sees(l, e, i, t)
    ensures l.cfg.tofRoiOn != 0 ==>
              PixelCell(l, e, carry) == if 0.0 <= t - l.cfg.tofRoiStart as real < l.cfg.tofRoiSize as real then Some(i)
                                        else None
    ensures l.cfg.tofRoiOn == 0 && l.cfg.plotType == 0 ==> PixelCell(l, e, carry) == Some(i)
    ensures l.cfg.tofRoiOn == 0 && l.cfg.plotType != 0 && (t < 0.0 || t > l.tofMax as real) ==>
              PixelCell(l, e, carry) == None
  {
    SeenIs(l, e, i, t);
    hide MappedIndex, TofValue, TofIndex;
  }

  lemma BinIs(l: Lens, t: real, b: nat, k: nat)
    requires l.tofMax >= 1 && b == (if l.cfg.tofBins < 1 then 1 else Min(l.cfg.tofBins, l.tofMax))
    requires var w := l.tofMax / b; (k * w) as real <= t < ((k + 1) * w) as real && t <= l.tofMax as real
    ensures TofOnScale(l, t) && Bins(l) == b && Bin(l, t) == k
  {
    var w := BinWidth(l);
    MulLe(0, k, w);
    FloorBelow(t, w, k);
    FloorBelow(t, w, k + 1);
  }

  lemma RowIs(l: Lens, i: nat, x: nat, y: nat)
    requires 1 <= l.cfg.plotType <= 3 && l.tofMax >= 1
    requires var n := Abs(l.cfg.sizeX); x < n && i == y * n + x
    ensures Divides(l)
    ensures PlotRow(l, i) == if l.cfg.plotType == 1 then x
                             else if l.cfg.plotType == 2 then (if l.cfg.sizeX > 0 then y as int else -(y as int))
                             else i
  {
    DivModOf(y, x, Abs(l.cfg.sizeX));
  }

  /** The TOF plots: with rows of n = |sizeX| pixels, index y * n + x is column x of row y, of row -y if sizeX
      is negative; the TOF range is cut into b bins of the whole width w; and an event in bin k counts in bin k of
      its column, its row or its pixel, below the last cell of the detector. */
  lemma PlotCell(l: Lens, e: Event, i: nat, t: real, x: nat, y: nat, b: nat, k: nat, carry: int)
    requires Sees(l, e, i, t) && l.cfg.tofRoiOn == 0 && 1 <= l.cfg.plotType <= 3
    requires var n := Abs(l.cfg.sizeX); x < n && i == y * n + x
    requires l.tofMax >= 1 && b == (if l.cfg.tofBins < 1 then 1 else Min(l.cfg.tofBins, l.tofMax))
    requires var w := l.tofMax / b; (k * w) as real <= t < ((k + 1) * w) as real && t <= l.tofMax as real
    ensures var row: int := if l.cfg.plotType == 1 then x
                            else if l.cfg.plotType == 3 then i
                            else if l.cfg.sizeX > 0 then y as int else -(y as int);
            PixelCell(l, e, carry) == if row * b + k < l.cfg.pixelSize - 1 then Some(row * b + k) else None
  {
    hide MappedIndex, TofValue, Bin, Bins, PlotRow, Sees, Divides;
    SeenIs(l, e, i, t);
    BinIs(l, t, b, k);
    RowIs(l, i, x, y);
  }

  /** The TOF spectrum: cell k counts the events in range whose TOF is on scale and in [k, k + 1), unless the
      X/Y filter and the mapping are on and the pixel, at column x of row y, is outside the rectangle. */
  lemma SpectrumCell(l: Lens, e: Event, i: nat, t: real, x: nat, y: nat, k: nat)
    requires Sees(l, e, i, t)
    requires l.cfg.roiOn != 0 && l.cfg.mapOn != 0 ==> x < l.cfg.sizeX && i == y * l.cfg.sizeX + x
    ensures TofCell(l, e) == Some(k) <==>
              && k as real <= t < (k + 1) as real && t <= l.tofMax as real
              && (l.cfg.roiOn == 0 || l.cfg.mapOn == 0 ||
                  (l.cfg.roiStartX <= x < l.cfg.roiStartX + l.cfg.roiSizeX
                   && l.cfg.roiStartY <= y < l.cfg.roiStartY + l.cfg.roiSizeY))
  {
    SeenIs(l, e, i, t);
    hide MappedIndex, TofValue, PixelRoiPasses, Sees;
    if l.cfg.roiOn != 0 && l.cfg.mapOn != 0 {
      DivModOf(y, x, l.cfg.sizeX);
      FlatRoiIsRectangle(l, i);
    }
  }
}
