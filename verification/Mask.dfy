/**
 The mask plugin (ADnEDPluginMask.cpp): the requests of each mask are clamped to the array and written
 back, then every mask in use overwrites the cells inside (reject) or outside (pass) its window.
 */
module Mask {
  import opened Base
  import opened Arith

  const REJECT := 0
  const PASS := 1

  /** The parameters of one mask, as clients wrote them. */
  datatype Request = Request(use: Int32, posX: Int32, sizeX: Int32, posY: Int32, sizeY: Int32, val: Int32, kind: Int32)

  /** An extent below 2^31, as NDArray dimensions are. */
  type Extent = x: int | 0 <= x < 0x8000_0000

  datatype Shape = Shape(ndims: nat, x: Extent, y: Extent)

  /** Columns x0..x1 and rows y0..y1, upper ends excluded. */
  datatype Window = Window(x0: nat, x1: nat, y0: nat, y1: nat)

  /** An array of n cells has this shape; strides are 1 and x. */
  predicate HasShape(n: nat, sh: Shape) {
    (sh.ndims == 1 ==> n == sh.x) && (sh.ndims == 2 ==> n == sh.y * sh.x)
  }

  // ---------- clamping ----------

  /** MIN with `max - 1`, computed in 32 unsigned bits; MAX with 0 does nothing to a `size_t`. */
  function ClampPos(req: Int32, max: Extent): nat {
    Min(SizeT(req), (max - 1) % 0x1_0000_0000)
  }

  /** MIN with `max - pos`, computed in `size_t`. */
  function ClampSize(req: Int32, pos: nat, max: Extent): nat {
    Min(SizeT(req), (max - pos) % 0x1_0000_0000_0000_0000)
  }

  /** The end of the window along one axis. */
  function End(pos: nat, size: nat, max: Extent): nat {
    Min((pos + size) % 0x1_0000_0000_0000_0000, max)
  }

  /** The window a mask works with. */
  function WindowOf(sh: Shape, r: Request): Window {
    var x, y := ClampPos(r.posX, sh.x), ClampPos(r.posY, sh.y);
    Window(x, End(x, ClampSize(r.sizeX, x, sh.x), sh.x), y, End(y, ClampSize(r.sizeY, y, sh.y), sh.y))
  }

  /** The parameters written back; a 1-D array leaves the Y parameters alone. */
  function Clamped(sh: Shape, r: Request): Request {
    var x, y := ClampPos(r.posX, sh.x), ClampPos(r.posY, sh.y);
    var r' := r.(posX := Wrap32(x), sizeX := Wrap32(ClampSize(r.sizeX, x, sh.x)));
    if sh.ndims > 1 then r'.(posY := Wrap32(y), sizeY := Wrap32(ClampSize(r.sizeY, y, sh.y))) else r'
  }

  /** Masks not in use are skipped, parameters included. */
  function WrittenBack(sh: Shape, rs: seq<Request>): (ws: seq<Request>)
    ensures |ws| == |rs|
  {
    seq(|rs|, i requires 0 <= i < |rs| => if rs[i].use != 0 then Clamped(sh, rs[i]) else rs[i])
  }

  /** Any request lands inside the array; a negative one at its top end. */
  lemma ClampLandsInside(pos: Int32, size: Int32, max: Extent)
    requires max >= 1
    ensures var p := ClampPos(pos, max); var n := ClampSize(size, p, max);
            && p < max && p + n <= max && End(p, n, max) == p + n
            && p == (if pos < 0 then max - 1 else Min(pos, max - 1))
            && n == (if size < 0 then max - p else Min(size, max - p))
  {
  }

  lemma PosFixed(pos: Int32, max: Extent)
    ensures ClampPos(Wrap32(ClampPos(pos, max)), max) == ClampPos(pos, max)
  {
  }

  lemma SizeFixed(size: Int32, pos: nat, max: Extent)
    requires pos < 0x1_0000_0000 && (max >= 1 ==> pos < max)
    ensures var n := ClampSize(size, pos, max);
            var n' := ClampSize(Wrap32(n), pos, max);
            Wrap32(n') == Wrap32(n) && End(pos, n', max) == End(pos, n, max)
  {
    if max >= 1 {
      var n := ClampSize(size, pos, max);
      SizeIs(size, pos, max);
      SizeIs(n, pos, max);
      hide ClampSize, End;
    } else {
      hide SizeT;
      EmptyAxis(size, pos);
    }
  }

  lemma SizeIs(size: Int32, pos: nat, max: Extent)
    requires pos < max
    ensures ClampSize(size, pos, max) == if size < 0 then max - pos else Min(size, max - pos)
  {
  }

  lemma EmptyAxis(size: Int32, pos: nat)
    requires pos < 0x1_0000_0000
    ensures var n := ClampSize(size, pos, 0);
            var n' := ClampSize(Wrap32(n), pos, 0);
            Wrap32(n') == Wrap32(n) && End(pos, n', 0) == End(pos, n, 0)
  {
  }

  /** One axis: re-clamping the values written back gives the same position, size and end. */
  lemma AxisFixed(pos: Int32, size: Int32, max: Extent)
    ensures var p := ClampPos(pos, max); var n := ClampSize(size, p, max);
            var p' := ClampPos(Wrap32(p), max); var n' := ClampSize(Wrap32(n), p', max);
            p' == p && Wrap32(n') == Wrap32(n) && End(p', n', max) == End(p, n, max)
  {
    hide Wrap32, ClampSize, End;
    PosFixed(pos, max);
    SizeFixed(size, ClampPos(pos, max), max);
  }

  /** Clamping is a fixed point: parameters and window stay as they are when clamped again. */
  lemma ClampIsFixed(sh: Shape, r: Request)
    ensures Clamped(sh, Clamped(sh, r)) == Clamped(sh, r)
    ensures sh.ndims > 1 ==> WindowOf(sh, Clamped(sh, r)) == WindowOf(sh, r)
    ensures WindowOf(sh, Clamped(sh, r)).x0 == WindowOf(sh, r).x0
            && WindowOf(sh, Clamped(sh, r)).x1 == WindowOf(sh, r).x1
  {
    hide ClampPos, ClampSize, End;
    AxisFixed(r.posX, r.sizeX, sh.x);
    AxisFixed(r.posY, r.sizeY, sh.y);
  }

  // ---------- what one mask does ----------

  predicate InColumns(w: Window, x: int) {
    w.x0 <= x < w.x1
  }

  predicate Inside(w: Window, x: int, y: int) {
    InColumns(w, x) && w.y0 <= y < w.y1
  }

  /** The mask writes cell k of the array. */
  predicate Writes(sh: Shape, r: Request, k: nat) {
    var w := WindowOf(sh, r);
    if sh.ndims == 1 then
      (r.kind == REJECT && InColumns(w, k)) || (r.kind == PASS && !InColumns(w, k))
    else
      sh.ndims == 2 && sh.x > 0
      && ((r.kind == REJECT && Inside(w, k % sh.x, k / sh.x)) || (r.kind == PASS && !Inside(w, k % sh.x, k / sh.x)))
  }

  function Painted<T>(s: seq<T>, sh: Shape, r: Request, v: T): (t: seq<T>)
    ensures |t| == |s|
  {
    seq(|s|, k requires 0 <= k < |s| => if Writes(sh, r, k) then v else s[k])
  }

  /** Cell k comes before column x of row y. */
  ghost predicate SoFar(n: int, k: int, x: int, y: int)
    requires n > 0
  {
    k / n < y || (k / n == y && k % n < x)
  }

  lemma SoFarStep(n: int, k: nat, x: nat, y: nat)
    requires x < n
    ensures SoFar(n, k, x + 1, y) <==> SoFar(n, k, x, y) || k == y * n + x
  {
    DivModOf(y, x, n);
    assert k == (k / n) * n + k % n;
  }

  /** The cells done are painted, the others as they were. */
  ghost predicate RowsDone<T>(s: seq<T>, t: seq<T>, sh: Shape, r: Request, v: T, x: int, y: int)
    requires sh.x > 0
  {
    |s| == |t| && forall k :: 0 <= k < |s| ==> t[k] == if Writes(sh, r, k) && SoFar(sh.x, k, x, y) then v else s[k]
  }

  // ---------- the loops of doMaskT ----------

  /** 1-D, reject: write the window. */
  method RejectLine<T>(a: array<T>, sh: Shape, r: Request, v: T)
    requires sh.ndims == 1 && a.Length == sh.x && r.kind == REJECT
    modifies a
    ensures a[..] == Painted(old(a[..]), sh, r, v)
  {
    hide WindowOf;
    var w := WindowOf(sh, r);
    EndInside(sh, r);
    var ix := w.x0;
    while ix < w.x1
      invariant w.x0 <= ix
      invariant w.x0 <= w.x1 ==> ix <= w.x1
      invariant forall k :: 0 <= k < a.Length ==> a[k] == if w.x0 <= k < ix && InColumns(w, k) then v else old(a[..])[k]
    {
      a[ix] := v;
      ix := ix + 1;
    }
  }

  /** 1-D, pass: write everything but the window. */
  method PassLine<T>(a: array<T>, sh: Shape, r: Request, v: T)
    requires sh.ndims == 1 && a.Length == sh.x && r.kind == PASS
    modifies a
    ensures a[..] == Painted(old(a[..]), sh, r, v)
  {
    hide WindowOf;
    var w := WindowOf(sh, r);
    for ix := 0 to sh.x
      invariant forall k :: 0 <= k < a.Length ==> a[k] == if k < ix && !InColumns(w, k) then v else old(a[..])[k]
    {
      if ix < w.x0 || ix >= w.x1 {
        a[ix] := v;
      }
    }
  }

  lemma EndInside(sh: Shape, r: Request)
    ensures WindowOf(sh, r).x1 <= sh.x && WindowOf(sh, r).y1 <= sh.y
  {
  }

  /** Writing cell (x, y), or leaving a cell the mask does not write, takes the loop one cell further. */
  lemma CellDone<T>(s: seq<T>, t: seq<T>, t': seq<T>, sh: Shape, r: Request, v: T, x: nat, y: nat)
    requires sh.x > 0 && x < sh.x && RowsDone(s, t, sh, r, v, x, y) && y * sh.x + x < |s|
    requires t' == if Writes(sh, r, y * sh.x + x) then t[y * sh.x + x := v] else t
    ensures RowsDone(s, t', sh, r, v, x + 1, y)
  {
    hide Writes, SoFar;
    forall k | 0 <= k < |s|
      ensures t'[k] == if Writes(sh, r, k) && SoFar(sh.x, k, x + 1, y) then v else s[k]
    {
      SoFarStep(sh.x, k, x, y);
    }
  }

  /** A finished row: no cell the mask writes lies right of x, or left of x' in the next row. */
  lemma RowDone<T>(s: seq<T>, t: seq<T>, sh: Shape, r: Request, v: T, x: int, x': int, y: int)
    requires sh.x > 0 && RowsDone(s, t, sh, r, v, x, y)
    requires forall k: nat :: Writes(sh, r, k) ==> k % sh.x < x && k % sh.x >= x'
    ensures RowsDone(s, t, sh, r, v, x', y + 1)
  {
    hide Writes;
  }

  lemma AllDone<T>(s: seq<T>, t: seq<T>, sh: Shape, r: Request, v: T, x: int, y: int)
    requires sh.x > 0 && RowsDone(s, t, sh, r, v, x, y)
    requires forall k: nat :: k < |s| && Writes(sh, r, k) ==> k / sh.x < y
    ensures t == Painted(s, sh, r, v)
  {
    hide Writes;
  }

  /** Writes at column x of row y. */
  lemma WritesAt(sh: Shape, r: Request, x: nat, y: nat, k: nat)
    requires sh.ndims == 2 && x < sh.x && y < sh.y && k == y * sh.x + x
    ensures var w := WindowOf(sh, r);
            Writes(sh, r, k) <==> (r.kind == REJECT && Inside(w, x, y)) || (r.kind == PASS && !Inside(w, x, y))
  {
    hide WindowOf;
    RowMajor(x, y, sh.x, sh.y);
  }

  /** 2-D, reject. */
  method RejectImage<T>(a: array<T>, sh: Shape, r: Request, v: T)
    requires sh.ndims == 2 && a.Length == sh.y * sh.x && r.kind == REJECT
    modifies a
    ensures a[..] == Painted(old(a[..]), sh, r, v)
  {
    hide WindowOf, Painted, RowsDone;
    var w := WindowOf(sh, r);
    EndInside(sh, r);
    if sh.x == 0 {
      assert a[..] == Painted(old(a[..]), sh, r, v);
      return;
    }
    ghost var s := a[..];
    StartDone(s, sh, r, v, w.x0, w.y0);
    var iy := w.y0;
    while iy < w.y1
      invariant w.y0 <= iy && RowsDone(s, a[..], sh, r, v, w.x0, iy)
    {
      var ix := w.x0;
      while ix < w.x1
        invariant w.x0 <= ix && RowsDone(s, a[..], sh, r, v, ix, iy)
      {
        RowMajor(ix, iy, sh.x, sh.y);
        WritesAt(sh, r, ix, iy, iy * sh.x + ix);
        ghost var t := a[..];
        a[iy * sh.x + ix] := v;
        CellDone(s, t, a[..], sh, r, v, ix, iy);
        ix := ix + 1;
      }
      RowDone(s, a[..], sh, r, v, ix, w.x0, iy);
      iy := iy + 1;
    }
    AllDone(s, a[..], sh, r, v, w.x0, iy);
  }

  lemma StartDone<T>(s: seq<T>, sh: Shape, r: Request, v: T, x: int, y: int)
    requires sh.x > 0
    requires forall k: nat :: k < |s| && Writes(sh, r, k) ==> !SoFar(sh.x, k, x, y)
    ensures RowsDone(s, s, sh, r, v, x, y)
  {
    hide Writes, SoFar;
  }

  lemma NothingBefore<T>(s: seq<T>, sh: Shape, r: Request, v: T)
    requires sh.x > 0
    ensures RowsDone(s, s, sh, r, v, 0, 0)
  {
    hide Writes;
    forall k: nat | k < |s|
      ensures !SoFar(sh.x, k, 0, 0)
    {
      DivGe(k, sh.x, 0);
    }
    StartDone(s, sh, r, v, 0, 0);
  }

  lemma NoRowAfter<T>(s: seq<T>, t: seq<T>, sh: Shape, r: Request, v: T)
    requires sh.x > 0 && |s| == sh.y * sh.x && RowsDone(s, t, sh, r, v, 0, sh.y)
    ensures t == Painted(s, sh, r, v)
  {
    hide Writes;
    forall k: nat | k < |s|
      ensures k / sh.x < sh.y
    {
      RowMajorInverse(k, sh.x, sh.y);
    }
    AllDone(s, t, sh, r, v, 0, sh.y);
  }

  /** 2-D, pass. */
  method PassImage<T>(a: array<T>, sh: Shape, r: Request, v: T)
    requires sh.ndims == 2 && a.Length == sh.y * sh.x && r.kind == PASS
    modifies a
    ensures a[..] == Painted(old(a[..]), sh, r, v)
  {
    hide WindowOf, Writes, Painted, RowsDone, SoFar;
    var w := WindowOf(sh, r);
    if sh.x == 0 {
      assert a[..] == Painted(a[..], sh, r, v) == [];
      return;
    }
    ghost var s := a[..];
    NothingBefore(s, sh, r, v);
    for iy := 0 to sh.y
      invariant RowsDone(s, a[..], sh, r, v, 0, iy)
    {
      for ix := 0 to sh.x
        invariant RowsDone(s, a[..], sh, r, v, ix, iy)
      {
        RowMajor(ix, iy, sh.x, sh.y);
        WritesAt(sh, r, ix, iy, iy * sh.x + ix);
        ghost var t := a[..];
        if ix < w.x0 || ix >= w.x1 || iy < w.y0 || iy >= w.y1 {
          a[iy * sh.x + ix] := v;
        }
        CellDone(s, t, a[..], sh, r, v, ix, iy);
      }
      RowDone(s, a[..], sh, r, v, sh.x, 0, iy);
    }
    NoRowAfter(s, a[..], sh, r, v);
  }

  /** doMask: a data type it does not know is an error and leaves the array alone. */
  method DoMask<T>(a: array<T>, sh: Shape, r: Request, known: bool, conv: nat -> T) returns (ok: bool)
    requires HasShape(a.Length, sh)
    modifies a
    ensures ok == known
    ensures a[..] == if known then Painted(old(a[..]), sh, r, conv(SizeT(r.val))) else old(a[..])
  {
    hide WindowOf;
    var v := conv(SizeT(r.val));
    if known {
      if sh.ndims == 1 {
        if r.kind == REJECT {
          RejectLine(a, sh, r, v);
        } else if r.kind == PASS {
          PassLine(a, sh, r, v);
        }
      } else if sh.ndims == 2 {
        if r.kind == REJECT {
          RejectImage(a, sh, r, v);
        } else if r.kind == PASS {
          PassImage(a, sh, r, v);
        }
      }
    }
    ok := known;
  }

  // ---------- all the masks ----------

  /** The masks in use, painted in order. */
  function Composed<T>(s: seq<T>, sh: Shape, rs: seq<Request>, conv: nat -> T): (t: seq<T>)
    ensures |t| == |s|
  {
    if rs == [] then s else
      var r, t := rs[|rs| - 1], Composed(s, sh, rs[..|rs| - 1], conv);
      if r.use != 0 then Painted(t, sh, r, conv(SizeT(r.val))) else t
  }

  /** The state of the loop before mask i: parameters below i written back, masks below i painted. */
  ghost predicate Through<T(!new)>(s: seq<T>, sh: Shape, rs: seq<Request>, known: bool, conv: nat -> T, i: nat,
      ps: seq<Request>, t: seq<T>) {
    && i <= |rs| == |ps|
    && (forall j :: 0 <= j < |rs| ==> ps[j] == if j < i then WrittenBack(sh, rs)[j] else rs[j])
    && t == if known then Composed(s, sh, rs[..i], conv) else s
  }

  lemma ThroughStep<T(!new)>(s: seq<T>, sh: Shape, rs: seq<Request>, known: bool, conv: nat -> T, i: nat,
      ps: seq<Request>, t: seq<T>)
    requires i < |rs| && Through(s, sh, rs, known, conv, i, ps, t)
    ensures rs[i].use == 0 ==> Through(s, sh, rs, known, conv, i + 1, ps, t)
    ensures var t' := if known then Painted(t, sh, rs[i], conv(SizeT(rs[i].val))) else t;
            rs[i].use != 0 ==> Through(s, sh, rs, known, conv, i + 1, ps[i := Clamped(sh, rs[i])], t')
  {
    hide Clamped, Painted;
    assert rs[..i + 1][..i] == rs[..i];
  }

  class NDPluginMask {
    var params: seq<Request>
    var xArrayMax: Extent
    var yArrayMax: Extent

    /** processCallbacks, given a copy `out` of the input array. */
    method ProcessCallbacks<T(!new)>(out: array<T>, sh: Shape, known: bool, conv: nat -> T)
      requires HasShape(out.Length, sh)
      modifies this, out
      ensures xArrayMax == sh.x && yArrayMax == sh.y
      ensures params == WrittenBack(sh, old(params))
      ensures out[..] == if known then Composed(old(out[..]), sh, old(params), conv) else old(out[..])
    {
      hide Clamped, Painted, WrittenBack, Composed;
      xArrayMax, yArrayMax := sh.x, sh.y;
      ghost var s, rs := out[..], params;
      assert Composed(s, sh, rs[..0], conv) == s by {
        EmptyComposed(s, sh, conv);
      }
      var mask := 0;
      while mask < |params|
        invariant mask <= |params| == |rs| && Through(s, sh, rs, known, conv, mask, params, out[..])
        invariant xArrayMax == sh.x && yArrayMax == sh.y
      {
        var r := params[mask];
        ThroughStep(s, sh, rs, known, conv, mask, params, out[..]);
        if r.use != 0 {
          params := params[mask := Clamped(sh, r)];
          var _ := DoMask(out, sh, r, known, conv);
        }
        mask := mask + 1;
      }
      assert rs[..mask] == rs && params == WrittenBack(sh, rs);
    }
  }

  lemma EmptyComposed<T>(s: seq<T>, sh: Shape, conv: nat -> T)
    ensures Composed(s, sh, [], conv) == s
  {
  }

  /** The highest-numbered mask in use that writes cell k. */
  ghost predicate LastWriter(sh: Shape, rs: seq<Request>, k: nat, i: int) {
    && 0 <= i < |rs| && rs[i].use != 0 && Writes(sh, rs[i], k)
    && forall j :: i < j < |rs| ==> !(rs[j].use != 0 && Writes(sh, rs[j], k))
  }

  ghost predicate Untouched(sh: Shape, rs: seq<Request>, k: nat) {
    forall j :: 0 <= j < |rs| ==> !(rs[j].use != 0 && Writes(sh, rs[j], k))
  }

  lemma LastMask<T>(s: seq<T>, sh: Shape, rs: seq<Request>, conv: nat -> T, k: nat)
    requires k < |s|
    ensures rs == [] ==> Composed(s, sh, rs, conv)[k] == s[k]
    ensures rs != [] ==>
              var r, rest := rs[|rs| - 1], rs[..|rs| - 1];
              Composed(s, sh, rs, conv)[k]
              == if r.use != 0 && Writes(sh, r, k) then conv(SizeT(r.val)) else Composed(s, sh, rest, conv)[k]
  {
    hide Writes;
  }

  /** Each cell holds the value of the highest-numbered mask in use that writes it, else the input. */
  lemma {:induction false} HighestMaskWins<T>(s: seq<T>, sh: Shape, rs: seq<Request>, conv: nat -> T, k: nat)
    requires k < |s|
    ensures Untouched(sh, rs, k) ==> Composed(s, sh, rs, conv)[k] == s[k]
    ensures forall i :: LastWriter(sh, rs, k, i) ==> Composed(s, sh, rs, conv)[k] == conv(SizeT(rs[i].val))
    ensures Untouched(sh, rs, k) || exists i :: LastWriter(sh, rs, k, i)
  {
    hide Writes, Composed, LastWriter, Untouched;
    LastMask(s, sh, rs, conv, k);
    if rs == [] {
      NoWriter(sh, k);
    } else {
      var n := |rs| - 1;
      HighestMaskWins(s, sh, rs[..n], conv, k);
      WriterSnoc(sh, rs, k);
      assert rs[n].use != 0 && Writes(sh, rs[n], k) ==> LastWriter(sh, rs, k, n);
    }
  }

  lemma NoWriter(sh: Shape, k: nat)
    ensures Untouched(sh, [], k) && forall i :: !LastWriter(sh, [], k, i)
  {
  }

  /** The last mask is the last writer if it writes the cell; otherwise the others decide. */
  lemma WriterSnoc(sh: Shape, rs: seq<Request>, k: nat)
    requires rs != []
    ensures var n, rest := |rs| - 1, rs[..|rs| - 1];
            if rs[n].use != 0 && Writes(sh, rs[n], k)
            then !Untouched(sh, rs, k) && forall i :: LastWriter(sh, rs, k, i) <==> i == n
            else && (Untouched(sh, rs, k) <==> Untouched(sh, rest, k))
                 && (forall i :: LastWriter(sh, rs, k, i) <==> LastWriter(sh, rest, k, i))
                 && (forall i :: LastWriter(sh, rest, k, i) ==> 0 <= i < n && rest[i] == rs[i])
  {
    hide Writes;
  }

  lemma WritesAgain(sh: Shape, r: Request, k: nat)
    ensures Writes(sh, Clamped(sh, r), k) == Writes(sh, r, k)
  {
    ClampIsFixed(sh, r);
    hide WindowOf;
  }

  /** Feeding the plugin its own output, with the parameters it wrote back, changes neither. */
  lemma TwiceIsOnce<T>(s: seq<T>, sh: Shape, rs: seq<Request>, conv: nat -> T)
    ensures var ws := WrittenBack(sh, rs); var t := Composed(s, sh, rs, conv);
            Composed(t, sh, ws, conv) == t && WrittenBack(sh, ws) == ws
  {
    hide Writes, WindowOf;
    var ws, t := WrittenBack(sh, rs), Composed(s, sh, rs, conv);
    forall i | 0 <= i < |ws|
      ensures WrittenBack(sh, ws)[i] == ws[i]
    {
      ClampIsFixed(sh, rs[i]);
    }
    var t' := Composed(t, sh, ws, conv);
    forall k | 0 <= k < |t|
      ensures t'[k] == t[k]
    {
      forall i | 0 <= i < |rs|
        ensures Writes(sh, ws[i], k) == Writes(sh, rs[i], k)
      {
        WritesAgain(sh, rs[i], k);
      }
      HighestMaskWins(s, sh, rs, conv, k);
      HighestMaskWins(t, sh, ws, conv, k);
      if !Untouched(sh, rs, k) {
        var i :| LastWriter(sh, rs, k, i);
        assert LastWriter(sh, ws, k, i);
      }
    }
  }

  // ---------- the plugin, in numbers ----------

  /** Along an axis of max cells, a window asked for at pos with the given size runs from lo to hi: a position
      beyond either end means the last cell, a size beyond the end or negative means up to the end. */
  predicate Spans(pos: Int32, size: Int32, max: Extent, lo: int, hi: int) {
    && lo == (if 0 <= pos < max then pos else max - 1)
    && hi == (if 0 <= size < max - lo then lo + size else max)
  }

  lemma SpanIs(pos: Int32, size: Int32, max: Extent, lo: int, hi: int)
    requires 1 <= max && Spans(pos, size, max, lo, hi)
    ensures var p := ClampPos(pos, max); p == lo && End(p, ClampSize(size, p, max), max) == hi
    ensures Wrap32(ClampPos(pos, max)) == lo && Wrap32(ClampSize(size, ClampPos(pos, max), max)) == hi - lo
  {
    ClampLandsInside(pos, size, max);
    hide ClampPos, ClampSize, End;
  }

  /** Mask r is the only one in use. */
  predicate OnlyMask(rs: seq<Request>, i: nat) {
    i < |rs| && rs[i].use != 0 && forall j :: 0 <= j < |rs| && j != i ==> rs[j].use == 0
  }

  /** The result with one mask in use is that of the mask. */
  lemma {:induction false} OneMask<T>(s: seq<T>, sh: Shape, rs: seq<Request>, conv: nat -> T, i: nat)
    requires OnlyMask(rs, i)
    ensures Composed(s, sh, rs, conv) == Painted(s, sh, rs[i], conv(SizeT(rs[i].val)))
  {
    hide Painted;
    var n := |rs| - 1;
    if i == n {
      NoMask(s, sh, rs[..n], conv);
    } else {
      OneMask(s, sh, rs[..n], conv, i);
    }
  }

  lemma {:induction false} NoMask<T>(s: seq<T>, sh: Shape, rs: seq<Request>, conv: nat -> T)
    requires forall j :: 0 <= j < |rs| ==> rs[j].use == 0
    ensures Composed(s, sh, rs, conv) == s
  {
    hide Painted;
    if rs != [] { NoMask(s, sh, rs[..|rs| - 1], conv); }
  }

  /** One mask on an image: type 0 writes its value to the cells inside the window, type 1 to those outside, and any
      other type to none; the value is what the data type makes of it. */
  lemma OneMaskOnImage<T>(s: seq<T>, sh: Shape, rs: seq<Request>, conv: nat -> T, i: nat, x: nat, y: nat,
      x0: int, x1: int, y0: int, y1: int)
    requires sh.ndims == 2 && |s| == sh.y * sh.x && x < sh.x && y < sh.y && OnlyMask(rs, i)
    requires Spans(rs[i].posX, rs[i].sizeX, sh.x, x0, x1) && Spans(rs[i].posY, rs[i].sizeY, sh.y, y0, y1)
    ensures y * sh.x + x < |s|
    ensures var inside := x0 <= x < x1 && y0 <= y < y1;
            var written := (rs[i].kind == 0 && inside) || (rs[i].kind == 1 && !inside);
            Composed(s, sh, rs, conv)[y * sh.x + x] == if written then conv(SizeT(rs[i].val)) else s[y * sh.x + x]
  {
    OneMask(s, sh, rs, conv, i);
    RowMajor(x, y, sh.x, sh.y);
    SpanIs(rs[i].posX, rs[i].sizeX, sh.x, x0, x1);
    SpanIs(rs[i].posY, rs[i].sizeY, sh.y, y0, y1);
    WritesAt(sh, rs[i], x, y, y * sh.x + x);
    hide Spans, Composed, Writes, ClampPos, ClampSize, End;
  }

  /** The same on a line. */
  lemma OneMaskOnLine<T>(s: seq<T>, sh: Shape, rs: seq<Request>, conv: nat -> T, i: nat, x: nat, x0: int, x1: int)
    requires sh.ndims == 1 && |s| == sh.x && x < sh.x && OnlyMask(rs, i)
    requires Spans(rs[i].posX, rs[i].sizeX, sh.x, x0, x1)
    ensures var inside := x0 <= x < x1;
            var written := (rs[i].kind == 0 && inside) || (rs[i].kind == 1 && !inside);
            Composed(s, sh, rs, conv)[x] == if written then conv(SizeT(rs[i].val)) else s[x]
  {
    OneMask(s, sh, rs, conv, i);
    SpanIs(rs[i].posX, rs[i].sizeX, sh.x, x0, x1);
    hide Spans, Composed, ClampPos, ClampSize, End;
  }

  /** Arrays of more than two dimensions, and arrays with no mask in use, are passed on as they are. */
  lemma OtherwiseUntouched<T>(s: seq<T>, sh: Shape, rs: seq<Request>, conv: nat -> T)
    requires (sh.ndims != 1 && sh.ndims != 2) || forall j :: 0 <= j < |rs| ==> rs[j].use == 0
    ensures Composed(s, sh, rs, conv) == s
  {
    forall k | 0 <= k < |s|
      ensures Composed(s, sh, rs, conv)[k] == s[k]
    {
      HighestMaskWins(s, sh, rs, conv, k);
    }
    hide Composed;
  }

  /** What is written back: position and size of the window, of the Y axis only for an image, and nothing of a mask
      that is not in use. */
  lemma WritesBack(sh: Shape, rs: seq<Request>, i: nat, x0: int, x1: int, y0: int, y1: int)
    requires i < |rs| && 1 <= sh.x && (sh.ndims > 1 ==> 1 <= sh.y)
    requires Spans(rs[i].posX, rs[i].sizeX, sh.x, x0, x1) && Spans(rs[i].posY, rs[i].sizeY, sh.y, y0, y1)
    ensures var r, w := rs[i], WrittenBack(sh, rs)[i];
            && w.use == r.use && w.val == r.val && w.kind == r.kind
            && (r.use == 0 ==> w == r)
            && (r.use != 0 ==> w.posX == x0 && w.sizeX == x1 - x0)
            && (r.use != 0 && sh.ndims > 1 ==> w.posY == y0 && w.sizeY == y1 - y0)
            && (sh.ndims <= 1 ==> w.posY == r.posY && w.sizeY == r.sizeY)
  {
    SpanIs(rs[i].posX, rs[i].sizeX, sh.x, x0, x1);
    if sh.ndims > 1 { SpanIs(rs[i].posY, rs[i].sizeY, sh.y, y0, y1); }
    hide Spans, ClampPos, ClampSize, Wrap32;
  }

  // ---------- order ----------

  /** Two masks in use that write a common cell agree on its value. */
  ghost predicate Agree<T(!new)>(n: nat, sh: Shape, conv: nat -> T, r: Request, q: Request) {
    forall k :: 0 <= k < n && r.use != 0 && q.use != 0 && Writes(sh, r, k) && Writes(sh, q, k)
      ==> conv(SizeT(r.val)) == conv(SizeT(q.val))
  }

  ghost predicate AllAgree<T(!new)>(n: nat, sh: Shape, conv: nat -> T, rs: seq<Request>) {
    forall r, q :: r in rs && q in rs ==> Agree(n, sh, conv, r, q)
  }

  ghost predicate OrderFree<T(!new)>(s: seq<T>, sh: Shape, conv: nat -> T, rs: seq<Request>) {
    forall ts :: multiset(ts) == multiset(rs) ==> Composed(s, sh, ts, conv) == Composed(s, sh, rs, conv)
  }

  lemma SameMembers(rs: seq<Request>, ts: seq<Request>, r: Request)
    requires multiset(ts) == multiset(rs)
    ensures r in rs <==> r in ts
  {
    assert r in rs <==> r in multiset(rs);
    assert r in ts <==> r in multiset(ts);
  }

  lemma AgreeingMasksCommute<T(!new)>(s: seq<T>, sh: Shape, conv: nat -> T, rs: seq<Request>, ts: seq<Request>)
    requires AllAgree(|s|, sh, conv, rs) && multiset(ts) == multiset(rs)
    ensures Composed(s, sh, ts, conv) == Composed(s, sh, rs, conv)
  {
    hide Writes, Composed;
    forall k | 0 <= k < |s|
      ensures Composed(s, sh, ts, conv)[k] == Composed(s, sh, rs, conv)[k]
    {
      HighestMaskWins(s, sh, rs, conv, k);
      HighestMaskWins(s, sh, ts, conv, k);
      if !Untouched(sh, rs, k) {
        var i :| LastWriter(sh, rs, k, i);
        SameMembers(rs, ts, rs[i]);
        var j :| 0 <= j < |ts| && ts[j] == rs[i];
        var h :| LastWriter(sh, ts, k, h);
        SameMembers(rs, ts, ts[h]);
        assert Agree(|s|, sh, conv, rs[i], ts[h]);
      } else if !Untouched(sh, ts, k) {
        var h :| LastWriter(sh, ts, k, h);
        SameMembers(rs, ts, ts[h]);
        assert false;
      }
    }
  }

  /** The masks with the one at i moved to the end. */
  ghost function Last(rs: seq<Request>, i: nat): (ts: seq<Request>)
    requires i < |rs|
    ensures multiset(ts) == multiset(rs) && ts != [] && ts[|ts| - 1] == rs[i]
  {
    assert rs == rs[..i] + [rs[i]] + rs[i + 1..];
    rs[..i] + rs[i + 1..] + [rs[i]]
  }

  /** The result does not depend on the order of the masks exactly when overlapping masks agree. */
  lemma OrderFreeIffAgree<T(!new)>(s: seq<T>, sh: Shape, conv: nat -> T, rs: seq<Request>)
    ensures OrderFree(s, sh, conv, rs) <==> AllAgree(|s|, sh, conv, rs)
  {
    hide Writes;
    if AllAgree(|s|, sh, conv, rs) {
      forall ts | multiset(ts) == multiset(rs)
        ensures Composed(s, sh, ts, conv) == Composed(s, sh, rs, conv)
      {
        AgreeingMasksCommute(s, sh, conv, rs, ts);
      }
    } else {
      var r, q :| r in rs && q in rs && !Agree(|s|, sh, conv, r, q);
      var k :| 0 <= k < |s| && r.use != 0 && q.use != 0 && Writes(sh, r, k) && Writes(sh, q, k)
               && conv(SizeT(r.val)) != conv(SizeT(q.val));
      var i :| 0 <= i < |rs| && rs[i] == r;
      var j :| 0 <= j < |rs| && rs[j] == q;
      assert Composed(s, sh, Last(rs, i), conv)[k] == conv(SizeT(r.val));
      assert Composed(s, sh, Last(rs, j), conv)[k] == conv(SizeT(q.val));
    }
  }

  /** In particular with equal values. */
  lemma EqualValuesCommute<T(!new)>(s: seq<T>, sh: Shape, conv: nat -> T, rs: seq<Request>, ts: seq<Request>)
    requires forall i, j :: 0 <= i < |rs| && 0 <= j < |rs| ==> rs[i].val == rs[j].val
    requires multiset(ts) == multiset(rs)
    ensures Composed(s, sh, ts, conv) == Composed(s, sh, rs, conv)
  {
    hide Writes, Composed;
    AgreeingMasksCommute(s, sh, conv, rs, ts);
  }
}
