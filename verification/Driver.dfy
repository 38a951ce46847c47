/**
 The driver as a value: its parameters, the shared buffer and the counters, and each locked
 section as a function from state to state. DriverObject.dfy proves the in-place methods equal to
 these; Acquisition.dfy runs them under the threads.
 */
module Driver {
  import opened Base
  import opened Events
  import opened Histogram
  import Layout
  import opened Stream
  import MapFile

  /** What allocArray publishes for one detector. */
  datatype Region = Region(start: int, end: int, size: int, tofStart: int, tofEnd: int)

  datatype Det = Det(cfg: Config, region: Region, transform: Transform)

  /** p_PixelMap and m_PixelMapSize; `bound` records the detector size in force at the load. */
  datatype PixelMap = PixelMap(entries: Option<seq<nat>>, size: nat, bound: nat)

  /** The handler's copy of one detector's parameters (the m_det... members). */
  datatype Snap = Snap(cfg: Config, start: int, tofStart: int)

  datatype Status = Idle | Acquire | Error | Aborted

  /** `laidOut`, `epoch` and `lastOk` are history: the detector count of the last successful allocation,
      how many allocations were attempted, and whether the last one succeeded. Address 0 of the detector
      lists is unused, as in the source. */
  datatype State = State(
    numDet: Int32, numChannels: Int32, tofMaxParam: Int32, paused: Int32,
    dets: seq<Det>, maps: seq<PixelMap>,
    data: Option<seq<nat>>, dataAlloc: bool, dataMaxSize: int, bufferMaxSize: int, tofMax: nat,
    snaps: seq<Snap>, totals: seq<nat>,
    channels: seq<Channel>, pulses: nat, charge: real,
    status: Status,
    laidOut: nat, epoch: nat, lastOk: bool)

  function MaxDets(s: State): int {
    |s.dets| - 1
  }

  /** The address lists have one length and the detector count fits them. */
  predicate Shaped(s: State) {
    && 1 <= |s.dets| == |s.maps| == |s.snaps| == |s.totals|
    && s.numDet <= MaxDets(s) && s.laidOut <= MaxDets(s)
    && 1 <= |s.channels| && s.numChannels <= |s.channels|
  }

  /** The parameters a detector starts with. */
  function FirstDet(transform: Transform): Det {
    Det(Config(0, 0, 0, 0, 0, 0, 0, 0, 0, 0, 0.0, 1.0, 0, 0, 0, 0, 1, 0), Region(0, 0, 0, 0, 0), transform)
  }

  /** The copies start out as zeros. */
  function FirstSnap(): Snap {
    Snap(Config(0, 0, 0, 0, 0, 0, 0, 0, 0, 0, 0.0, 0.0, 0, 0, 0, 0, 0, 0), 0, 0)
  }

  /** What the constructor leaves, for any number of detectors and channels. */
  function InitState(maxDets: nat, maxChannels: nat, transform: Transform): State {
    var n := maxDets + 1;
    State(0, 0, 0, 0,
      seq(n, _ => FirstDet(transform)), seq(n, _ => PixelMap(None, 0, 0)),
      None, true, 0, 0, 0,
      seq(n, _ => FirstSnap()), Zeros(n),
      seq(maxChannels, _ => Cleared), 0, 0.0, Idle, 0, 0, false)
  }

  // ---------- allocation ----------

  /** The size used for a detector: the pixel range when the size parameter was left at 0. */
  function SizeOf(c: Config): Int32 {
    if c.pixelSize == 0 then Wrap32(c.pixelEnd - c.pixelStart + 1) else c.pixelSize
  }

  function Sizes(dets: seq<Det>, n: nat): (r: seq<int>)
    requires n < |dets|
    ensures |r| == n
  {
    seq(n, k requires 0 <= k < n => SizeOf(dets[k + 1].cfg) as int)
  }

  /** First detector from k on whose range is empty, or n + 1. */
  function FirstBad(dets: seq<Det>, k: nat, n: nat): (r: nat)
    requires 1 <= k <= n + 1 && n < |dets|
    ensures k <= r <= n + 1
    ensures forall j :: k <= j < r ==> dets[j].cfg.pixelStart <= dets[j].cfg.pixelEnd
    ensures r <= n ==> dets[r].cfg.pixelStart > dets[r].cfg.pixelEnd
    decreases n + 1 - k
  {
    if k == n + 1 || dets[k].cfg.pixelStart > dets[k].cfg.pixelEnd then k else FirstBad(dets, k + 1, n)
  }

  /** Detector d (numbered from 1) with its pixel region published. */
  function PlacePixel(det: Det, sizes: seq<int>, d: nat): Det
    requires 1 <= d <= |sizes|
  {
    var start := Layout.Offset(sizes, d - 1);
    var size := SizeOf(det.cfg);
    det.(cfg := det.cfg.(pixelSize := size),
         region := det.region.(start := start, end := start + size - 1, size := size))
  }

  /** Detector d with its TOF region published after `base` pixel cells. */
  function PlaceTof(det: Det, base: int, tofMax: int, d: nat): Det
    requires 1 <= d
  {
    var start := base + (d - 1) * (tofMax + 1);
    det.(region := det.region.(tofStart := start, tofEnd := start + tofMax))
  }

  function PlacePixels(dets: seq<Det>, n: nat): (r: seq<Det>)
    requires n < |dets|
    ensures |r| == |dets|
  {
    seq(|dets|, i requires 0 <= i < |dets| =>
      if 1 <= i <= n then PlacePixel(dets[i], Sizes(dets, n), i) else dets[i])
  }

  function PlaceTofs(dets: seq<Det>, n: nat, base: int, tofMax: int): (r: seq<Det>)
    requires n < |dets|
    ensures |r| == |dets|
  {
    seq(|dets|, i requires 0 <= i < |dets| =>
      if 1 <= i <= n then PlaceTof(dets[i], base, tofMax, i) else dets[i])
  }

  function Zeros(n: nat): (r: seq<nat>)
    ensures |r| == n && forall i :: 0 <= i < n ==> r[i] == 0
  {
    seq(n, _ => 0)
  }

  /** calloc can succeed: a size that is negative (huge as an epicsUInt32) or too large cannot. */
  predicate Allocatable(cells: int) {
    0 <= cells < 0x8000_0000
  }

  /** The two publishing loops for n detectors; false at the first empty pixel range. */
  function Publish(s: State, n: nat): (State, bool)
    requires n < |s.dets|
  {
    var good := FirstBad(s.dets, 1, n) - 1;
    var base := Layout.Offset(Sizes(s.dets, good), good);
    var pixels := PlacePixels(s.dets, good);
    (s.(dataMaxSize := base, dets := if good < n then pixels else PlaceTofs(pixels, n, base, s.tofMaxParam)),
     good == n)
  }

  /** Free and calloc. `memory` says whether calloc finds the memory. */
  function NewBuffer(s: State, n: nat, memory: bool): (State, bool) {
    var cells := s.dataMaxSize + n * (s.tofMaxParam + 1);
    if s.dataMaxSize == 0 then (s.(data := None), false)
    else if !memory || !Allocatable(cells) then (s.(data := None, bufferMaxSize := cells), false)
    else
      (s.(data := Some(Zeros(cells)), bufferMaxSize := cells, dataAlloc := false, laidOut := n, lastOk := true), true)
  }

  /** The first lines of allocArray: the TOF range is taken over before anything can fail. */
  function Attempt(s: State): State {
    s.(tofMax := U32(s.tofMaxParam), epoch := s.epoch + 1, lastOk := false)
  }

  /** allocArray. */
  function Allocate(s: State, memory: bool): (State, bool)
    requires Shaped(s)
  {
    if !s.dataAlloc then (s, true)
    else
      var t := Attempt(s);
      if s.numDet == 0 then (t, false)
      else
        var n := Max(s.numDet, 0);
        var (published, ok) := Publish(t, n);
        if ok then NewBuffer(published, n, memory) else (published, false)
  }

  // ---------- clearing ----------

  /** memset of the whole buffer. */
  function Wipe(s: State): State {
    if s.data.Some? then s.(data := Some(Zeros(|s.data.value|))) else s
  }

  /** clearParams. */
  function Clear(s: State): State {
    Wipe(s).(pulses := 0, charge := 0.0,
             channels := seq(|s.channels|, _ => Cleared), totals := Zeros(|s.totals|))
  }

  /** The buffer with [lo, lo + n) set to zero, as far as it is inside. */
  function ZeroRange(cells: seq<nat>, lo: int, n: int): (r: seq<nat>)
    ensures |r| == |cells|
    ensures forall i :: 0 <= i < |r| ==> r[i] == if lo <= i < lo + n then 0 else cells[i]
  {
    seq(|cells|, i requires 0 <= i < |cells| => if lo <= i < lo + n then 0 else cells[i])
  }

  /** resetTOFArray. */
  function ResetTof(s: State, addr: nat): State
    requires addr < |s.dets|
  {
    if s.tofMax > 0 && s.data.Some? && s.dets[addr].region.tofStart > 0 then
      s.(data := Some(ZeroRange(s.data.value, s.dets[addr].region.tofStart, s.tofMax + 1)))
    else s
  }

  // ---------- the packet handler ----------

  datatype Packet = Packet(stamp: Option<Stamp>, charge: Option<real>, pixels: Option<seq<nat>>, tofs: Option<seq<nat>>)

  function EventsOf(p: Packet): seq<Event>
    requires p.pixels.Some? && p.tofs.Some? && |p.pixels.value| == |p.tofs.value|
  {
    seq(|p.pixels.value|, i requires 0 <= i < |p.pixels.value| => Event(p.pixels.value[i], p.tofs.value[i]))
  }

  /** The snapshot loop stops at the first detector whose ROI has no width. */
  function FirstNarrow(dets: seq<Det>, k: nat, n: nat): (r: nat)
    requires 1 <= k <= n + 1 && n < |dets|
    ensures k <= r <= n + 1
    ensures forall j :: k <= j < r ==> dets[j].cfg.roiSizeX > 0
    ensures r <= n ==> dets[r].cfg.roiSizeX <= 0
    decreases n + 1 - k
  {
    if k == n + 1 || dets[k].cfg.roiSizeX <= 0 then k else FirstNarrow(dets, k + 1, n)
  }

  function SnapOf(d: Det): Snap {
    Snap(d.cfg, d.region.start, d.region.tofStart)
  }

  /** The members refreshed for detectors 1..k. */
  function Refresh(s: State, k: nat): State
    requires Shaped(s) && k <= MaxDets(s)
  {
    s.(snaps := seq(|s.snaps|, i requires 0 <= i < |s.snaps| => if 1 <= i <= k then SnapOf(s.dets[i]) else s.snaps[i]))
  }

  /** The handler's detector count. */
  function HandlerDets(s: State): nat
    requires Shaped(s)
  {
    Max(s.numDet, 0)
  }

  /** The snapshot, and the detector count to use, or None when the packet is dropped. */
  function Snapshot(s: State): (State, Option<nat>)
    requires Shaped(s)
  {
    var n := HandlerDets(s);
    var k := FirstNarrow(s.dets, 1, n);
    if k <= n then (Refresh(s, k), None) else (Refresh(s, n), Some(n))
  }

  /** Every detector in use has an ROI width, so no packet is dropped at the parameter copy. */
  predicate CopyCompletes(s: State)
    requires Shaped(s)
  {
    FirstNarrow(s.dets, 1, HandlerDets(s)) == HandlerDets(s) + 1
  }

  /** The timestamp section: the channel, whether the packet goes on, and whether it starts a pulse. */
  function StampSection(s: State, c: nat, stamp: Option<Stamp>): (State, bool, bool)
    requires c < |s.channels|
  {
    var (ch, verdict) := Receive(s.channels[c], stamp);
    (s.(channels := s.channels[c := ch]),
     verdict == Accepted,
     verdict == Accepted && c == 0 && s.channels[0].lastTime != stamp.value.time)
  }

  function LoadedMap(m: PixelMap): Option<seq<nat>> {
    if m.size > 0 then m.entries else None
  }

  /** Detector d as the event loop sees it: snapshot, but plot type, bins, map and tofMax live. */
  function ViewOf(s: State, d: nat): View
    requires Shaped(s) && 1 <= d <= MaxDets(s)
  {
    var snap, cfg := s.snaps[d], s.dets[d].cfg;
    View(Lens(snap.cfg.(plotType := cfg.plotType, tofBins := cfg.tofBins), s.tofMax, LoadedMap(s.maps[d]),
        s.dets[d].transform),
         snap.start, snap.tofStart)
  }

  function Views(s: State, n: nat): (r: seq<View>)
    requires Shaped(s) && n <= MaxDets(s)
    ensures |r| == n
  {
    seq(n, k requires 0 <= k < n => ViewOf(s, k + 1))
  }

  /** The packet has a charge and matching pixel and TOF arrays. */
  predicate Complete(p: Packet) {
    p.charge.Some? && p.pixels.Some? && p.tofs.Some? && |p.pixels.value| == |p.tofs.value|
  }

  /** The tests before the integration section: a complete packet, and a buffer. */
  predicate Integrable(s: State, p: Packet) {
    Complete(p) && s.data.Some? && s.dataMaxSize != 0
  }

  function NewTotals(s: State, n: nat, es: seq<Event>): (r: seq<nat>)
    requires Shaped(s) && n <= MaxDets(s)
    ensures |r| == |s.totals|
  {
    seq(|s.totals|, i requires 0 <= i < |s.totals| =>
      s.totals[i] + if 1 <= i <= n then Matches(ViewOf(s, i).lens, es) else 0)
  }

  /** The integration section for n detectors. */
  function Integrate(s: State, n: nat, p: Packet, newPulse: bool): State
    requires Shaped(s) && n <= MaxDets(s) && Complete(p) && s.data.Some?
  {
    var es := EventsOf(p);
    s.(data := Some(StrikeAll(Tally(s.data.value, 0), Views(s, n), es).cells),
       totals := NewTotals(s, n, es),
       pulses := if newPulse then s.pulses + 1 else s.pulses,
       charge := if newPulse then s.charge + p.charge.value else s.charge)
  }

  /** A whole handler call with nothing in between. */
  function Handle(s: State, c: nat, p: Packet): State
    requires Shaped(s) && c < |s.channels|
  {
    var (s1, n) := Snapshot(s);
    if n.None? then s1
    else
      var (s2, accepted, newPulse) := StampSection(s1, c, p.stamp);
      if !accepted || !Integrable(s2, p) || s.paused != 0 then s2
      else Integrate(s2, n.value, p, newPulse)
  }

  // ---------- parameter writes ----------

  datatype Param =
    | PixelStart | PixelEnd | PixelSize | PlotType | TofBins
    | TofRoiStart | TofRoiSize | TofRoiEnable | MapEnable | TransType
    | RoiStartX | RoiStartY | RoiSizeX | RoiSizeY | SizeX | RoiEnable

  /** Parameters whose change asks for a new allocation. */
  predicate IsLayout(p: Param) {
    p == PixelStart || p == PixelEnd || p == PixelSize
  }

  /** The value stored under a parameter. */
  function Store(c: Config, p: Param, v: Int32): Config {
    match p
    case PixelStart => c.(pixelStart := v)
    case PixelEnd => c.(pixelEnd := v)
    case PixelSize => c.(pixelSize := v)
    case PlotType => c.(plotType := v)
    case TofBins => c.(tofBins := v)
    case TofRoiStart => c.(tofRoiStart := v)
    case TofRoiSize => c.(tofRoiSize := v)
    case TofRoiEnable => c.(tofRoiOn := v)
    case MapEnable => c.(mapOn := v)
    case TransType => c.(transType := v)
    case RoiStartX => c.(roiStartX := v)
    case RoiStartY => c.(roiStartY := v)
    case RoiSizeX => c.(roiSizeX := v)
    case RoiSizeY => c.(roiSizeY := v)
    case SizeX => c.(sizeX := v)
    case RoiEnable => c.(roiOn := v)
  }

  /** Storing with the side effects of the write: the ROI width is at least 1, and switching one
      filter on (with 1) switches the other off. */
  function SetParam(c: Config, p: Param, v: Int32): Config {
    if p == RoiSizeX then Store(c, p, if v <= 0 then 1 else v)
    else if p == RoiEnable && v == 1 then Store(c.(tofRoiOn := 0), p, v)
    else if p == TofRoiEnable && v == 1 then Store(c.(roiOn := 0), p, v)
    else Store(c, p, v)
  }

  /** writeInt32 of a detector parameter; false is asynError. */
  function WriteDet(s: State, addr: nat, p: Param, v: Int32): (State, bool)
    requires addr < |s.dets|
  {
    if IsLayout(p) && s.status == Acquire then (s, false)
    else
      var det := s.dets[addr];
      (s.(dets := s.dets[addr := det.(cfg := SetParam(det.cfg, p, v))],
          dataAlloc := s.dataAlloc || IsLayout(p)), true)
  }

  function WriteTofMax(s: State, v: Int32): (State, bool) {
    if s.status == Acquire then (s, false) else (s.(tofMaxParam := v, dataAlloc := true), true)
  }

  /** Writing the detector count does not ask for a new allocation. */
  function WriteNumDet(s: State, v: Int32): (State, bool)
    requires 1 <= |s.dets|
  {
    if s.status == Acquire || v > MaxDets(s) then (s, false) else (s.(numDet := v), true)
  }

  function WriteNumChannels(s: State, v: Int32): (State, bool) {
    if s.status == Acquire || v > |s.channels| then (s, false) else (s.(numChannels := v), true)
  }

  function WriteAllocSpace(s: State, memory: bool): (State, bool)
    requires Shaped(s)
  {
    if s.status == Acquire then (s, false)
    else
      var (t, ok) := Allocate(s, memory);
      if ok then (t, true) else (t.(status := Error), false)
  }

  // ---------- pixel maps ----------

  /** What opening the named file gives: no name, an unreadable file, or a text. */
  datatype File = NoName | Unreadable | Text(text: string)

  /** checkPixelMap lets through entries up to and including the size. */
  predicate MapPasses(entries: seq<nat>, size: Int32) {
    entries != [] && forall i :: 0 <= i < |entries| ==> entries[i] <= U32(size)
  }

  /** The new map of a detector and the status (false is asynError). A throw leaves the size behind. */
  function LoadMap(m: PixelMap, size: Int32, f: File, memory: bool): (PixelMap, bool) {
    var m0 := if m.entries.Some? then m.(entries := None, size := 0) else m;
    if !f.Text? || MapFile.SizeLine(f.text).None? then (m0, true)
    else
      var n := MapFile.SizeLine(f.text).value;
      var loaded := MapFile.Load(f.text, n);
      if n == 0 then (m0, true)
      else if !memory || loaded.None? then (m0.(size := n), true)
      else if !MapPasses(loaded.value, size) then (m0.(size := 0), false)
      else (PixelMap(loaded, n, U32(size)), true)
  }

  function WriteMapFile(s: State, addr: nat, f: File, memory: bool): (State, bool)
    requires Shaped(s) && addr < |s.dets|
  {
    var (m, ok) := LoadMap(s.maps[addr], s.dets[addr].cfg.pixelSize, f, memory);
    (s.(maps := s.maps[addr := m]), ok)
  }
}
