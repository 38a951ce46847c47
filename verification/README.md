# ADnED verification model

ADnED turns packets of neutron events, received over several PVAccess channels, into live 2-D detector
images and time-of-flight (TOF) spectra. All detectors share one buffer: the pixel regions of detectors
1..N, then their TOF regions. This project models that driver, its two plugins and its pixel-map file
reader in Dafny, and proves what the driver is relied on for: every increment lands where it should, nothing
is counted twice or lost, the picture depends only on the events and not on how they were packed, and the
start/stop protocol holds under every interleaving of clients, threads and packet handlers.

The files, from the bottom up:

- `Base`, `Arith`: integer widths (`epicsInt32`, `epicsUInt32`, `size_t`) and facts about quotients and products.
- `Events`: which cells one event increments for one detector, and where the source is defined.
- `Histogram`: the nested event/detector loop as folds, the count it computes, sums of regions, one detector alone.
- `Layout`: the arithmetic of the shared buffer. `Stream`: sequence IDs, timestamps, pulses, charge.
- `MapFile`: the pixel-map file as a parser over text, and the printer of the example script.
- `Driver`: the driver as a value, each locked section a function. `DriverObject`: the class `ADnED` with the
  buffer and members updated in place, every method proved equal to its section.
- `Soundness`: the driver invariant and what every operation keeps. `Acquisition`: client writes, the event and
  frame threads, and packet handlers as steps of one system. `Runs`, `Conservation`, `Counts`, `Pulses`: what holds
  in every state of every run. `Frames`: the frame thread. `Independence`: two drivers run side by side. `Limits`:
  where the containment conditions are needed, and that they are exact.
- `Allocation`, `PixelMaps`, `Parameters`, `Picture`, `Delivery`, `Cycles`: what an allocation, a map load, a client
  write, a packet and a Start or Stop come to, in terms of the numbers written and received.
- `Mask`, `PixelRoi`: the two plugins, in place on arrays.

Sizes, cell counts and IDs are unbounded integers here; a parameter is a 32-bit integer, and a conversion to an
unsigned type is written out where a negative value reaches it. TOF values and charges are reals. `calloc`
fails for a negative cell count or one of 2^31 or more, and may fail for any other (`memory`).

Some of what the source does is undefined in C++: an increment or a clear outside the buffer, a map read past the
end of the map, a division by zero, a copy from a buffer that is gone. `Events.Defined`, `Histogram.Safe` and
`Acquisition.StepDefined` say when a step does none of these. The methods of the class require it of the accesses
they make and of nothing else. In the value model such an access changes nothing and an out-of-range map read gives
the plain offset, and nothing is claimed of the source after a step that is not defined. The theorems on what the
buffer holds ask for defined steps outright; the others hold of every run of the model, and so of the source for
every run whose steps are defined. `ContainedInEveryRun` and `ReadyIsSafe` say when integrations are: the last
allocation attempted succeeded, none was attempted since the parameter copy, and the configuration confines the
detector to its region (`Events.Confined`): the map covers the pixel range, an image by pixels has its mapped indices
inside the region, and a TOF plot divides by nothing zero and has rows inside it. Layout parameters, the TOF range and
the counts may have been written since, so that another allocation is pending. `StaysInIffConfined` and
`ContainedIffInEveryRun` show these conditions exact.

Four fields of the model are history and do not exist in the source: `laidOut` (detector count of the last
successful allocation), `epoch` (how many allocations were attempted), `lastOk` (whether the last one succeeded) and
`bound` (detector size in force when a map was loaded). "A layout is in force" means below that the last allocation
attempted succeeded, for sizes and a TOF range that are not negative; another one may be pending.
The system likewise records which acquisition an accepted Stop was meant for (`stopFor`) and counts
acquisitions.

Where the code and its comments, documentation or evident intent differ, the model follows the code:

- `checkPixelMap` admits an entry equal to the detector size, one past the last index (`CheckedMapInsideIff`,
  `EntryAtSizeHitsNextRegion`), and does not ask that the map covers the pixel range (`DefinedIffMapCovers`).
- The missing-packet count adds `seq - last + 1`, two more than are missing (`MissingOvercountsByTwoPerGap`); a
  step back by one adds nothing (`StepBackIsInvisible`).
- A TOF plot never uses the last cell of a pixel region; a plot type outside 0..3 reuses the index of an earlier
  event (`CarryIsIrrelevantIff`, `StalePlotTypeIsOrderDependent`); an event in the last partial bin is plotted in
  the next row (`RowAndBinDecode`, `LastTofBleedsIntoNextRow`); a negative row length makes the rows of a Y/TOF plot
  count backwards (`NegativeRowLengthCountsBackwards`).
- Writing NumDet asks for no allocation (`DetectorBeyondLayoutHitsTheFirst`), and a TOF reset uses whatever offset
  was last published (`TofResetClearsOwnIff`, `StaleTofResetClearsOthers`).
- An allocation takes the new TOF range over before it can fail, while the old buffer stays in use: events and TOF
  resets then run past the regions they were published for (`FailedAllocationContainedIff`, `RaisedRangeEscapes`,
  `FailedAllocationBreaksContainment`).
- A packet copied while an allocation is pending has the new size with the old region (`PendingSizeEscapesRegion`);
  what then stays inside is `ContainedIff`.
- A packet integrated between the clear of a Start and the wipe of the buffer leaves the event total ahead of the
  image (`WipeBalancesIffNothingCounted`).
- An enable other than 0 or 1 switches one filter on without switching the other off (`EnableKeepsOneFilterIff`).
- `MAX(x, 0)` does nothing to a `size_t`: negative mask requests clamp to the top of the array, and negative ROI
  sizes can pass the product test by overflow (`Mask.ClampLandsInside`, `ProductBoundedIff`).
- The ROI image is compared with the input length, not with the stretch it is cut from (`ImageFitsIff`,
  `SquareOverrunsItsStretch`).
- The frame thread waits outside the lock and drains its stop event before it waits for a start: it can copy a
  frame after the acquisition, even from a buffer that is gone, when its wait has already timed out or when it drops
  the stop of an acquisition it has not started on (`StopEndsFramesIff`, `FramesAfterTheEnd`).
- A map file without a final newline loses the last digit of its last value (`MissingNewlineDropsADigit`).

## Model

| member | source | states |
|---|---|---|
| Events.BinWidth | ADnEDApp/src/ADnED.cpp:1193-1212 | B bins of integer width w satisfy B*w <= tofMax < B*w + B and w >= 1, for every requested bin count |
| Events.CellsInside | ADnEDApp/src/ADnED.cpp:1182-1253 | for a detector whose configuration confines it to b cells (map covers the range; by pixels: mapped indices below b; TOF plots: no division by zero and rows whose plotted cells are below b) everything computed is defined and every increment is inside regions of b and tofMax+1 cells, for all plot types and filters |
| Events.StaysInIffConfined | ADnEDApp/src/ADnED.cpp:1182-1227 | for untransformed TOF, a non-empty range, a size and, if the TOF filter is on, a window some TOF passes: all image increments are defined and inside b cells, whatever index is carried, if and only if the configuration confines the detector to b cells |
| Events.CarryIsIrrelevantIff | ADnEDApp/src/ADnED.cpp:1193-1224 | the cell of every event is independent of the index earlier events left behind if and only if the plot type is in 0..3 or never used; for indices that are not negative also if the region has at most one cell |
| Events.BinBounds | ADnEDApp/src/ADnED.cpp:1193-1224 | an on-scale event gets a bin below 2B, and below B exactly when tof < B*w |
| Events.RowAndBinDecode | ADnEDApp/src/ADnED.cpp:1193-1224 | row and bin are recovered from the plot index if and only if tof < B*w |
| Events.LastTofBleedsIntoNextRow | ADnEDApp/src/ADnED.cpp:1193-1224 | in every configuration tof = tofMax is on scale and is plotted in the next row |
| Events.FlatRoiIsRectangle | ADnEDApp/src/ADnED.cpp:1240-1247 | the flattened X/Y filter (mod for x, multiplied bounds for y) is the rectangle test on (i mod X, i div X) |
| Events.NoEventLost | ADnEDApp/src/ADnED.cpp:1199-1253 | with at most one filter on, an on-scale event in range of an X/Y detector selects a cell of at least one kind; IntegrateLosesNothing turns this into growth of the regions |
| Events.ImageCell | ADnEDApp/src/ADnED.cpp:1170-1227 | an event in range, at the offset of its pixel or that offset's map entry and with its TOF as it is or transformed, scaled and shifted, counts at that index in an X/Y image; with the TOF filter on, exactly from the start of the window up to but not including its end; off scale no TOF plot shows it |
| Events.PlotCell | ADnEDApp/src/ADnED.cpp:1193-1224 | with rows of n pixels and b bins of whole width w, the event at column x of row y and in bin k counts in cell x\*b+k of an X/TOF plot, y\*b+k of a Y/TOF plot (-y\*b+k for a negative row length) and (y\*n+x)\*b+k of a pixel/TOF plot, if that is below the last cell of the detector, and nowhere otherwise |
| Events.SpectrumCell | ADnEDApp/src/ADnED.cpp:1230-1253 | cell k of the TOF spectrum counts the event if and only if its TOF is on scale and in [k, k+1) and, with X/Y filter and mapping on, its column and row are in the rectangle |
| Histogram.SafeLoop | ADnEDApp/src/ADnED.cpp:1161-1262 | if every pair of event and detector is safe on its own and no detector shows the carried index, the whole nested loop does nothing undefined |
| Histogram.LoopCountsHits | ADnEDApp/src/ADnED.cpp:1161-1262 | the nested loop, where it is defined, adds to every cell exactly the number of (event, detector) pairs that hit it |
| Histogram.StrikeAllConcat | ADnEDApp/src/ADnED.cpp:1161-1262 | the loop over two stretches of events is the loop over their concatenation, carried plot index included |
| Histogram.LoopIsOrderFree | ADnEDApp/src/ADnED.cpp:1161-1262 | permuting the events of the loop gives the same buffer |
| Histogram.LoopIsSplittable | ADnEDApp/src/ADnED.cpp:1161-1262 | splitting the events into two packets gives the same buffer although each packet starts with a fresh plot index |
| Histogram.StalePlotTypeIsOrderDependent | ADnEDApp/src/ADnED.cpp:1193-1224 | two usable detectors, one with an offered plot and one with plot type 4, and two events: everything is defined and the order of the events shows in the buffer |
| Histogram.StrikeAllSum | ADnEDApp/src/ADnED.cpp:1161-1262 | over any events, a stretch touched by one detector only grows by at most its events in range, and by exactly those if it always hits |
| Histogram.StrikeAllKeeps | ADnEDApp/src/ADnED.cpp:1161-1262 | two stretches that together catch every on-scale event of a detector grow together by at least those |
| Histogram.DetectorAlone | ADnEDApp/src/ADnED.cpp:1162-1259 | if the other detectors avoid its regions, a detector's two regions evolve as in a loop with that detector alone, up to offset |
| Layout.RegionsTile | ADnEDApp/src/ADnED.cpp:1345-1402 | for non-negative sizes and tofMax, N pixel regions then N TOF regions cover exactly the cells of the buffer, each once |
| Layout.RegionInBuffer | ADnEDApp/src/ADnED.cpp:1345-1402 | every region lies in the buffer |
| Layout.RegionOf | ADnEDApp/src/ADnED.cpp:1345-1402 | finds a region for every cell |
| Stream.KeptInOrder | ADnEDApp/src/ADnED.cpp:1076-1091 | accepted timestamps of a channel are non-decreasing and the last one is remembered |
| Stream.KeptIff | ADnEDApp/src/ADnED.cpp:1065-1091 | over any stream, a packet is accepted if and only if it has a timestamp that is not negative and not before any earlier one, whether those were accepted or not |
| Stream.KeptAreInTime | ADnEDApp/src/ADnED.cpp:1065-1091 | so the accepted packets are exactly those, in order |
| Stream.ChannelIs | ADnEDApp/src/ADnED.cpp:1065-1105 | packet count, latest time, last time, sequence ID, ID due at the last break and bad-timestamp flag of a channel, in terms of the packets it received |
| Stream.MissingTelescopes | ADnEDApp/src/ADnED.cpp:1083-1105 | after n accepted packets with k breaks NumMissing = (last - first) - (n - 1) + 2k, lastSeqID is the last accepted ID, and refused packets enter neither |
| Stream.ZeroMissingIffConsecutive | ADnEDApp/src/ADnED.cpp:1083-1105 | for non-decreasing IDs NumMissing is 0 if and only if the stream is consecutive |
| Stream.StepBackIsInvisible | ADnEDApp/src/ADnED.cpp:1093-1101 | without that condition a non-consecutive stream can have NumMissing 0 |
| Stream.MissingOvercountsByTwoPerGap | ADnEDApp/src/ADnED.cpp:1099 | for increasing IDs NumMissing is the number of absent IDs plus two per gap |
| Stream.PulsesCountFirsts | ADnEDApp/src/ADnED.cpp:1264-1267 | the pulse counter is the number of pulses whose first packet was integrated; the integrated charge is the sum of their charges |
| Stream.FirstsArePulses | ADnEDApp/src/ADnED.cpp:1065-1091 | first packets and distinct non-zero accepted timestamps are equally many |
| Stream.PulsesAreDistinctTimes | ADnEDApp/src/ADnED.cpp:1264-1267 | the counter is at most the number of distinct non-zero timestamps, with equality if and only if each first packet was integrated |
| MapFile.CountLine | ADnEDApp/src/ADnEDFile.cpp:44-83 | the constructor finds the number a printed file starts with, whatever follows, and leaves reading at the line after it |
| MapFile.StrtolOfText | ADnEDApp/src/ADnEDFile.cpp:60-83 | blanks and one sign may stand before the digits of a number and anything but a digit after them; a value that does not fit a long is an error |
| MapFile.StrtolOfNoDigits | ADnEDApp/src/ADnEDFile.cpp:60-83 | without a digit after blanks and sign there is no number |
| MapFile.CountOfText | ADnEDApp/src/ADnEDFile.cpp:44-83 | such a first line gives its value modulo 2^32 as the count |
| MapFile.ReadLine | ADnEDApp/src/ADnEDFile.cpp:136-159 | a line that has no comment sign or white space in it and is a number is stored as that number modulo 2^32, and reading goes on after it |
| MapFile.LongLineIsCut | ADnEDApp/src/ADnEDFile.cpp:136-139 | a line is cut after 254 characters |
| MapFile.ADnEDFile.ReadDataIntoIntArray | ADnEDApp/src/ADnEDFile.cpp:120-162 | the line loop stores exactly the parsed entries from index 0, never more than the size, and fails exactly where the source throws |
| MapFile.RoundTrip | example/mapping/make_pixel_map.sh:5-10 | printing n > 0 values as the script does and parsing gives exactly those values, whatever text follows |
| MapFile.ShortFileIsPadded | ADnEDApp/src/ADnEDFile.cpp:120-162 | a file with fewer values than its count is filled up with zeros |
| MapFile.BadLineThrows | ADnEDApp/src/ADnEDFile.cpp:140-147 | a line with a comment sign, a blank or a tab in it makes the load throw, if it is reached |
| MapFile.MissingNewlineDropsADigit | ADnEDApp/src/ADnEDFile.cpp:136-159 | without the final newline the last value loses its last digit, or the load throws if it has only one |
| Soundness.AllocateSucceeds | ADnEDApp/src/ADnED.cpp:1318-1424 | a successful allocation had detectors and no empty range, and leaves sizes, prefix-sum offsets and a zeroed buffer of the total length |
| Soundness.AllocatePublishes | ADnEDApp/src/ADnED.cpp:1345-1402 | after it the published regions are those of the layout for the sizes it computed |
| Soundness.AllocateFails | ADnEDApp/src/ADnED.cpp:1318-1424 | a failed allocation stays pending, has taken the TOF range over, and leaves the old buffer or none |
| Soundness.AllocateSound | ADnEDApp/src/ADnED.cpp:1318-1424 | allocation keeps the driver invariant whether it succeeds or fails, and succeeds exactly when none is pending afterwards |
| Allocation.SucceedsIff | ADnEDApp/src/ADnED.cpp:1336-1424 | a pending allocation succeeds if and only if there is memory and a detector, no pixel range is empty, the sizes do not add up to 0 and the buffer has fewer than 2^31 cells and not fewer than 0; a size is the size parameter, or the length of the pixel range where that is 0 |
| Allocation.Publishes | ADnEDApp/src/ADnED.cpp:1345-1402 | it then gives every detector in use that size, in region and parameter, keeps its pixel range, puts the pixel regions in a row from cell 0 and the TOF regions in a row after them, zeroes a buffer that ends with the last, and touches no other detector |
| Soundness.ClearSound | ADnEDApp/src/ADnED.cpp:1429-1471 | clearing keeps the invariant |
| Soundness.ResetTofSound | ADnEDApp/src/ADnED.cpp:960-976 | a TOF reset of any detector address keeps the invariant |
| Soundness.SnapshotSound | ADnEDApp/src/ADnED.cpp:1033-1063 | the parameter copy keeps the invariant, complete or cut short |
| Soundness.IntegrateSound | ADnEDApp/src/ADnED.cpp:1117-1270 | integrating a packet keeps the invariant |
| Soundness.WriteDetSound | ADnEDApp/src/ADnED.cpp:488-515 | any write of a detector parameter keeps the invariant |
| Soundness.WriteCountsSound | ADnEDApp/src/ADnED.cpp:530-553 | writes of the detector and channel counts and of Pause keep the invariant |
| Parameters.WriteReadsBack | ADnEDApp/src/ADnED.cpp:488-577 | a detector write is read back, at least 1 for the ROI width; the other filter reads 0 when one is enabled with 1; no other parameter of any detector changes; only pixel range and size are refused while acquiring, and only they ask for an allocation |
| Parameters.OtherWritesReadBack | ADnEDApp/src/ADnED.cpp:530-700 | so are scale, offset, transformation, Pause, the two counts within their limits and the TOF range, each alone |
| Parameters.ReadsSameIsSame | ADnEDApp/src/ADnED.cpp:67-367 | two configurations that read the same are the same |
| Parameters.CopiedPacketFollows | ADnEDApp/src/ADnED.cpp:1189-1191 | of a detector's integer parameters only plot type and bin count reach a packet already copied |
| Parameters.CopyTakesAll | ADnEDApp/src/ADnED.cpp:1033-1063 | a copy takes over every parameter and the regions as they are |
| Parameters.ClearIsNew | ADnEDApp/src/ADnED.cpp:1429-1471 | a clear leaves the counters, streams and totals of a driver just constructed and a buffer of zeros, and keeps what was configured |
| Parameters.NewDriverReads | ADnEDApp/src/ADnED.cpp:67-367 | what a client reads of a driver just constructed |
| Soundness.LoadMapSound | ADnEDApp/src/ADnED.cpp:724-752 | after any load, refusal or exception a map has its recorded length > 0 and entries <= the detector size; without a map the mapping is the plain offset |
| PixelMaps.InstalledIff | ADnEDApp/src/ADnED.cpp:724-752 | a load installs the values read if and only if the file can be read, there is memory and no entry exceeds the size; it is refused if and only if it can be read and some entry does; otherwise no map is left |
| PixelMaps.PrintedMapInstalls | ADnEDApp/src/ADnED.cpp:724-752 | a printed file of values up to the size is installed as exactly those values |
| PixelMaps.LoadedMapIsUsed | ADnEDApp/src/ADnED.cpp:1182-1186 | from the load on, in every run until the next load for that detector, an event in range is mapped to the entry at its offset where mapping is enabled |
| Soundness.PublishedRegionsTile | ADnEDApp/src/ADnED.cpp:1345-1402 | whenever the buffer is the one the published regions were made for, also with an allocation pending, the published regions tile it: covered exactly and each cell once |
| Soundness.IncrementsContained | ADnEDApp/src/ADnED.cpp:1149-1262 | with such a buffer, also with an allocation pending, everything computed for a detector d confined to its region and copied with it is defined, and every increment lands in d's own pixel or TOF region |
| Soundness.ReadyIsSafe | ADnEDApp/src/ADnED.cpp:1161-1262 | with such a buffer, also with an allocation pending, the loop over any events and any number of such detectors does nothing undefined |
| Soundness.RegionHasOneOwner | ADnEDApp/src/ADnED.cpp:1161-1262 | over a packet only detector d touches the regions of d, at most once per event, and always for the pixels of an unfiltered X/Y detector |
| Soundness.IntegrateSums | ADnEDApp/src/ADnED.cpp:1199-1258 | a packet adds to each region at most what it adds to the detector's event total, and exactly that for the pixels of an X/Y detector without TOF filter |
| Soundness.IntegrateLosesNothing | ADnEDApp/src/ADnED.cpp:1199-1253 | a packet adds to the two regions of an X/Y detector with at most one filter on, taken together, at least its events in range and on scale |
| Picture.PacketFills | ADnEDApp/src/ADnED.cpp:1161-1262 | among any detectors that keep to their regions, cell j of a detector's image grows by the number of positions i at which pixel i and TOF i of the packet pick it, and cell k of its spectrum likewise |
| Picture.PlainPacketFills | ADnEDApp/src/ADnED.cpp:1161-1262 | for an X/Y detector without filters, mapping or transformation the image is the histogram of the pixel array, the spectrum that of the TOF array where the pixel is in range, and the total counts the pixels in range |
| Picture.CallFills | ADnEDApp/src/ADnED.cpp:981-1311 | a whole call does this from the parameters as clients wrote them, for a packet with all its parts and a timestamp not before the last |
| Acquisition.StepGrows | ADnEDApp/src/ADnED.cpp:423-1807 | every step of a client, thread or handler keeps the driver invariant |
| Runs.Init | ADnEDApp/src/ADnED.cpp:67-367 | the constructed driver is well formed, with no stale parameter copies |
| Runs.InitHolds | ADnEDApp/src/ADnED.cpp:67-367 | it satisfies the protocol and the conservation law |
| Runs.ClientWriteLocked | ADnEDApp/src/ADnED.cpp:488-553 | while acquiring no client write changes status or layout; otherwise none makes the status Acquire |
| Runs.BeginKeepsProtocol | ADnEDApp/src/ADnED.cpp:1513-1591 | a start event ends in a whole acquisition or in an error, never in a half-started one |
| Runs.StepKeepsProtocol | ADnEDApp/src/ADnED.cpp:1477-1638 | status Acquire, acquire loop, running monitors and stop semaphore stay in agreement under every step |
| Runs.RunKeepsProtocol | ADnEDApp/src/ADnED.cpp:1477-1638 | hence in every state of every run |
| Runs.StopNeverEndsALaterAcquisition | ADnEDApp/src/ADnED.cpp:469-487 | in every run no stop is pending while the event thread waits for a start, and a stop seen by an acquisition was accepted during it |
| Runs.StatusLoopAndMonitorsAgree | ADnEDApp/src/ADnED.cpp:1513-1632 | in every run: Acquire if and only if in the acquire loop, with exactly that acquisition's monitors running, and then the layout is in force |
| Runs.LayoutHeldWhileAcquiring | ADnEDApp/src/ADnED.cpp:488-553 | through any stretch of a run in state Acquire, buffer, sizes, tofMax, counts and published offsets do not change and no allocation is pending |
| Runs.RegionsMoveOnlyByAllocation | ADnEDApp/src/ADnED.cpp:423-1807 | through any stretch of a run without an allocation attempt, in any status and whatever is written, the buffer, the TOF range in use and all published regions stay as they were |
| Runs.AcquisitionsAreAsked | ADnEDApp/src/ADnED.cpp:447-468 | no acquisition begins without an accepted Start of its own |
| Cycles.RefusedCommands | ADnEDApp/src/ADnED.cpp:447-487 | a Start while acquiring, a Stop while not, and commands with value 0 change nothing |
| Cycles.StartLeadsToAcquisition | ADnEDApp/src/ADnED.cpp:1513-1591 | a Start that finds the event thread waiting leads, if and only if the allocation due succeeds and the channels connect, to status Acquire with exactly the monitors below the channel count running, the frame thread started and everything counted zero; otherwise to an error with nothing running |
| Cycles.StopLeadsToIdle | ADnEDApp/src/ADnED.cpp:1592-1632 | a Stop leads back to waiting with status Idle, no monitor running, the frame thread stopped, no stop left over, and everything counted still there |
| Cycles.FailedStartLeadsBack | ADnEDApp/src/ADnED.cpp:1592-1632 | after a failed start the event thread waits again with no monitor running |
| Conservation.TiledInEveryRun | ADnEDApp/src/ADnED.cpp:1318-1424 | in every reachable state with a layout in force the published regions tile [0, bufferMaxSize) |
| Conservation.MappingInEveryRun | ADnEDApp/src/ADnED.cpp:1182-1186 | in every reachable state a detector without map maps by plain offset, and a map never maps past the size in force at its load |
| Conservation.ContainedInEveryRun | ADnEDApp/src/ADnED.cpp:1149-1262 | in every run: if a layout is in force, no allocation was attempted, with or without success, since the copy of a packet, and its detectors are laid out and confined to their regions, then integrating it does nothing undefined and increments only its detectors' own regions, whatever was written in between |
| Conservation.RunConserves | ADnEDApp/src/ADnED.cpp:1199-1258 | across starts, stops, resets, TOF resets and reallocations, with defined steps and integrations as above, each region sum stays at most the event total of its detector whenever a layout is in force |
| Conservation.ConservedInEveryRun | ADnEDApp/src/ADnED.cpp:1199-1258 | the same from the constructed driver |
| Conservation.TofResetClearsOwnIff | ADnEDApp/src/ADnED.cpp:960-976 | with a layout in force, a TOF reset zeroes the cells it writes and no other; these are inside the buffer and in no region but the named detector's TOF region if and only if that detector is laid out (or address 0) or nothing is written |
| Conservation.TofResetClearsOneRegion | ADnEDApp/src/ADnED.cpp:960-976 | a TOF reset of a laid-out detector zeroes exactly its TOF region |
| Conservation.RunBalances | ADnEDApp/src/ADnED.cpp:1530-1532 | the pixel sum of an X/Y detector without TOF filter equals its event total whenever a layout is in force, if no start-time wipe or allocation finds events already counted and TOF resets name a detector that is laid out or clear nothing |
| Conservation.TotalsCountEvents | ADnEDApp/src/ADnED.cpp:1255-1258 | over any stretch of a run without a clear, the total of a detector grows by exactly the events in its range that were integrated |
| Conservation.BeginBalancesIff | ADnEDApp/src/ADnED.cpp:1530-1532 | after the start-time wipe pixel sum and total agree if and only if the total is zero |
| Conservation.WipeBalancesIffNothingCounted | ADnEDApp/src/ADnED.cpp:1429-1463 | after a clear and any stretch without another, the wipe leaves pixel sum and total equal if and only if no event in the detector's range was integrated in between |
| Conservation.RunOneFilter | ADnEDApp/src/ADnED.cpp:568-577 | with 0/1 enable writes at most one filter is on per detector in every state, parameters and copies alike |
| Conservation.NoEventLostInEveryRun | ADnEDApp/src/ADnED.cpp:1200-1253 | hence in every run a careful integration adds to the pixel and TOF regions of an X/Y detector, taken together, at least its events in range and on scale |
| Conservation.EnableKeepsOneFilterIff | ADnEDApp/src/ADnED.cpp:568-577 | an enable write keeps at most one filter on if and only if its value is 0 or 1 or the other filter is off, for both filters |
| Frames.CanCopyIff | ADnEDApp/src/ADnED.cpp:1731-1771 | in every state, the frame thread on its own can get to copying a frame if and only if its wait has timed out, or it runs without a stop, or it can still take a start without one |
| Frames.StopEndsFramesIff | ADnEDApp/src/ADnED.cpp:1764-1771 | after a stop signal no acquisition runs, and the frame thread can still copy a frame if and only if at the signal its wait had timed out or a start not taken yet did not find it waiting |
| Frames.StepKeepsFrames | ADnEDApp/src/ADnED.cpp:1716-1807 | if stop signals find the frame thread up to date, every step leaves it unable to copy outside an acquisition |
| Frames.FramesOnlyWhileAcquiring | ADnEDApp/src/ADnED.cpp:1764-1793 | in every run whose stop signals find it up to date, a frame is copied only while acquiring, from a buffer of exactly m_bufferMaxSize cells |
| Frames.FrameIsTheBuffer | ADnEDApp/src/ADnED.cpp:1772-1793 | in every run the frame last published is the whole buffer as it was when it was copied |
| Frames.FramesAfterTheEnd | ADnEDApp/src/ADnED.cpp:1733-1793 | runs from the constructed driver that end about to copy a frame with status Idle, by the late time-out and by the dropped stop, and one in which the buffer is gone |
| Counts.CallIsFourSteps | ADnEDApp/src/ADnED.cpp:981-1311 | copy, stamp, check and integrate taken one after the other are the handler call in one piece |
| Counts.InertSteps | ADnEDApp/src/ADnED.cpp:423-614 | frame steps, event-thread steps other than beginning an acquisition, and client writes that leave the driver as it was keep the configuration, as handler steps do |
| Counts.RunIsOneLoop | ADnEDApp/src/ADnED.cpp:981-1311 | any run of steps that keep the configuration, however the handlers interleave, is one loop over all events it integrated |
| Counts.BufferCountsHits | ADnEDApp/src/ADnED.cpp:1161-1262 | after any such run each cell has grown by the number of (event, detector) pairs that hit it |
| Counts.SameEventsSameBuffer | README.md:6 | the same events in any order, in any packets, over any channels, with any interleaving of the handlers, give the same buffer and totals |
| Counts.ChannelFollowsItsStream | ADnEDApp/src/ADnED.cpp:1076-1105 | in every run since a clear, a channel is the stream of its own packets, whatever the other channels, threads and clients do |
| Counts.ChannelInEveryRun | ADnEDApp/src/ADnED.cpp:1076-1105 | so timestamps are in order, NumMissing telescopes, and is 0 if and only if the IDs are consecutive when they do not decrease |
| Delivery.DeliveryIsTakenUp | ADnEDApp/src/ADnED.cpp:981-1063 | a packet is taken up with the pause and the detector count of its delivery, unless a detector in use has no ROI width |
| Delivery.PacketIsIntegratedIff | ADnEDApp/src/ADnED.cpp:981-1270 | in every run, whatever other handlers, threads and clients do in between: a packet is added to the buffer if and only if its timestamp is in time among those its channel saw since the last clear, it has all its parts, it did not come under a pause, and there is a buffer at the test and at the integration; it starts a pulse if and only if it came on channel 0 and is the first stamped later than all before it |
| Pulses.RunTracks | ADnEDApp/src/ADnED.cpp:1065-1091 | in every run since a clear, however the handlers interleave, channel 0, pulse counter and charge are what the packets stamped on channel 0 add up to, each counted when integrated |
| Pulses.PulseAccounting | ADnEDApp/src/ADnED.cpp:1264-1267 | so the counter is at most the number of distinct non-zero timestamps, with equality if and only if the first packet of each was integrated, and the charge is that of those packets |
| Independence.RegularOutcome | ADnEDApp/src/ADnED.cpp:1318-1424 | an allocation that succeeds for non-negative sizes, d and its own size among them, succeeds in the driver that has only d |
| Independence.MirrorAllocate | ADnEDApp/src/ADnED.cpp:1318-1424 | an allocation with the same outcome in both drivers leaves the one detector d of the other on its own |
| Independence.MirrorIntegrate | ADnEDApp/src/ADnED.cpp:1162-1259 | so does the integration of a packet, whether it uses d or not and whatever ranges overlap |
| Independence.StepMirrors | ADnEDApp/src/ADnED.cpp:423-1807 | so does every fair step of a client, thread or handler |
| Independence.LoneStepDefined | ADnEDApp/src/ADnED.cpp:423-1807 | with a layout in force, a careful step of the one driver is defined in the driver that has only d |
| Independence.RunMirrors | ADnEDApp/src/ADnED.cpp:423-1807 | so does every fair run |
| Independence.InitMirrors | ADnEDApp/src/ADnED.cpp:67-367 | the constructed driver is every detector of itself on its own |
| Independence.DetectorIsIndependent | ADnEDApp/src/ADnED.cpp:1162-1259 | in every fair run from the constructed driver, a detector has the event total, streams, pulses and charge, and with a layout in force cell for cell the regions, of the driver to which writes to other detectors go to address 0 |
| Limits.CheckedMapInsideIff | ADnEDApp/src/ADnED.cpp:927-954 | with a checked map covering the range, mapped indices stay inside the size if and only if no entry in use equals it |
| Limits.DefinedIffMapCovers | ADnEDApp/src/ADnED.cpp:1182-1186 | every event is handled without a read past the map if and only if the map covers the pixel range |
| Limits.ContainedIff | ADnEDApp/src/ADnED.cpp:1149-1262 | in any state, with an allocation pending, failed or never made: all increments of a detector copied with its published regions are defined and stay in them if and only if its configuration confines it to its pixel region and, if the X/Y filter lets any TOF be counted, tofMax is at most the published range |
| Limits.ContainedIffInEveryRun | ADnEDApp/src/ADnED.cpp:1033-1262 | hence, in every run, for every detector of a packet since whose copy no allocation was attempted |
| Limits.ContainedIffIndexInside | ADnEDApp/src/ADnED.cpp:1199-1210 | with a map that covers the range, all image increments of an X/Y detector stay in its pixel region if and only if all mapped indices are inside its size, whatever the TOF transformation |
| Limits.NegativeRowLengthCountsBackwards | ADnEDApp/src/ADnED.cpp:1213-1224 | a Y/TOF plot with a negative row length counts events outside row 0 before the start of the region; StaysInIffConfined is the exact condition |
| Limits.EntryAtSizeHitsNextRegion | ADnEDApp/src/ADnED.cpp:939 | an entry equal to the size counts in the region after the detector's own |
| Limits.DetectorBeyondLayoutHitsTheFirst | ADnEDApp/src/ADnED.cpp:530-541 | raising NumDet without an allocation makes events of the new detector count in detector 1 |
| Limits.StaleTofResetClearsOthers | ADnEDApp/src/ADnED.cpp:960-976 | a TOF reset of a detector no longer laid out clears cells of those that are |
| Limits.PendingSizeEscapesRegion | ADnEDApp/src/ADnED.cpp:1033-1063 | with an allocation pending, a size raised by a client lets an X/Y event leave its region; ContainedIff is the exact condition |
| Limits.FailedAllocationContainedIff | ADnEDApp/src/ADnED.cpp:1336-1380 | after any failed allocation that leaves the old buffer (no detectors, or an empty pixel range), all increments of a detector whose TOF is counted stay in its published regions if and only if its configuration confines it and the TOF range asked for is at most the published one |
| Limits.RaisedRangeEscapes | ADnEDApp/src/ADnED.cpp:1336-1341 | an allocation for no detectors fails; after it an event beyond the old TOF range counts outside its TOF region, one of the last detector outside the buffer, and so does a TOF reset of that detector |
| Limits.FailedAllocationBreaksContainment | ADnEDApp/src/ADnED.cpp:1318-1341 | a run from the constructed driver in which no allocation succeeds after a packet is copied, one fails, buffer and regions are those of the copy, and neither integrating the packet nor a TOF reset of its detector is inside the buffer |
| DriverObject.ADnED.constructor | ADnEDApp/src/ADnED.cpp:67-367 | leaves no buffer, an allocation pending, cleared counters, default detector parameters, copies of zeros and no signal pending |
| DriverObject.ADnED.StrikePlot | ADnEDApp/src/ADnED.cpp:1199-1227 | increments exactly the cell the 2-D plot and TOF filter select, or none |
| DriverObject.ADnED.StrikeTof | ADnEDApp/src/ADnED.cpp:1230-1253 | increments exactly the TOF cell unless the X/Y filter rejects the pixel |
| DriverObject.ADnED.Strike | ADnEDApp/src/ADnED.cpp:1162-1259 | one (event, detector) pair, both increments and the plot index kept |
| DriverObject.ADnED.StrikeDetectors | ADnEDApp/src/ADnED.cpp:1162-1259 | one event against all detectors, with the totals of those in range |
| DriverObject.ADnED.StrikeLoop | ADnEDApp/src/ADnED.cpp:1161-1262 | the nested in-place loop is the fold counted by LoopCountsHits; totals grow by the events in range |
| DriverObject.ADnED.IntegrateSection | ADnEDApp/src/ADnED.cpp:1117-1270 | buffer, totals, pulse counter and charge after a packet; nothing else changes |
| DriverObject.ADnED.CopyParameters | ADnEDApp/src/ADnED.cpp:1033-1063 | the copy in address order, stopping at the first detector whose ROI has no width |
| DriverObject.ADnED.StampPacket | ADnEDApp/src/ADnED.cpp:1065-1115 | accepts or refuses the packet, tracks its sequence ID, and says whether a pulse starts |
| DriverObject.ADnED.EventHandler | ADnEDApp/src/ADnED.cpp:981-1311 | a whole call is copy, stamp, integrate in that order, each only if the one before allows it |
| DriverObject.ADnED.PublishPixels | ADnEDApp/src/ADnED.cpp:1345-1380 | pixel regions at prefix sums of the sizes, up to the first empty range |
| DriverObject.ADnED.PublishTofs | ADnEDApp/src/ADnED.cpp:1381-1391 | TOF regions of tofMax+1 cells each after all pixel regions |
| DriverObject.ADnED.ReplaceBuffer | ADnEDApp/src/ADnED.cpp:1392-1424 | the old buffer is dropped; the new one, if any, is zeroed and ends the pending allocation |
| DriverObject.ADnED.AllocArray | ADnEDApp/src/ADnED.cpp:1318-1424 | the whole allocation with all its failures, in place |
| DriverObject.ADnED.ClearParams | ADnEDApp/src/ADnED.cpp:1429-1471 | counters, streams, totals and buffer cleared; configuration kept |
| DriverObject.ADnED.ResetTofArray | ADnEDApp/src/ADnED.cpp:960-976 | zeroes tofMax+1 cells from the published TOF start, and nothing if there is none |
| DriverObject.ADnED.WriteParam | ADnEDApp/src/ADnED.cpp:488-577 | layout parameters are refused while acquiring and otherwise ask for an allocation; ROI width at least 1; one filter switches the other off |
| DriverObject.ADnED.WriteStart | ADnEDApp/src/ADnED.cpp:447-468 | a Start not while acquiring clears, ends the pause and signals the event thread; otherwise it is refused |
| DriverObject.ADnED.WriteInt32 | ADnEDApp/src/ADnED.cpp:423-614 | every write of a modelled parameter changes the driver as the client step of the runs does, signals a semaphore exactly when a Start or Stop is accepted, and returns the status |
| DriverObject.ADnED.CheckPixelMap | ADnEDApp/src/ADnED.cpp:927-954 | accepts a map if and only if it is not empty and no entry exceeds the size |
| DriverObject.ADnED.LoadPixelMap | ADnEDApp/src/ADnED.cpp:724-752 | a load in place: old map dropped, new one installed only if read and checked |
| Mask.ClampLandsInside | ADnEDApp/src/ADnEDPluginMask.cpp:213-225 | for every request and extent >= 1, pos < max and pos + size <= max; a negative position is max - 1, a negative size reaches the end |
| Mask.ClampIsFixed | ADnEDApp/src/ADnEDPluginMask.cpp:213-236 | clamping the parameters written back changes neither them nor the window |
| Mask.RejectLine | ADnEDApp/src/ADnEDPluginMask.cpp:65-70 | writes exactly the window of a 1-D array |
| Mask.PassLine | ADnEDApp/src/ADnEDPluginMask.cpp:71-77 | writes exactly the cells outside the window |
| Mask.RejectImage | ADnEDApp/src/ADnEDPluginMask.cpp:81-87 | writes exactly the cells whose column and row are in the window |
| Mask.PassImage | ADnEDApp/src/ADnEDPluginMask.cpp:88-97 | writes exactly the cells whose column or row is not |
| Mask.DoMask | ADnEDApp/src/ADnEDPluginMask.cpp:111-146 | one mask by type and dimensions; an unknown data type is an error and changes nothing |
| Mask.NDPluginMask.ProcessCallbacks | ADnEDApp/src/ADnEDPluginMask.cpp:152-256 | the masks in use applied in order to the copy, and their clamped parameters written back |
| Mask.HighestMaskWins | ADnEDApp/src/ADnEDPluginMask.cpp:200-250 | each cell holds the value of the highest-numbered mask in use that writes it, else the input |
| Mask.TwiceIsOnce | ADnEDApp/src/ADnEDPluginMask.cpp:200-250 | feeding the plugin its own output with the parameters it wrote back changes neither |
| Mask.OrderFreeIffAgree | ADnEDApp/src/ADnEDPluginMask.cpp:200-250 | the result is the same for every order of the masks if and only if masks in use that write a common cell agree on its value |
| Mask.EqualValuesCommute | ADnEDApp/src/ADnEDPluginMask.cpp:200-250 | in particular when all values are equal |
| Mask.OneMaskOnImage | ADnEDApp/src/ADnEDPluginMask.cpp:78-100 | with one mask in use on a 2-D array, type 0 writes the value to exactly the cells inside its window, type 1 to exactly those outside, any other type to none; the window is the request cut off at the ends of the array |
| Mask.OneMaskOnLine | ADnEDApp/src/ADnEDPluginMask.cpp:62-77 | the same on a 1-D array |
| Mask.OtherwiseUntouched | ADnEDApp/src/ADnEDPluginMask.cpp:60-146 | arrays of other dimensions, and with no mask in use, are passed on as they are |
| Mask.WritesBack | ADnEDApp/src/ADnEDPluginMask.cpp:213-236 | position and size of the window are written back, of the Y axis only for an image, and nothing of a mask that is not in use |
| PixelRoi.ADnEDPixelROI.ClampDims | ADnEDApp/src/ADnEDPixelROI.cpp:74-91 | the in-place clamping loop and product test, in size_t arithmetic |
| PixelRoi.ADnEDPixelROI.ProcessCallbacks | ADnEDApp/src/ADnEDPixelROI.cpp:51-161 | stretch to extract, published image size and parameters written back |
| PixelRoi.ClampLandsInside | ADnEDApp/src/ADnEDPixelROI.cpp:74-91 | for every request and input length >= 1: offsets inside the input, columns and rows between 1 and the stretch |
| PixelRoi.DimsInNumbers | ADnEDApp/src/ADnEDPixelROI.cpp:74-109 | for a stretch that is not negative: offsets outside the input become its last cell, the stretch is at least 1, the image has the columns and rows asked for, at least 1 and at most the stretch, if together they are fewer than the input, and is one cell otherwise; the same is written back |
| PixelRoi.ProductBoundedIff | ADnEDApp/src/ADnEDPixelROI.cpp:83-91 | X*Y <= N for every request, except exactly three negative sizes whose product, wrapped, is below N |
| PixelRoi.ClampIsFixed | ADnEDApp/src/ADnEDPixelROI.cpp:74-109 | clamping the parameters written back changes nothing, for every request |
| PixelRoi.ImageFitsIff | ADnEDApp/src/ADnEDPixelROI.cpp:122-152 | for every request the image fits the stretch exactly when the size asked for is at most the stretch or at least the input length, and for a negative stretch exactly when the product does not overflow |
| PixelRoi.SquareOverrunsItsStretch | ADnEDApp/src/ADnEDPixelROI.cpp:122-152 | three equal sizes s >= 2 with s*s < N give an image larger than its stretch |
| PixelRoi.ShowsItsRequest | ADnEDApp/src/ADnEDPixelROI.cpp:74-152 | asking for a detector's region with its row length gives an image of exactly that detector |
| PixelRoi.EventPassesIffItsImageCellIsInside | ADnEDApp/src/ADnEDPixelROI.cpp:145-152 | an event adds one to exactly the image cell (i mod X, i div X), and passes the driver's X/Y filter if and only if that cell is in the rectangle |

## Left out

- PVAccess channel and monitor set-up (nEDChannel.cpp, setupChannelMonitor): only "monitors created, started, stopped" and "packet delivered" are modelled; a packet may be delivered in any state.
- The asyn parameter library, callbacks, iocsh registration and print/report functions: parameters are plain fields, and array callbacks are always enabled.
- NDArrayPool alloc, copy and convert, and getInfo: a copy is faithful, strides are 1 and the row length, convert extracts the stretch asked for; their failures are not modelled.
- ADnEDTransform and its setters: the transformation is an arbitrary real function of type, pixel and TOF.
- Wall-clock update periods, event rates, AllocSpaceStatus, ADAcquire and NDArrayCounter: timing or display only.
- Lock depth: lock and unlock do not balance on the start-failure path (ADnED.cpp:1582-1632) and in the frame copy (ADnED.cpp:1786); the intended atomic sections are modelled.
- The handler's parameter copy is not locked in the source; here it is one step. The tests between the timestamp section and the integration section are a step of their own, outside the lock as in the source.
- Wrap-around of sequence IDs, pulse and event counters at 2^32, and of offsets summed by allocArray beyond 2^31.
- errno is taken to be clear when the map reader parses a line; readDataIntoDoubleArray would only repeat the integer reader.
- Floating-point rounding of TOF values and of the integrated charge.
- The threads eventTask and frameTask are steps of a transition system, not methods: their waits on semaphores and lock boundaries are what the theorems range over.
- Acquisition.StepGrows: a step that is not defined (StepDefined) changes no cell outside the buffer here, while in the source nothing can be said after it.
- Soundness.IntegrateSound: increments outside the buffer are dropped here, for the same reason.
- Soundness.ResetTofSound: a stale range that passes the end of the buffer is cut off here, for the same reason.
- DriverObject.ADnED.WriteInt32: the transform, debug and print parameters are absent.
- DriverObject.ADnED.EventHandler: requires the accesses it makes to be defined (LoopSafe), which the source does not check; so do StrikePlot, StrikeTof, Strike, StrikeDetectors, StrikeLoop and IntegrateSection, each for its own accesses only.
- DriverObject.ADnED.ResetTofArray: requires the cells it clears to be inside the buffer, which the source does not check.
- Independence.DetectorIsIndependent: fair runs only. Other detectors can reach detector d through a failed allocation (or one for negative sizes or without d), a missing ROI width that drops the packet, an increment outside their own regions, a TOF reset with a stale offset, and the plot index carried to a plot type that is not offered.
- Database templates, OPI screens, the axis support and the Python scripts.
