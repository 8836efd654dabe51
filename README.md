# Disto Analyzer capture core in Dafny

Disto Analyzer is a live X-Y scope for two audio signals, a reference and an
effect. Its real-time process callback records the sample pairs of every
audio cycle in a circular history of 65536 pairs. It then tries once, without
blocking, to copy that history into a snapshot buffer. A 20 ms timer hands the
snapshot to a scatter view. The view paints a grid and one dot per pair.

This project models that core, all of it from `main.cpp`:

- `samples.dfy`, module `Samples`: the sample pair (`QPointF`, with its
  coordinates idealised as reals), the history length `MemSize`, and the
  zero-filled buffer that `resize` produces.
- `ring_spec.dfy`, module `RingSpec`: `WriteFrames`, which says what a run of
  writes at a wrapping cursor does to a ring of any capacity. Its lemmas say
  which write each slot holds afterwards. It also holds the modular
  arithmetic those proofs need.
- `capture.dfy`, module `Capture`: the class `Application` with the two
  buffers as arrays and the cursor as a field. It has the initial state from
  `init`, the process callback with its write loop and its single publish
  attempt, the element-wise copy, and the timer tick.
- `display.dfy`, module `Display`: the class `SignalView`, the two coordinate
  maps, `std::lround`, and the paint plan. The paint plan is the sequence of
  draw calls one `paintEvent` issues.

The outcome of the non-blocking lock attempt is a `bool` parameter of
`Process`. The timer's blocking lock is reduced to a plain copy of the
snapshot into the view.

Three details of the source that the model keeps exactly:

- With no data, `paintEvent` returns before drawing the grid (main.cpp:48-49),
  so an empty view draws nothing at all, not even the grid.
- The callback never checks the engine's buffers for null (main.cpp:183-187).
  The model takes both input sequences as always present, each with
  `nframes` samples.
- The grid-line coordinates are passed to `QPainter::drawLine(int, int, int,
  int)` (main.cpp:62, 64), so they are converted to `int`, truncating toward
  zero; the model's `Trunc` does the same.

## Model

| member | source | states |
|---|---|---|
| `Samples.Zeros` | main.cpp:111-112 | a resized buffer has exactly `n` pairs, each the zero pair |
| `Capture.Application.Init` | main.cpp:95-140 | after a successful `init` (cursor initializer at line 95, `resize` at 111-112, view created at 139-140) both buffers hold `MemSize` zero pairs, the cursor is 0, the two buffers are distinct, and the view has no data |
| `RingSpec.Slot` | main.cpp:189 | the cursor after any number of steps stays inside `[0, capacity)` |
| `RingSpec.WriteFrames` | main.cpp:186-190 | writing frames never changes the ring's length |
| `Capture.Frames` | main.cpp:187 | frame `i` of a cycle pairs `ref[i]` with `fx[i]`, one pair per frame |
| `Capture.Application.Process` | main.cpp:179-197 | the ring becomes `WriteFrames` of the old ring from the old cursor. The cursor becomes `(old + nframes) % MemSize`. On a successful lock the snapshot equals the final ring; on a failed one it is unchanged. The status is always 0 |
| `Capture.Application.Publish` | main.cpp:192-194 | the snapshot equals the ring slot for slot, in raw index order. Only the snapshot is modified |
| `Capture.Application.RefreshView` | main.cpp:151-155 | the view's data becomes the current snapshot |
| `RingSpec.WriteFramesAt` | main.cpp:186-190 | each of the last `capacity` writes of a run sits in its own slot. Every slot the run never reached keeps its old value |
| `RingSpec.WriteFramesSlot` | main.cpp:186-190 | last writer wins: each slot holds the latest write that landed in it, or its old value if no write did |
| `RingSpec.LastWriter` | main.cpp:186-190 | for a reached slot, there is a write among the last `capacity` that lands in it, and no later write lands there |
| `RingSpec.WriteFramesWithinCapacity` | main.cpp:186-190 | for a run of at most `capacity` frames, write `i` is in slot `(old + i) % capacity`. Every slot that no write lands in is unchanged |
| `RingSpec.WriteFramesOverCapacity` | main.cpp:186-190 | after at least `capacity` writes, reading the ring from the new cursor gives exactly the last `capacity` writes, in write order |
| `RingSpec.SlotsCoverRing` | main.cpp:189 | from any cursor, the next `capacity` steps visit every slot exactly once |
| `RingSpec.WriteFramesCompose` | main.cpp:186-190 | two consecutive cycles, the second starting where the first left the cursor, equal one cycle over the concatenated frames |
| `Display.SignalView.constructor` | main.cpp:24-30 | a new view holds no data |
| `Display.SignalView.SetData` | main.cpp:32-36 | the view's data is replaced wholesale by the given data |
| `Display.XToCoord` | main.cpp:51-54 | the X coordinate equals the closed form `(w-1)(x+1.5)/3` |
| `Display.YToCoord` | main.cpp:55-58 | the Y coordinate equals the closed form `(h-1)(1.5-y)/3`, so the axis is flipped |
| `Display.Trunc` | main.cpp:62-64 | the `int` a grid coordinate becomes has the sign of the value, and its magnitude is the value's with the fraction dropped |
| `Display.XToCoordLandmarks` | main.cpp:51-54 | `xToCoord(-1.5) = 0`, `xToCoord(0) = (w-1)/2`, `xToCoord(1.5) = w-1` |
| `Display.YToCoordLandmarks` | main.cpp:55-58 | `yToCoord(1.5) = 0`, `yToCoord(0) = (h-1)/2`, `yToCoord(-1.5) = h-1` |
| `Display.XToCoordMonotonic` | main.cpp:51-54 | for `w >= 1`, `xToCoord` is non-decreasing |
| `Display.YToCoordAntitonic` | main.cpp:55-58 | for `h >= 1`, `yToCoord` is non-increasing (Y axis flipped) |
| `Display.XToCoordInverse` | main.cpp:51-54 | for `w >= 2`, the amplitude is recovered from the X coordinate by the inverse affine map |
| `Display.YToCoordInverse` | main.cpp:55-58 | for `h >= 2`, the amplitude is recovered from the Y coordinate by the inverse affine map |
| `Display.LRound` | main.cpp:69-70 | the pixel is an integer within 1/2 of the coordinate, with halfway cases rounded away from zero |
| `Display.Dots` | main.cpp:66-72 | exactly one dot per data element, in data order, each at the rounded mapped coordinates of its pair |
| `Display.Paint` | main.cpp:38-73 | empty data yields no draw calls. Otherwise there are `10 + size` calls: 5 vertical grid lines (`VerticalLine`) at -1, -0.5, 0, 0.5, 1, then 5 horizontal ones (`HorizontalLine`) at the same positions, each with truncated `int` coordinates, then one dot per element in order (`PlotPoint`: the rounded mapped coordinates) |
| `Display.GridSpansView` | main.cpp:60-64 | each grid line, at its truncated pixel coordinates, is axis-parallel, lies inside the widget, and runs past both edges of the widget |
| `Display.PlotPointInView` | main.cpp:66-72 | a pair inside the nominal range [-1.5, 1.5] is drawn at a pixel of the `w` by `h` widget |
| `Display.PaintDotsInView` | main.cpp:38-73 | when all data lie in the nominal range, every dot of a repaint is on the widget |

## Left out

- JACK client opening, port registration, callback registration, activation and `jack_port_get_buffer` (main.cpp:114-128, 183-184) are calls into the audio engine. The two input buffers are parameters of `Process`.
- The mutex and the two threads (main.cpp:98, 153, 192). The outcome of `try_to_lock` is the `lockAcquired` parameter, and the timer's locked copy is a plain call of `RefreshView`. Interleavings are not modelled.
- The Qt main window, layout, timer set-up and `repaint` (main.cpp:132-150): UI plumbing. `SetData` does not model the repaint it requests; a repaint is `Paint` on the new data.
- The save action (main.cpp:157-173): file dialog, file I/O and `QTextStream` number formatting.
- The destructor and `main` (main.cpp:101-105, 200-206): lifecycle glue.
- Floating point: samples and coordinates are reals, not `float`/`qreal`, so rounding errors in the maps are not modelled. `LRound` does not model `long` overflow, nor `Trunc` the undefined conversion of values beyond the `int` range.
- Pens: the grey and black pens (main.cpp:60, 66) are not draw operations of their own. A `Line` is always grey and a `Dot` always black.
- `Application::init` returning false on an engine failure (main.cpp:114-128): `Init` models only the state a successful `init` leaves.
