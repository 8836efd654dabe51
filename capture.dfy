/** The capture side: the application object that owns the capture ring, the
    published snapshot and the view, the real-time process callback that
    fills the ring and opportunistically publishes it, and the timer tick
    that hands the snapshot to the view. */
module Capture {
  import opened Samples
  import opened RingSpec
  import opened Display

  /** The pairs of one audio cycle: frame `i` pairs `ref[i]` with `fx[i]`. */
  function Frames(ref: seq<real>, fx: seq<real>): (f: seq<Point>)
    requires |ref| == |fx|
    ensures |f| == |ref|
    ensures forall i | 0 <= i < |f| :: f[i].x == ref[i] && f[i].y == fx[i]
  {
    seq(|ref|, i requires 0 <= i < |ref| => Point(ref[i], fx[i]))
  }

  class Application {
    /** The capture ring, written only by `Process`. */
    const memBuf: array<Point>
    /** The snapshot the view copies from. */
    const memUi: array<Point>
    /** The next ring slot to overwrite. */
    var memIndex: nat
    /** The scatter view refreshed by the timer. */
    const view: SignalView

    ghost predicate Valid()
      reads this
    {
      memBuf.Length == MemSize && memUi.Length == MemSize
      && memBuf != memUi
      && memIndex < MemSize
    }

    /** The state a successful `init` leaves: both buffers hold `MemSize`
        zero pairs, the cursor is at slot 0 (its member initializer), and
        the view has been created and shows nothing yet. */
    constructor Init()
      ensures Valid()
      ensures fresh(memBuf) && fresh(memUi) && fresh(view)
      ensures memIndex == 0
      ensures memBuf[..] == Zeros(MemSize) && memUi[..] == Zeros(MemSize)
      ensures view.data == []
    {
      memBuf := new Point[MemSize](_ => Origin);
      memUi := new Point[MemSize](_ => Origin);
      memIndex := 0;
      view := new SignalView();
    }

    /** Copies the whole ring into the snapshot, slot by slot in raw index
        order; the ring and the cursor are left alone. */
    method Publish()
      requires Valid()
      modifies memUi
      ensures memUi[..] == memBuf[..]
    {
      var k := 0;
      while k < MemSize
        invariant 0 <= k <= MemSize
        invariant forall j | 0 <= j < k :: memUi[j] == memBuf[j]
      {
        memUi[k] := memBuf[k];
        k := k + 1;
      }
    }

    /** One audio cycle of `nframes` frames: writes the pair of every frame
        at the cursor and advances the cursor modulo the capacity, then makes
        a single publish attempt. `lockAcquired` is the outcome of the
        non-blocking lock attempt: when it failed, the snapshot keeps what it
        held. The callback always reports success. */
    method Process(nframes: nat, ref: seq<real>, fx: seq<real>, lockAcquired: bool) returns (status: int)
      requires Valid()
      requires |ref| == nframes && |fx| == nframes
      modifies this, memBuf, memUi
      ensures Valid()
      ensures memBuf[..] == WriteFrames(old(memBuf[..]), old(memIndex), Frames(ref, fx))
      ensures memIndex == Slot(MemSize, old(memIndex), nframes)
      ensures memUi[..] == if lockAcquired then memBuf[..] else old(memUi[..])
      ensures status == 0
    {
      ghost var ring0 := memBuf[..];
      ghost var start := memIndex;
      ghost var frames := Frames(ref, fx);
      var i := 0;
      while i < nframes
        invariant 0 <= i <= nframes
        invariant memIndex == Slot(MemSize, start, i)
        invariant memBuf[..] == WriteFrames(ring0, start, frames[..i])
        invariant memUi[..] == old(memUi[..])
      {
        memBuf[memIndex] := Point(ref[i], fx[i]);
        assert frames[..i + 1][..i] == frames[..i];
        ModAdd(start + i, 1, MemSize);
        memIndex := (memIndex + 1) % MemSize;
        i := i + 1;
      }
      assert frames[..nframes] == frames;
      if lockAcquired {
        Publish();
      }
      status := 0;
    }

    /** The timer tick: the view takes a copy of the current snapshot. */
    method RefreshView()
      requires Valid()
      modifies view
      ensures view.data == memUi[..]
    {
      view.SetData(memUi[..]);
    }
  }
}
