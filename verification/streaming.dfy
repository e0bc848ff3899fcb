/**
 * One tick of the streaming loop (thread in apps/motionscope/main.py):
 * what the focused tab's frame() returned decides what reaches the video
 * display.
 */
module Streaming {
  import opened Optional

  /** frame() returns None, a frame, or a (frame, frame period) tuple. */
  datatype FrameResult<F, P> = NoFrame | Plain(frame: F) | Timed(frame: F, period: P)

  /** push_frame(frame) or push_frame(frame, period). */
  datatype Push<F, P> = Push(frame: F, period: Option<P>)

  /**
   * A tuple pushes its transformed first element together with its
   * period; any other value pushes the transformed frame with the
   * display's default period; None pushes nothing.
   */
  function Dispatch<F, P>(fr: FrameResult<F, P>, transform: F -> F): (r: Option<Push<F, P>>)
    ensures r.None? <==> fr.NoFrame?
    ensures r.Some? ==> r.value.frame == transform(fr.frame)
    ensures r.Some? ==> (r.value.period.Some? <==> fr.Timed?)
    ensures r.Some? && fr.Timed? ==> r.value.period == Some(fr.period)
  {
    match fr
    case NoFrame => None
    case Plain(f) => Some(Push(transform(f), None))
    case Timed(f, p) => Some(Push(transform(f), Some(p)))
  }
}
