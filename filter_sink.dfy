/** FilterSink::sendRaw (FilterSink.cpp): hand a raw media frame, or null
    for end of stream, to the graph's buffer source and classify what the
    native call says. */
module FilterSinks {
  import opened Base

  /** AVERROR_EOF: FFERRTAG('E','O','F',' ') negated. */
  const AVERROR_EOF: int := -541478725
  /** AVERROR(EAGAIN) on Linux. */
  const AVERROR_EAGAIN: int := -11

  /** An AVFrame, by identity. */
  datatype Frame = Frame(id: int)

  /** A MediaRaw: whether it is complete, and the frame it wraps. */
  datatype MediaRaw = MediaRaw(complete: bool, frame: Frame)

  /** The frame sendRaw passes down: null for null media. */
  function FrameOf(media: Option<MediaRaw>): (f: Option<Frame>)
    ensures f.None? <==> media.None?
    ensures media.Some? ==> f == Some(media.value.frame)
  {
    if media.None? then None else Some(media.value.frame)
  }

  /** FilterSink::sendRaw, with av_buffersrc_write_frame as `write`: an
      incomplete media is an InvalidArgument before any native call;
      otherwise the frame (null for null media) is written, and the native
      code comes back as the result when it is EOF, EAGAIN or not negative,
      while any other negative code is raised. */
  function SendRaw(media: Option<MediaRaw>, write: Option<Frame> -> int): (r: Result<int>)
    ensures media.Some? && !media.value.complete ==> r == Err(InvalidArgument("incomplete media passed in"))
    ensures r.Ok? ==> r.value >= 0 || r.value == AVERROR_EOF || r.value == AVERROR_EAGAIN
    ensures media.None? || media.value.complete ==>
      var e := write(FrameOf(media));
      (r.Ok? <==> e >= 0 || e == AVERROR_EOF || e == AVERROR_EAGAIN)
      && (r.Ok? ==> r.value == e)
      && (r.Err? ==> r.exc == FfmpegError(e))
  {
    if media.Some? && !media.value.complete then Err(InvalidArgument("incomplete media passed in"))
    else
      var e := write(FrameOf(media));
      if e != AVERROR_EOF && e != AVERROR_EAGAIN && Check(e).Fail? then Err(Check(e).exc)
      else Ok(e)
  }

  /** Null media is the end-of-stream signal: it is written as a null frame
      and never refused by the wrapper itself. */
  lemma FlushIsNullFrame(write: Option<Frame> -> int)
    ensures SendRaw(None, write).Ok? <==> write(None) >= 0 || write(None) == AVERROR_EOF || write(None) == AVERROR_EAGAIN
    ensures SendRaw(None, write).Err? ==> SendRaw(None, write).exc.FfmpegError?
  {
  }

  /** An incomplete media never reaches the native writer: the outcome is
      the same whatever the writer would have said. */
  lemma IncompleteNeverWritten(m: MediaRaw, w1: Option<Frame> -> int, w2: Option<Frame> -> int)
    requires !m.complete
    ensures SendRaw(Some(m), w1) == SendRaw(Some(m), w2)
  {
  }
}
