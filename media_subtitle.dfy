/** MediaSubtitle and MediaSubtitleRectangle (MediaSubtitle.cpp): wrappers
    around a decoded AVSubtitle and its rectangles, with range-checked
    access and a reference count kept balanced by getPictureData. */
module MediaSubtitles {
  import opened Base

  /** The native `unsigned` num_rects read through an `(int32_t)` cast:
      counts of 2^31 and more come out negative. */
  function AsInt32(n: nat): (r: Int32)
    requires n < 0x1_0000_0000
    ensures 0 <= r ==> r == n
    ensures r < 0 ==> r == n - 0x1_0000_0000
  {
    if n < 0x8000_0000 then n else n - 0x1_0000_0000
  }

  /** An AVSubtitleRect: the line size of each of its four picture planes
      (data[line] is the plane of that number). */
  datatype RectCtx = RectCtx(linesize: seq<Int32>)
  {
    ghost predicate Valid() {
      |linesize| == 4
    }
  }

  /** An AVSubtitle: num_rects and the rects array, which may be null and
      whose entries may be null. */
  datatype SubtitleCtx = SubtitleCtx(numRects: nat, rects: Option<seq<Option<RectCtx>>>)
  {
    /** What libavcodec guarantees of a decoded subtitle: num_rects fits
        the unsigned field, the array has that many entries and every
        rectangle has four planes. */
    ghost predicate Valid() {
      numRects < 0x1_0000_0000
      && (rects.Some? ==> numRects <= |rects.value|
                          && forall i :: 0 <= i < |rects.value| && rects.value[i].Some? ==> rects.value[i].value.Valid())
    }
  }

  /** MediaSubtitle::getRectangle's checks and choice: an index outside
      0 <= n < (int32_t)num_rects is an InvalidArgument, checked before a
      null rects array (RuntimeError); then a null entry is the
      InvalidArgument MediaSubtitleRectangle::make raises. */
  function SelectRectangle(c: SubtitleCtx, n: Int32): (r: Result<RectCtx>)
    requires c.Valid()
    ensures (n < 0 || n >= AsInt32(c.numRects)) ==> r == Err(InvalidArgument("attempt to get out-of-range rectangle"))
    ensures 0 <= n < AsInt32(c.numRects) && c.rects.None? ==> r == Err(RuntimeError("no rectangles"))
    ensures 0 <= n < AsInt32(c.numRects) && c.rects.Some? && c.rects.value[n].None? ==> r == Err(InvalidArgument("no context"))
    ensures r.Ok? <==> 0 <= n < c.numRects && c.numRects < 0x8000_0000 && c.rects.Some? && c.rects.value[n].Some?
    ensures r.Ok? ==> r.value == c.rects.value[n].value && r.value.Valid()
  {
    if n < 0 || n >= AsInt32(c.numRects) then Err(InvalidArgument("attempt to get out-of-range rectangle"))
    else if c.rects.None? then Err(RuntimeError("no rectangles"))
    else if c.rects.value[n].None? then Err(InvalidArgument("no context"))
    else Ok(c.rects.value[n].value)
  }

  /** A subtitle claiming 2^31 or more rectangles hands out none: the cast
      makes the bound negative. */
  lemma HugeCountRefusesAll(c: SubtitleCtx, n: Int32)
    requires c.Valid() && 0x8000_0000 <= c.numRects
    ensures SelectRectangle(c, n) == Err(InvalidArgument("attempt to get out-of-range rectangle"))
  {
  }

  /** A Buffer over one picture plane of a rectangle: the plane's number and
      its size, linesize[line]. */
  datatype Buffer = Buffer(line: nat, size: Int32)

  class MediaSubtitleRectangle {
    /** mCtx. */
    var ctx: RectCtx
    /** The reference count (RefCounted::acquire/release). */
    var refCount: nat

    constructor (ctx: RectCtx)
      ensures this.ctx == ctx && refCount == 1
    {
      this.ctx := ctx;
      refCount := 1;
    }

    /** MediaSubtitleRectangle::make: a null context is an InvalidArgument;
        otherwise a new rectangle, held once by the caller. */
    static method Make(ctx: Option<RectCtx>) returns (r: Result<MediaSubtitleRectangle>)
      ensures ctx.None? <==> r.Err?
      ensures r.Err? ==> r.exc == InvalidArgument("no context")
      ensures r.Ok? ==> fresh(r.value) && r.value.ctx == ctx.value && r.value.refCount == 1
    {
      if ctx.None? {
        return Err(InvalidArgument("no context"));
      }
      var rect := new MediaSubtitleRectangle(ctx.value);
      r := Ok(rect);
    }

    /** MediaSubtitleRectangle::getPictureLinesize: a line outside 0..3 is
        an InvalidArgument; otherwise that plane's line size. */
    function GetPictureLinesize(line: int): (r: Result<Int32>)
      requires ctx.Valid()
      reads this
      ensures r.Err? <==> line < 0 || line >= 4
      ensures r.Err? ==> r.exc == InvalidArgument("line must be between 0 and 3")
      ensures r.Ok? ==> r.value == ctx.linesize[line]
    {
      if line < 0 || line >= 4 then Err(InvalidArgument("line must be between 0 and 3"))
      else Ok(ctx.linesize[line])
    }

    /** MediaSubtitleRectangle::getPictureData: the same line check; then
        the rectangle takes a reference for the buffer, and gives it back
        when the buffer cannot be made (`made` is false), returning null.
        The count goes up by one exactly when a buffer is returned. */
    method GetPictureData(line: int, made: bool) returns (r: Result<Option<Buffer>>)
      requires ctx.Valid()
      modifies this`refCount
      ensures r.Err? <==> line < 0 || line >= 4
      ensures r.Err? ==> r.exc == InvalidArgument("line must be between 0 and 3")
      ensures r.Ok? ==> r.value == if made then Some(Buffer(line, ctx.linesize[line])) else None
      ensures refCount == old(refCount) + if r.Ok? && r.value.Some? then 1 else 0
    {
      if line < 0 || line >= 4 {
        return Err(InvalidArgument("line must be between 0 and 3"));
      }
      refCount := refCount + 1;
      if !made {
        refCount := refCount - 1;
        return Ok(None);
      }
      r := Ok(Some(Buffer(line, ctx.linesize[line])));
    }
  }

  class MediaSubtitle {
    /** mCtx: null until make(ctx) sets it. */
    var ctx: Option<SubtitleCtx>
    /** mComplete. */
    var complete: bool

    /** MediaSubtitle::MediaSubtitle: no context, not complete. */
    constructor ()
      ensures ctx.None? && !complete
    {
      ctx := None;
      complete := false;
    }

    /** MediaSubtitle::make(AVSubtitle*): a null context is an
        InvalidArgument; otherwise a new subtitle wrapping it. */
    static method Make(ctx: Option<SubtitleCtx>) returns (r: Result<MediaSubtitle>)
      ensures ctx.None? <==> r.Err?
      ensures r.Err? ==> r.exc == InvalidArgument("no context")
      ensures r.Ok? ==> fresh(r.value) && r.value.ctx == ctx && !r.value.complete
    {
      if ctx.None? {
        return Err(InvalidArgument("no context"));
      }
      var s := new MediaSubtitle();
      s.ctx := ctx;
      r := Ok(s);
    }

    /** MediaSubtitle::getRectangle: the rectangle SelectRectangle picks,
        wrapped in a new MediaSubtitleRectangle. */
    method GetRectangle(n: Int32) returns (r: Result<MediaSubtitleRectangle>)
      requires ctx.Some? && ctx.value.Valid()
      ensures SelectRectangle(ctx.value, n).Err? ==> r == Err(SelectRectangle(ctx.value, n).exc)
      ensures SelectRectangle(ctx.value, n).Ok? ==>
        r.Ok? && fresh(r.value) && r.value.ctx == SelectRectangle(ctx.value, n).value && r.value.refCount == 1
    {
      var c := ctx.value;
      if n < 0 || n >= AsInt32(c.numRects) {
        return Err(InvalidArgument("attempt to get out-of-range rectangle"));
      }
      if c.rects.None? {
        return Err(RuntimeError("no rectangles"));
      }
      r := MediaSubtitleRectangle.Make(c.rects.value[n]);
    }

    /** MediaSubtitle::logMetadata: not implemented; always a RuntimeError. */
    function LogMetadata(len: nat): (r: Result<int>)
      ensures r == Err(RuntimeError("NOT IMPLEMENTED"))
    {
      Err(RuntimeError("NOT IMPLEMENTED"))
    }
  }
}
