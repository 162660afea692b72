/** The Coder base class (Coder.cpp): the lifecycle and configuration of one
    native codec context shared by decoders and encoders. The native
    AVCodecContext is the value `Coder.ctx`; every libavcodec call is a
    parameter carrying its return code. */
module Coders {
  import opened Base

  /** Coder::State. */
  datatype State = Inited | Opened | Flushing | Error

  /** MediaDescriptor::Type of the codec behind a coder. */
  datatype MediaType = Unknown | Video | Audio | Data | Subtitle | Attachment

  /** Codec::CAP_DR1 (AV_CODEC_CAP_DR1, bit 1): the codec accepts buffers
      allocated by the caller. */
  const CAP_DR1: bv32 := 2

  /** The frame size reported for audio codecs that claim 0 or 1. */
  const DEFAULT_AUDIO_FRAME_SIZE: Int32 := 576

  /** The codec a coder was made for: its media type and capability bits. */
  datatype Codec = Codec(kind: MediaType, capabilities: bv32)

  /** The fields of the native codec context that the coder reads or writes:
      the two flag words, the time base, picture and audio parameters, and
      the "frame_size" property. */
  datatype Context = Context(
    flags: bv32, flags2: bv32, timeBase: Rational,
    width: Int32, height: Int32, pixelFormat: Int32,
    channels: Int32, sampleRate: Int32, sampleFormat: Int32,
    frameSize: Int32)

  /** A MediaParameters object: codec parameters plus the time base it carries
      beside them (possibly null). */
  datatype MediaParameters = MediaParameters(
    width: Int32, height: Int32, pixelFormat: Int32,
    channels: Int32, sampleRate: Int32, sampleFormat: Int32,
    frameSize: Int32, timeBase: Option<Rational>)

  /** The dimensions and format of a MediaPicture. */
  datatype MediaPicture = MediaPicture(width: Int32, height: Int32, format: Int32)

  /** The layout of a MediaAudio. */
  datatype MediaAudio = MediaAudio(channels: Int32, sampleRate: Int32, format: Int32)

  /** Who fills a frame buffer the codec asks for. */
  datatype Allocator = DefaultAllocator | CoderAllocator

  /** What avcodec_parameters_to_context writes into a context: every
      parameter field; the flags and the time base are not parameters. */
  function CopyParameters(c: Context, p: MediaParameters): (r: Context)
    ensures r.flags == c.flags && r.flags2 == c.flags2 && r.timeBase == c.timeBase
    ensures r.width == p.width && r.height == p.height && r.pixelFormat == p.pixelFormat
    ensures r.channels == p.channels && r.sampleRate == p.sampleRate
    ensures r.sampleFormat == p.sampleFormat && r.frameSize == p.frameSize
  {
    c.(width := p.width, height := p.height, pixelFormat := p.pixelFormat,
       channels := p.channels, sampleRate := p.sampleRate,
       sampleFormat := p.sampleFormat, frameSize := p.frameSize)
  }

  /** Two flag words agree on every bit outside `flag`. */
  predicate SameOutside(a: bv32, b: bv32, flag: bv32) {
    a & !flag == b & !flag
  }

  /** A flag word after `word |= flag` (value true) or `word &= ~flag`
      (value false): the bits of `flag` are all set or all clear, and every
      other bit keeps its value. */
  function WithBits(word: bv32, flag: bv32, value: bool): (r: bv32)
    ensures r & flag == (if value then flag else 0)
    ensures SameOutside(r, word, flag)
  {
    if value then word | flag else word & !flag
  }

  /** The options of `options` that neither the context nor the codec
      recognised: these are handed back to the caller, never an error. */
  function Unrecognized(options: map<string, string>, recognized: set<string>): (m: map<string, string>)
    ensures m.Keys == options.Keys - recognized
    ensures forall k :: k in m ==> m[k] == options[k]
  {
    map k | k in options && k !in recognized :: options[k]
  }

  /** The verdict of Coder::open's steps in their order: setting the options
      (native code `setResult`), the subclass's pre-open check, opening the
      codec (native code `openResult`). The first failure wins. */
  function OpenResult(setResult: int, checkResult: Outcome, openResult: int): (r: Outcome)
    ensures r.Pass? <==> setResult >= 0 && checkResult.Pass? && openResult >= 0
    ensures setResult < 0 ==> r == Fail(FfmpegError(setResult))
    ensures setResult >= 0 && checkResult.Fail? ==> r == checkResult
    ensures setResult >= 0 && checkResult.Pass? && openResult < 0 ==> r == Fail(FfmpegError(openResult))
  {
    if setResult < 0 then Check(setResult)
    else if checkResult.Fail? then checkResult
    else Check(openResult)
  }

  /** One valid and one bogus option: open succeeds when the native steps
      succeed, and only the bogus key comes back unset. */
  lemma OptionSoftFail(valid: string, bogus: string, v1: string, v2: string, recognized: set<string>)
    requires valid in recognized && bogus !in recognized
    ensures OpenResult(0, Pass, 0).Pass?
    ensures Unrecognized(map[valid := v1, bogus := v2], recognized) == map[bogus := v2]
  {
  }

  class Coder {
    /** mCodec: the codec fixed when the context was allocated. */
    const codec: Codec
    /** mState. */
    var state: State
    /** The native context mCtx. */
    var ctx: Context
    /** mTimebase: the cached time base object, null until first asked for. */
    var cachedTimeBase: Option<Rational>
    /** Option dictionaries allocated and not yet freed. */
    var liveDictionaries: nat

    /** The body of Coder::Coder once the context exists: every new coder
        starts in INITED. */
    constructor (codec: Codec, ctx: Context)
      ensures this.codec == codec && this.ctx == ctx
      ensures state == Inited && cachedTimeBase == None && liveDictionaries == 0
    {
      this.codec := codec;
      this.ctx := ctx;
      state := Inited;
      cachedTimeBase := None;
      liveDictionaries := 0;
    }

    /** Coder::Coder: allocate the context (`newCtx` is what
        avcodec_alloc_context3 returned, None for null), copy the source
        parameters if any (native code `copyResult`), and start INITED. */
    static method Make(codec: Codec, newCtx: Option<Context>, src: Option<MediaParameters>, copyResult: int)
      returns (r: Result<Coder>)
      ensures newCtx.None? ==> r == Err(RuntimeError("could not allocate coder context"))
      ensures newCtx.Some? && src.Some? && copyResult < 0 ==> r == Err(RuntimeError("could not copy source context"))
      ensures r.Ok? <==> newCtx.Some? && (src.None? || copyResult >= 0)
      ensures r.Ok? ==> fresh(r.value) && r.value.state == Inited && r.value.codec == codec
      ensures r.Ok? ==> r.value.ctx == if src.Some? then CopyParameters(newCtx.value, src.value) else newCtx.value
    {
      if newCtx.None? {
        return Err(RuntimeError("could not allocate coder context"));
      }
      var c := newCtx.value;
      if src.Some? {
        if copyResult < 0 {
          return Err(RuntimeError("could not copy source context"));
        }
        c := CopyParameters(c, src.value);
      }
      var coder := new Coder(codec, c);
      r := Ok(coder);
    }

    /** Coder::setState. */
    method SetState(s: State)
      modifies this`state
      ensures state == s
    {
      state := s;
    }

    /** Coder::open. The current state is not checked. The option dictionary
        copied from `inputOptions` is freed on every path; on success the
        coder is OPENED and the options nobody recognised are returned, on
        any failure the coder is in ERROR and the failure is rethrown. */
    method Open(inputOptions: Option<map<string, string>>, recognized: set<string>,
                setResult: int, checkResult: Outcome, openResult: int)
      returns (r: Outcome, unset: map<string, string>)
      modifies this`state, this`liveDictionaries
      ensures r == OpenResult(setResult, checkResult, openResult)
      ensures state == if r.Pass? then Opened else Error
      ensures liveDictionaries == old(liveDictionaries)
      ensures unset == if r.Pass? && inputOptions.Some? then Unrecognized(inputOptions.value, recognized) else map[]
    {
      var tmp: Option<map<string, string>> := None;
      if inputOptions.Some? {
        tmp := inputOptions;
        liveDictionaries := liveDictionaries + 1;
      }
      r := Check(setResult);
      if r.Pass? {
        r := checkResult;
      }
      if r.Pass? {
        r := Check(openResult);
      }
      if r.Pass? {
        SetState(Opened);
        unset := if tmp.Some? then Unrecognized(tmp.value, recognized) else map[];
      } else {
        SetState(Error);
        unset := map[];
      }
      if tmp.Some? {
        liveDictionaries := liveDictionaries - 1;
      }
    }

    /** Coder::getTimeBase: the context's time base, re-caching it when the
        cached object is missing or differs. */
    method GetTimeBase() returns (tb: Rational)
      modifies this`cachedTimeBase
      ensures tb == ctx.timeBase && cachedTimeBase == Some(ctx.timeBase)
    {
      if cachedTimeBase.None? || cachedTimeBase.value != ctx.timeBase {
        cachedTimeBase := Some(ctx.timeBase);
      }
      tb := cachedTimeBase.value;
    }

    /** Coder::setTimeBase: null is an InvalidArgument, a call outside INITED
        a RuntimeError that changes nothing; otherwise both the cache and the
        context take the new time base. */
    method SetTimeBase(newTimeBase: Option<Rational>) returns (r: Outcome)
      modifies this`ctx, this`cachedTimeBase
      ensures newTimeBase.None? ==> r == Fail(InvalidArgument("no timebase passed in"))
      ensures newTimeBase.Some? && state != Inited ==> r == Fail(RuntimeError("can only setTimeBase before open"))
      ensures r.Pass? <==> newTimeBase.Some? && state == Inited
      ensures r.Pass? ==> ctx == old(ctx).(timeBase := newTimeBase.value) && cachedTimeBase == newTimeBase
      ensures r.Fail? ==> ctx == old(ctx) && cachedTimeBase == old(cachedTimeBase)
    {
      if newTimeBase.None? {
        return Fail(InvalidArgument("no timebase passed in"));
      }
      if state != Inited {
        return Fail(RuntimeError("can only setTimeBase before open"));
      }
      cachedTimeBase := newTimeBase;
      ctx := ctx.(timeBase := newTimeBase.value);
      r := Pass;
    }

    /** Coder::getFrameSize: a negative native value is returned as it is;
        an audio codec reporting 0 or 1 reports 576 instead; any other value
        is returned as it is. */
    function GetFrameSize(): (r: Int32)
      reads this
      ensures ctx.frameSize < 0 ==> r == ctx.frameSize
      ensures codec.kind == Audio && ctx.frameSize >= 0 ==> r >= 2
      ensures r != ctx.frameSize ==> codec.kind == Audio && 0 <= ctx.frameSize <= 1 && r == DEFAULT_AUDIO_FRAME_SIZE
    {
      if ctx.frameSize < 0 then ctx.frameSize
      else if codec.kind == Audio && ctx.frameSize <= 1 then DEFAULT_AUDIO_FRAME_SIZE
      else ctx.frameSize
    }

    /** Coder::ensurePictureParamsMatch: null passes; otherwise width, height
        and pixel format must equal the coder's, checked in that order, and
        the first difference is an InvalidArgument. */
    function EnsurePictureParamsMatch(pict: Option<MediaPicture>): (r: Outcome)
      reads this
      ensures pict.None? ==> r.Pass?
      ensures pict.Some? ==>
        (r.Pass? <==> pict.value.width == ctx.width && pict.value.height == ctx.height
                      && pict.value.format == ctx.pixelFormat)
      ensures r == Fail(InvalidArgument("width")) <==> pict.Some? && pict.value.width != ctx.width
      ensures r == Fail(InvalidArgument("height")) <==>
        pict.Some? && pict.value.width == ctx.width && pict.value.height != ctx.height
      ensures r.Fail? ==> r.exc.InvalidArgument?
    {
      if pict.None? then Pass
      else if ctx.width != pict.value.width then Fail(InvalidArgument("width"))
      else if ctx.height != pict.value.height then Fail(InvalidArgument("height"))
      else if ctx.pixelFormat != pict.value.format then Fail(InvalidArgument("pixel format"))
      else Pass
    }

    /** Coder::ensureAudioParamsMatch: null passes; otherwise channels, sample
        rate and sample format must equal the coder's, checked in that order,
        and the first difference is an InvalidArgument. */
    function EnsureAudioParamsMatch(audio: Option<MediaAudio>): (r: Outcome)
      reads this
      ensures audio.None? ==> r.Pass?
      ensures audio.Some? ==>
        (r.Pass? <==> audio.value.channels == ctx.channels && audio.value.sampleRate == ctx.sampleRate
                      && audio.value.format == ctx.sampleFormat)
      ensures r == Fail(InvalidArgument("channels")) <==> audio.Some? && audio.value.channels != ctx.channels
      ensures r == Fail(InvalidArgument("sample rate")) <==>
        audio.Some? && audio.value.channels == ctx.channels && audio.value.sampleRate != ctx.sampleRate
      ensures r.Fail? ==> r.exc.InvalidArgument?
    {
      if audio.None? then Pass
      else if ctx.channels != audio.value.channels then Fail(InvalidArgument("channels"))
      else if ctx.sampleRate != audio.value.sampleRate then Fail(InvalidArgument("sample rate"))
      else if ctx.sampleFormat != audio.value.format then Fail(InvalidArgument("sample format"))
      else Pass
    }

    /** Coder::getFlags: the first flag word as the context holds it. */
    function GetFlags(): (r: bv32)
      reads this
      ensures r == ctx.flags
    {
      ctx.flags
    }

    /** Coder::getFlag: the bits of `flag` that are set. The answer is
        `flag` itself exactly when every bit of it is set, and 0 exactly when
        none is. */
    function GetFlag(flag: bv32): (r: bv32)
      reads this
      ensures r == ctx.flags & flag
      ensures r & !flag == 0 && r & !ctx.flags == 0
      ensures r == flag <==> ctx.flags & flag == flag
      ensures r == 0 <==> ctx.flags & flag == 0
    {
      ctx.flags & flag
    }

    /** Coder::getFlags2: the second flag word as the context holds it. */
    function GetFlags2(): (r: bv32)
      reads this
      ensures r == ctx.flags2
    {
      ctx.flags2
    }

    /** Coder::getFlag2: the bits of `flag` that are set in the second
        word, with the same reading as getFlag. */
    function GetFlag2(flag: bv32): (r: bv32)
      reads this
      ensures r == ctx.flags2 & flag
      ensures r & !flag == 0 && r & !ctx.flags2 == 0
      ensures r == flag <==> ctx.flags2 & flag == flag
      ensures r == 0 <==> ctx.flags2 & flag == 0
    {
      ctx.flags2 & flag
    }

    /** Coder::setFlags: outside INITED an InvalidArgument and no change. */
    method SetFlags(val: bv32) returns (r: Outcome)
      modifies this`ctx
      ensures r == if state == Inited then Pass else Fail(InvalidArgument("cannot set flags after open"))
      ensures ctx == if r.Pass? then old(ctx).(flags := val) else old(ctx)
    {
      if state != Inited {
        return Fail(InvalidArgument("cannot set flags after open"));
      }
      ctx := ctx.(flags := val);
      r := Pass;
    }

    /** Coder::setFlag: outside INITED an InvalidArgument and no change;
        otherwise the bits of `flag` become `value` and no other bit moves. */
    method SetFlag(flag: bv32, value: bool) returns (r: Outcome)
      modifies this`ctx
      ensures r == if state == Inited then Pass else Fail(InvalidArgument("cannot set flags after open"))
      ensures r.Fail? ==> ctx == old(ctx)
      ensures r.Pass? ==> ctx == old(ctx).(flags := WithBits(old(ctx.flags), flag, value))
      ensures r.Pass? ==> GetFlag(flag) == (if value then flag else 0)
      ensures r.Pass? ==> SameOutside(ctx.flags, old(ctx.flags), flag)
    {
      if state != Inited {
        return Fail(InvalidArgument("cannot set flags after open"));
      }
      var w := WithBits(ctx.flags, flag, value);
      ctx := ctx.(flags := w);
      r := Pass;
    }

    /** Coder::setFlags2: outside INITED an InvalidArgument and no change. */
    method SetFlags2(val: bv32) returns (r: Outcome)
      modifies this`ctx
      ensures r == if state == Inited then Pass else Fail(InvalidArgument("cannot set flags after open"))
      ensures ctx == if r.Pass? then old(ctx).(flags2 := val) else old(ctx)
    {
      if state != Inited {
        return Fail(InvalidArgument("cannot set flags after open"));
      }
      ctx := ctx.(flags2 := val);
      r := Pass;
    }

    /** Coder::setFlag2: as SetFlag, on the second flag word. */
    method SetFlag2(flag: bv32, value: bool) returns (r: Outcome)
      modifies this`ctx
      ensures r == if state == Inited then Pass else Fail(InvalidArgument("cannot set flags after open"))
      ensures r.Fail? ==> ctx == old(ctx)
      ensures r.Pass? ==> ctx == old(ctx).(flags2 := WithBits(old(ctx.flags2), flag, value))
      ensures r.Pass? ==> GetFlag2(flag) == (if value then flag else 0)
      ensures r.Pass? ==> SameOutside(ctx.flags2, old(ctx.flags2), flag)
    {
      if state != Inited {
        return Fail(InvalidArgument("cannot set flags after open"));
      }
      var w := WithBits(ctx.flags2, flag, value);
      ctx := ctx.(flags2 := w);
      r := Pass;
    }

    /** Coder::setMediaParameters: outside INITED a RuntimeError with nothing
        changed, then null is an InvalidArgument; a native copy failure
        (`copyResult` < 0) puts the coder in ERROR; on success the context
        takes the parameters and the cached time base becomes theirs. */
    method SetMediaParameters(p: Option<MediaParameters>, copyResult: int) returns (r: Outcome)
      modifies this`state, this`ctx, this`cachedTimeBase
      ensures old(state) != Inited ==> r == Fail(RuntimeError("cannot set parameters after open"))
      ensures old(state) == Inited && p.None? ==> r == Fail(InvalidArgument("must pass in non null parameters"))
      ensures old(state) == Inited && p.Some? && copyResult < 0 ==> r == Fail(FfmpegError(copyResult)) && state == Error
      ensures r.Pass? <==> old(state) == Inited && p.Some? && copyResult >= 0
      ensures r.Pass? ==> ctx == CopyParameters(old(ctx), p.value) && cachedTimeBase == p.value.timeBase
      ensures r.Fail? ==> ctx == old(ctx) && cachedTimeBase == old(cachedTimeBase)
      ensures !(r.Fail? && r.exc.FfmpegError?) ==> state == old(state)
    {
      if state != Inited {
        return Fail(RuntimeError("cannot set parameters after open"));
      }
      if p.None? {
        return Fail(InvalidArgument("must pass in non null parameters"));
      }
      if copyResult < 0 {
        SetState(Error);
        return Check(copyResult);
      }
      ctx := CopyParameters(ctx, p.value);
      cachedTimeBase := p.value.timeBase;
      r := Pass;
    }
  }

  /** Coder::getBuffer: the allocation strategy for a frame the codec asks
      for. The coder's own allocator is used exactly when an owning coder is
      recorded in the context and its codec has the DR1 capability. */
  function GetBuffer(owner: Coder?): (a: Allocator)
    ensures a == CoderAllocator <==> owner != null && owner.codec.capabilities & CAP_DR1 != 0
  {
    if owner == null then DefaultAllocator
    else if owner.codec.capabilities & CAP_DR1 == 0 then DefaultAllocator
    else CoderAllocator
  }
}
