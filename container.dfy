/** Container and Container::Stream (Container.cpp): the lazily grown,
    append-only registry of stream records kept in front of the native format
    context, and the trampolines that let the native I/O layer call a
    protocol handler. */
module Containers {
  import opened Base

  /** A native AVStream: the codec id in its parameters. */
  datatype NativeStream = NativeStream(codecId: int)

  /** The native AVFormatContext as the container sees it: the stream slots
      (`nb_streams` is their number; a slot may be null) and whether an input
      format (iformat) or an output format (oformat) is attached. */
  datatype FormatCtx = FormatCtx(slots: seq<Option<NativeStream>>, input: bool, output: bool)

  /** The decoder made for a stream from its parameters. */
  datatype Decoder = Decoder(codecId: int)

  /** Container::Stream: its position in the container, the codec id of the
      native stream it wraps, and the coder bound to it (mCoder). */
  datatype Stream = Stream(index: nat, codecId: int, coder: Option<Decoder>)

  /** The outcome of a setup pass: the stream list it leaves and whether it
      finished or threw. */
  datatype Setup = Setup(streams: seq<Stream>, outcome: Outcome)

  /** Whether Decoder::make throws for native slot `i`: the slot holds a
      stream of an input format whose codec libavcodec can decode, and the
      coder's construction fails there (`makeErrors` maps such slots to the
      RuntimeError's message: the context allocation or the parameter copy
      failed). */
  predicate MakeFails(ctx: FormatCtx, decodable: set<int>, makeErrors: map<nat, string>, i: nat) {
    i < |ctx.slots| && ctx.slots[i].Some? && ctx.input
    && ctx.slots[i].value.codecId in decodable && i in makeErrors
  }

  /** The record made for native slot `i`: it carries index `i`, and for an
      input format it gets a decoder exactly when libavcodec has a decoder
      for the codec (`decodable`) and making it does not throw; a missing
      decoder is not an error. */
  function NewStream(ctx: FormatCtx, decodable: set<int>, makeErrors: map<nat, string>, i: nat): (s: Stream)
    requires i < |ctx.slots| && ctx.slots[i].Some?
    ensures s.index == i && s.codecId == ctx.slots[i].value.codecId
    ensures s.coder.Some? <==> ctx.input && ctx.slots[i].value.codecId in decodable && !MakeFails(ctx, decodable, makeErrors, i)
    ensures s.coder.Some? ==> s.coder.value.codecId == s.codecId
  {
    var id := ctx.slots[i].value.codecId;
    Stream(i, id, if ctx.input && id in decodable && i !in makeErrors then Some(Decoder(id)) else None)
  }

  /** Container::doSetupStreams on an attached format context: keep every
      existing entry, append one entry per native slot from the current
      length on, and throw at the first null slot (entries made before it
      stay) or at the first slot whose decoder cannot be made (its entry,
      without a coder, stays too). A list already as long as the native one
      is left alone. */
  function Discover(streams: seq<Stream>, ctx: FormatCtx, decodable: set<int>, makeErrors: map<nat, string>): (r: Setup)
    decreases |ctx.slots| - |streams|
    ensures |streams| <= |r.streams| && r.streams[..|streams|] == streams
    ensures forall i :: |streams| <= i < |r.streams| ==>
      i < |ctx.slots| && ctx.slots[i].Some? && r.streams[i] == NewStream(ctx, decodable, makeErrors, i)
    ensures forall i :: |streams| <= i < |r.streams| && MakeFails(ctx, decodable, makeErrors, i) ==>
      i == |r.streams| - 1 && r.outcome.Fail?
    ensures r.outcome.Pass? ==> |r.streams| == if |streams| < |ctx.slots| then |ctx.slots| else |streams|
    ensures |streams| < |r.streams| && MakeFails(ctx, decodable, makeErrors, |r.streams| - 1) ==>
      r.outcome == Fail(RuntimeError(makeErrors[|r.streams| - 1]))
    ensures r.outcome.Fail? ==>
      (|r.streams| < |ctx.slots| && ctx.slots[|r.streams|].None?
       && r.outcome == Fail(RuntimeError("no FFMPEG allocated stream")))
      || (|streams| < |r.streams| && MakeFails(ctx, decodable, makeErrors, |r.streams| - 1)
          && r.outcome == Fail(RuntimeError(makeErrors[|r.streams| - 1])))
  {
    if |streams| >= |ctx.slots| then Setup(streams, Pass)
    else if ctx.slots[|streams|].None? then Setup(streams, Fail(RuntimeError("no FFMPEG allocated stream")))
    else
      var next := streams + [NewStream(ctx, decodable, makeErrors, |streams|)];
      if MakeFails(ctx, decodable, makeErrors, |streams|) then
        assert next[..|streams|] == streams;
        Setup(next, Fail(RuntimeError(makeErrors[|streams|])))
      else
        var r := Discover(next, ctx, decodable, makeErrors);
        assert r.streams[..|streams|] == next[..|streams|];
        r
  }

  /** The native context has grown from `small` to `big`: the slots already
      there are unchanged and only new ones were appended. */
  ghost predicate Extends(big: FormatCtx, small: FormatCtx) {
    |small.slots| <= |big.slots| && big.slots[..|small.slots|] == small.slots
    && big.input == small.input && big.output == small.output
  }

  /** Discovery never rescans: setting up against a native context and then
      again after it grew gives exactly the list one setup against the grown
      context gives. */
  lemma {:induction false} IncrementalDiscovery(streams: seq<Stream>, small: FormatCtx, big: FormatCtx, decodable: set<int>,
                             makeErrors: map<nat, string>)
    requires Extends(big, small)
    requires Discover(streams, small, decodable, makeErrors).outcome.Pass?
    ensures Discover(Discover(streams, small, decodable, makeErrors).streams, big, decodable, makeErrors)
            == Discover(streams, big, decodable, makeErrors)
    decreases |small.slots| - |streams|
  {
    var k := |streams|;
    if k < |small.slots| {
      assert big.slots[k] == big.slots[..|small.slots|][k];
      var next := streams + [NewStream(small, decodable, makeErrors, k)];
      assert NewStream(big, decodable, makeErrors, k) == NewStream(small, decodable, makeErrors, k);
      assert !MakeFails(big, decodable, makeErrors, k);
      IncrementalDiscovery(next, small, big, decodable, makeErrors);
    }
  }

  /** A slot whose decoder could not be made keeps its coder-less entry for
      good: any later setup, however far the native context has grown,
      starts after it, so it never gets a decoder. */
  lemma FailedDecoderNeverRetried(streams: seq<Stream>, small: FormatCtx, big: FormatCtx, decodable: set<int>,
                                  makeErrors: map<nat, string>)
    requires Extends(big, small)
    requires var r := Discover(streams, small, decodable, makeErrors);
      r.outcome.Fail? && |streams| < |r.streams| && MakeFails(small, decodable, makeErrors, |r.streams| - 1)
    ensures var r := Discover(streams, small, decodable, makeErrors);
      var k := |r.streams| - 1;
      var again := Discover(r.streams, big, decodable, makeErrors);
      k < |again.streams| && again.streams[k] == Stream(k, small.slots[k].value.codecId, None)
      && small.slots[k].value.codecId in decodable
  {
  }

  /** What a protocol handler call does: return a code, or throw. */
  datatype Reply = Returns(n: int) | Throws

  /** A URLProtocolHandler: its read, write and seek calls given the size or
      the position and whence (the byte buffers are left out). */
  datatype Handler = Handler(read: int -> Reply, write: int -> Reply, seek: (int, int) -> Reply)

  /** Container::url_read: -1 when the handler is null or throws, otherwise
      what the handler returned. */
  function UrlRead(h: Option<Handler>, size: int): (r: int)
    ensures h.Some? && h.value.read(size).Returns? ==> r == h.value.read(size).n
    ensures !(h.Some? && h.value.read(size).Returns?) ==> r == -1
  {
    if h.None? then -1
    else match h.value.read(size)
      case Returns(n) => n
      case Throws => -1
  }

  /** Container::url_write: -1 when the handler is null or throws, otherwise
      what the handler returned. */
  function UrlWrite(h: Option<Handler>, size: int): (r: int)
    ensures h.Some? && h.value.write(size).Returns? ==> r == h.value.write(size).n
    ensures !(h.Some? && h.value.write(size).Returns?) ==> r == -1
  {
    if h.None? then -1
    else match h.value.write(size)
      case Returns(n) => n
      case Throws => -1
  }

  /** Container::url_seek: -1 when the handler is null or throws, otherwise
      what the handler returned. */
  function UrlSeek(h: Option<Handler>, position: int, whence: int): (r: int)
    ensures h.Some? && h.value.seek(position, whence).Returns? ==> r == h.value.seek(position, whence).n
    ensures !(h.Some? && h.value.seek(position, whence).Returns?) ==> r == -1
  {
    if h.None? then -1
    else match h.value.seek(position, whence)
      case Returns(n) => n
      case Throws => -1
  }

  /** Every entry of the list sits at its own index. */
  ghost predicate Indexed(s: seq<Stream>) {
    forall i :: 0 <= i < |s| ==> s[i].index == i
  }

  class Container {
    /** The codec ids libavcodec can decode (Codec::findDecodingCodec). */
    const decodable: set<int>
    /** The slots whose Decoder::make throws, with the message it throws. */
    const makeErrors: map<nat, string>
    /** getFormatCtx(): the native context, null once closed. */
    var fmt: Option<FormatCtx>
    /** mStreams. */
    var streams: seq<Stream>

    /** The object invariant: entry i has index i. */
    ghost predicate Valid()
      reads this
    {
      Indexed(streams)
    }

    constructor (decodable: set<int>, makeErrors: map<nat, string>, fmt: Option<FormatCtx>)
      ensures Valid()
      ensures this.decodable == decodable && this.makeErrors == makeErrors && this.fmt == fmt && streams == []
    {
      this.decodable := decodable;
      this.makeErrors := makeErrors;
      this.fmt := fmt;
      streams := [];
    }

    /** Container::doSetupStreams: a null format context is a RuntimeError;
        otherwise the loop over the new native slots, as Discover says. */
    method DoSetupStreams() returns (r: Outcome)
      requires Valid()
      modifies this`streams
      ensures Valid()
      ensures fmt.None? ==> r == Fail(RuntimeError("setup streams on closed container")) && streams == old(streams)
      ensures fmt.Some? ==> Setup(streams, r) == Discover(old(streams), fmt.value, decodable, makeErrors)
    {
      if fmt.None? {
        return Fail(RuntimeError("setup streams on closed container"));
      }
      var ctx := fmt.value;
      if |streams| == |ctx.slots| {
        return Pass;
      }
      var i := |streams|;
      while i < |ctx.slots|
        invariant i == |streams|
        invariant Discover(streams, ctx, decodable, makeErrors) == Discover(old(streams), ctx, decodable, makeErrors)
        decreases |ctx.slots| - i
      {
        if ctx.slots[i].None? {
          return Fail(RuntimeError("no FFMPEG allocated stream"));
        }
        streams := streams + [NewStream(ctx, decodable, makeErrors, i)];
        if MakeFails(ctx, decodable, makeErrors, i) {
          return Fail(RuntimeError(makeErrors[i]));
        }
        i := i + 1;
      }
      r := Pass;
    }

    /** Container::getNumStreams: set up, then the length of the list. The
        list becomes what the setup pass leaves; after a successful call it
        is exactly as long as the native one (unless it was already longer),
        and a failed setup's RuntimeError is passed on. */
    method GetNumStreams() returns (r: Result<int>)
      requires Valid()
      modifies this`streams
      ensures Valid()
      ensures fmt.None? ==> streams == old(streams) && r == Err(RuntimeError("setup streams on closed container"))
      ensures fmt.Some? ==> streams == Discover(old(streams), fmt.value, decodable, makeErrors).streams
      ensures fmt.Some? && Discover(old(streams), fmt.value, decodable, makeErrors).outcome.Fail? ==>
        r == Err(Discover(old(streams), fmt.value, decodable, makeErrors).outcome.exc)
      ensures r.Ok? <==> fmt.Some? && Discover(old(streams), fmt.value, decodable, makeErrors).outcome.Pass?
      ensures r.Ok? ==> r.value == |streams| && (|old(streams)| <= |fmt.value.slots| ==> |streams| == |fmt.value.slots|)
      ensures r.Err? ==> r.exc.RuntimeError?
    {
      var o := DoSetupStreams();
      if o.Fail? {
        return Err(o.exc);
      }
      r := Ok(|streams|);
    }

    /** Container::getStream: a negative index is an InvalidArgument before
        any setup; a failed setup's RuntimeError is passed on; after setup an
        index past the end is an InvalidArgument; otherwise the entry at that
        index, whose own index it is. */
    method GetStream(index: Int32) returns (r: Result<Stream>)
      requires Valid()
      modifies this`streams
      ensures Valid()
      ensures index < 0 ==> r == Err(InvalidArgument("index must be >= 0")) && streams == old(streams)
      ensures index >= 0 && fmt.None? ==>
        r == Err(RuntimeError("setup streams on closed container")) && streams == old(streams)
      ensures index >= 0 && fmt.Some? ==> streams == Discover(old(streams), fmt.value, decodable, makeErrors).streams
      ensures index >= 0 && fmt.Some? && Discover(old(streams), fmt.value, decodable, makeErrors).outcome.Fail? ==>
        r == Err(Discover(old(streams), fmt.value, decodable, makeErrors).outcome.exc) && r.exc.RuntimeError?
      ensures r.Ok? <==> 0 <= index < |streams| && fmt.Some? && Discover(old(streams), fmt.value, decodable, makeErrors).outcome.Pass?
      ensures r.Ok? ==> r.value == streams[index] && r.value.index == index
      ensures index >= 0 && fmt.Some? && Discover(old(streams), fmt.value, decodable, makeErrors).outcome.Pass? && index >= |streams| ==>
        r == Err(InvalidArgument("index must be < #getNumStreams()"))
    {
      if index < 0 {
        return Err(InvalidArgument("index must be >= 0"));
      }
      var o := DoSetupStreams();
      if o.Fail? {
        return Err(o.exc);
      }
      if index >= |streams| {
        return Err(InvalidArgument("index must be < #getNumStreams()"));
      }
      r := Ok(streams[index]);
    }

    /** Container::Stream::getCoder for entry `s`: a null format context is a
        RuntimeError, and so is a stream without a coder in an output
        container; otherwise the bound coder, which may be null. (The
        stream's own native pointer was checked non-null when the entry was
        made.) */
    function GetCoder(s: Stream): (r: Result<Option<Decoder>>)
      reads this
      ensures r.Err? <==> fmt.None? || (s.coder.None? && fmt.value.output)
      ensures r.Err? ==> r.exc.RuntimeError?
      ensures r.Ok? ==> r.value == s.coder
    {
      if fmt.None? then Err(RuntimeError("could not get container context to find coder"))
      else if s.coder.None? && fmt.value.output then Err(RuntimeError("null encoder on muxer stream"))
      else Ok(s.coder)
    }

    /** Container::~Container: pop and delete entries from the back until the
        list is empty; `deleted` is the entries in the order they go. */
    method Destroy() returns (deleted: seq<Stream>)
      modifies this`streams
      ensures streams == []
      ensures |deleted| == |old(streams)|
      ensures forall i :: 0 <= i < |deleted| ==> deleted[i] == old(streams)[|old(streams)| - 1 - i]
    {
      deleted := [];
      while |streams| > 0
        invariant |deleted| + |streams| == |old(streams)|
        invariant streams == old(streams)[..|streams|]
        invariant forall i :: 0 <= i < |deleted| ==> deleted[i] == old(streams)[|old(streams)| - 1 - i]
        decreases |streams|
      {
        var s := streams[|streams| - 1];
        streams := streams[..|streams| - 1];
        deleted := deleted + [s];
      }
    }
  }
}
