/** The Muxer (Muxer.h): the write-side container's state machine, its
    stream registration, packet writing and the output buffer length. The
    header declares these members and documents their contracts; where it is
    silent, a call in the wrong state is a RuntimeError that changes nothing
    and a native failure puts the muxer in ERROR. */
module Muxers {
  import opened Base
  import Coders

  /** Muxer::State. */
  datatype State = Inited | Opened | Closed | Error

  /** The state changes the header allows: INITED goes only to OPENED or
      ERROR, OPENED only to CLOSED or ERROR; CLOSED and ERROR are final. */
  predicate Allowed(from: State, to: State) {
    from == to
    || (from == Inited && (to == Opened || to == Error))
    || (from == Opened && (to == Closed || to == Error))
  }

  /** A sequence of states the muxer passes through, each step allowed. */
  predicate Trace(ss: seq<State>) {
    forall i :: 0 < i < |ss| ==> Allowed(ss[i - 1], ss[i])
  }

  /** Once closed, a muxer stays closed: nothing can reopen it or add to it. */
  lemma {:induction false} ClosedIsFinal(ss: seq<State>, i: nat, j: nat)
    requires Trace(ss) && i <= j < |ss| && ss[i] == Closed
    ensures ss[j] == Closed
    decreases j - i
  {
    if i < j {
      assert Allowed(ss[i], ss[i + 1]);
      ClosedIsFinal(ss, i + 1, j);
    }
  }

  /** Once a muxer leaves INITED it never returns there, and the state it
      leaves INITED for is OPENED or ERROR. */
  lemma {:induction false} NeverBackToInited(ss: seq<State>, i: nat, j: nat)
    requires Trace(ss) && i <= j < |ss| && ss[i] != Inited
    ensures ss[j] != Inited
    decreases j - i
  {
    if i < j {
      assert Allowed(ss[i], ss[i + 1]);
      NeverBackToInited(ss, i + 1, j);
    }
  }

  /** The first state after INITED in a trace is OPENED or ERROR. */
  lemma LeavingInited(ss: seq<State>, i: nat)
    requires Trace(ss) && 0 < i < |ss| && ss[i - 1] == Inited && ss[i] != Inited
    ensures ss[i] == Opened || ss[i] == Error
  {
  }

  /** The native I/O handle mIOHandler: not yet opened, held while the muxer
      is open, released once. */
  datatype Handle = NoHandle | Held | Released

  /** A MediaPacket as the muxer sees it. */
  datatype Packet = Packet(complete: bool, streamIndex: int)

  /** A MediaEncoded: a MediaPacket or some other encoded media. */
  datatype Encoded = PacketMedia(packet: Packet) | OtherEncoded

  /** Muxer::sendEncoded: a non-null media that is not a MediaPacket is a
      RuntimeError; otherwise the packet, or null, is what goes on to
      sendPacket. */
  function SendEncoded(media: Option<Encoded>): (r: Result<Option<Packet>>)
    ensures r.Err? <==> media.Some? && media.value.OtherEncoded?
    ensures r.Err? ==> r.exc == RuntimeError("expected a MediaPacket object")
    ensures media.None? ==> r == Ok(None)
    ensures forall p :: media == Some(PacketMedia(p)) ==> r == Ok(Some(p))
  {
    match media
    case None => Ok(None)
    case Some(PacketMedia(p)) => Ok(Some(p))
    case Some(OtherEncoded) => Err(RuntimeError("expected a MediaPacket object"))
  }

  class Muxer {
    /** mState. */
    var state: State
    /** The coders of the native output streams, in the order added
        (the format context's streams; nb_streams is their number). */
    var streams: seq<Coders.Coder>
    /** mBufferLength: 0 lets FFmpeg choose. */
    var bufferLength: Int32
    /** mIOHandler. */
    var io: Handle
    /** The packets handed to the native writer, in order. */
    var written: seq<Packet>

    /** The object invariant: no I/O handle before the muxer is opened, the
        handle held while it is open, and released once it is closed. (A
        muxer in ERROR keeps whatever handle it had.) */
    ghost predicate Valid()
      reads this
    {
      (state == Inited ==> io == NoHandle)
      && (state == Opened ==> io == Held)
      && (state == Closed ==> io == Released)
    }

    constructor ()
      ensures Valid()
      ensures state == Inited && streams == [] && bufferLength == 0 && io == NoHandle && written == []
    {
      state := Inited;
      streams := [];
      bufferLength := 0;
      io := NoHandle;
      written := [];
    }

    /** Muxer::getState. */
    function GetState(): (r: State)
      reads this
      ensures r == state
    {
      state
    }

    /** Muxer::getNumStreams: the native context's stream count, one per
        stream added. */
    function GetNumStreams(): (r: int)
      reads this
      ensures 0 <= r && r == |streams|
    {
      |streams|
    }

    /** Muxer::getOutputBufferLength: the length last set while INITED, 0
        (FFmpeg chooses) if none was. */
    function GetOutputBufferLength(): (r: Int32)
      reads this
      ensures r == bufferLength
    {
      bufferLength
    }

    /** Muxer::open: from INITED, write the header (native code
        `nativeResult`): OPENED with the I/O handle held on success, ERROR
        with no handle taken on failure. In any other state a RuntimeError. */
    method Open(nativeResult: int) returns (r: Outcome)
      requires Valid()
      modifies this`state, this`io
      ensures Valid() && Allowed(old(state), state)
      ensures old(state) != Inited ==> r == Fail(RuntimeError("open in wrong state")) && state == old(state) && io == old(io)
      ensures old(state) == Inited ==> r == Check(nativeResult)
      ensures old(state) == Inited ==> state == (if r.Pass? then Opened else Error)
      ensures old(state) == Inited ==> io == (if r.Pass? then Held else NoHandle)
    {
      if state != Inited {
        return Fail(RuntimeError("open in wrong state"));
      }
      r := Check(nativeResult);
      if r.Pass? {
        state, io := Opened, Held;
      } else {
        state := Error;
      }
    }

    /** Muxer::close: from OPENED, write the trailer (native code
        `nativeResult`) and release the I/O handle on either outcome:
        CLOSED on success, ERROR on failure. In any other state a
        RuntimeError that releases nothing, so a second close cannot free
        the handle twice. */
    method Close(nativeResult: int) returns (r: Outcome)
      requires Valid()
      modifies this`state, this`io
      ensures Valid() && Allowed(old(state), state)
      ensures old(state) != Opened ==> r == Fail(RuntimeError("close in wrong state")) && state == old(state) && io == old(io)
      ensures old(state) == Opened ==> r == Check(nativeResult) && io == Released
      ensures old(state) == Opened ==> state == (if r.Pass? then Closed else Error)
    {
      if state != Opened {
        return Fail(RuntimeError("close in wrong state"));
      }
      r := Check(nativeResult);
      io := Released;
      state := if r.Pass? then Closed else Error;
    }

    /** Muxer::setOutputBufferLength: a size <= 0 is an InvalidArgument; once
        the muxer is no longer INITED the call is ignored. */
    method SetOutputBufferLength(size: Int32) returns (r: Outcome)
      modifies this`bufferLength
      ensures size <= 0 ==> r == Fail(InvalidArgument("size must be > 0"))
      ensures r.Pass? <==> size > 0
      ensures bufferLength == if size > 0 && state == Inited then size else old(bufferLength)
    {
      if size <= 0 {
        return Fail(InvalidArgument("size must be > 0"));
      }
      if state == Inited {
        bufferLength := size;
      }
      r := Pass;
    }

    /** Muxer::addNewStream: a null coder or one that is not open is an
        InvalidArgument; outside INITED a RuntimeError; a native failure
        (`nativeResult` < 0) puts the muxer in ERROR; otherwise the coder's
        stream is appended and its index returned. */
    method AddNewStream(coder: Coders.Coder?, nativeResult: int) returns (r: Result<int>)
      requires Valid()
      modifies this`state, this`streams
      ensures Valid() && Allowed(old(state), state)
      ensures coder == null ==> r == Err(InvalidArgument("coder cannot be null"))
      ensures coder != null && coder.state != Coders.Opened ==> r == Err(InvalidArgument("coder must be open"))
      ensures coder != null && coder.state == Coders.Opened && old(state) != Inited ==>
        r == Err(RuntimeError("add stream in wrong state"))
      ensures r.Ok? <==> coder != null && coder.state == Coders.Opened && old(state) == Inited && nativeResult >= 0
      ensures r.Ok? ==> r.value == |old(streams)| && streams == old(streams) + [coder] && state == old(state)
      ensures r.Err? ==> streams == old(streams)
      ensures r.Err? && r.exc.FfmpegError? ==> state == Error
      ensures r.Err? && !r.exc.FfmpegError? ==> state == old(state)
    {
      if coder == null {
        return Err(InvalidArgument("coder cannot be null"));
      }
      if coder.state != Coders.Opened {
        return Err(InvalidArgument("coder must be open"));
      }
      if state != Inited {
        return Err(RuntimeError("add stream in wrong state"));
      }
      if nativeResult < 0 {
        state := Error;
        return Err(FfmpegError(nativeResult));
      }
      r := Ok(|streams|);
      streams := streams + [coder];
    }

    /** Muxer::write: a null or incomplete packet is an InvalidArgument;
        outside OPENED, or for a stream index the muxer does not have, a
        RuntimeError; a native failure puts the muxer in ERROR; otherwise the
        packet is written and the result says whether all data is flushed.
        The I/O handle is left as it was.
        `forceInterleave` only selects the native writer. */
    method Write(packet: Option<Packet>, forceInterleave: bool, nativeResult: int, flushed: bool) returns (r: Result<bool>)
      requires Valid()
      modifies this`state, this`written
      ensures Valid() && Allowed(old(state), state)
      ensures packet.None? ==> r == Err(InvalidArgument("packet cannot be null"))
      ensures packet.Some? && !packet.value.complete ==> r == Err(InvalidArgument("packet must be complete"))
      ensures packet.Some? && packet.value.complete && old(state) != Opened ==> r == Err(RuntimeError("write in wrong state"))
      ensures r.Ok? <==> packet.Some? && packet.value.complete && old(state) == Opened
                         && 0 <= packet.value.streamIndex < |streams| && nativeResult >= 0
      ensures r.Ok? ==> r.value == flushed && written == old(written) + [packet.value] && state == old(state)
      ensures r.Err? ==> written == old(written)
      ensures r.Err? && r.exc.FfmpegError? ==> state == Error
      ensures !(r.Err? && r.exc.FfmpegError?) ==> state == old(state)
    {
      if packet.None? {
        return Err(InvalidArgument("packet cannot be null"));
      }
      if !packet.value.complete {
        return Err(InvalidArgument("packet must be complete"));
      }
      if state != Opened {
        return Err(RuntimeError("write in wrong state"));
      }
      if !(0 <= packet.value.streamIndex < |streams|) {
        return Err(RuntimeError("no stream for packet"));
      }
      if nativeResult < 0 {
        state := Error;
        return Err(FfmpegError(nativeResult));
      }
      written := written + [packet.value];
      r := Ok(flushed);
    }
  }

  /** The remux loop of a muxer test: every packet a demuxer reads is
      written, in order, into an open muxer that has a stream for it. When
      each native write succeeds the muxer stays open and has written
      exactly the packets read. */
  method Remux(m: Muxer, packets: seq<Packet>) returns (n: nat)
    requires m.Valid() && m.state == Opened && m.written == []
    requires forall p :: p in packets ==> p.complete && 0 <= p.streamIndex < |m.streams|
    modifies m`state, m`written
    ensures m.Valid() && m.state == Opened
    ensures m.written == packets && n == |packets|
  {
    n := 0;
    while n < |packets|
      invariant 0 <= n <= |packets|
      invariant m.Valid() && m.state == Opened
      invariant m.written == packets[..n]
    {
      var r := m.Write(Some(packets[n]), false, 0, true);
      assert packets[..n + 1] == packets[..n] + [packets[n]];
      n := n + 1;
    }
    assert packets[..n] == packets;
  }
}
