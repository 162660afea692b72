# humble-video bookkeeping, modelled in Dafny

humble-video wraps FFmpeg's libavcodec, libavformat and libavfilter behind
reference-counted C++ objects. Most of its code hands work to the native
libraries. What it decides for itself is bookkeeping:

- the life cycle of a Coder: its INITED, OPENED, FLUSHING and ERROR states, its flag words, time base and media parameters;
- the stream registry of a Container, grown lazily from the native stream count;
- the state machine of a Muxer;
- the endpoint registry and state of a FilterGraph;
- the process-wide logging level and log callback in Global;
- the range checks of MediaSubtitle and the reference count of MediaSubtitleRectangle;
- the result classification of FilterSink::sendRaw.

This project models that bookkeeping and proves what it promises.

Every call into FFmpeg becomes a parameter that carries its return code or its
answer, such as "the allocation returned null" or "the parse left these pads
open". The contracts hold for every value these parameters can take; native
behaviour no parameter expresses is listed under "## Left out". C++
exceptions become `Outcome` and `Result` values, and `Base.Exception` names the
exception kind: InvalidArgument, RuntimeError, PropertyNotFound, or an
FfmpegException carrying the native code. Objects whose fields the source
updates in place are Dafny classes: `Coder`, `Container`, `Muxer`,
`FilterGraph`, the global `Runtime`, `MediaSubtitle` and
`MediaSubtitleRectangle`. Their methods carry `modifies` frames. Pure checks and
dispatches are functions.

Files, one module each:

- `base.dfy` (`Base`): the exception kinds, `Outcome`, `Result`, `Option`, `Int32`, `Rational` and `FfmpegException::check`.
- `coder.dfy` (`Coders`): `Coder.cpp`.
- `container.dfy` (`Containers`): `Container.cpp`.
- `muxer.dfy` (`Muxers`): `Muxer.h`.
- `filter_graph.dfy` (`FilterGraphs`): `FilterGraph.h`.
- `global.dfy` (`Globals`): `Global.cpp`.
- `media_subtitle.dfy` (`MediaSubtitles`): `MediaSubtitle.cpp`.
- `filter_sink.dfy` (`FilterSinks`): `FilterSink.cpp`.

Muxer.cpp and FilterGraph.cpp are not part of this model. Only their headers
are, so the Muxer and FilterGraph contracts come from the headers' doc
comments. Where a header is silent, the model assumes the following, and the
rows below that rely on it say "(assumed)":

- Muxer `open`, `close`, `addNewStream` and `write`, called in a state the
  header's state list does not allow, fail with a RuntimeError and change
  nothing.
- A native failure in Muxer `open`, `close`, `addNewStream` or `write` puts the
  muxer in ERROR.
- FilterGraph's `add*` methods and `open`, called once the graph has left
  INITED, fail with a RuntimeError and change nothing.

Two members follow their headers instead: Muxer `setOutputBufferLength`
outside INITED is ignored, and a FilterGraph `add*` whose arguments the native
filter refuses is an InvalidArgument that leaves the graph's state as it was.

Coder's `setMediaParameters` keeps the parameters' time base only in the
cached time base object (`mTimebase`). It does not write the time base into
the codec context. `getTimeBase` re-caches from the context whenever the two
differ. The model reproduces this as written: `Coder.SetMediaParameters`
leaves `ctx.timeBase` alone, and `Coder.GetTimeBase` returns the context's
value.

## Model

| member | source | states |
|---|---|---|
| Base.Check | humble-video-native/src/main/gnu/src/io/humble/video/Coder.cpp:304-308 | a native code throws, carrying the code, exactly when it is negative |
| Coders.CopyParameters | humble-video-native/src/main/gnu/src/io/humble/video/Coder.cpp:304 | copying parameters into a context sets every parameter field and leaves the flag words and time base as they were |
| Coders.Coder.Make | humble-video-native/src/main/gnu/src/io/humble/video/Coder.cpp:41-58 | a null context allocation or a failed parameter copy is a RuntimeError; otherwise a fresh coder in INITED with the copied parameters |
| Coders.Coder.constructor | humble-video-native/src/main/gnu/src/io/humble/video/Coder.cpp:41-58 | a new coder is in INITED with no cached time base |
| Coders.Coder.SetState | humble-video-native/src/main/gnu/src/io/humble/video/Coder.cpp:68-81 | the state becomes the one given |
| Coders.OpenResult | humble-video-native/src/main/gnu/src/io/humble/video/Coder.cpp:95-106 | open succeeds iff setting options, the pre-open check and opening the codec all succeed; the first failure, in that order, is the one thrown |
| Coders.Unrecognized | humble-video-native/src/main/gnu/src/io/humble/video/Coder.cpp:108-112 | the options handed back are exactly the input options nobody recognised, with their values |
| Coders.OptionSoftFail | humble-video-native/src/main/gnu/src/io/humble/video/Coder.cpp:83-121 | with one valid and one bogus option, open succeeds and only the bogus option comes back unset |
| Coders.Coder.Open | humble-video-native/src/main/gnu/src/io/humble/video/Coder.cpp:83-121 | without checking the current state: OPENED when every step succeeds, ERROR when any fails; the temporary dictionary is freed on both paths; the unset options come back only on success |
| Coders.Coder.GetTimeBase | humble-video-native/src/main/gnu/src/io/humble/video/Coder.cpp:124-129 | returns the context's time base and leaves the cache equal to it |
| Coders.Coder.SetTimeBase | humble-video-native/src/main/gnu/src/io/humble/video/Coder.cpp:131-140 | null is an InvalidArgument, checked first; outside INITED a RuntimeError and no change; otherwise the context and the cache hold exactly the num/den given, so a following GetTimeBase returns it |
| Coders.GetBuffer | humble-video-native/src/main/gnu/src/io/humble/video/Coder.cpp:142-152 | the coder's own allocator is used iff an owning coder is recorded and its codec has CAP_DR1; the default allocator in the other two cases |
| Coders.Coder.GetFrameSize | humble-video-native/src/main/gnu/src/io/humble/video/Coder.cpp:154-170 | a negative native value comes back unchanged; an audio codec reporting 0 or 1 reports 576; any other value comes back unchanged |
| Coders.Coder.EnsurePictureParamsMatch | humble-video-native/src/main/gnu/src/io/humble/video/Coder.cpp:172-187 | null passes; otherwise it passes iff width, height and pixel format all match, and the first mismatch in that order is the InvalidArgument raised |
| Coders.Coder.EnsureAudioParamsMatch | humble-video-native/src/main/gnu/src/io/humble/video/Coder.cpp:189-205 | null passes; otherwise it passes iff channels, sample rate and sample format all match, and the first mismatch in that order is the InvalidArgument raised |
| Coders.WithBits | humble-video-native/src/main/gnu/src/io/humble/video/Coder.cpp:239-246 | after `|= flag` or `&= ~flag` the bits of the flag are all set or all clear, and every other bit is unchanged |
| Coders.Coder.SetFlags | humble-video-native/src/main/gnu/src/io/humble/video/Coder.cpp:225-232 | outside INITED an InvalidArgument and no change; otherwise the first flag word becomes the value |
| Coders.Coder.SetFlag | humble-video-native/src/main/gnu/src/io/humble/video/Coder.cpp:233-247 | outside INITED an InvalidArgument and no change; otherwise getFlag(f) is f when set and 0 when cleared, and no bit outside f moves |
| Coders.Coder.SetFlags2 | humble-video-native/src/main/gnu/src/io/humble/video/Coder.cpp:248-255 | as SetFlags, on the second flag word |
| Coders.Coder.SetFlag2 | humble-video-native/src/main/gnu/src/io/humble/video/Coder.cpp:256-270 | as SetFlag, on the second flag word and getFlag2 |
| Coders.Coder.GetFlags | humble-video-native/src/main/gnu/src/io/humble/video/Coder.cpp:207-211 | the first flag word as the context holds it, so after SetFlags(v) it is v |
| Coders.Coder.GetFlag | humble-video-native/src/main/gnu/src/io/humble/video/Coder.cpp:212-215 | exactly the bits of the flag that are set in the first word; the flag itself iff all its bits are set, 0 iff none is |
| Coders.Coder.GetFlags2 | humble-video-native/src/main/gnu/src/io/humble/video/Coder.cpp:216-220 | the second flag word as the context holds it, so after SetFlags2(v) it is v |
| Coders.Coder.GetFlag2 | humble-video-native/src/main/gnu/src/io/humble/video/Coder.cpp:221-224 | as GetFlag, on the second flag word |
| Coders.Coder.SetMediaParameters | humble-video-native/src/main/gnu/src/io/humble/video/Coder.cpp:297-311 | outside INITED a RuntimeError and no change, then null is an InvalidArgument; a failed native copy puts the coder in ERROR; on success the context takes the parameters and the cache takes their time base |
| Containers.NewStream | humble-video-native/src/main/gnu/src/io/humble/video/Container.cpp:134-154 | the entry made for slot i has index i; in an input container it gets a decoder iff a decoding codec exists for its codec id and Decoder::make does not throw there; a missing codec is not an error |
| Containers.Discover | humble-video-native/src/main/gnu/src/io/humble/video/Container.cpp:127-165 | existing entries are kept, and only slots from the old length on get new entries; success leaves the list as long as the native one; the first null slot throws a RuntimeError and keeps the entries made before it; a slot whose Decoder::make throws keeps its coder-less entry, is the last one made, and its RuntimeError is thrown |
| Containers.IncrementalDiscovery | humble-video-native/src/main/gnu/src/io/humble/video/Container.cpp:127-137 | setting up, letting the native context grow, and setting up again gives the same list as one setup against the grown context, so nothing is rescanned |
| Containers.FailedDecoderNeverRetried | humble-video-native/src/main/gnu/src/io/humble/video/Container.cpp:130-147 | a slot whose Decoder::make threw keeps its entry without a coder in every later setup, even after the native context grows, so its stream never gets a decoder |
| Containers.Container.constructor | humble-video-native/src/main/gnu/src/io/humble/video/Container.cpp:37-39 | a new container has no stream entries |
| Containers.Container.DoSetupStreams | humble-video-native/src/main/gnu/src/io/humble/video/Container.cpp:120-165 | a null format context is a RuntimeError; otherwise the loop leaves exactly the list and outcome Discover gives, entry i keeping index i, and returns at the first null slot or failed decoder |
| Containers.Container.GetNumStreams | humble-video-native/src/main/gnu/src/io/humble/video/Container.cpp:179-184 | the list becomes the one the setup pass leaves; the count is returned iff setup succeeds, and then equals the native stream count; a failed setup, or a closed container, is its RuntimeError |
| Containers.Container.GetStream | humble-video-native/src/main/gnu/src/io/humble/video/Container.cpp:167-177 | a negative index is an InvalidArgument before setup; the list becomes the one setup leaves and a failed setup is its RuntimeError; an index at or past the length after setup is an InvalidArgument; otherwise the entry at that index |
| Containers.Container.GetCoder | humble-video-native/src/main/gnu/src/io/humble/video/Container.cpp:105-118 | a RuntimeError iff the container has no context, or it is an output container and no coder is bound; otherwise the bound coder |
| Containers.UrlRead | humble-video-native/src/main/gnu/src/io/humble/video/Container.cpp:54-66 | -1 when the handler is null or throws; otherwise the handler's result |
| Containers.UrlWrite | humble-video-native/src/main/gnu/src/io/humble/video/Container.cpp:67-80 | -1 when the handler is null or throws; otherwise the handler's result |
| Containers.UrlSeek | humble-video-native/src/main/gnu/src/io/humble/video/Container.cpp:81-93 | -1 when the handler is null or throws; otherwise the handler's result |
| Containers.Container.Destroy | humble-video-native/src/main/gnu/src/io/humble/video/Container.cpp:41-52 | every entry is deleted, from the back, and the list ends up empty |
| Muxers.ClosedIsFinal | humble-video-native/src/main/gnu/src/io/humble/video/Muxer.h:104-108 | in any trace of allowed steps, a closed muxer stays closed |
| Muxers.NeverBackToInited | humble-video-native/src/main/gnu/src/io/humble/video/Muxer.h:91-113 | once a muxer leaves INITED it never returns there |
| Muxers.LeavingInited | humble-video-native/src/main/gnu/src/io/humble/video/Muxer.h:93-97 | INITED moves only to OPENED or ERROR |
| Muxers.SendEncoded | humble-video-native/src/main/gnu/src/io/humble/video/Muxer.h:208-214 | a non-null media that is not a MediaPacket is a RuntimeError; otherwise the packet, or null, is forwarded to sendPacket |
| Muxers.Muxer.constructor | humble-video-native/src/main/gnu/src/io/humble/video/Muxer.h:91-97 | a new muxer is INITED, with no streams and a buffer length of 0 |
| Muxers.Muxer.GetState | humble-video-native/src/main/gnu/src/io/humble/video/Muxer.h:115-121 | the muxer's current state |
| Muxers.Muxer.GetNumStreams | humble-video-native/src/main/gnu/src/io/humble/video/Muxer.h:143-146 | the number of streams added, which AddNewStream raises by one per success |
| Muxers.Muxer.GetOutputBufferLength | humble-video-native/src/main/gnu/src/io/humble/video/Muxer.h:159-166 | the buffer length last accepted while INITED, 0 when none was |
| Muxers.Muxer.Open | humble-video-native/src/main/gnu/src/io/humble/video/Muxer.h:123-131 | from INITED it moves to OPENED with the I/O handle held, or to ERROR with no handle taken on failure; in any other state a RuntimeError and no change (assumed) |
| Muxers.Muxer.Close | humble-video-native/src/main/gnu/src/io/humble/video/Muxer.h:133-141 | from OPENED it moves to CLOSED, or to ERROR on failure, and releases the I/O handle either way; in any other state a RuntimeError (assumed) that releases nothing, so the handle is never freed twice |
| Muxers.Muxer.SetOutputBufferLength | humble-video-native/src/main/gnu/src/io/humble/video/Muxer.h:148-157 | a size of 0 or less is an InvalidArgument; once the muxer is open the call is ignored |
| Muxers.Muxer.AddNewStream | humble-video-native/src/main/gnu/src/io/humble/video/Muxer.h:168-181 | a null coder or one that is not open is an InvalidArgument; outside INITED a RuntimeError (assumed); a native failure puts the muxer in ERROR (assumed); otherwise the stream count grows by one and the new index is returned |
| Muxers.Muxer.Write | humble-video-native/src/main/gnu/src/io/humble/video/Muxer.h:189-205 | a null or incomplete packet is an InvalidArgument; outside OPENED, or for a stream the muxer lacks, a RuntimeError (assumed); a native failure puts the muxer in ERROR (assumed) and writes nothing; otherwise exactly this packet is appended to what was written and the result is the "all flushed" answer; the I/O handle is never touched |
| Muxers.Remux | humble-video-native/src/main/gnu/test/io/humble/video/MuxerTest.cpp:97-108 | when every native write succeeds, writing every packet read into an open muxer leaves it open, with exactly those packets written in order |
| FilterGraphs.IndexOfName | humble-video-native/src/main/gnu/src/io/humble/video/FilterGraph.h:180-184 | the position of the first endpoint with the name, or none iff no endpoint has it |
| FilterGraphs.IndexOfOwnName | humble-video-native/src/main/gnu/src/io/humble/video/FilterGraph.h:95-161 | when names are unique, looking up an endpoint's name finds that endpoint's own position |
| FilterGraphs.FilterGraph.constructor | humble-video-native/src/main/gnu/src/io/humble/video/FilterGraph.h:79-82 | a new graph is INITED with no sinks and no sources |
| FilterGraphs.FilterGraph.GetState | humble-video-native/src/main/gnu/src/io/humble/video/FilterGraph.h:280 | the graph's current state |
| FilterGraphs.FilterGraph.GetNumSinks | humble-video-native/src/main/gnu/src/io/humble/video/FilterGraph.h:168-171 | the number of sinks added so far |
| FilterGraphs.FilterGraph.GetNumSources | humble-video-native/src/main/gnu/src/io/humble/video/FilterGraph.h:186-189 | the number of sources added so far |
| FilterGraphs.FilterGraph.Admit | humble-video-native/src/main/gnu/src/io/humble/video/FilterGraph.h:95-161 | an endpoint is admitted iff the graph is INITED (assumed), the name is non-null and not yet in the graph, and the native filter accepts the arguments; a duplicate name is a RuntimeError and invalid arguments an InvalidArgument |
| FilterGraphs.FilterGraph.AddAudioSink | humble-video-native/src/main/gnu/src/io/humble/video/FilterGraph.h:95-113 | on admission it appends one audio sink, whose time base is 1/sampleRate when none is given; otherwise nothing changes; names stay unique |
| FilterGraphs.FilterGraph.AddPictureSink | humble-video-native/src/main/gnu/src/io/humble/video/FilterGraph.h:115-133 | on admission it appends one picture sink, whose time base is 1/DEFAULT_PTS_PER_SECOND and pixel aspect ratio 1/1 when none is given; otherwise nothing changes |
| FilterGraphs.FilterGraph.AddAudioSource | humble-video-native/src/main/gnu/src/io/humble/video/FilterGraph.h:135-150 | on admission it appends one audio source; otherwise nothing changes |
| FilterGraphs.FilterGraph.AddPictureSource | humble-video-native/src/main/gnu/src/io/humble/video/FilterGraph.h:152-161 | on admission it appends one picture source; otherwise nothing changes |
| FilterGraphs.FilterGraph.AddSink | humble-video-native/src/main/gnu/src/io/humble/video/FilterGraph.h:164 | appends to the sink list in insertion order, keeping names unique |
| FilterGraphs.FilterGraph.AddSource | humble-video-native/src/main/gnu/src/io/humble/video/FilterGraph.h:165 | appends to the source list in insertion order, keeping names unique |
| FilterGraphs.FilterGraph.GetSink | humble-video-native/src/main/gnu/src/io/humble/video/FilterGraph.h:168-178 | an InvalidArgument iff index < 0 or index >= getNumSinks(); otherwise the index-th sink added |
| FilterGraphs.FilterGraph.GetSource | humble-video-native/src/main/gnu/src/io/humble/video/FilterGraph.h:186-196 | an InvalidArgument iff index < 0 or index >= getNumSources(); otherwise the index-th source added |
| FilterGraphs.FilterGraph.GetSinkByName | humble-video-native/src/main/gnu/src/io/humble/video/FilterGraph.h:180-184 | a PropertyNotFound iff no sink has the name; otherwise a sink with that name |
| FilterGraphs.FilterGraph.GetSourceByName | humble-video-native/src/main/gnu/src/io/humble/video/FilterGraph.h:198-202 | a PropertyNotFound iff no source has the name; otherwise a source with that name |
| FilterGraphs.FilterGraph.LookupByNameInverse | humble-video-native/src/main/gnu/src/io/humble/video/FilterGraph.h:173-202 | in a valid graph, looking up the i-th endpoint by name gives the same answer as looking it up by index |
| FilterGraphs.OpenOutcome | humble-video-native/src/main/gnu/src/io/humble/video/FilterGraph.h:220-230 | open succeeds iff the description parses, its open inputs are exactly the sinks, its open outputs exactly the sources, and the native configuration succeeds; a parse failure is an InvalidArgument and an unconnected pad a RuntimeError |
| FilterGraphs.BadFilterGraph | humble-video-native/src/main/gnu/test/io/humble/video/FilterGraphTest.cpp:356-366 | on an empty graph, "[monkeybutt]polishTurd[goldturkey]" cannot open, and a parse failure gives an InvalidArgument |
| FilterGraphs.FilterGraph.Open | humble-video-native/src/main/gnu/src/io/humble/video/FilterGraph.h:220-230 | from INITED it moves to OPENED when OpenOutcome passes and to ERROR otherwise; in any other state a RuntimeError and no change (assumed) |
| Globals.LevelFloor | humble-video-native/src/main/gnu/src/io/humble/video/Global.cpp:215-236 | the installed level is the largest of PANIC..DEBUG not above the level asked for, QUIET below PANIC, and DEBUG at or above DEBUG |
| Globals.LevelFloorFixed | humble-video-native/src/main/gnu/src/io/humble/video/Global.cpp:215-236 | asking for a standard level installs that very level, and the rounding is idempotent |
| Globals.ShouldLog | humble-video-native/src/main/gnu/src/io/humble/video/Global.cpp:56-60 | a message passes iff logging is not below PANIC and its level is at most the current level; at QUIET nothing passes |
| Globals.FilterAfterSetLevel | humble-video-native/src/main/gnu/src/io/humble/video/Global.cpp:56-60 | after setFFmpegLoggingLevel(l), a message at a standard level passes the callback's filter iff l >= PANIC and the message level <= l |
| Globals.LoggerLevelFor | humble-video-native/src/main/gnu/src/io/humble/video/Global.cpp:70-80 | ERROR iff level <= AV_LOG_ERROR, WARN iff ERROR < level <= WARNING, INFO iff WARNING < level <= INFO, DEBUG iff INFO < level <= DEBUG, TRACE iff level > DEBUG |
| Globals.LoggerLevelMonotone | humble-video-native/src/main/gnu/src/io/humble/video/Global.cpp:70-80 | the mapping never makes a less severe FFmpeg level more severe, and WARNING, INFO, VERBOSE and DEBUG land in the WARN, INFO, DEBUG and DEBUG buckets |
| Globals.Revised | humble-video-native/src/main/gnu/src/io/humble/video/Global.cpp:82-93 | the revised message is a prefix of the "[item @ address] " prefix (when the context has a class) followed by the format; it is the whole text when that fits the 1024-byte buffer with its NUL, and otherwise its first 1023 characters |
| Globals.StripNewline | humble-video-native/src/main/gnu/src/io/humble/video/Global.cpp:94-99 | exactly one trailing newline is removed when there is one; otherwise the text is unchanged |
| Globals.StripOnlyOne | humble-video-native/src/main/gnu/src/io/humble/video/Global.cpp:94-99 | a message ending in two newlines keeps one |
| Globals.Runtime.constructor | humble-video-native/src/main/gnu/src/io/humble/video/Global.cpp:44 | before any call there is no global object and no callback |
| Globals.Runtime.Init | humble-video-native/src/main/gnu/src/io/humble/video/Global.cpp:116-125 | the first call installs the callback, sets the level to ERROR, initialises networking once and creates the global; every later call changes nothing |
| Globals.Runtime.SetFFmpegLoggingLevel | humble-video-native/src/main/gnu/src/io/humble/video/Global.cpp:215-236 | initialises the global as Init does (the first call installs the callback and starts networking once; later calls leave both alone), then the installed level is LevelFloor of the level asked for |
| Globals.Runtime.GetDefaultTimeBase | humble-video-native/src/main/gnu/src/io/humble/video/Global.cpp:238-244 | null iff there is no global yet; otherwise 1/1000000 |
| Globals.Runtime.LogCallback | humble-video-native/src/main/gnu/src/io/humble/video/Global.cpp:50-103 | a message is dropped when its level exceeds the current level or logging is off; otherwise the revised text, with one trailing newline cut in place, goes to the logger at the mapped level iff it is not empty |
| MediaSubtitles.AsInt32 | humble-video-native/src/main/gnu/src/io/humble/video/MediaSubtitle.cpp:61 | the `(int32_t)` cast of the unsigned rectangle count keeps counts below 2^31 and wraps larger ones negative |
| MediaSubtitles.SelectRectangle | humble-video-native/src/main/gnu/src/io/humble/video/MediaSubtitle.cpp:58-77 | an index outside 0..(int32_t)num_rects-1 is an InvalidArgument, checked before a null rects array (RuntimeError); then a null entry is the InvalidArgument "no context" of MediaSubtitleRectangle::make; otherwise the n-th rectangle |
| MediaSubtitles.HugeCountRefusesAll | humble-video-native/src/main/gnu/src/io/humble/video/MediaSubtitle.cpp:61-62 | a subtitle claiming 2^31 or more rectangles hands out none |
| MediaSubtitles.MediaSubtitle.constructor | humble-video-native/src/main/gnu/src/io/humble/video/MediaSubtitle.cpp:41-43 | a new subtitle has no context and is not complete |
| MediaSubtitles.MediaSubtitle.Make | humble-video-native/src/main/gnu/src/io/humble/video/MediaSubtitle.cpp:48-56 | a null context is an InvalidArgument; otherwise a fresh subtitle wrapping it |
| MediaSubtitles.MediaSubtitle.GetRectangle | humble-video-native/src/main/gnu/src/io/humble/video/MediaSubtitle.cpp:58-68 | fails exactly as SelectRectangle says, and otherwise wraps the chosen rectangle in a fresh object held once |
| MediaSubtitles.MediaSubtitle.LogMetadata | humble-video-native/src/main/gnu/src/io/humble/video/MediaSubtitle.cpp:99-103 | always a RuntimeError |
| MediaSubtitles.MediaSubtitleRectangle.constructor | humble-video-native/src/main/gnu/src/io/humble/video/MediaSubtitle.cpp:74-75 | a new rectangle wraps its context and is held once |
| MediaSubtitles.MediaSubtitleRectangle.Make | humble-video-native/src/main/gnu/src/io/humble/video/MediaSubtitle.cpp:70-77 | a null context is an InvalidArgument; otherwise a fresh rectangle wrapping it |
| MediaSubtitles.MediaSubtitleRectangle.GetPictureLinesize | humble-video-native/src/main/gnu/src/io/humble/video/MediaSubtitle.cpp:78-83 | an InvalidArgument iff the line is outside 0..3; otherwise linesize[line] |
| MediaSubtitles.MediaSubtitleRectangle.GetPictureData | humble-video-native/src/main/gnu/src/io/humble/video/MediaSubtitle.cpp:84-97 | the same line check; the reference count rises by one exactly when a buffer is returned, and is unchanged when buffer creation fails |
| FilterSinks.FrameOf | humble-video-native/src/main/gnu/src/io/humble/video/FilterSink.cpp:51-57 | the frame passed down is null exactly for null media |
| FilterSinks.SendRaw | humble-video-native/src/main/gnu/src/io/humble/video/FilterSink.cpp:47-63 | an incomplete media is an InvalidArgument before any native call; otherwise a native EOF, EAGAIN or non-negative code is returned unchanged, and any other code is raised |
| FilterSinks.FlushIsNullFrame | humble-video-native/src/main/gnu/src/io/humble/video/FilterSink.cpp:50-62 | null media is written as a null frame, and the wrapper itself never refuses it |
| FilterSinks.IncompleteNeverWritten | humble-video-native/src/main/gnu/src/io/humble/video/FilterSink.cpp:52-55 | for an incomplete media the outcome does not depend on the native writer |

## Left out

- Native FFmpeg work: codec opening, option setting, parameter copying, format I/O, filter creation, graph parsing and configuration, and av_buffersrc_write_frame. Each is a parameter carrying the native return code; where the native call's result matters (the options it recognised, the pads a parse left open) that result is a parameter too.
- Coders.CopyParameters: the copy writes every parameter field whatever the media type, where avcodec_parameters_to_context writes only the fields of the parameters' codec type (picture size and format for video, size for subtitles, sample format, channels, rate and frame size for audio). A copy that fails (`copyResult` < 0) is taken to leave the context as it was.
- Coders.Coder.Open: which options each native step recognises is given as the set `recognized`; the option values are not applied to the context.
- Coders.Coder.Open: the option dictionary is a live-dictionary count. Nothing models whether av_dict_copy produced a null dictionary.
- Coders.Coder.Make: `Codec::make` and the coder's destructor are not modelled.
- Coder::getMediaParameters allocates native parameters and builds a MediaParameters object. This is memory management, not bookkeeping.
- Frame allocation behind `prepareFrame` and `avcodec_default_get_buffer2`: only the dispatch decision is modelled, as `GetBuffer`.
- Containers.Container.GetCoder: the null-stream-context branch cannot be reached in the model. An entry is made only for a non-null native slot.
- Containers.UrlRead, Containers.UrlWrite, Containers.UrlSeek: the byte buffers and the handler's I/O are not modelled.
- Muxer.cpp and FilterGraph.cpp are not part of this model. Muxers.Muxer.Open, Muxers.Muxer.Close, Muxers.Muxer.AddNewStream, Muxers.Muxer.Write, FilterGraphs.FilterGraph.Admit and FilterGraphs.FilterGraph.Open rest on the assumptions listed at the top: a call in a state the header does not allow is a RuntimeError that changes nothing, and a Muxer native failure puts the muxer in ERROR.
- Muxers.Muxer.Open: whether a failed header write leaves an I/O handle open is not known without Muxer.cpp; the model takes none. A muxer that fails while OPENED keeps its handle, and its release at destruction is not modelled.
- Containers.Discover: which of Coder's two construction failures (context allocation or parameter copy) happens at a slot is the given message; the decoder's own setup is `Coders.Coder.Make`.
- Muxers.Muxer.AddNewStream: the header says only that most formats refuse new streams once open. The model refuses every addition outside INITED.
- Muxers.Muxer.Open: the option bags of open, timestamp stamping, interleaving and `getStream(position)` are not modelled. `forceInterleave` only selects the native writer.
- FilterGraphs.OpenOutcome: a parse failure is mapped to InvalidArgument, as the FilterGraph test expects. Dangling pads are a RuntimeError, as the header documents. The label matching is abstracted to sets of open pad labels.
- FilterGraph's `addFilter`, `getFilter`, `setAutoConvert`, `getAutoConvert`, `sendCommand`, `queueCommand` and `getDisplayString` are not modelled. They delegate to libavfilter and the last three take floating-point time stamps or return native strings.
- Globals.Runtime.LogCallback: the `%`-expansion of the format with its variable arguments, the logger's output and the lazy creation of the "org.ffmpeg" logger are not modelled. The item name and address are a given string.
- Global's lock and unlock, `avioInterruptCB`, `catchException`, `destroyStaticGlobal`, `deinit` and the version getters are not modelled. They are concurrency, JNI glue or constants.
- DEFAULT_PTS_PER_SECOND is declared in Global.h, which is not part of this model. The value 1000000 is taken from the library's documented microsecond time stamps.
- MediaSubtitles.MediaSubtitle.GetRectangle requires a context. A subtitle made without one would dereference null in the source.
- MediaSubtitles.MediaSubtitleRectangle.GetPictureData: the buffer's memory and its free function are not modelled. The buffer is identified by its plane and size.
- PixelFormat, ContainerFormat, MediaRaw and Decoder declarations are not modelled. They are lookup tables, thin accessors or declarations without code.
