/** FilterGraph (FilterGraph.h): a graph's state machine and its two
    insertion-ordered endpoint lists, sinks (mSinks, where media enters the
    graph) and sources (mSources, where filtered media leaves it), whose
    names are unique across the graph. */
module FilterGraphs {
  import opened Base
  import Globals

  /** FilterGraph::State. */
  datatype State = Inited | Opened | Error

  /** An endpoint added to the graph, with the parameters it was made
      with; time bases and aspect ratios are the effective ones, after the
      defaults for null arguments are applied. */
  datatype Endpoint =
    | AudioSink(name: string, sampleRate: Int32, layout: int, sampleFormat: int, timeBase: Rational)
    | PictureSink(name: string, width: Int32, height: Int32, pixelFormat: int, timeBase: Rational, aspect: Rational)
    | AudioSource(name: string, sampleRate: Int32, layout: int, sampleFormat: int)
    | PictureSource(name: string, pixelFormat: int)
  {
    predicate IsSink() {
      AudioSink? || PictureSink?
    }
  }

  /** No two endpoints of a list share a name. */
  ghost predicate UniqueNames(eps: seq<Endpoint>) {
    forall i, j :: 0 <= i < j < |eps| ==> eps[i].name != eps[j].name
  }

  /** The names of a list's endpoints. */
  function NameSet(eps: seq<Endpoint>): set<string> {
    set e | e in eps :: e.name
  }

  /** The position of the first endpoint called `name`, if any. */
  function IndexOfName(eps: seq<Endpoint>, name: string): (r: Option<nat>)
    ensures r.None? <==> forall i :: 0 <= i < |eps| ==> eps[i].name != name
    ensures r.Some? ==> r.value < |eps| && eps[r.value].name == name
    ensures r.Some? ==> forall i :: 0 <= i < r.value ==> eps[i].name != name
  {
    if |eps| == 0 then None
    else if eps[0].name == name then Some(0)
    else match IndexOfName(eps[1..], name)
      case None => None
      case Some(k) =>
        assert eps[k + 1] == eps[1..][k];
        Some(k + 1)
  }

  /** In a list with unique names, looking an endpoint's name up finds that
      endpoint's own position. */
  lemma IndexOfOwnName(eps: seq<Endpoint>, i: nat)
    requires UniqueNames(eps) && i < |eps|
    ensures IndexOfName(eps, eps[i].name) == Some(i)
  {
  }

  /** The libavfilter parse of a filter description: it failed with a
      native code, or it left these pad labels open on the description's
      inputs and outputs. */
  datatype Parse = ParseFailed(code: int) | Parsed(openInputs: set<string>, openOutputs: set<string>)

  /** The outcome of FilterGraph::open from INITED: a description that does
      not parse is an InvalidArgument; one that leaves any input or output
      unconnected (every open input must be a sink and every sink used,
      every open output a source and every source used) is a RuntimeError;
      then a failure to configure the graph (`configResult` < 0) is native. */
  function OpenOutcome(sinkNames: set<string>, sourceNames: set<string>, parse: Parse, configResult: int): (r: Outcome)
    ensures r.Pass? <==> parse.Parsed? && parse.openInputs == sinkNames && parse.openOutputs == sourceNames && configResult >= 0
    ensures parse.ParseFailed? ==> r == Fail(InvalidArgument("could not parse filter description"))
    ensures parse.Parsed? && (parse.openInputs != sinkNames || parse.openOutputs != sourceNames) ==>
      r == Fail(RuntimeError("filter graph has unconnected inputs or outputs"))
  {
    if parse.ParseFailed? then Fail(InvalidArgument("could not parse filter description"))
    else if parse.openInputs != sinkNames || parse.openOutputs != sourceNames then
      Fail(RuntimeError("filter graph has unconnected inputs or outputs"))
    else Check(configResult)
  }

  /** A graph with no sinks and no sources cannot be opened with a
      description that leaves the label "monkeybutt" open, and one that
      does not parse at all (there is no filter "polishTurd") fails with an
      InvalidArgument. */
  lemma BadFilterGraph(parse: Parse, configResult: int)
    requires parse.ParseFailed? || "monkeybutt" in parse.openInputs
    ensures OpenOutcome({}, {}, parse, configResult).Fail?
    ensures parse.ParseFailed? ==> OpenOutcome({}, {}, parse, configResult).exc.InvalidArgument?
  {
  }

  class FilterGraph {
    /** mState. */
    var state: State
    /** mSinks, in the order added. */
    var sinks: seq<Endpoint>
    /** mSources, in the order added. */
    var sources: seq<Endpoint>

    /** The object invariant: the lists hold the right kinds of endpoint and
        every name in the graph is used once. */
    ghost predicate Valid()
      reads this
    {
      (forall e :: e in sinks ==> e.IsSink())
      && (forall e :: e in sources ==> !e.IsSink())
      && UniqueNames(sinks) && UniqueNames(sources)
      && (forall i, j :: 0 <= i < |sinks| && 0 <= j < |sources| ==> sinks[i].name != sources[j].name)
    }

    /** FilterGraph::make. */
    constructor ()
      ensures Valid()
      ensures state == Inited && sinks == [] && sources == []
    {
      state := Inited;
      sinks := [];
      sources := [];
    }

    /** FilterGraph::getState. */
    function GetState(): (r: State)
      reads this
      ensures r == state
    {
      state
    }

    /** No endpoint of the graph is called `name`. */
    predicate NameFree(name: string)
      reads this
    {
      (forall e :: e in sinks ==> e.name != name) && (forall e :: e in sources ==> e.name != name)
    }

    /** The checks every add* makes before it appends: an opened or failed
        graph takes no more endpoints (RuntimeError); a null name is an
        InvalidArgument; a name already in the graph a RuntimeError; and
        arguments the native filter refuses (`nativeResult` < 0) an
        InvalidArgument. */
    function Admit(name: Option<string>, nativeResult: int): (r: Result<string>)
      reads this
      ensures r.Ok? <==> state == Inited && name.Some? && NameFree(name.value) && nativeResult >= 0
      ensures r.Ok? ==> r.value == name.value
      ensures state != Inited ==> r == Err(RuntimeError("graph is not in INITED state"))
      ensures state == Inited && name.None? ==> r == Err(InvalidArgument("name cannot be null"))
      ensures state == Inited && name.Some? && !NameFree(name.value) ==> r == Err(RuntimeError("name already in graph"))
      ensures r.Err? && nativeResult >= 0 ==> !r.exc.InvalidArgument? || name.None?
      ensures state == Inited && name.Some? && NameFree(name.value) && nativeResult < 0 ==>
        r == Err(InvalidArgument("invalid argument"))
    {
      if state != Inited then Err(RuntimeError("graph is not in INITED state"))
      else if name.None? then Err(InvalidArgument("name cannot be null"))
      else if !NameFree(name.value) then Err(RuntimeError("name already in graph"))
      else if nativeResult < 0 then Err(InvalidArgument("invalid argument"))
      else Ok(name.value)
    }

    /** FilterGraph::addAudioSink: a null time base means 1/sampleRate. */
    method AddAudioSink(name: Option<string>, sampleRate: Int32, layout: int, sampleFormat: int,
                        timeBase: Option<Rational>, nativeResult: int) returns (r: Result<Endpoint>)
      requires Valid()
      modifies this`sinks
      ensures Valid() && sources == old(sources)
      ensures var a := old(Admit(name, nativeResult));
        (if a.Err? then r == Err(a.exc) && sinks == old(sinks)
        else (r.Ok? && sinks == old(sinks) + [r.value]
              && r.value == AudioSink(a.value, sampleRate, layout, sampleFormat,
                                      if timeBase.Some? then timeBase.value else Rational(1, sampleRate))))
    {
      var a := Admit(name, nativeResult);
      if a.Err? {
        return Err(a.exc);
      }
      var e := AudioSink(a.value, sampleRate, layout, sampleFormat,
                         if timeBase.Some? then timeBase.value else Rational(1, sampleRate));
      AddSink(e);
      r := Ok(e);
    }

    /** FilterGraph::addPictureSink: a null time base means
        1/DEFAULT_PTS_PER_SECOND and a null pixel aspect ratio 1/1. */
    method AddPictureSink(name: Option<string>, width: Int32, height: Int32, pixelFormat: int,
                          timeBase: Option<Rational>, aspect: Option<Rational>, nativeResult: int) returns (r: Result<Endpoint>)
      requires Valid()
      modifies this`sinks
      ensures Valid() && sources == old(sources)
      ensures var a := old(Admit(name, nativeResult));
        (if a.Err? then r == Err(a.exc) && sinks == old(sinks)
        else (r.Ok? && sinks == old(sinks) + [r.value]
              && r.value == PictureSink(a.value, width, height, pixelFormat,
                                        if timeBase.Some? then timeBase.value else Rational(1, Globals.DEFAULT_PTS_PER_SECOND),
                                        if aspect.Some? then aspect.value else Rational(1, 1))))
    {
      var a := Admit(name, nativeResult);
      if a.Err? {
        return Err(a.exc);
      }
      var e := PictureSink(a.value, width, height, pixelFormat,
                           if timeBase.Some? then timeBase.value else Rational(1, Globals.DEFAULT_PTS_PER_SECOND),
                           if aspect.Some? then aspect.value else Rational(1, 1));
      AddSink(e);
      r := Ok(e);
    }

    /** FilterGraph::addAudioSource. */
    method AddAudioSource(name: Option<string>, sampleRate: Int32, layout: int, sampleFormat: int,
                          nativeResult: int) returns (r: Result<Endpoint>)
      requires Valid()
      modifies this`sources
      ensures Valid() && sinks == old(sinks)
      ensures var a := old(Admit(name, nativeResult));
        (if a.Err? then r == Err(a.exc) && sources == old(sources)
        else r == Ok(AudioSource(a.value, sampleRate, layout, sampleFormat)) && sources == old(sources) + [r.value])
    {
      var a := Admit(name, nativeResult);
      if a.Err? {
        return Err(a.exc);
      }
      var e := AudioSource(a.value, sampleRate, layout, sampleFormat);
      AddSource(e);
      r := Ok(e);
    }

    /** FilterGraph::addPictureSource. */
    method AddPictureSource(name: Option<string>, pixelFormat: int, nativeResult: int) returns (r: Result<Endpoint>)
      requires Valid()
      modifies this`sources
      ensures Valid() && sinks == old(sinks)
      ensures var a := old(Admit(name, nativeResult));
        (if a.Err? then r == Err(a.exc) && sources == old(sources)
        else r == Ok(PictureSource(a.value, pixelFormat)) && sources == old(sources) + [r.value])
    {
      var a := Admit(name, nativeResult);
      if a.Err? {
        return Err(a.exc);
      }
      var e := PictureSource(a.value, pixelFormat);
      AddSource(e);
      r := Ok(e);
    }

    /** FilterGraph::addSink: append a sink whose name is free. */
    method AddSink(e: Endpoint)
      requires Valid() && e.IsSink() && NameFree(e.name)
      modifies this`sinks
      ensures Valid() && sinks == old(sinks) + [e]
    {
      sinks := sinks + [e];
    }

    /** FilterGraph::addSource: append a source whose name is free. */
    method AddSource(e: Endpoint)
      requires Valid() && !e.IsSink() && NameFree(e.name)
      modifies this`sources
      ensures Valid() && sources == old(sources) + [e]
    {
      sources := sources + [e];
    }

    /** FilterGraph::getNumSinks. */
    function GetNumSinks(): (r: int)
      reads this
      ensures 0 <= r && r == |sinks|
    {
      |sinks|
    }

    /** FilterGraph::getNumSources. */
    function GetNumSources(): (r: int)
      reads this
      ensures 0 <= r && r == |sources|
    {
      |sources|
    }

    /** FilterGraph::getSink(int32_t): the index-th sink added, or an
        InvalidArgument when index < 0 or index >= getNumSinks(). */
    function GetSink(index: Int32): (r: Result<Endpoint>)
      reads this
      ensures r.Err? <==> index < 0 || index >= GetNumSinks()
      ensures r.Err? ==> r.exc.InvalidArgument?
      ensures r.Ok? ==> r.value == sinks[index]
    {
      if index < 0 || index >= |sinks| then Err(InvalidArgument("index must be >= 0 and < #getNumSinks()"))
      else Ok(sinks[index])
    }

    /** FilterGraph::getSource(int32_t): the index-th source added, or an
        InvalidArgument when index < 0 or index >= getNumSources(). */
    function GetSource(index: Int32): (r: Result<Endpoint>)
      reads this
      ensures r.Err? <==> index < 0 || index >= GetNumSources()
      ensures r.Err? ==> r.exc.InvalidArgument?
      ensures r.Ok? ==> r.value == sources[index]
    {
      if index < 0 || index >= |sources| then Err(InvalidArgument("index must be >= 0 and < #getNumSources()"))
      else Ok(sources[index])
    }

    /** FilterGraph::getSink(const char*): the sink with that name, or a
        PropertyNotFound when no sink has it. */
    function GetSinkByName(name: string): (r: Result<Endpoint>)
      reads this
      ensures r.Err? <==> forall e :: e in sinks ==> e.name != name
      ensures r.Err? ==> r.exc.PropertyNotFound?
      ensures r.Ok? ==> r.value in sinks && r.value.name == name
    {
      match IndexOfName(sinks, name)
      case None => Err(PropertyNotFound("no sink with that name"))
      case Some(i) => Ok(sinks[i])
    }

    /** FilterGraph::getSource(const char*): the source with that name, or a
        PropertyNotFound when no source has it. */
    function GetSourceByName(name: string): (r: Result<Endpoint>)
      reads this
      ensures r.Err? <==> forall e :: e in sources ==> e.name != name
      ensures r.Err? ==> r.exc.PropertyNotFound?
      ensures r.Ok? ==> r.value in sources && r.value.name == name
    {
      match IndexOfName(sources, name)
      case None => Err(PropertyNotFound("no source with that name"))
      case Some(i) => Ok(sources[i])
    }

    /** In a valid graph, looking up the name of the i-th sink by name
        gives back exactly the i-th sink (GetSink(i)), and likewise for
        sources. */
    lemma LookupByNameInverse(i: Int32)
      requires Valid()
      ensures 0 <= i < |sinks| ==> GetSinkByName(sinks[i].name) == GetSink(i)
      ensures 0 <= i < |sources| ==> GetSourceByName(sources[i].name) == GetSource(i)
    {
      if 0 <= i < |sinks| {
        IndexOfOwnName(sinks, i as nat);
      }
      if 0 <= i < |sources| {
        IndexOfOwnName(sources, i as nat);
      }
    }

    /** FilterGraph::open: outside INITED a RuntimeError that changes
        nothing; otherwise the outcome OpenOutcome gives, with the graph
        OPENED on success and ERROR on failure. */
    method Open(parse: Parse, configResult: int) returns (r: Outcome)
      modifies this`state
      ensures old(state) != Inited ==> r == Fail(RuntimeError("graph is not in INITED state")) && state == old(state)
      ensures old(state) == Inited ==> r == OpenOutcome(NameSet(sinks), NameSet(sources), parse, configResult)
      ensures old(state) == Inited ==> state == if r.Pass? then Opened else Error
    {
      if state != Inited {
        return Fail(RuntimeError("graph is not in INITED state"));
      }
      r := OpenOutcome(NameSet(sinks), NameSet(sources), parse, configResult);
      state := if r.Pass? then Opened else Error;
    }
  }
}
