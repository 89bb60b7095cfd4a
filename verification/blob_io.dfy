/**
 * Moving blobs across the Python boundary: `fetch_blob` picks the fetcher
 * registered for the blob's type id or falls back to a descriptive string,
 * and `feed_blob` stores a NumPy array through the feeder of a device type
 * or a Python string directly. Both dereference the current pointer without
 * a null check.
 */
module BlobIO {
  import opened Wrappers
  import opened TypeTables
  import opened Workspaces
  import opened WorkspaceRegistry

  /** What a fetch hands back to Python. */
  datatype PyObject =
    | PyStr(s: string)                        // a Python string
    | Converted(fetcher: TypeId, blob: Blob)  // what the fetcher registered under `fetcher` made of `blob`

  /**
   * A registered fetcher: the string fetcher, whose body is known, or a
   * fetcher whose body is not part of this model and that either raises or
   * converts the blob.
   */
  datatype Fetcher = StringFetcher | NativeFetcher(raises: bool)

  /** The fetcher registry, keyed by type id. */
  type Fetchers = map<TypeId, Fetcher>

  /**
   * The fetchers registered in the binding layer itself: the tensor fetcher
   * for CPU tensors and the string fetcher for strings.
   */
  function BuiltinFetchers(tensorFetcherRaises: bool): (f: Fetchers) {
    map[TensorCPU := NativeFetcher(tensorFetcherRaises), StdString := StringFetcher]
  }

  /** The string fetcher reads the blob as a string, which fails unless it holds one. */
  function StringFetch(b: Blob): (r: Result<PyObject, Error>)
    ensures r.Success? <==> b.Str?
    ensures r.Success? ==> r.value == PyStr(b.s)
    ensures r.Failure? ==> r.error == TypeMismatch
  {
    match b
    case Str(s) => Success(PyStr(s))
    case _ => Failure(TypeMismatch)
  }

  /** Whether the fetcher registered under the blob's type, if any, returns. */
  predicate FetchSucceeds(fetchers: Fetchers, b: Blob) {
    TypeOf(b) in fetchers ==>
      match fetchers[TypeOf(b)]
      case StringFetcher => b.Str?
      case NativeFetcher(raises) => !raises
  }

  /** The text returned for a blob whose type has no fetcher. */
  function Describe(name: string, typeName: string): (text: string) {
    name + ", a C++ native class of type " + typeName + "."
  }

  /**
   * Fetches the named blob of the current workspace. `typeName` gives the
   * printable name of a type.
   */
  function FetchBlob(st: Registry, name: string, fetchers: Fetchers, typeName: TypeId -> string): (r: Result<PyObject, Error>)
    ensures r.Success? <==>
      && CheckedCurrent(st).Success?
      && name in CheckedCurrent(st).value.blobs
      && FetchSucceeds(fetchers, CheckedCurrent(st).value.blobs[name])
    ensures st.current.None? ==> r == Failure(NullWorkspace)
    ensures st.current.Some? && CheckedCurrent(st).Failure? ==> r == Failure(CheckedCurrent(st).error)
    ensures CheckedCurrent(st).Success? && name !in CheckedCurrent(st).value.blobs ==>
      r == Failure(BlobMissing(name))
    ensures CheckedCurrent(st).Success? && name in CheckedCurrent(st).value.blobs ==>
      var b := CheckedCurrent(st).value.blobs[name];
      && (TypeOf(b) !in fetchers ==> r == Success(PyStr(Describe(name, typeName(TypeOf(b))))))
      && (TypeOf(b) in fetchers && fetchers[TypeOf(b)] == StringFetcher ==>
            if b.Str? then r == Success(PyStr(b.s)) else r == Failure(TypeMismatch))
      && (TypeOf(b) in fetchers && fetchers[TypeOf(b)] == NativeFetcher(false) ==>
            r == Success(Converted(TypeOf(b), b)))
      && (TypeOf(b) in fetchers && fetchers[TypeOf(b)] == NativeFetcher(true) ==>
            r == Failure(FetcherFailed))
  {
    var w :- UncheckedCurrent(st);
    if name !in w.blobs then Failure(BlobMissing(name))
    else
      var b := w.blobs[name];
      if TypeOf(b) !in fetchers then Success(PyStr(Describe(name, typeName(TypeOf(b)))))
      else match fetchers[TypeOf(b)]
        case StringFetcher => StringFetch(b)
        case NativeFetcher(raises) =>
          if raises then Failure(FetcherFailed) else Success(Converted(TypeOf(b), b))
  }

  /** Device types of a `DeviceOption`; a default-constructed option names the CPU. */
  datatype DeviceType = Cpu | Cuda | OtherDevice(code: int)

  /** The optional serialized device option of a feed, and whether it parsed. */
  datatype DeviceOptionArg = NoDeviceOption | Serialized(parsed: Option<DeviceType>)

  /** The Python object handed to a feed. */
  datatype FeedArg = NumpyArray | PyString(s: string) | OtherObject

  /**
   * The feeder registry, keyed by device type. A feeder either leaves a
   * blob of the given type behind (`Some`) or raises (`None`).
   */
  type Feeders = map<DeviceType, Option<NativeType>>

  /** The feeders registered in the binding layer itself: the tensor feeder for the CPU. */
  function BuiltinFeeders(cpuFeederRaises: bool): (f: Feeders) {
    map[Cpu := if cpuFeederRaises then None else Some(TensorCPU)]
  }

  /** The device type a feed goes to: the parsed option's, or the CPU by default. */
  function DeviceOf(option: DeviceOptionArg): (d: DeviceType) {
    match option
    case Serialized(Some(d)) => d
    case _ => Cpu
  }

  /** Whether a feed of `arg` returns, given a parsed option and a reachable workspace. */
  predicate FeedAccepted(arg: FeedArg, option: DeviceOptionArg, feeders: Feeders) {
    || arg.PyString?
    || (arg.NumpyArray? && DeviceOf(option) in feeders && feeders[DeviceOf(option)].Some?)
  }

  /**
   * Feeds the named blob of the current workspace. A device option that does
   * not parse fails before anything changes; otherwise the blob is created
   * first, and stays created even when the argument or the feeder then
   * raises.
   */
  function FeedBlob(st: Registry, name: string, arg: FeedArg, option: DeviceOptionArg,
                    feeders: Feeders): (r: Step<bool>)
    ensures r.result.Success? <==>
      && !(option.Serialized? && option.parsed.None?)
      && CheckedCurrent(st).Success?
      && FeedAccepted(arg, option, feeders)
    ensures option.Serialized? && option.parsed.None? ==>
      r.state == st && r.result == Failure(BadDeviceOption)
    ensures CheckedCurrent(st).Failure? ==> r.state == st && r.result.Failure?
    ensures !(option.Serialized? && option.parsed.None?) && st.current.None? ==>
      r.result == Failure(NullWorkspace)
    ensures !(option.Serialized? && option.parsed.None?) && st.current.Some? && CheckedCurrent(st).Failure? ==>
      r.result == Failure(CheckedCurrent(st).error)
    ensures !(option.Serialized? && option.parsed.None?) && CheckedCurrent(st).Success? ==>
      && (arg.NumpyArray? && DeviceOf(option) !in feeders ==> r.result == Failure(UnknownDevice))
      && (arg.NumpyArray? && DeviceOf(option) in feeders && feeders[DeviceOf(option)].None? ==>
            r.result == Failure(FeederFailed))
      && (arg.OtherObject? ==> r.result == Failure(UnsupportedArgument))
    ensures !(option.Serialized? && option.parsed.None?) && CheckedCurrent(st).Success? && r.result.Failure? ==>
      r.state == UpdateCurrent(st, Workspaces.CreateBlob(CheckedCurrent(st).value, name))
    ensures r.result.Failure? && r.state != st ==>
      && CheckedCurrent(st).Success?
      && CheckedCurrent(r.state) == Success(Workspaces.CreateBlob(CheckedCurrent(st).value, name))
    ensures r.result.Success? ==> r.result.value
    ensures r.state.current == st.current && r.state.currentName == st.currentName
    ensures r.state.initialized == st.initialized
    ensures r.state.workspaces.Keys == st.workspaces.Keys
    ensures forall n :: n in st.workspaces && Some(n) != st.current ==>
      r.state.workspaces[n] == st.workspaces[n]
    ensures r.state != st ==>
      && CheckedCurrent(st).Success?
      && var before := CheckedCurrent(st).value;
         var after := CheckedCurrent(r.state).value;
         && after.blobs.Keys == before.blobs.Keys + {name}
         && after.rootFolder == before.rootFolder
         && forall n :: n in before.blobs && n != name ==> after.blobs[n] == before.blobs[n]
    ensures r.result.Success? ==>
      && CheckedCurrent(r.state).Success?
      && name in CheckedCurrent(r.state).value.blobs
      && CheckedCurrent(r.state).value.blobs[name]
         == if arg.PyString? then Str(arg.s) else Native(feeders[DeviceOf(option)].value)
  {
    if option.Serialized? && option.parsed.None? then Step(st, Failure(BadDeviceOption))
    else match UncheckedCurrent(st)
      case Failure(e) => Step(st, Failure(e))
      case Success(w) =>
        var created := Workspaces.CreateBlob(w, name);
        match arg
        case NumpyArray =>
          var device := DeviceOf(option);
          if device !in feeders then Step(UpdateCurrent(st, created), Failure(UnknownDevice))
          else (match feeders[device]
            case None => Step(UpdateCurrent(st, created), Failure(FeederFailed))
            case Some(t) => Step(UpdateCurrent(st, SetBlob(created, name, Native(t))), Success(true)))
        case PyString(s) => Step(UpdateCurrent(st, SetBlob(created, name, Str(s))), Success(true))
        case OtherObject => Step(UpdateCurrent(st, created), Failure(UnsupportedArgument))
  }

  /** A string fed under a name is fetched back unchanged when strings have the string fetcher. */
  lemma FeedThenFetchString(st: Registry, name: string, s: string, option: DeviceOptionArg,
                            feeders: Feeders, fetchers: Fetchers, typeName: TypeId -> string)
    requires StdString in fetchers && fetchers[StdString] == StringFetcher
    requires FeedBlob(st, name, PyString(s), option, feeders).result.Success?
    ensures FetchBlob(FeedBlob(st, name, PyString(s), option, feeders).state, name, fetchers, typeName)
         == Success(PyStr(s))
  {
  }

  /**
   * With the built-in registries, an array fed with no device option goes to
   * the CPU feeder, leaves a CPU tensor, and fetching it hands the tensor to
   * the tensor fetcher.
   */
  lemma FeedThenFetchArray(st: Registry, name: string, typeName: TypeId -> string)
    requires CheckedCurrent(st).Success?
    ensures FeedBlob(st, name, NumpyArray, NoDeviceOption, BuiltinFeeders(false)).result == Success(true)
    ensures FetchBlob(FeedBlob(st, name, NumpyArray, NoDeviceOption, BuiltinFeeders(false)).state,
                      name, BuiltinFetchers(false), typeName)
         == Success(Converted(TensorCPU, Native(TensorCPU)))
    ensures FeedBlob(st, name, NumpyArray, NoDeviceOption, BuiltinFeeders(true)).result == Failure(FeederFailed)
  {
  }

  /**
   * A feed rejected for its argument still leaves the blob created: the
   * failure does not undo the creation that preceded it.
   */
  lemma RejectedFeedKeepsBlob(st: Registry, name: string, option: DeviceOptionArg, feeders: Feeders)
    requires CheckedCurrent(st).Success?
    requires !(option.Serialized? && option.parsed.None?)
    ensures FeedBlob(st, name, OtherObject, option, feeders).result == Failure(UnsupportedArgument)
    ensures HasBlob(FeedBlob(st, name, OtherObject, option, feeders).state, name) == Success(true)
  {
  }
}
