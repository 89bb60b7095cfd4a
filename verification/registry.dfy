/**
 * The process-wide workspace registry of the Python binding layer: a sorted
 * map from names to owned workspaces, a non-owning "current" pointer into
 * that map, the current name, and the run-once flag of module
 * initialisation. The current pointer is modelled as a key into the map, so
 * a pointer left dangling by a teardown shows up as a key the map misses.
 */
module WorkspaceRegistry {
  import opened Wrappers
  import opened Workspaces
  import StringOrder

  datatype Registry = Registry(
    workspaces: map<string, Workspace>,
    current: Option<string>,
    currentName: string,
    initialized: bool)

  /** The state before the module is initialised: no workspaces, a null pointer, an empty name. */
  const Initial: Registry := Registry(map[], None, "", false)

  /** The name module initialisation creates and selects. */
  const DefaultName: string := "default"

  /** What a failed call raises. */
  datatype Error =
    | WorkspaceMissing(name: string)   // switch to an absent name without creating it
    | NoCurrentWorkspace               // an enforced null check on the current pointer failed
    | NullWorkspace                    // the current pointer, unchecked, was null
    | DanglingWorkspace(name: string)  // the current pointer outlived its workspace
    | BlobMissing(name: string)
    | BadDeviceOption                  // the serialized device option did not parse
    | UnknownDevice                    // no feeder for the requested device type
    | UnsupportedArgument              // feed of something neither an array nor a string
    | TypeMismatch                     // a typed read of a blob holding another type
    | FetcherFailed                    // a registered fetcher raised
    | FeederFailed                     // a registered feeder raised

  /**
   * The registry after a call, with what the call returned or raised. A
   * raised error does not undo the changes made before it.
   */
  datatype Step<+T> = Step(state: Registry, result: Result<T, Error>)

  /** The current pointer refers to the entry under the current name. */
  ghost predicate Coherent(st: Registry) {
    st.current == Some(st.currentName) && st.currentName in st.workspaces
  }

  /** The current pointer, when set, is the key of the current name. */
  ghost predicate PointerTracksName(st: Registry) {
    st.current.Some? ==> st.current.value == st.currentName
  }

  /**
   * Makes `name` current, creating an empty workspace under it when it is
   * absent and `createIfMissing` holds, and failing without any change when
   * it is absent otherwise.
   */
  function Switch(st: Registry, name: string, createIfMissing: bool): (r: Step<()>)
    ensures r.result.Success? <==> name in st.workspaces || createIfMissing
    ensures r.result.Failure? ==> r.state == st && r.result.error == WorkspaceMissing(name)
    ensures r.result.Success? ==>
      && r.state.currentName == name
      && r.state.current == Some(name)
      && Coherent(r.state)
    ensures name in st.workspaces ==> r.state.workspaces == st.workspaces
    ensures name !in st.workspaces && createIfMissing ==>
      && r.state.workspaces.Keys == st.workspaces.Keys + {name}
      && r.state.workspaces[name] == Fresh(None)
      && forall n :: n in st.workspaces ==> r.state.workspaces[n] == st.workspaces[n]
    ensures r.state.initialized == st.initialized
  {
    if name in st.workspaces then
      Step(st.(currentName := name, current := Some(name)), Success(()))
    else if !createIfMissing then
      Step(st, Failure(WorkspaceMissing(name)))
    else
      var created := st.workspaces[name := Fresh(None)];
      Step(st.(workspaces := created, current := Some(name), currentName := name), Success(()))
  }

  /** The Python-facing switch, whose flag defaults to `None`, which means no creation. */
  function SwitchWorkspace(st: Registry, name: string, createIfMissing: Option<bool>): (r: Step<()>)
    ensures r.result.Success? <==> name in st.workspaces || createIfMissing == Some(true)
    ensures r.result.Failure? ==> r == Step(st, Failure(WorkspaceMissing(name)))
    ensures r.result.Success? ==> r.state.current == Some(name) && Coherent(r.state)
    ensures r.state.currentName == (if r.result.Success? then name else st.currentName)
    ensures r.state.initialized == st.initialized
    ensures name in st.workspaces ==> r.state.workspaces == st.workspaces
    ensures name !in st.workspaces && createIfMissing == Some(true) ==>
      && r.state.workspaces.Keys == st.workspaces.Keys + {name}
      && r.state.workspaces[name] == Fresh(None)
      && forall n :: n in st.workspaces ==> r.state.workspaces[n] == st.workspaces[n]
  {
    match createIfMissing
    case None => Switch(st, name, false)
    case Some(flag) => Switch(st, name, flag)
  }

  /**
   * An omitted create flag behaves as an explicit false: switching to an
   * absent name then raises and changes nothing.
   */
  lemma OmittedFlagMeansNoCreate(st: Registry, name: string)
    ensures SwitchWorkspace(st, name, None) == SwitchWorkspace(st, name, Some(false))
    ensures name !in st.workspaces ==>
      SwitchWorkspace(st, name, None) == Step(st, Failure(WorkspaceMissing(name)))
  {
  }

  /**
   * Replaces the workspace under the current name by a brand-new one with
   * the given root folder, inserting the name if it is absent, and points
   * the current pointer at it. The Python call then returns true.
   */
  function Reset(st: Registry, rootFolder: Option<string>): (r: Registry)
    ensures r.workspaces.Keys == st.workspaces.Keys + {st.currentName}
    ensures r.workspaces[st.currentName].blobs == map[]
    ensures r.workspaces[st.currentName].rootFolder == rootFolder
    ensures forall n :: n in st.workspaces && n != st.currentName ==> r.workspaces[n] == st.workspaces[n]
    ensures r.currentName == st.currentName && Coherent(r)
    ensures r.initialized == st.initialized
  {
    var replaced := st.workspaces[st.currentName := Fresh(rootFolder)];
    st.(workspaces := replaced, current := Some(st.currentName))
  }

  /** The key set grows under a reset exactly when the current name was absent. */
  lemma ResetGrowsOnlyWhenAbsent(st: Registry, rootFolder: Option<string>)
    ensures Reset(st, rootFolder).workspaces.Keys == st.workspaces.Keys
        <==> st.currentName in st.workspaces
  {
    var r := Reset(st, rootFolder);
    if r.workspaces.Keys == st.workspaces.Keys {
      assert st.currentName in r.workspaces.Keys;
    }
  }

  /**
   * Module teardown destroys every workspace but leaves the current name and
   * the current pointer as they were.
   */
  function OnModuleExit(st: Registry): (r: Registry)
    ensures r.workspaces == map[]
    ensures r.current == st.current && r.currentName == st.currentName
    ensures r.initialized == st.initialized
  {
    st.(workspaces := map[])
  }

  /**
   * Run-once module initialisation: the first call creates (or selects) the
   * workspace "default" and makes it current; later calls change nothing.
   */
  function Initialize(st: Registry): (r: Registry)
    ensures st.initialized ==> r == st
    ensures !st.initialized ==>
      && r.initialized
      && r.currentName == DefaultName
      && Coherent(r)
      && r.workspaces.Keys == st.workspaces.Keys + {DefaultName}
      && (DefaultName !in st.workspaces ==> r.workspaces[DefaultName] == Fresh(None))
      && forall n :: n in st.workspaces ==> r.workspaces[n] == st.workspaces[n]
  {
    if st.initialized then st
    else
      var switched := Switch(st, DefaultName, true).state;
      switched.(currentName := DefaultName, initialized := true)
  }

  /** Initialising twice is initialising once. */
  lemma InitializeIdempotent(st: Registry)
    ensures Initialize(Initialize(st)) == Initialize(st)
  {
  }

  /** Initialisation of a fresh process leaves exactly one empty workspace, "default", current. */
  lemma InitialStartsWithDefault()
    ensures Initialize(Initial).workspaces == map[DefaultName := Fresh(None)]
    ensures Initialize(Initial).current == Some(DefaultName)
  {
    var r := Initialize(Initial);
    assert r.workspaces.Keys == {DefaultName};
  }

  /**
   * The workspace behind the current pointer after the pointer has passed
   * an enforced null check.
   */
  function CheckedCurrent(st: Registry): (r: Result<Workspace, Error>)
    ensures r.Success? <==> st.current.Some? && st.current.value in st.workspaces
    ensures r.Success? ==> r.value == st.workspaces[st.current.value]
    ensures st.current.None? ==> r == Failure(NoCurrentWorkspace)
    ensures st.current.Some? && st.current.value !in st.workspaces ==>
      r == Failure(DanglingWorkspace(st.current.value))
  {
    match st.current
    case None => Failure(NoCurrentWorkspace)
    case Some(k) => if k in st.workspaces then Success(st.workspaces[k]) else Failure(DanglingWorkspace(k))
  }

  /**
   * The workspace behind the current pointer dereferenced without a null
   * check; a null pointer is reported as `NullWorkspace`.
   */
  function UncheckedCurrent(st: Registry): (r: Result<Workspace, Error>)
    ensures st.current.Some? ==> r == CheckedCurrent(st)
    ensures st.current.None? ==> r == Failure(NullWorkspace)
  {
    match st.current
    case None => Failure(NullWorkspace)
    case Some(_) => CheckedCurrent(st)
  }

  /** Replaces the workspace behind the current pointer. */
  function UpdateCurrent(st: Registry, w: Workspace): (r: Registry)
    requires CheckedCurrent(st).Success?
    ensures r.workspaces.Keys == st.workspaces.Keys
    ensures CheckedCurrent(r) == Success(w)
    ensures forall n :: n in st.workspaces && n != st.current.value ==> r.workspaces[n] == st.workspaces[n]
    ensures r.current == st.current && r.currentName == st.currentName && r.initialized == st.initialized
  {
    st.(workspaces := st.workspaces[st.current.value := w])
  }

  /** The root folder of the current workspace. */
  function RootFolder(st: Registry): (r: Result<Option<string>, Error>)
    ensures r.Success? <==> CheckedCurrent(st).Success?
    ensures r.Success? ==> r.value == CheckedCurrent(st).value.rootFolder
    ensures st.current.None? ==> r == Failure(NoCurrentWorkspace)
  {
    var w :- CheckedCurrent(st);
    Success(w.rootFolder)
  }

  /** The names of the blobs of the current workspace. */
  function Blobs(st: Registry): (r: Result<set<string>, Error>)
    ensures r.Success? <==> CheckedCurrent(st).Success?
    ensures r.Success? ==> r.value == CheckedCurrent(st).value.blobs.Keys
    ensures st.current.None? ==> r == Failure(NoCurrentWorkspace)
  {
    var w :- CheckedCurrent(st);
    Success(w.blobs.Keys)
  }

  /** Whether the current workspace holds a blob of the given name. */
  function HasBlob(st: Registry, name: string): (r: Result<bool, Error>)
    ensures r.Success? <==> CheckedCurrent(st).Success?
    ensures r.Success? ==> (r.value <==> name in CheckedCurrent(st).value.blobs)
    ensures st.current.None? ==> r == Failure(NoCurrentWorkspace)
  {
    var w :- CheckedCurrent(st);
    Success(name in w.blobs)
  }

  /** The current name, whatever the state of the map. */
  function CurrentWorkspace(st: Registry): (name: string) {
    st.currentName
  }

  /** The names of all workspaces, ascending, each once, as the map iterates them. */
  method ListWorkspaces(st: Registry) returns (names: seq<string>)
    ensures StringOrder.StrictlySorted(names)
    ensures forall n :: n in names <==> n in st.workspaces
  {
    names := StringOrder.SortedKeys(st.workspaces.Keys);
  }

  /** Creates a blob in the current workspace after an enforced null check. Returns true. */
  function CreateBlob(st: Registry, name: string): (r: Step<bool>)
    ensures r.result.Success? <==> CheckedCurrent(st).Success?
    ensures r.result.Failure? ==> r.state == st && r.result.error == CheckedCurrent(st).error
    ensures r.result.Success? ==>
      && r.result.value
      && r.state == UpdateCurrent(st, Workspaces.CreateBlob(CheckedCurrent(st).value, name))
      && HasBlob(r.state, name) == Success(true)
  {
    match CheckedCurrent(st)
    case Failure(e) => Step(st, Failure(e))
    case Success(w) => Step(UpdateCurrent(st, Workspaces.CreateBlob(w, name)), Success(true))
  }

  /**
   * Teardown leaves the current name readable while every query through
   * the current pointer misses: the map lists nothing, and a pointer that
   * was set now dangles.
   */
  lemma ExitLeavesStalePointer(st: Registry, name: string)
    ensures OnModuleExit(st).workspaces.Keys == {}
    ensures CurrentWorkspace(OnModuleExit(st)) == CurrentWorkspace(st)
    ensures st.current.Some? ==>
      && RootFolder(OnModuleExit(st)) == Failure(DanglingWorkspace(st.current.value))
      && Blobs(OnModuleExit(st)) == Failure(DanglingWorkspace(st.current.value))
      && HasBlob(OnModuleExit(st), name) == Failure(DanglingWorkspace(st.current.value))
    ensures !Coherent(OnModuleExit(st))
  {
  }

  /** Before anything is selected, every query through the current pointer fails. */
  lemma QueriesNeedSelection(name: string)
    ensures RootFolder(Initial) == Failure(NoCurrentWorkspace)
    ensures Blobs(Initial) == Failure(NoCurrentWorkspace)
    ensures HasBlob(Initial, name) == Failure(NoCurrentWorkspace)
  {
  }
}
