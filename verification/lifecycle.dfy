/**
 * Sequences of process-wide calls on the workspace registry, and what they
 * keep invariant.
 */
module Lifecycle {
  import opened Wrappers
  import opened WorkspaceRegistry
  import opened BlobIO

  /** Every call that can change the registry. */
  datatype Call =
    | SwitchCall(name: string, createIfMissing: Option<bool>)
    | ResetCall(rootFolder: Option<string>)
    | ExitCall
    | InitCall
    | CreateBlobCall(name: string)
    | FeedCall(name: string, arg: FeedArg, option: DeviceOptionArg)

  /** The registry after one call, whether it returned or raised. */
  function Apply(st: Registry, c: Call, feeders: Feeders): (r: Registry) {
    match c
    case SwitchCall(name, flag) => SwitchWorkspace(st, name, flag).state
    case ResetCall(root) => Reset(st, root)
    case ExitCall => OnModuleExit(st)
    case InitCall => Initialize(st)
    case CreateBlobCall(name) => WorkspaceRegistry.CreateBlob(st, name).state
    case FeedCall(name, arg, option) => FeedBlob(st, name, arg, option, feeders).state
  }

  /** The registry after a sequence of calls, in order. */
  function Run(st: Registry, calls: seq<Call>, feeders: Feeders): (r: Registry)
    decreases |calls|
  {
    if calls == [] then st else Run(Apply(st, calls[0], feeders), calls[1..], feeders)
  }

  /** Every call keeps the current pointer on the current name, teardown included. */
  lemma {:induction false} RunKeepsPointerOnName(st: Registry, calls: seq<Call>,
                                                 feeders: Feeders)
    requires PointerTracksName(st)
    ensures PointerTracksName(Run(st, calls, feeders))
    decreases |calls|
  {
    if calls != [] {
      RunKeepsPointerOnName(Apply(st, calls[0], feeders), calls[1..], feeders);
    }
  }

  /**
   * Without a teardown, the current name always names an existing workspace
   * and the current pointer refers to it.
   */
  lemma {:induction false} RunWithoutExitStaysCoherent(st: Registry, calls: seq<Call>,
                                                       feeders: Feeders)
    requires Coherent(st)
    requires forall i :: 0 <= i < |calls| ==> !calls[i].ExitCall?
    ensures Coherent(Run(st, calls, feeders))
    decreases |calls|
  {
    if calls != [] {
      RunWithoutExitStaysCoherent(Apply(st, calls[0], feeders), calls[1..], feeders);
    }
  }

  /**
   * From the state module initialisation leaves, any sequence of calls
   * without a teardown keeps the registry coherent.
   */
  lemma InitializedRunStaysCoherent(calls: seq<Call>, feeders: Feeders)
    requires forall i :: 0 <= i < |calls| ==> !calls[i].ExitCall?
    ensures Coherent(Run(Initialize(Initial), calls, feeders))
  {
    RunWithoutExitStaysCoherent(Initialize(Initial), calls, feeders);
  }

  /** A reset after a teardown repairs the stale pointer. */
  lemma ResetAfterExitIsCoherent(st: Registry, rootFolder: Option<string>)
    ensures !Coherent(OnModuleExit(st))
    ensures Coherent(Reset(OnModuleExit(st), rootFolder))
    ensures Reset(OnModuleExit(st), rootFolder).workspaces.Keys == {st.currentName}
  {
  }
}
