# Caffe2 Python binding: workspace registry

This project models the process-wide state that the Caffe2 Python binding
layer (`caffe2/python/pybind_state.cc`) keeps, and proves properties of it.

- **Workspace registry.** There are three globals: a name-sorted map of owned workspaces, a
  non-owning pointer to the current workspace, and the current workspace
  name. Module initialisation adds a run-once flag. The model holds them in
  an immutable `Registry` record. The current pointer is an
  `Option<string>` key into the map, so a pointer that outlived its
  workspace is a key the map misses (`DanglingWorkspace`) rather than a
  dangling reference. The transitions are switch, reset, module exit,
  initialise, create blob and feed blob. Each is a pure function. A call
  that can raise returns a `Step`: the registry after the call, plus the
  value returned or the error raised. An error does not undo earlier
  changes: `feed_blob` creates the blob before it rejects an unsupported
  argument.
- **Queries.** `root_folder`, `blobs`, `has_blob` and `create_blob` check
  the current pointer for null first and fail when it is null.
  `fetch_blob` and `feed_blob` dereference the pointer without that check.
  The model reports that case as a separate error, `NullWorkspace`.
  `workspaces()` lists the map's keys in ascending order.
- **Dtype tables.** These are the two lookup tables between Caffe2 type
  ids and NumPy type numbers. Both are total functions over enumerations.
  -1 is the sentinel for an unlisted type id, and the uninitialised type
  id is the sentinel for an unlisted NumPy type number. Whether `long` has
  the same width as `int` is a platform parameter.
- **Operator listing.** `registered_operators` merges the keys of the CPU
  and CUDA operator registries into one ascending list without duplicates.
- **Fetch/feed dispatch.** A blob is a tagged value. The fetcher registry
  maps type ids to fetchers: the string fetcher, or a fetcher whose body is
  outside this model and that either converts the blob or raises. The feeder
  registry maps each device type to a feeder that either leaves a blob of a
  given type behind or raises.

Modules: `Wrappers` (Option/Result), `StringOrder` (the `std::string`
order and sorted listing), `TypeTables`, `Workspaces` (blob and workspace
values), `WorkspaceRegistry`, `BlobIO`, `OperatorKeys`, `Lifecycle`
(sequences of calls and their invariants).

Teardown deserves a note. `on_module_exit` (`caffe2/python/pybind_state.cc:345`)
only clears the map; the current name and the current pointer stay as
they were, so the pointer is left naming a workspace that no longer
exists. `ExitLeavesStalePointer` proves the consequences: `workspaces()`
is empty, `current_workspace()` still returns the old name, and every
query through the pointer misses. `reset_workspace` always resets the
workspace under the current name, inserting that name if the map lacks it.

## Model

| member | source | states |
|---|---|---|
| `TypeTables.CaffeToNumpy` | caffe2/python/pybind_state.cc:42-59 | -1 exactly for the type ids outside the eleven listed; `int64_t` goes to `NPY_LONGLONG`; for a listed id, the NumPy type number maps back to the same id on either platform |
| `TypeTables.NumpyToCaffe` | caffe2/python/pybind_state.cc:61-83 | the unknown type exactly for unlisted NumPy type numbers; every other result is one of the eleven listed ids; `NPY_LONG` maps to `int` when `long` is as wide as `int` and to `int64_t` otherwise; `NPY_INT64` and `NPY_LONGLONG` map to `int64_t` |
| `TypeTables.RoundTrip` | caffe2/python/pybind_state.cc:42-83 | Caffe2 to NumPy and back is the identity on the eleven listed ids and gives the unknown type for every other id |
| `TypeTables.CanonicalNumpyType` | caffe2/python/pybind_state.cc:42-83 | the type a NumPy number denotes is stable under a further trip to NumPy and back (e.g. `NPY_LONG` and `NPY_LONGLONG` settle on one code) |
| `TypeTables.Int64AliasAgrees` | caffe2/python/pybind_state.cc:70-74 | `NPY_INT64` maps to the same type as the code it aliases on either platform, so the duplicate key in the table is harmless |
| `StringOrder.SortedKeys` | caffe2/python/pybind_state.cc:338-343 | the listing of a set of names is strictly ascending and holds exactly the set's members |
| `StringOrder.SortedUnique` | caffe2/python/pybind_state.cc:338-343 | two strictly ascending listings with the same members are equal, so the listing is determined by the set |
| `OperatorKeys.RegisteredOperators` | caffe2/python/pybind_state.cc:327-344 | the result is exactly the union of the CPU and CUDA registry keys, strictly ascending, without duplicates |
| `WorkspaceRegistry.Switch` | caffe2/python/pybind_state.cc:91-103 | succeeds iff the name exists or creation is requested; failure changes nothing; success makes the name current with the pointer on its entry; an existing name leaves the map unchanged; a created name adds exactly that key with an empty workspace and keeps every other entry |
| `WorkspaceRegistry.SwitchWorkspace` | caffe2/python/pybind_state.cc:346-356 | succeeds iff the name exists or the flag is explicitly true; a failure raises the missing-workspace error and changes nothing; success leaves name and pointer on the named entry; an existing name leaves the map unchanged; with the flag true an absent name adds exactly that key, empty, keeping every other entry |
| `WorkspaceRegistry.OmittedFlagMeansNoCreate` | caffe2/python/pybind_state.cc:349-350 | an omitted flag gives the same outcome as an explicit false, so switching to an absent name without a flag raises and leaves the registry unchanged |
| `WorkspaceRegistry.Reset` | caffe2/python/pybind_state.cc:357-371 | the entry under the current name becomes an empty workspace whose root folder is the one given (none when none was given), the pointer is re-pointed at it, the key set gains only the current name, other entries are untouched |
| `WorkspaceRegistry.ResetGrowsOnlyWhenAbsent` | caffe2/python/pybind_state.cc:362-367 | the key set stays the same under reset iff the current name was already in the map |
| `WorkspaceRegistry.OnModuleExit` | caffe2/python/pybind_state.cc:345 | the map is emptied; current name, current pointer and the init flag are unchanged |
| `WorkspaceRegistry.Initialize` | caffe2/python/pybind_state.cc:515-534 | a second call changes nothing; a first call makes "default" current, creates it empty if it was absent, keeps every other entry and sets the run-once flag |
| `WorkspaceRegistry.InitializeIdempotent` | caffe2/python/pybind_state.cc:524-531 | initialising twice gives the same registry as initialising once |
| `WorkspaceRegistry.InitialStartsWithDefault` | caffe2/python/pybind_state.cc:15-19 | from the process's initial globals, initialisation leaves exactly one empty workspace, "default", with the pointer on it |
| `WorkspaceRegistry.CheckedCurrent` | caffe2/python/pybind_state.cc:373-374 | succeeds iff the pointer is set and its key is in the map, yielding that entry; fails with the null-check error when unset and reports a dangling pointer otherwise |
| `WorkspaceRegistry.UncheckedCurrent` | caffe2/python/pybind_state.cc:456-457 | for a set pointer, equal to the checked lookup (the entry, or the dangling error); for an unset pointer, the null-dereference error |
| `WorkspaceRegistry.RootFolder` | caffe2/python/pybind_state.cc:372-375 | fails when no workspace is reachable through the pointer, otherwise returns that workspace's root folder |
| `WorkspaceRegistry.Blobs` | caffe2/python/pybind_state.cc:384-387 | fails when no workspace is reachable, otherwise returns exactly its blob names |
| `WorkspaceRegistry.HasBlob` | caffe2/python/pybind_state.cc:388-391 | fails when no workspace is reachable, otherwise true iff the current workspace holds the name |
| `WorkspaceRegistry.ListWorkspaces` | caffe2/python/pybind_state.cc:377-383 | the workspace names, strictly ascending, exactly the map's keys |
| `WorkspaceRegistry.CreateBlob` | caffe2/python/pybind_state.cc:450-454 | fails without change when no workspace is reachable; otherwise returns true and the current workspace then has the blob |
| `WorkspaceRegistry.ExitLeavesStalePointer` | caffe2/python/pybind_state.cc:345-391 | after module exit the map lists nothing, `current_workspace` (line 376) returns the name it returned before, and a previously set pointer makes root folder, blob listing and the lookup of every blob name fail as dangling |
| `WorkspaceRegistry.QueriesNeedSelection` | caffe2/python/pybind_state.cc:372-391 | before any workspace is selected, root folder, blob listing and blob lookup fail the null check |
| `BlobIO.StringFetch` | caffe2/python/pybind_state.cc:30-36 | the string fetcher's typed read succeeds iff the blob holds a string, returning that string, and raises a type mismatch otherwise |
| `BlobIO.FetchBlob` | caffe2/python/pybind_state.cc:455-469 | succeeds iff the current workspace holds the name and the fetcher registered for its type, if any, returns; a missing name raises; with a registered fetcher, that fetcher's result or error; without one, the text "`<name>`, a C++ native class of type `<type name>`." |
| `BlobIO.FeedBlob` | caffe2/python/pybind_state.cc:470-500 | an unparsable device option fails before any change; success iff the pointer resolves and the argument is a string, or an array for a device whose feeder returns; any change is to the current workspace only, which gains the blob and keeps its other blobs; each error is pinned (null or dangling pointer, unknown device, raising feeder, unsupported argument); once the option parses and the pointer resolves, every raising feed (unknown device, raising feeder, unsupported argument) leaves exactly the workspace with the blob created, an existing blob's content intact; on success the blob holds the fed string or what the feeder leaves |
| `BlobIO.FeedThenFetchArray` | caffe2/python/pybind_state.cc:27-28 | with the built-in registries, an array fed without a device option goes to the CPU feeder and leaves a CPU tensor, which fetch hands to the tensor fetcher; a raising CPU feeder makes the feed raise |
| `BlobIO.FeedThenFetchString` | caffe2/python/pybind_state.cc:488-490 | a string fed under a name is fetched back unchanged |
| `BlobIO.RejectedFeedKeepsBlob` | caffe2/python/pybind_state.cc:479-495 | a feed rejected for its argument raises, yet leaves the blob created |
| `Lifecycle.RunKeepsPointerOnName` | caffe2/python/pybind_state.cc:345-371 | along any sequence of calls, a set current pointer always names the current name |
| `Lifecycle.RunWithoutExitStaysCoherent` | caffe2/python/pybind_state.cc:15-19 | along any sequence of calls without module exit, a registry whose pointer names an existing entry under the current name stays so |
| `Lifecycle.InitializedRunStaysCoherent` | caffe2/python/pybind_state.cc:515-534 | after initialisation, any sequence of calls without module exit keeps the pointer on an existing entry |
| `Lifecycle.ResetAfterExitIsCoherent` | caffe2/python/pybind_state.cc:345-369 | module exit breaks the pointer's link to an entry; a reset afterwards restores it, with the current name as the only key |

## Left out

- Python and NumPy glue is not modelled: object casts, array checks, `import_array` and return-value policies. A cast of a non-boolean create flag or a non-string root folder would raise, and that is not modelled either.
- The interpreter lock released around runs is left out. It only matters for concurrency.
- Workspace internals live in files outside this model. This covers nets, `create_net`, `run_net`, `benchmark_net`, `delete_net`, `nets`, `run_operator_once`, `run_net_once` and `run_plan`. A workspace here holds only its root folder and its blobs. Creating a blob inserts an empty blob when the name is absent.
- The default root folder of a workspace built without one is defined outside this file. The model records it as `None`.
- Blob serialisation and deserialisation (`serialize_blob`, `deserialize_blob`) and protobuf parsing are opaque formats. A serialized device option is modelled only as parsed or not parsed.
- `get_gradient_defs`, the DB, OpSchema and Predictor bindings, and `global_init` are thin wrappers over classes outside this model.
- The `Net`, `Blob` and `Workspace` object methods are left out. This includes `Blob.fetch`, which raises where `fetch_blob` falls back to a description, and `Blob._feed`.
- BlobIO.FetchBlob: the output of a fetcher other than the string fetcher is kept abstract as `Converted`. Whether such a fetcher raises is part of the registry, not derived, because the tensor fetcher's body is outside this model.
- BlobIO.FeedBlob: an array feed only records the type of blob its device's feeder leaves behind, not the array's contents. Whether a feeder raises is part of the registry. A raising feeder is modelled as leaving the freshly created blob untouched, since what it writes before raising is outside this model.
- Type names come from the compiler's run-time type information, so `FetchBlob` takes them as a parameter.
- NumPy type numbers are an abstract enumeration rather than their integer values. The integer -1 is `NpyCode(-1)`, and `NpyCode` is used only for numbers that no named constructor stands for.
- Names and string payloads are modelled as Unicode strings, standing for their UTF-8 encodings; a `std::string` holding bytes that are not valid UTF-8 is not represented.
- `caffe2/operators/pad_op.h` is a kernel header. Its checks depend on a base class outside this model, and its run bodies are absent.
