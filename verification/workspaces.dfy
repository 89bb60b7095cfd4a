/**
 * A single workspace as the binding layer sees it: an optional root folder
 * and a map from blob names to blobs. Nets and the rest of the workspace's
 * interior are not part of this model.
 */
module Workspaces {
  import opened Wrappers
  import opened TypeTables

  /** A type id a blob can hold besides a string and the empty state. */
  type NativeType = t: TypeId | t != StdString && t != Uninitialized witness TensorCPU

  /**
   * A type-erased blob: freshly created and holding nothing, holding a
   * string, or holding a value of some other type whose content this model
   * does not track.
   */
  datatype Blob = Empty | Str(s: string) | Native(typeId: NativeType)

  /** The runtime type id of what a blob holds. */
  function TypeOf(b: Blob): (t: TypeId)
    ensures t == StdString <==> b.Str?
    ensures t == Uninitialized <==> b.Empty?
  {
    match b
    case Empty => Uninitialized
    case Str(_) => StdString
    case Native(t) => t
  }

  /** `rootFolder` is `None` for a workspace built without a root folder. */
  datatype Workspace = Workspace(rootFolder: Option<string>, blobs: map<string, Blob>)

  /** A brand-new workspace: no blobs. */
  function Fresh(rootFolder: Option<string>): (w: Workspace) {
    Workspace(rootFolder, map[])
  }

  /** Creates the named blob if it is absent; an existing blob is kept as it is. */
  function CreateBlob(w: Workspace, name: string): (w': Workspace)
    ensures w'.blobs.Keys == w.blobs.Keys + {name}
    ensures name !in w.blobs ==> w'.blobs[name] == Empty
    ensures forall n :: n in w.blobs ==> w'.blobs[n] == w.blobs[n]
    ensures w'.rootFolder == w.rootFolder
  {
    if name in w.blobs then w else w.(blobs := w.blobs[name := Empty])
  }

  /** Overwrites the content of a blob. */
  function SetBlob(w: Workspace, name: string, b: Blob): (w': Workspace) {
    w.(blobs := w.blobs[name := b])
  }
}
