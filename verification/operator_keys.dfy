/** The listing of every registered operator type across the CPU and CUDA registries. */
module OperatorKeys {
  import StringOrder

  /**
   * The union of the keys of the CPU and the CUDA operator registries, in
   * ascending order, each name once even when both registries hold it.
   */
  method RegisteredOperators(cpuKeys: set<string>, cudaKeys: set<string>) returns (keys: seq<string>)
    ensures StringOrder.StrictlySorted(keys)
    ensures forall k :: k in keys <==> k in cpuKeys || k in cudaKeys
  {
    keys := StringOrder.SortedKeys(cpuKeys + cudaKeys);
  }
}
