/**
 * The records both multi-agent cookbooks pass between analysis, routing, delegation and
 * execution (`SubTask`, `TaskDecomposition`, `DelegationDecision` in their registry.py).
 * `K` is the cookbook's `TaskType` enumeration.
 */
module Tasks {
  import PyValue

  /** A unit of work; `dependencies`, `required_tools` and `required_capabilities` default to []. */
  datatype SubTask<K> = SubTask(
    id: string,
    description: string,
    kind: K,
    complexity: int,
    dependencies: seq<string>,
    requiredTools: seq<string>,
    requiredCapabilities: seq<string>)

  datatype Decomposition<K> = Decomposition(
    originalQuery: string,
    subtasks: seq<SubTask<K>>,
    executionOrder: seq<string>,
    parallelGroups: seq<seq<string>>)

  /**
   * A decision to hand a task on. The dataclass does not check its field types, so `toAgent`,
   * `reason` and `confidence` hold whatever the model's JSON reply held.
   */
  datatype DelegationDecision<K> = DelegationDecision(
    fromAgent: string,
    toAgent: PyValue.Value,
    task: SubTask<K>,
    reason: PyValue.Value,
    confidence: PyValue.Value)
}
