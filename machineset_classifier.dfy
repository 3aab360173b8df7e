/**
 * The two MachineSet classification predicates of the controllers: whether a
 * MachineSet is a worker pool, and whether it currently has available nodes.
 * Both read an unstructured resource and are total: an absent object, an
 * absent path or a value of the wrong type classifies as false.
 */
module MachineSetClassifier {
  import opened Wrappers
  import opened Unstructured

  /** The label that carries a machine's cluster-api role. */
  const RoleLabel: string := "machine.openshift.io/cluster-api-machine-role"

  /** The role value that marks worker capacity. */
  const WorkerRole: string := "worker"

  /** Where the role label sits: the labels of the machine template's metadata. */
  const RoleLabelPath: seq<string> := ["spec", "template", "metadata", "labels", RoleLabel]

  /** Where the available-replica count sits. */
  const AvailableReplicasPath: seq<string> := ["status", "availableReplicas"]

  /** The MachineSet's machine template carries the role label with the value "worker". */
  predicate IsWorkerMachineSet(machineSet: Unstructured)
  {
    NestedString(Content(machineSet), RoleLabelPath) == Some(WorkerRole)
  }

  /** The MachineSet reports an available-replica count above zero. */
  predicate HasNodesAvailable(machineSet: Unstructured)
  {
    match NestedInt64(Content(machineSet), AvailableReplicasPath)
    case Some(n) => n > 0
    case None => false
  }

  /** The resource a fixture builds: a non-nil object holding `obj`. */
  function Resource(obj: map<string, Value>): (u: Unstructured)
    ensures Content(u) == obj
  {
    Unstructured(Some(obj))
  }

  // ---------------------------------------------------------------------------
  // isWorkerMachineSet

  /**
   * When any part of the label path is absent (the spec, the template, its
   * metadata, the labels or the label itself), the MachineSet is not a worker pool.
   */
  lemma NotWorkerWhenLabelPathAbsent(machineSet: Unstructured, k: nat)
    requires 0 < k <= |RoleLabelPath|
    requires NestedField(Content(machineSet), RoleLabelPath[..k]).None?
    ensures !IsWorkerMachineSet(machineSet)
  {
    AbsentPrefixAbsent(Content(machineSet), RoleLabelPath[..k], RoleLabelPath[k..]);
    assert RoleLabelPath[..k] + RoleLabelPath[k..] == RoleLabelPath;
  }

  /** A resource with no content (a nil object) is not a worker pool, and asking does not fail. */
  lemma EmptyResourceIsNotWorker()
    ensures !IsWorkerMachineSet(Unstructured(None))
    ensures !IsWorkerMachineSet(Resource(map[]))
  {
    NotWorkerWhenLabelPathAbsent(Unstructured(None), 1);
    NotWorkerWhenLabelPathAbsent(Resource(map[]), 1);
  }

  /**
   * After the role label is set to `role`, the MachineSet is a worker pool
   * exactly when `role` is the string "worker".
   */
  lemma SettingRoleLabelDecidesWorker(obj: map<string, Value>, role: Value)
    requires SetNestedField(obj, role, RoleLabelPath).Ok?
    ensures IsWorkerMachineSet(Resource(SetNestedField(obj, role, RoleLabelPath).value))
        <==> role == Str(WorkerRole)
  {
    SetThenLookup(obj, role, RoleLabelPath);
  }

  /** The fixture of the worker test: an empty object with the role label set to "worker". */
  lemma WorkerLabelOnEmptyObjectIsWorker()
    ensures SetNestedField(map[], Str(WorkerRole), RoleLabelPath).Ok?
    ensures IsWorkerMachineSet(Resource(SetNestedField(map[], Str(WorkerRole), RoleLabelPath).value))
  {
    SetOnEmptySucceeds(Str(WorkerRole), RoleLabelPath);
    SettingRoleLabelDecidesWorker(map[], Str(WorkerRole));
  }

  // ---------------------------------------------------------------------------
  // hasNodesAvailable

  /** When the status or its available-replica count is absent, no nodes are available. */
  lemma NoNodesWhenCountAbsent(machineSet: Unstructured, k: nat)
    requires 0 < k <= |AvailableReplicasPath|
    requires NestedField(Content(machineSet), AvailableReplicasPath[..k]).None?
    ensures !HasNodesAvailable(machineSet)
  {
    AbsentPrefixAbsent(Content(machineSet), AvailableReplicasPath[..k], AvailableReplicasPath[k..]);
    assert AvailableReplicasPath[..k] + AvailableReplicasPath[k..] == AvailableReplicasPath;
  }

  /** A resource with no content has no nodes available, and asking does not fail. */
  lemma EmptyResourceHasNoNodes()
    ensures !HasNodesAvailable(Unstructured(None))
    ensures !HasNodesAvailable(Resource(map[]))
  {
    NoNodesWhenCountAbsent(Unstructured(None), 1);
    NoNodesWhenCountAbsent(Resource(map[]), 1);
  }

  /** After the available-replica count is set to `n`, nodes are available exactly when `n > 0`. */
  lemma SettingCountDecidesNodes(obj: map<string, Value>, n: int64)
    requires SetNestedField(obj, Int(n), AvailableReplicasPath).Ok?
    ensures HasNodesAvailable(Resource(SetNestedField(obj, Int(n), AvailableReplicasPath).value)) <==> n > 0
  {
    SetThenLookup(obj, Int(n), AvailableReplicasPath);
  }

  /** A count stored as anything but an integer never makes nodes available. */
  lemma NonIntegerCountHasNoNodes(obj: map<string, Value>, v: Value)
    requires !v.Int?
    requires SetNestedField(obj, v, AvailableReplicasPath).Ok?
    ensures !HasNodesAvailable(Resource(SetNestedField(obj, v, AvailableReplicasPath).value))
  {
    SetThenLookup(obj, v, AvailableReplicasPath);
  }

  /** The fixtures of the availability test: a count of 0 gives false, a count of 1 gives true. */
  lemma CountFixturesOnEmptyObject()
    ensures SetNestedField(map[], Int(0), AvailableReplicasPath).Ok?
    ensures !HasNodesAvailable(Resource(SetNestedField(map[], Int(0), AvailableReplicasPath).value))
    ensures SetNestedField(map[], Int(1), AvailableReplicasPath).Ok?
    ensures HasNodesAvailable(Resource(SetNestedField(map[], Int(1), AvailableReplicasPath).value))
  {
    SetOnEmptySucceeds(Int(0), AvailableReplicasPath);
    SetOnEmptySucceeds(Int(1), AvailableReplicasPath);
    SettingCountDecidesNodes(map[], 0);
    SettingCountDecidesNodes(map[], 1);
  }

  // ---------------------------------------------------------------------------
  // The two predicates read disjoint parts of the resource

  /** The role label path and the available-replica path branch off at their first segment. */
  lemma PathsAreDisjoint()
    ensures !IsPrefix(RoleLabelPath, AvailableReplicasPath)
    ensures !IsPrefix(AvailableReplicasPath, RoleLabelPath)
  {
    assert RoleLabelPath[..|AvailableReplicasPath|][0] != AvailableReplicasPath[0];
  }

  /** Setting the available-replica count does not change whether a MachineSet is a worker pool. */
  lemma SettingCountKeepsRole(obj: map<string, Value>, v: Value)
    requires SetNestedField(obj, v, AvailableReplicasPath).Ok?
    ensures IsWorkerMachineSet(Resource(SetNestedField(obj, v, AvailableReplicasPath).value))
        == IsWorkerMachineSet(Resource(obj))
  {
    PathsAreDisjoint();
    SetPreservesOtherPaths(obj, v, AvailableReplicasPath, RoleLabelPath);
  }

  /** Setting the role label does not change whether a MachineSet has nodes available. */
  lemma SettingRoleKeepsNodes(obj: map<string, Value>, v: Value)
    requires SetNestedField(obj, v, RoleLabelPath).Ok?
    ensures HasNodesAvailable(Resource(SetNestedField(obj, v, RoleLabelPath).value))
        == HasNodesAvailable(Resource(obj))
  {
    PathsAreDisjoint();
    SetPreservesOtherPaths(obj, v, RoleLabelPath, AvailableReplicasPath);
  }

  /** A MachineSet with the worker label and no status is a worker pool without available nodes. */
  lemma WorkerWithoutStatusHasNoNodes()
    ensures SetNestedField(map[], Str(WorkerRole), RoleLabelPath).Ok?
    ensures var ms := Resource(SetNestedField(map[], Str(WorkerRole), RoleLabelPath).value);
      IsWorkerMachineSet(ms) && !HasNodesAvailable(ms)
  {
    WorkerLabelOnEmptyObjectIsWorker();
    EmptyResourceHasNoNodes();
    SettingRoleKeepsNodes(map[], Str(WorkerRole));
  }
}
