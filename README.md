# GitOps-friendly MachineSets controller: classifier predicates and resource discovery

This project models two small pieces of the GitOps-friendly MachineSets operator
in Dafny and proves properties of them.

1. **The worker-pool classifier** (`machineset_classifier.dfy`, over
   `unstructured.dfy`). A MachineSet is read as a Kubernetes *unstructured*
   resource: a JSON-like tree of string-keyed maps, strings, 64-bit integers and
   nil. The tree is the datatype `Unstructured.Value`. An `Unstructured.Unstructured`
   holds an optional root map, and `None` stands for a nil `Object`.
   `NestedField` is a total path lookup. `SetNestedField` stores a value at a
   path and creates any missing intermediate maps, the way the tests build their
   fixtures. A nil on the way is replaced by a new map, as a missing key is.
   It fails when an existing value on the way is neither a map nor nil. The two
   predicates are defined over the lookup:
   - `IsWorkerMachineSet` holds exactly when
     `spec/template/metadata/labels/"machine.openshift.io/cluster-api-machine-role"`
     holds the string `"worker"`;
   - `HasNodesAvailable` holds exactly when `status/availableReplicas` holds an
     integer above zero.
   Both are total. An absent object, an absent path or a value of another type
   gives `false`, never an error.

2. **Resolution of the MachineSet resource at start-up** (`machineset_discovery.dfy`).
   The discovery query is made for the machine API group/version
   (`machine.openshift.io/v1beta1`). `FindResourceName` is the loop of
   `getMachineSetInterface`. It scans the listed resources in order and stops at
   the first one whose kind is `MachineSet`. Its name becomes the resource of the
   returned group/version/resource. A failed query, no matching entry, or a
   matching entry with an empty name each end set-up in the fatal outcome
   `Setup.Fatal`.

The implementations of `isWorkerMachineSet` and `hasNodesAvailable` (`controllers/machineset_controller.go`)
are not part of this model. Their definitions here follow the behaviour the
controller tests assert: nil content gives false for both; the worker label set
to `"worker"` gives true; an available count of 0 gives false and 1 gives true.
The "above zero" rule generalises the two tested counts. The model also
covers helpers of the Kubernetes apimachinery library: the nested lookup
(`Lookup`, `NestedField`), the nested set (`SetNestedField`) and
`GroupVersion.String` (`GroupVersionString`). Their source is not among the
repository's files, so they follow that library's published code.
`NestedString` and `NestedInt64` are typed readers that the predicates are
assumed to use. The predicates' own bodies are not shown.

`wrappers.dfy` holds the `Option` and `Result` datatypes.

## Model

| member | source | states |
|---|---|---|
| `Unstructured.Lookup` | controllers/machineset_controller_test.go:19-21 | definition: follows a path one map key per segment; a missing key, nil or any non-map value on the way gives no value |
| `Unstructured.Content` | controllers/machineset_controller_test.go:19-20 | definition: the content of a resource, its own map, or an empty map when the object is nil |
| `Unstructured.NestedField` | controllers/machineset_controller_test.go:19-21 | definition: the lookup of a path from an object's root map; total, never an error |
| `Unstructured.NestedString` | controllers/machineset_controller_test.go:11-21 | definition: the string found at a path, or nothing when the path is absent or holds another kind; assumed reader of the worker predicate |
| `Unstructured.NestedInt64` | controllers/machineset_controller_test.go:24-42 | definition: the int64 found at a path, or nothing when the path is absent or holds another kind; assumed reader of the availability predicate |
| `Unstructured.SetNestedField` | controllers/machineset_controller_test.go:20 | a successful set adds at most the path's first key at the top level and keeps every other top-level entry; it creates a map for a missing or nil key on the way and fails at a value on the way that is neither a map nor nil |
| `Unstructured.LookupAppend` | controllers/machineset_controller_test.go:19-21 | looking up `p + q` is looking up `p` and then `q` inside what was found; absent at `p` means absent at `p + q` |
| `Unstructured.AbsentPrefixAbsent` | controllers/machineset_controller_test.go:16-17 | when a path is absent, every extension of it is absent, so a missing spec hides every label |
| `Unstructured.SetThenLookup` | controllers/machineset_controller_test.go:19-21 | round trip: after a successful nested set, the lookup at the same path returns the stored value |
| `Unstructured.SetCreatesIntermediateMaps` | controllers/machineset_controller_test.go:19-20 | after a successful nested set, every proper prefix of the path holds a map |
| `Unstructured.SetPreservesOtherPaths` | controllers/machineset_controller_test.go:20 | a nested set changes nothing at any path that branches off the set path |
| `Unstructured.SetThenLookupBelow` | controllers/machineset_controller_test.go:19-20 | after a nested set, paths below the set path are looked up inside the stored value |
| `Unstructured.SetOnEmptySucceeds` | controllers/machineset_controller_test.go:19-20 | a nested set on an empty object never fails, for every non-empty path and value |
| `Unstructured.SetFailsOnlyAtNonMap` | controllers/machineset_controller_test.go:20 | a failed set names a proper, non-empty prefix of the path at which a value that is neither a map nor nil is stored |
| `Unstructured.SetSucceedsOnlyThroughMaps` | controllers/machineset_controller_test.go:20 | a successful set found nothing but maps, nils or absent keys at the proper prefixes of the path |
| `Unstructured.SetSucceedsIff` | controllers/machineset_controller_test.go:20 | a nested set succeeds if and only if no proper prefix of the path holds a value that is neither a map nor nil |
| `Unstructured.NilOnTheWayIsReplaced` | controllers/machineset_controller_test.go:20 | a nil stored on the way is replaced by a new map: the set succeeds and its value is read back |
| `Unstructured.SetIdempotent` | controllers/machineset_controller_test.go:20 | repeating a successful nested set with the same value and path gives the same object |
| `Unstructured.NestedStringAfterSet` | controllers/machineset_controller_test.go:20 | for every object and path, a string stored by a successful nested set is read back by the string reader |
| `Unstructured.NestedStringOfOtherKind` | controllers/machineset_controller_test.go:20 | for every object and path, a stored value that is not a string is read by the string reader as absent |
| `Unstructured.NestedInt64AfterSet` | controllers/machineset_controller_test.go:33-37 | for every object and path, an int64 stored by a successful nested set is read back by the int64 reader |
| `Unstructured.NestedInt64OfOtherKind` | controllers/machineset_controller_test.go:33-37 | for every object and path, a stored value that is not an integer is read by the int64 reader as absent |
| `MachineSetClassifier.IsWorkerMachineSet` | controllers/machineset_controller_test.go:11-21 | definition: the string read at the role label path is "worker"; total over every resource |
| `MachineSetClassifier.HasNodesAvailable` | controllers/machineset_controller_test.go:24-42 | definition: the int64 read at `status/availableReplicas` is above zero; absent or of another kind gives false; total over every resource |
| `MachineSetClassifier.NotWorkerWhenLabelPathAbsent` | controllers/machineset_controller_test.go:16-17 | if spec, template, metadata, labels or the label itself is absent, the MachineSet is not a worker pool |
| `MachineSetClassifier.EmptyResourceIsNotWorker` | controllers/machineset_controller_test.go:16-17 | a resource with nil content, or with an empty map, is not a worker pool |
| `MachineSetClassifier.SettingRoleLabelDecidesWorker` | controllers/machineset_controller_test.go:19-21 | after the role label is set to a value on any object, the MachineSet is a worker pool exactly when that value is the string "worker" |
| `MachineSetClassifier.WorkerLabelOnEmptyObjectIsWorker` | controllers/machineset_controller_test.go:19-21 | the test fixture: setting the label to "worker" on an empty object succeeds and classifies as a worker pool |
| `MachineSetClassifier.NoNodesWhenCountAbsent` | controllers/machineset_controller_test.go:29-30 | if the status or its available count is absent, no nodes are available |
| `MachineSetClassifier.EmptyResourceHasNoNodes` | controllers/machineset_controller_test.go:29-30 | a resource with nil content, or with an empty map, has no nodes available |
| `MachineSetClassifier.SettingCountDecidesNodes` | controllers/machineset_controller_test.go:32-41 | after the count is set to `n` on any object, nodes are available exactly when `n > 0` |
| `MachineSetClassifier.NonIntegerCountHasNoNodes` | controllers/machineset_controller_test.go:24-42 | a count stored as anything but an integer never makes nodes available |
| `MachineSetClassifier.CountFixturesOnEmptyObject` | controllers/machineset_controller_test.go:32-41 | the test fixtures: a count of 0 on an empty object gives false, a count of 1 gives true |
| `MachineSetClassifier.SettingCountKeepsRole` | controllers/machineset_controller_test.go:33 | setting the available count never changes the worker classification |
| `MachineSetClassifier.SettingRoleKeepsNodes` | controllers/machineset_controller_test.go:20 | setting the role label never changes whether nodes are available |
| `MachineSetClassifier.WorkerWithoutStatusHasNoNodes` | controllers/machineset_controller_test.go:19-30 | a MachineSet with only the worker label set is a worker pool with no nodes available |
| `MachineSetDiscovery.MachineSetGroupVersion` | main.go:125-128 | definition: the group/version of the discovery query, copied field by field from the machine API scheme's |
| `MachineSetDiscovery.GroupVersionString` | main.go:131-133 | definition: "group/version", or the version alone for an empty group; its injectivity is `GroupVersionStringInjective` |
| `MachineSetDiscovery.FirstIndexOfKind` | main.go:137-143 | the index found holds the kind and no earlier entry does; no index means no entry holds the kind |
| `MachineSetDiscovery.ResolvedName` | main.go:137-143 | no entry of the kind gives ""; a non-empty name is the name of an entry of the kind |
| `MachineSetDiscovery.FindResourceName` | main.go:137-143 | the loop returns the name of the first entry of the kind, or "" when no entry has it |
| `MachineSetDiscovery.ResolvedNameIsFirstMatch` | main.go:138-142 | the name chosen is that of the first entry of the kind |
| `MachineSetDiscovery.ResolvedNameIgnoresLaterEntries` | main.go:139-142 | entries after a matching entry never change the chosen name, because the loop stops there |
| `MachineSetDiscovery.GetMachineSetInterface` | main.go:125-160 | a failed query is fatal with the queried group/version; set-up resolves iff the chosen name is non-empty, so no match or an empty-named first match is fatal; a resolved resource has the machine API group and version and the chosen name, and its group/version equals the one queried |
| `MachineSetDiscovery.GroupVersionStringInjective` | main.go:131 | for non-empty groups without '/', the queried "group/version" string determines group and version |
| `MachineSetDiscovery.DiscoveryQueryString` | main.go:125-131 | the discovery query is made for "machine.openshift.io/v1beta1" |

## Left out

- The MachineSet and Machine reconcilers (`controllers/machineset_controller.go`, `controllers/machine_controller.go`) are not part of this model, and neither is any replica accept, hold or defer policy.
- The bodies of `isWorkerMachineSet` and `hasNodesAvailable` are not part of this model. The predicates are defined from what the tests assert. The > 0 rule is tested only at the counts 0 and 1.
- Process bootstrap in `main` (flags, logger, manager, health and ready checks, `mgr.Start`, main.go:53-116): I/O.
- Creation of the discovery client and the dynamic client, and their failures (main.go:119-123, 150-154): network clients. The discovery call (main.go:131) is an input: its resource list, or `None` when it failed.
- `dynamicClient.Resource(...)` (main.go:162): set-up returns the group/version/resource that it would be given.
- `os.Exit(1)` and the log lines: modelled as the outcome `Setup.Fatal` with its reason; the logged text is I/O and is not modelled.
- `json.Marshal` and `logger.Info` in the availability test (controllers/machineset_controller_test.go:39-40): logging only.
- Unstructured.SetNestedField: modelled as a function that returns the new object, not as an update in place. Aliasing between the caller's map and the stored one is not modelled. On failure the model returns only the blocking prefix, and the caller's value is untouched. The library leaves the object unchanged in that case too, because it creates maps only below the last existing key.
- Unstructured.SetNestedField: requires a non-empty path. The library slices the path to all but its last segment, so it panics on an empty path.
- Unstructured.Lookup: the library tells "not found" apart from an accessor error on a non-map value. The model folds both into no value. This is a modelling assumption: the predicates' bodies are not shown, and the tests exercise only a nil object and well-formed fixtures. The deep copy of the stored value is not modelled, because values are immutable here.
- Value kinds other than nil, string, int64 and map (booleans, floats, lists) are not modelled. Any of them on a path blocks lookup like a string does.
- Per-object queue serialization, optimistic-concurrency retries and watch or event delivery: concurrency and external infrastructure.
