/**
 * Start-up resolution of the MachineSet resource: the discovery query is made
 * for the machine API group/version, the plural resource name is taken from the
 * first listed resource of kind "MachineSet", and the dynamic client is
 * addressed by group, version and that name. Failing to list the resources or
 * to find a name is fatal.
 */
module MachineSetDiscovery {
  import opened Wrappers

  /** The group and version of the machine API (package machine/v1beta1 of the OpenShift API). */
  const MachineApiGroup: string := "machine.openshift.io"
  const MachineApiVersion: string := "v1beta1"

  /** The kind whose resource name is looked up. */
  const MachineSetKind: string := "MachineSet"

  datatype GroupVersion = GroupVersion(group: string, version: string)

  datatype GroupVersionResource = GroupVersionResource(group: string, version: string, resource: string)

  /** One entry of a discovery resource list: its plural name and its kind. */
  datatype APIResource = APIResource(name: string, kind: string)

  /** Why set-up ended in the fatal exit path. */
  datatype FatalError =
    | ResourceListUnavailable(groupVersion: string)
    | NoResourceForKind(kind: string)

  /** The outcome of set-up: the resource to address, or a fatal exit. */
  datatype Setup = Resolved(gvr: GroupVersionResource) | Fatal(reason: FatalError)

  /** The scheme group/version of the machine API. */
  const SchemeGroupVersion: GroupVersion := GroupVersion(MachineApiGroup, MachineApiVersion)

  /** The group/version the discovery query is made for, copied field by field from the scheme's. */
  function MachineSetGroupVersion(): GroupVersion
  {
    GroupVersion(SchemeGroupVersion.group, SchemeGroupVersion.version)
  }

  /** The textual form "group/version" of a group/version; the version alone for the empty group. */
  function GroupVersionString(gv: GroupVersion): string
  {
    if |gv.group| > 0 then gv.group + "/" + gv.version else gv.version
  }

  /** The index of the first entry of kind `kind`, if there is one. */
  function FirstIndexOfKind(resources: seq<APIResource>, kind: string): (r: Option<nat>)
    ensures r.Some? ==> r.value < |resources| && resources[r.value].kind == kind
    ensures r.Some? ==> forall j :: 0 <= j < r.value ==> resources[j].kind != kind
    ensures r.None? ==> forall j :: 0 <= j < |resources| ==> resources[j].kind != kind
  {
    if resources == [] then None
    else if resources[0].kind == kind then Some(0)
    else match FirstIndexOfKind(resources[1..], kind)
      case Some(i) => Some(i + 1)
      case None => None
  }

  /** The name a search for `kind` settles on: that of the first entry of the kind, or "" when none has it. */
  function ResolvedName(resources: seq<APIResource>, kind: string): (name: string)
    ensures (forall j :: 0 <= j < |resources| ==> resources[j].kind != kind) ==> name == ""
    ensures name != "" ==> exists i :: 0 <= i < |resources| && resources[i].kind == kind && resources[i].name == name
  {
    match FirstIndexOfKind(resources, kind)
    case Some(i) => resources[i].name
    case None => ""
  }

  /**
   * Scans the resource list in order and stops at the first entry of kind
   * `kind`, returning its name; returns "" when no entry has that kind.
   */
  method FindResourceName(resources: seq<APIResource>, kind: string) returns (name: string)
    ensures name == ResolvedName(resources, kind)
    ensures (forall j :: 0 <= j < |resources| ==> resources[j].kind != kind) ==> name == ""
    ensures forall i :: 0 <= i < |resources| && resources[i].kind == kind ==>
      (forall j :: 0 <= j < i ==> resources[j].kind != kind) ==> name == resources[i].name
  {
    name := "";
    var i := 0;
    while i < |resources|
      invariant 0 <= i <= |resources|
      invariant forall j :: 0 <= j < i ==> resources[j].kind != kind
      invariant name == ""
    {
      if resources[i].kind == kind {
        name := resources[i].name;
        break;
      }
      i := i + 1;
    }
  }

  /**
   * Set-up of the MachineSet resource. `discovered` is the resource list of the
   * discovery query, or None when the query failed.
   */
  method GetMachineSetInterface(discovered: Option<seq<APIResource>>) returns (r: Setup)
    ensures discovered.None? ==>
      r == Fatal(ResourceListUnavailable(GroupVersionString(MachineSetGroupVersion())))
    ensures discovered.Some? ==>
      (r.Resolved? <==> ResolvedName(discovered.value, MachineSetKind) != "")
    ensures discovered.Some? && ResolvedName(discovered.value, MachineSetKind) == "" ==>
      r == Fatal(NoResourceForKind(MachineSetKind))
    ensures r.Resolved? ==>
      r.gvr == GroupVersionResource(MachineApiGroup, MachineApiVersion, ResolvedName(discovered.value, MachineSetKind))
    ensures r.Resolved? ==> GroupVersion(r.gvr.group, r.gvr.version) == MachineSetGroupVersion()
  {
    var gv := MachineSetGroupVersion();
    if discovered.None? {
      return Fatal(ResourceListUnavailable(GroupVersionString(gv)));
    }
    var name := FindResourceName(discovered.value, MachineSetKind);
    if name == "" {
      return Fatal(NoResourceForKind(MachineSetKind));
    }
    r := Resolved(GroupVersionResource(SchemeGroupVersion.group, SchemeGroupVersion.version, name));
  }

  /** The name of the first entry of the kind is the resolved name. */
  lemma ResolvedNameIsFirstMatch(resources: seq<APIResource>, kind: string, i: nat)
    requires i < |resources| && resources[i].kind == kind
    requires forall j :: 0 <= j < i ==> resources[j].kind != kind
    ensures ResolvedName(resources, kind) == resources[i].name
  {
  }

  /** Entries after a matching entry never affect the resolved name. */
  lemma ResolvedNameIgnoresLaterEntries(resources: seq<APIResource>, kind: string, i: nat, tail: seq<APIResource>)
    requires i < |resources| && resources[i].kind == kind
    ensures ResolvedName(resources[..i + 1] + tail, kind) == ResolvedName(resources, kind)
  {
    var k := FirstIndexOfKind(resources, kind).value;
    var s := resources[..i + 1] + tail;
    assert k <= i;
    assert forall j :: 0 <= j <= k ==> s[j] == resources[j];
    ResolvedNameIsFirstMatch(resources, kind, k);
    ResolvedNameIsFirstMatch(s, kind, k);
  }

  /** The position of the first '/' in `s`, or |s| when there is none. */
  function SlashIndex(s: string): (r: nat)
    ensures r <= |s|
  {
    if s == [] || s[0] == '/' then 0 else 1 + SlashIndex(s[1..])
  }

  lemma {:induction false} SlashIndexAfterGroup(group: string, rest: string)
    requires '/' !in group
    ensures SlashIndex(group + "/" + rest) == |group|
    decreases |group|
  {
    if group != [] {
      assert (group + "/" + rest)[1..] == group[1..] + "/" + rest;
      SlashIndexAfterGroup(group[1..], rest);
    }
  }

  /**
   * The textual form of a group/version with a non-empty group determines the
   * group and the version: API group names contain no '/'.
   */
  lemma GroupVersionStringInjective(a: GroupVersion, b: GroupVersion)
    requires |a.group| > 0 && '/' !in a.group
    requires |b.group| > 0 && '/' !in b.group
    requires GroupVersionString(a) == GroupVersionString(b)
    ensures a == b
  {
    var s := GroupVersionString(a);
    SlashIndexAfterGroup(a.group, a.version);
    SlashIndexAfterGroup(b.group, b.version);
    assert |a.group| == |b.group|;
    assert a.group == s[..|a.group|] == b.group;
    assert a.version == s[|a.group| + 1..] == b.version;
  }

  /** The discovery query is made for "machine.openshift.io/v1beta1". */
  lemma DiscoveryQueryString()
    ensures GroupVersionString(MachineSetGroupVersion()) == "machine.openshift.io/v1beta1"
  {
  }
}
