/** From the cluster's objects to the snapshot that a drain works on: who hosts a VMI, and what may be evicted. */
module Selection {
  import opened Common
  import opened Kube
  import opened Sorting
  import opened Machine

  const CREATED_BY := "kubevirt.io/created-by"
  const APP := "kubevirt.io"
  const DOMAIN := "kubevirt.io/domain"
  const MIRROR := "kubernetes.io/config.mirror"
  const EVACUATION := "kubevirt.io/evacuationMigration"

  // ---------------------------------------------------------------- launchers

  predicate ControllingOwner(o: Owner, vmi: VMI) {
    && o.controller && o.group == Some("kubevirt.io") && o.kind == "VirtualMachineInstance"
    && o.name == vmi.name && o.uid == vmi.uid
  }

  predicate Controls(owners: seq<Owner>, vmi: VMI) { exists o :: o in owners && ControllingOwner(o, vmi) }

  /** The VMI's own status, the pod's label and its owner reference all say that the pod hosts the VMI. */
  predicate OwnedBy(pod: Pod, vmi: VMI) {
    && pod.uid in vmi.activePods && vmi.activePods[pod.uid] == pod.nodeName && pod.namespace == vmi.namespace
    && Lookup(pod.labels, CREATED_BY) == vmi.uid && Controls(pod.owners, vmi)
  }

  /** The last VMI of the listing under a UID. */
  function Under(vmis: seq<VMI>, uid: string): Option<VMI> {
    if vmis == [] then None
    else if vmis[|vmis| - 1].uid == uid then Some(vmis[|vmis| - 1])
    else Under(vmis[..|vmis| - 1], uid)
  }

  /** The VMI that the pod provably hosts. */
  function Hosted(pod: Pod, vmis: seq<VMI>): Option<VMI> {
    var uid := Lookup(pod.labels, CREATED_BY);
    if uid == "" then None
    else
      var vmi := Under(vmis, uid);
      if vmi.Some? && OwnedBy(pod, vmi.value) then vmi else None
  }

  /** The first pod on the VMI's node that hosts it. */
  function LauncherOf(vmi: VMI, pods: seq<Pod>): Option<Pod> {
    if pods == [] then None
    else if pods[0].nodeName == vmi.nodeName && OwnedBy(pods[0], vmi) then Some(pods[0])
    else LauncherOf(vmi, pods[1..])
  }

  predicate Prefixed(s: string, prefix: string) { |prefix| <= |s| && s[..|prefix|] == prefix }

  predicate VMIOwner(o: Owner) { o.group == Some("kubevirt.io") && o.kind == "VirtualMachineInstance" }

  predicate LooksLikeLauncher(pod: Pod) {
    || Prefixed(pod.generateName, "virt-launcher-") || Lookup(pod.labels, APP) == "virt-launcher"
    || Lookup(pod.labels, CREATED_BY) != "" || Lookup(pod.annotations, DOMAIN) != ""
    || exists o :: o in pod.owners && VMIOwner(o)
  }

  /** KubeVirt's controlling reference to this very VMI. */
  predicate Controlled(owners: seq<Owner>, vmi: VMI) {
    exists o :: o in owners && o.controller && o.group == Some("kubevirt.io")
                && o.kind == "VirtualMachineInstance" && o.name == vmi.name && o.uid == vmi.uid
  }

  /**
   The pod hosts the VMI: the VMI's own status has it active on the pod's node, it is in the VMI's namespace and
   carries its UID as a label, and KubeVirt's VMI controls it.
   */
  predicate Hosts(p: Pod, vmi: VMI) {
    && p.uid in vmi.activePods && vmi.activePods[p.uid] == p.nodeName
    && p.namespace == vmi.namespace
    && "kubevirt.io/created-by" in p.labels && p.labels["kubevirt.io/created-by"] == vmi.uid
    && Controlled(p.owners, vmi)
  }

  lemma ControlsIs(owners: seq<Owner>, vmi: VMI)
    ensures Controls(owners, vmi) <==> Controlled(owners, vmi)
  {
    if Controls(owners, vmi) {
      var o :| o in owners && ControllingOwner(o, vmi);
    }
    if Controlled(owners, vmi) {
      var o :| o in owners && o.controller && o.group == Some("kubevirt.io")
               && o.kind == "VirtualMachineInstance" && o.name == vmi.name && o.uid == vmi.uid;
      assert ControllingOwner(o, vmi);
    }
  }

  lemma OwnedIs(p: Pod, vmi: VMI)
    requires vmi.uid != ""
    ensures OwnedBy(p, vmi) <==> Hosts(p, vmi)
  {
    ControlsIs(p.owners, vmi);
  }

  /** The first pod that hosts the VMI on its node, if any does. */
  method LauncherFor(vmi: VMI, pods: seq<Pod>) returns (launcher: Option<Pod>)
    ensures launcher == LauncherOf(vmi, pods)
    ensures vmi.uid != "" && launcher.Some? ==>
              exists k :: 0 <= k < |pods| && pods[k] == launcher.value
                          && pods[k].nodeName == vmi.nodeName && Hosts(pods[k], vmi)
                          && forall j :: 0 <= j < k ==> !(pods[j].nodeName == vmi.nodeName && Hosts(pods[j], vmi))
    ensures vmi.uid != "" && launcher.None? ==> forall p :: p in pods ==> !(p.nodeName == vmi.nodeName && Hosts(p, vmi))
  {
    hide OwnedBy, Hosts;
    for i := 0 to |pods|
      invariant LauncherOf(vmi, pods) == LauncherOf(vmi, pods[i..])
      invariant vmi.uid != "" ==> forall k :: 0 <= k < i ==> !(pods[k].nodeName == vmi.nodeName && Hosts(pods[k], vmi))
    {
      if vmi.uid != "" { OwnedIs(pods[i], vmi); }
      if pods[i].nodeName == vmi.nodeName && OwnedBy(pods[i], vmi) { return Some(pods[i]); }
    }
    return None;
  }

  // ---------------------------------------------------------------- classes of pods

  predicate DaemonOwner(o: Owner) { o.controller && o.kind == "DaemonSet" }

  /** Mirror pods, finished pods and daemons stay. */
  predicate Stays(pod: Pod) {
    || Lookup(pod.annotations, MIRROR) != "" || pod.phase == "Succeeded" || pod.phase == "Failed"
    || exists o :: o in pod.owners && DaemonOwner(o)
  }

  predicate HasController(pod: Pod) { exists o :: o in pod.owners && o.controller }

  /** The UIDs and names of the pods that attach hotplugged volumes. */
  datatype Attachments = Attachments(uids: set<string>, names: set<string>)

  /** What the classification of a pod says, flag by flag. */
  predicate Classified(info: PodInfo, pod: Pod, at: Attachments, vmis: seq<VMI>) {
    var bound := Hosted(pod, vmis).Some? || pod.uid in at.uids || pod.name in at.names;
    && info.pod == pod
    && (info.launcher <==> Hosted(pod, vmis).Some?)
    && (info.hotplug <==> pod.uid in at.uids || pod.name in at.names)
    && (info.unverifiedLauncher <==> !bound && LooksLikeLauncher(pod))
    && (info.ignored <==> !bound && Stays(pod))
    && (info.managed <==> !bound && !Stays(pod) && HasController(pod) && !LooksLikeLauncher(pod))
    && (info.emptyDir <==> !bound && !Stays(pod) && true in pod.emptyDirVolumes)
  }

  method ClassifyPod(pod: Pod, at: Attachments, vmis: seq<VMI>) returns (info: PodInfo)
    ensures Classified(info, pod, at, vmis)
    ensures UniqueVMIs(vmis) ==> (info.launcher <==> exists v :: v in vmis && Hosts(pod, v))
  {
    hide OwnedBy, Hosts, LooksLikeLauncher, Stays, HasController;
    if UniqueVMIs(vmis) { HostedIs(pod, vmis); }
    info := PodInfo(pod, false, false, false, false, false, false);
    info := info.(launcher := Hosted(pod, vmis).Some?, hotplug := pod.uid in at.uids || pod.name in at.names);
    if info.launcher || info.hotplug { return; }
    info := info.(unverifiedLauncher := LooksLikeLauncher(pod));
    if Stays(pod) { return info.(ignored := true); }
    info := info.(managed := HasController(pod) && !info.unverifiedLauncher);
    for i := 0 to |pod.emptyDirVolumes|
      invariant forall k :: 0 <= k < i ==> !pod.emptyDirVolumes[k]
    {
      if pod.emptyDirVolumes[i] { return info.(emptyDir := true); }
    }
  }

  /** A pod is taken to host some VMI exactly when it hosts a listed one. */
  lemma HostedIs(pod: Pod, vmis: seq<VMI>)
    requires UniqueVMIs(vmis)
    ensures Hosted(pod, vmis).Some? <==> exists v :: v in vmis && Hosts(pod, v)
    ensures Hosted(pod, vmis).Some? ==> Hosted(pod, vmis).value in vmis && Hosts(pod, Hosted(pod, vmis).value)
  {
    hide Controls, Controlled;
    UnderIs(vmis, Lookup(pod.labels, CREATED_BY));
    if Hosted(pod, vmis).Some? { OwnedIs(pod, Hosted(pod, vmis).value); }
    forall v | v in vmis && Hosts(pod, v) ensures Hosted(pod, vmis).Some? {
      OwnedIs(pod, v);
      UnderItsUid(vmis, v);
    }
  }

  lemma {:induction false} UnderIs(vmis: seq<VMI>, uid: string)
    ensures Under(vmis, uid).Some? ==> Under(vmis, uid).value in vmis && Under(vmis, uid).value.uid == uid
  {
    if vmis != [] && vmis[|vmis| - 1].uid != uid { UnderIs(vmis[..|vmis| - 1], uid); }
  }

  /** What a pod looks like that claims to be a launcher, by its name, its labels, its annotation or its owners. */
  ghost predicate Marked(pod: Pod) {
    || (exists rest: string :: pod.generateName == "virt-launcher-" + rest)
    || ("kubevirt.io" in pod.labels && pod.labels["kubevirt.io"] == "virt-launcher")
    || ("kubevirt.io/created-by" in pod.labels && pod.labels["kubevirt.io/created-by"] != "")
    || ("kubevirt.io/domain" in pod.annotations && pod.annotations["kubevirt.io/domain"] != "")
    || exists o :: o in pod.owners && o.group == Some("kubevirt.io") && o.kind == "VirtualMachineInstance"
  }

  lemma MarkedIs(pod: Pod)
    ensures LooksLikeLauncher(pod) <==> Marked(pod)
  {
    if Prefixed(pod.generateName, "virt-launcher-") {
      assert pod.generateName == "virt-launcher-" + pod.generateName[|"virt-launcher-"|..];
    }
    if exists o :: o in pod.owners && VMIOwner(o) {
      var o :| o in pod.owners && VMIOwner(o);
      assert o.group == Some("kubevirt.io") && o.kind == "VirtualMachineInstance";
    }
    if exists o :: o in pod.owners && o.group == Some("kubevirt.io") && o.kind == "VirtualMachineInstance" {
      var o :| o in pod.owners && o.group == Some("kubevirt.io") && o.kind == "VirtualMachineInstance";
      assert VMIOwner(o);
    }
  }

  /** The class of a pod in terms of the objects: what it hosts or attaches, what it claims to be, who owns it. */
  lemma ClassIs(info: PodInfo, pod: Pod, at: Attachments, vmis: seq<VMI>)
    requires Classified(info, pod, at, vmis) && UniqueVMIs(vmis)
    ensures info.pod == pod && (info.launcher <==> exists v :: v in vmis && Hosts(pod, v))
    ensures info.hotplug <==> pod.uid in at.uids || pod.name in at.names
    ensures info.launcher || info.hotplug ==>
              !info.unverifiedLauncher && !info.ignored && !info.managed && !info.emptyDir
    ensures !info.launcher && !info.hotplug ==>
              && (info.unverifiedLauncher <==> Marked(pod))
              && (info.ignored
                  <==> ("kubernetes.io/config.mirror" in pod.annotations
                        && pod.annotations["kubernetes.io/config.mirror"] != "")
                       || pod.phase == "Succeeded" || pod.phase == "Failed"
                       || exists o :: o in pod.owners && o.controller && o.kind == "DaemonSet")
              && (info.managed
                  <==> !info.ignored && !Marked(pod) && exists o :: o in pod.owners && o.controller)
              && (info.emptyDir <==> !info.ignored && true in pod.emptyDirVolumes)
  {
    HostedIs(pod, vmis);
    MarkedIs(pod);
    StaysIs(pod);
    hide Hosted, Hosts, LooksLikeLauncher, Marked, Stays;
  }

  lemma StaysIs(pod: Pod)
    ensures Stays(pod)
            <==> ("kubernetes.io/config.mirror" in pod.annotations
                  && pod.annotations["kubernetes.io/config.mirror"] != "")
                 || pod.phase == "Succeeded" || pod.phase == "Failed"
                 || exists o :: o in pod.owners && o.controller && o.kind == "DaemonSet"
  {
    if exists o :: o in pod.owners && DaemonOwner(o) {
      var o :| o in pod.owners && DaemonOwner(o);
      assert o.controller && o.kind == "DaemonSet";
    }
    if exists o :: o in pod.owners && o.controller && o.kind == "DaemonSet" {
      var o :| o in pod.owners && o.controller && o.kind == "DaemonSet";
      assert DaemonOwner(o);
    }
  }

  /** No option makes a pod that looks like a launcher an ordinary eviction target. */
  lemma LauncherLooksAreNeverEvicted(info: PodInfo, pod: Pod, at: Attachments, vmis: seq<VMI>, opts: Options)
    requires Classified(info, pod, at, vmis) && LooksLikeLauncher(pod)
    ensures !NormalEligible(info, opts)
  {
    hide LooksLikeLauncher, Stays, HasController;
  }

  /** What passes preflight splits into pods that are left alone and pods that are evicted. */
  lemma PreflightPartitions(s: Snapshot, opts: Options)
    requires Preflighted(s, opts)
    ensures forall p :: p in s.pods ==> (Exempt(p) <==> !NormalEligible(p, opts))
  {
    forall p | p in s.pods ensures Exempt(p) <==> !NormalEligible(p, opts) { assert PodSafe(p, opts); }
  }

  // ---------------------------------------------------------------- one pod, one VMI

  ghost predicate UniqueVMIs(vmis: seq<VMI>) {
    && (forall i, j :: 0 <= i < j < |vmis| ==> vmis[i].uid != vmis[j].uid)
    && (forall v :: v in vmis ==> v.uid != "")
  }

  lemma {:induction false} UnderItsUid(vmis: seq<VMI>, vmi: VMI)
    requires UniqueVMIs(vmis) && vmi in vmis
    ensures Under(vmis, vmi.uid) == Some(vmi)
  {
    var n := |vmis| - 1;
    if vmis[n] != vmi {
      assert vmis == vmis[..n] + [vmis[n]];
      var i :| 0 <= i < n && vmis[i] == vmi;
      UnderItsUid(vmis[..n], vmi);
    }
  }

  lemma {:induction false} LauncherIsOwned(vmi: VMI, pods: seq<Pod>)
    requires LauncherOf(vmi, pods).Some?
    ensures var p := LauncherOf(vmi, pods).value; p in pods && p.nodeName == vmi.nodeName && OwnedBy(p, vmi)
  {
    if !(pods[0].nodeName == vmi.nodeName && OwnedBy(pods[0], vmi)) { LauncherIsOwned(vmi, pods[1..]); }
  }

  /** The pod chosen as a VMI's launcher is classified as hosting that very VMI. */
  lemma LauncherIsClassified(vmi: VMI, vmis: seq<VMI>, pods: seq<Pod>)
    requires UniqueVMIs(vmis) && vmi in vmis && LauncherOf(vmi, pods).Some?
    ensures Hosted(LauncherOf(vmi, pods).value, vmis) == Some(vmi)
    ensures var p := LauncherOf(vmi, pods).value; p in pods && p.nodeName == vmi.nodeName && Hosts(p, vmi)
  {
    LauncherIsOwned(vmi, pods);
    UnderItsUid(vmis, vmi);
    OwnedIs(LauncherOf(vmi, pods).value, vmi);
  }

  /** Two VMIs never share a launcher. */
  lemma LaunchersApart(v: VMI, w: VMI, vmis: seq<VMI>, pods: seq<Pod>)
    requires UniqueVMIs(vmis) && v in vmis && w in vmis && v != w
    requires LauncherOf(v, pods).Some? && LauncherOf(w, pods).Some?
    ensures LauncherOf(v, pods) != LauncherOf(w, pods)
  {
    LauncherIsClassified(v, vmis, pods);
    LauncherIsClassified(w, vmis, pods);
  }

  // ---------------------------------------------------------------- disruption budgets

  predicate Covers(b: Budget, pod: Pod) {
    b.namespace == pod.namespace && b.selects.Some? && b.selects.value(pod.labels)
  }

  function Digest(b: Budget, pod: Pod, vmis: seq<VMI>): PDB {
    PDB(b.name, b.disruptionsAllowed, Hosted(pod, vmis).Some? && Controls(b.owners, Hosted(pod, vmis).value))
  }

  /** The budgets that cover the pod, in list order. */
  function Covering(pod: Pod, budgets: seq<Budget>, vmis: seq<VMI>): seq<PDB> {
    if budgets == [] then []
    else
      var last := budgets[|budgets| - 1];
      Covering(pod, budgets[..|budgets| - 1], vmis) + (if Covers(last, pod) then [Digest(last, pod, vmis)] else [])
  }

  function NameOf(p: PDB): string { p.name }

  method MatchingPDBs(pod: Pod, budgets: seq<Budget>, vmis: seq<VMI>) returns (out: seq<PDB>)
    ensures SortedBy(out, NameOf) && multiset(out) == multiset(Covering(pod, budgets, vmis))
  {
    hide OwnedBy, Digest;
    out := [];
    for i := 0 to |budgets|
      invariant out == Covering(pod, budgets[..i], vmis)
    {
      assert budgets[..i + 1][..i] == budgets[..i];
      var b := budgets[i];
      if b.namespace != pod.namespace || b.selects.None? || !b.selects.value(pod.labels) { continue; }
      out := out + [Digest(b, pod, vmis)];
    }
    assert budgets[..|budgets|] == budgets;
    out := SortBy(out, NameOf);
  }

  lemma {:induction false} CoveringSource(pod: Pod, budgets: seq<Budget>, vmis: seq<VMI>, p: PDB)
    requires p in Covering(pod, budgets, vmis)
    ensures exists b :: b in budgets && Covers(b, pod) && p == Digest(b, pod, vmis)
  {
    hide Digest, Covers;
    var n := |budgets| - 1;
    assert budgets == budgets[..n] + [budgets[n]];
    if p in Covering(pod, budgets[..n], vmis) { CoveringSource(pod, budgets[..n], vmis, p); }
  }

  /** The budget is in the pod's namespace and selects its labels. */
  predicate CoveredBy(p: Pod, b: Budget) {
    b.namespace == p.namespace && b.selects.Some? && b.selects.value(p.labels)
  }

  /** What is said of budgets: each that covers the pod, and whether the VMI that the pod hosts controls it. */
  lemma {:induction false} CoveringIs(pod: Pod, budgets: seq<Budget>, vmis: seq<VMI>, p: PDB)
    requires UniqueVMIs(vmis)
    ensures p in Covering(pod, budgets, vmis)
            <==> exists b :: b in budgets && CoveredBy(pod, b) && p.name == b.name
                   && p.disruptionsAllowed == b.disruptionsAllowed
                   && (p.kubeVirtOwned <==> exists v :: v in vmis && Hosts(pod, v) && Controlled(b.owners, v))
  {
    hide Hosted, Hosts, Controls, Controlled;
    if budgets != [] {
      var n := |budgets| - 1;
      CoveringIs(pod, budgets[..n], vmis, p);
      assert budgets == budgets[..n] + [budgets[n]];
      DigestIs(budgets[n], pod, vmis);
    }
  }

  lemma DigestIs(b: Budget, pod: Pod, vmis: seq<VMI>)
    requires UniqueVMIs(vmis)
    ensures var p := Digest(b, pod, vmis);
            && p.name == b.name && p.disruptionsAllowed == b.disruptionsAllowed
            && (p.kubeVirtOwned <==> exists v :: v in vmis && Hosts(pod, v) && Controlled(b.owners, v))
  {
    HostedIs(pod, vmis);
    if Hosted(pod, vmis).Some? {
      var w := Hosted(pod, vmis).value;
      ControlsIs(b.owners, w);
      forall v | v in vmis && Hosts(pod, v) ensures v == w { UnderItsUid(vmis, v); UnderItsUid(vmis, w); }
    }
  }
}
