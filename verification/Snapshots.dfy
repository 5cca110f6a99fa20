/** Taking a snapshot of one node, and what a drain that works on such snapshots may evict. */
module Snapshots {
  import opened Common
  import opened Kube
  import opened Sorting
  import opened Machine
  import opened Targets
  import opened Selection

  /** Everything that was listed; `node` is the node being drained. */
  datatype View = View(
    node: Node, nodes: seq<Node>, pods: seq<Pod>, pvs: seq<PersistentVolume>, pvcs: seq<Claim>,
    budgets: seq<Budget>, vmis: seq<VMI>, migrations: seq<Migration>)

  /** What further lookups yield: the effective eviction strategy, and the volumes a VMI should have. */
  datatype Lookups = Lookups(strategy: VMI -> string, expected: VMI -> Option<seq<string>>, num: Numbers)

  // ---------------------------------------------------------------- the parts

  function AttachmentUids(vmi: VMI): set<string> {
    (set s | s in vmi.volumeStatus && s.attachment.Some? :: s.attachment.value.podUid)
    + (if vmi.targetAttachment.Some? then {vmi.targetAttachment.value} else {})
  }

  function AttachmentNames(vmi: VMI): set<string> {
    set s | s in vmi.volumeStatus && s.attachment.Some? :: s.attachment.value.podName
  }

  /** The pods that any VMI names as attaching one of its volumes. */
  function AttachmentsOf(vmis: seq<VMI>): Attachments {
    Attachments(set v, u | v in vmis && u in AttachmentUids(v) :: u,
                set v, n | v in vmis && n in AttachmentNames(v) :: n)
  }

  function PodsOn(pods: seq<Pod>, node: string): seq<Pod> {
    if pods == [] then []
    else PodsOn(pods[..|pods| - 1], node)
         + (if pods[|pods| - 1].nodeName == node then [pods[|pods| - 1]] else [])
  }

  function VMIsOn(vmis: seq<VMI>, node: string): seq<VMI> {
    if vmis == [] then []
    else VMIsOn(vmis[..|vmis| - 1], node)
         + (if vmis[|vmis| - 1].nodeName == node then [vmis[|vmis| - 1]] else [])
  }

  function SourceNode(m: Migration): string {
    if m.stateSource != "" then m.stateSource else Lookup(m.annotations, EVACUATION)
  }

  function MigrationDigest(m: Migration): MigrationInfo {
    MigrationInfo(m.uid, m.namespace, m.vmiName, SourceNode(m), m.phase != "Succeeded" && m.phase != "Failed",
                  m.phase == "Failed")
  }

  /** The migrations away from the node, in list order. */
  function MigrationsFrom(ms: seq<Migration>, node: string): seq<MigrationInfo> {
    if ms == [] then []
    else MigrationsFrom(ms[..|ms| - 1], node)
         + (if SourceNode(ms[|ms| - 1]) == node then [MigrationDigest(ms[|ms| - 1])] else [])
  }

  predicate LiveMigrates(strategy: string) { strategy == "LiveMigrate" || strategy == "LiveMigrateIfPossible" }

  predicate Movable(vmi: VMI, view: View, look: Lookups) {
    && StatusOf(vmi.conditions, "LiveMigratable") == Some("True") && LiveMigrates(look.strategy(vmi))
    && TargetsOf(vmi, LauncherOf(vmi, view.pods), view.nodes, view.pvcs, view.pvs, view.node.name, look.num) != []
  }

  /** What is said of one VMI of the node. */
  predicate Describes(info: VMIInfo, view: View, look: Lookups) {
    && info.launcher == LauncherOf(info.vmi, view.pods)
    && multiset(info.launcherPDBs)
       == (if info.launcher.None? then multiset([])
           else multiset(Covering(info.launcher.value, view.budgets, view.vmis)))
    && SortedBy(info.launcherPDBs, NameOf)
    && Some(info.hotplugVolumes) == look.expected(info.vmi)
    && (info.blocked <==> !Movable(info.vmi, view, look))
  }

  function VMIsIn(infos: seq<VMIInfo>): seq<VMI> { seq(|infos|, i requires 0 <= i < |infos| => infos[i].vmi) }

  predicate ClassifiedAll(infos: seq<PodInfo>, pods: seq<Pod>, at: Attachments, vmis: seq<VMI>) {
    |infos| == |pods| && forall i :: 0 <= i < |infos| ==> Classified(infos[i], pods[i], at, vmis)
  }

  /** The snapshot `s` shows the node as `view` has it. */
  ghost predicate Depicts(s: Snapshot, view: View, look: Lookups) {
    && s.nodeUid == view.node.uid && s.unschedulable == view.node.unschedulable
    && ClassifiedAll(s.pods, PodsOn(view.pods, view.node.name), AttachmentsOf(view.vmis), view.vmis)
    && multiset(VMIsIn(s.vmis)) == multiset(VMIsOn(view.vmis, view.node.name)) && SortedBy(s.vmis, VMIKey)
    && (forall info :: info in s.vmis ==> Describes(info, view, look))
    && s.migrations == MigrationsFrom(view.migrations, view.node.name)
  }

  // ---------------------------------------------------------------- the methods

  method CollectAttachments(vmis: seq<VMI>) returns (at: Attachments)
    ensures at == AttachmentsOf(vmis)
  {
    hide AttachmentsOf;
    NoAttachments();
    var uids, names := {}, {};
    for i := 0 to |vmis|
      invariant Attachments(uids, names) == AttachmentsOf(vmis[..i])
    {
      assert vmis[..i + 1] == vmis[..i] + [vmis[i]];
      AttachmentsOneMore(vmis[..i], vmis[i]);
      for j := 0 to |vmis[i].volumeStatus|
        invariant uids == AttachmentsOf(vmis[..i]).uids
                          + set s | s in vmis[i].volumeStatus[..j] && s.attachment.Some? :: s.attachment.value.podUid
        invariant names == AttachmentsOf(vmis[..i]).names
                           + set s | s in vmis[i].volumeStatus[..j] && s.attachment.Some? :: s.attachment.value.podName
      {
        var status := vmis[i].volumeStatus[j];
        assert vmis[i].volumeStatus[..j + 1] == vmis[i].volumeStatus[..j] + [status];
        if status.attachment.Some? {
          uids := uids + {status.attachment.value.podUid};
          names := names + {status.attachment.value.podName};
        }
      }
      assert vmis[i].volumeStatus[..|vmis[i].volumeStatus|] == vmis[i].volumeStatus;
      if vmis[i].targetAttachment.Some? { uids := uids + {vmis[i].targetAttachment.value}; }
    }
    assert vmis[..|vmis|] == vmis;
    return Attachments(uids, names);
  }

  lemma NoAttachments()
    ensures AttachmentsOf([]) == Attachments({}, {})
  {}

  lemma AttachmentsOneMore(vmis: seq<VMI>, v: VMI)
    ensures AttachmentsOf(vmis + [v])
         == Attachments(AttachmentsOf(vmis).uids + AttachmentUids(v), AttachmentsOf(vmis).names + AttachmentNames(v))
  {
    hide AttachmentUids, AttachmentNames;
    assert forall x :: x in vmis + [v] <==> x in vmis || x == v;
  }

  method ClassifyAll(pods: seq<Pod>, node: string, at: Attachments, vmis: seq<VMI>) returns (infos: seq<PodInfo>)
    ensures ClassifiedAll(infos, PodsOn(pods, node), at, vmis)
  {
    hide Classified;
    infos := [];
    for i := 0 to |pods|
      invariant ClassifiedAll(infos, PodsOn(pods[..i], node), at, vmis)
    {
      assert pods[..i + 1][..i] == pods[..i];
      if pods[i].nodeName != node { continue; }
      var info := ClassifyPod(pods[i], at, vmis);
      infos := infos + [info];
    }
    assert pods[..|pods|] == pods;
  }

  /** One VMI; no answer when its expected volumes cannot be found out. */
  method DescribeVMI(vmi: VMI, view: View, look: Lookups) returns (r: Option<VMIInfo>)
    ensures r.Some? <==> look.expected(vmi).Some?
    ensures r.Some? ==> r.value.vmi == vmi && Describes(r.value, view, look)
  {
    hide OwnedBy, Eligible, TargetsOf, LauncherOf, Covering, StatusOf, LiveMigrates;
    var migratable := HasTrueCondition(vmi.conditions, "LiveMigratable");
    var launcher := LauncherFor(vmi, view.pods);
    var pdbs := [];
    if launcher.Some? { pdbs := MatchingPDBs(launcher.value, view.budgets, view.vmis); }
    var targets := EligibleTargets(vmi, launcher, view.nodes, view.pvcs, view.pvs, view.node.name, look.num);
    if look.expected(vmi).None? { return None; }
    var blocked := !migratable || !LiveMigrates(look.strategy(vmi)) || |targets| == 0;
    return Some(VMIInfo(vmi, launcher, pdbs, look.expected(vmi).value, blocked));
  }

  method DescribeVMIs(view: View, look: Lookups) returns (r: Option<seq<VMIInfo>>)
    ensures r.Some? <==> forall v :: v in VMIsOn(view.vmis, view.node.name) ==> look.expected(v).Some?
    ensures r.Some? ==>
              && multiset(VMIsIn(r.value)) == multiset(VMIsOn(view.vmis, view.node.name)) && SortedBy(r.value, VMIKey)
              && forall info :: info in r.value ==> Describes(info, view, look)
  {
    hide Describes;
    var infos := [];
    for i := 0 to |view.vmis|
      invariant VMIsIn(infos) == VMIsOn(view.vmis[..i], view.node.name)
      invariant forall v :: v in VMIsOn(view.vmis[..i], view.node.name) ==> look.expected(v).Some?
      invariant forall info :: info in infos ==> Describes(info, view, look)
    {
      assert view.vmis[..i + 1][..i] == view.vmis[..i];
      var vmi := view.vmis[i];
      if vmi.nodeName != view.node.name { continue; }
      var info := DescribeVMI(vmi, view, look);
      if info.None? {
        VMIsOnGrows(view.vmis, i, view.node.name, vmi);
        return None;
      }
      infos := infos + [info.value];
    }
    assert view.vmis[..|view.vmis|] == view.vmis;
    var sorted := SortBy(infos, VMIKey);
    MappedAlike(sorted, infos);
    forall info | info in sorted ensures Describes(info, view, look) {
      assert info in multiset(sorted);
    }
    return Some(sorted);
  }

  // ---------------------------------------------------------------- what is listed, spelled out

  /** A VMI is blocked unless it can migrate live, is meant to, and has somewhere to go. */
  lemma BlockedIs(info: VMIInfo, view: View, look: Lookups)
    requires Describes(info, view, look) && DistinctNames(view.nodes)
    ensures info.blocked
            <==> !(&& IsTrue(info.vmi.conditions, "LiveMigratable")
                   && (look.strategy(info.vmi) == "LiveMigrate" || look.strategy(info.vmi) == "LiveMigrateIfPossible")
                   && exists n :: n in view.nodes
                        && Eligible(info.vmi, NeedsOf(info.vmi, info.launcher), view.pvcs, view.pvs, view.node.name, n,
                                    look.num))
  {
    ConditionStatusIs(info.vmi.conditions, "LiveMigratable");
    TargetsExact(info.vmi, info.launcher, view.nodes, view.pvcs, view.pvs, view.node.name, look.num);
    var out := TargetsOf(info.vmi, info.launcher, view.nodes, view.pvcs, view.pvs, view.node.name, look.num);
    hide Eligible, IsTrue, StatusOf, TargetsOf;
    if out != [] { assert out[0] in out; }
    if n :| n in view.nodes
            && Eligible(info.vmi, NeedsOf(info.vmi, info.launcher), view.pvcs, view.pvs, view.node.name, n, look.num) {
      assert n.name in out;
    }
  }

  /** The migrations whose source, stated or else annotated, is the node; only `Failed` counts as failed. */
  lemma {:induction false} MigrationsFromIs(ms: seq<Migration>, node: string, info: MigrationInfo)
    ensures info in MigrationsFrom(ms, node)
            <==> exists m :: m in ms && MigratesFrom(m, node)
                   && info.uid == m.uid && info.namespace == m.namespace && info.vmiName == m.vmiName
                   && info.source == node && (info.failed <==> m.phase == "Failed")
                   && (info.active <==> m.phase !in {"Succeeded", "Failed"})
  {
    if ms != [] {
      var n := |ms| - 1;
      MigrationsFromIs(ms[..n], node, info);
      assert ms == ms[..n] + [ms[n]];
      assert SourceNode(ms[n]) == node <==> MigratesFrom(ms[n], node) by { SourceIs(ms[n], node); }
    }
  }

  /** The source is the stated one, or the annotated one if none is stated. */
  predicate MigratesFrom(m: Migration, node: string) {
    if m.stateSource != "" then m.stateSource == node
    else if "kubevirt.io/evacuationMigration" in m.annotations
    then m.annotations["kubevirt.io/evacuationMigration"] == node else node == ""
  }

  lemma SourceIs(m: Migration, node: string)
    ensures SourceNode(m) == node <==> MigratesFrom(m, node)
  {}

  /** The pods that attach volumes: by UID, those that a volume or a migration names; by name, those a volume names. */
  lemma AttachmentsAre(vmis: seq<VMI>, u: string, n: string)
    ensures u in AttachmentsOf(vmis).uids
            <==> exists v :: v in vmis
                   && (v.targetAttachment == Some(u)
                       || exists s :: s in v.volumeStatus && s.attachment.Some? && s.attachment.value.podUid == u)
    ensures n in AttachmentsOf(vmis).names
            <==> exists v, s ::
                   v in vmis && s in v.volumeStatus && s.attachment.Some? && s.attachment.value.podName == n
  {
    if u in AttachmentsOf(vmis).uids {
      var v :| v in vmis && u in AttachmentUids(v);
      assert v.targetAttachment == Some(u)
             || exists s :: s in v.volumeStatus && s.attachment.Some? && s.attachment.value.podUid == u;
    }
    if n in AttachmentsOf(vmis).names {
      var v :| v in vmis && n in AttachmentNames(v);
      var s :| s in v.volumeStatus && s.attachment.Some? && s.attachment.value.podName == n;
    }
    forall v, s | v in vmis && s in v.volumeStatus && s.attachment.Some? && s.attachment.value.podName == n
      ensures n in AttachmentsOf(vmis).names
    {
      assert n in AttachmentNames(v);
    }
    forall v | v in vmis && (v.targetAttachment == Some(u)
                             || exists s :: s in v.volumeStatus && s.attachment.Some? && s.attachment.value.podUid == u)
      ensures u in AttachmentsOf(vmis).uids
    {
      assert u in AttachmentUids(v);
    }
  }

  lemma {:induction false} VMIsOnGrows(vmis: seq<VMI>, i: nat, node: string, vmi: VMI)
    requires i < |vmis| && vmis[i] == vmi && vmi.nodeName == node
    ensures vmi in VMIsOn(vmis, node)
  {
    if i < |vmis| - 1 { VMIsOnGrows(vmis[..|vmis| - 1], i, node, vmi); }
  }

  /** Rearranging digests rearranges what they digest. */
  lemma {:induction false} MappedAlike(a: seq<VMIInfo>, b: seq<VMIInfo>)
    requires multiset(a) == multiset(b)
    ensures multiset(VMIsIn(a)) == multiset(VMIsIn(b))
    decreases |a|
  {
    if a == [] {
      assert |multiset(b)| == |b|;
    } else {
      var n := |a| - 1;
      var k := RearrangedWithout(a, b);
      MappedAlike(a[..n], Without(b, k));
      MappedWithout(a, n);
      assert Without(a, n) == a[..n];
      MappedWithout(b, k);
    }
  }

  lemma MappedWithout(b: seq<VMIInfo>, k: nat)
    requires k < |b|
    ensures multiset(VMIsIn(b)) == multiset(VMIsIn(Without(b, k))) + multiset{b[k].vmi}
  {
    assert VMIsIn(Without(b, k)) == Without(VMIsIn(b), k);
    WithoutCount(VMIsIn(b), k);
  }

  method ListMigrations(ms: seq<Migration>, node: string) returns (out: seq<MigrationInfo>)
    ensures out == MigrationsFrom(ms, node)
  {
    out := [];
    for i := 0 to |ms|
      invariant out == MigrationsFrom(ms[..i], node)
    {
      assert ms[..i + 1][..i] == ms[..i];
      var source := ms[i].stateSource;
      if source == "" { source := Lookup(ms[i].annotations, EVACUATION); }
      if source != node { continue; }
      out := out + [MigrationDigest(ms[i])];
    }
    assert ms[..|ms|] == ms;
  }

  /** One snapshot; it fails when a listing does, and when some VMI's expected volumes cannot be found out. */
  method TakeSnapshot(listed: Reply<View>, look: Lookups) returns (r: Reply<Snapshot>)
    ensures r.Got? <==> listed.Got? && forall v :: v in VMIsOn(listed.value.vmis, listed.value.node.name) ==>
                                                     look.expected(v).Some?
    ensures r.Got? ==> Depicts(r.value, listed.value, look)
  {
    hide Classified, Describes, AttachmentsOf;
    if listed.Lost? { return Lost; }
    var view := listed.value;
    var at := CollectAttachments(view.vmis);
    var pods := ClassifyAll(view.pods, view.node.name, at, view.vmis);
    var vmis := DescribeVMIs(view, look);
    if vmis.None? { return Lost; }
    var migrations := ListMigrations(view.migrations, view.node.name);
    return Got(Snapshot(view.node.uid, view.node.unschedulable, vmis.value, migrations, pods));
  }
}
