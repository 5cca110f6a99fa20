/** Readiness of hotplugged volumes, resolved through their attachment pods. */
module Hotplug {
  import opened Common
  import opened Kube

  /** The last pod of the listing under each UID. */
  function PodsByUid(pods: seq<Pod>): map<string, Pod> {
    if pods == [] then map[]
    else PodsByUid(pods[..|pods| - 1])[pods[|pods| - 1].uid := pods[|pods| - 1]]
  }

  /** The last pod of the listing under each name. */
  function PodsByName(pods: seq<Pod>): map<string, Pod> {
    if pods == [] then map[]
    else PodsByName(pods[..|pods| - 1])[pods[|pods| - 1].name := pods[|pods| - 1]]
  }

  /** The last status entry under each volume name. */
  function StatusByName(entries: seq<VolumeStatus>): map<string, VolumeStatus> {
    if entries == [] then map[]
    else StatusByName(entries[..|entries| - 1])[entries[|entries| - 1].name := entries[|entries| - 1]]
  }

  predicate InSpec(vmi: VMI, name: string) {
    exists i :: 0 <= i < |vmi.volumes| && vmi.volumes[i].name == name
  }

  function Find(pods: map<string, Pod>, id: string): Option<Pod> {
    if id != "" && id in pods then Some(pods[id]) else None
  }

  /**
   The pod that attaches a volume: during a migration the pod the migration names,
   else the pod the volume names by UID, else the one it names by name.
   */
  function AttachmentPod(vmi: VMI, pods: seq<Pod>, target: string, at: Attachment): Option<Pod> {
    var moving := if target != vmi.nodeName && vmi.targetAttachment.Some?
                  then Find(PodsByUid(pods), vmi.targetAttachment.value) else None;
    var byUid := if moving.Some? then moving else Find(PodsByUid(pods), at.podUid);
    if byUid.Some? then byUid else Find(PodsByName(pods), at.podName)
  }

  /** `name` is in the spec, is reported ready, and its attachment pod runs on `target`. */
  predicate VolumeReady(vmi: VMI, pods: seq<Pod>, target: string, name: string) {
    var status := StatusByName(vmi.volumeStatus);
    && name in status
    && InSpec(vmi, name)
    && status[name].attachment.Some?
    && status[name].phase == "Ready"
    && var pod := AttachmentPod(vmi, pods, target, status[name].attachment.value);
       pod.Some? && pod.value.nodeName == target && pod.value.phase == "Running"
  }

  /** An empty target stands for the node the VMI currently runs on. */
  function TargetOf(vmi: VMI, target: string): string {
    if target == "" then vmi.nodeName else target
  }

  // ---------------------------------------------------------------- readiness on the objects

  lemma {:induction false} ByUidIs(pods: seq<Pod>, id: string)
    ensures id in PodsByUid(pods) <==> exists p :: p in pods && p.uid == id
    ensures id in PodsByUid(pods) ==> PodsByUid(pods)[id] in pods && PodsByUid(pods)[id].uid == id
  {
    if pods != [] {
      ByUidIs(pods[..|pods| - 1], id);
      assert pods == pods[..|pods| - 1] + [pods[|pods| - 1]];
    }
  }

  lemma {:induction false} ByNameIs(pods: seq<Pod>, id: string)
    ensures id in PodsByName(pods) <==> exists p :: p in pods && p.name == id
    ensures id in PodsByName(pods) ==> PodsByName(pods)[id] in pods && PodsByName(pods)[id].name == id
  {
    if pods != [] {
      ByNameIs(pods[..|pods| - 1], id);
      assert pods == pods[..|pods| - 1] + [pods[|pods| - 1]];
    }
  }

  lemma {:induction false} VolumeStatusIs(entries: seq<VolumeStatus>, name: string)
    ensures name in StatusByName(entries) <==> exists e :: e in entries && e.name == name
    ensures name in StatusByName(entries) ==>
              StatusByName(entries)[name] in entries && StatusByName(entries)[name].name == name
  {
    if entries != [] {
      VolumeStatusIs(entries[..|entries| - 1], name);
      assert entries == entries[..|entries| - 1] + [entries[|entries| - 1]];
    }
  }

  /**
   The volume is in the spec, has an entry reported ready, and one of the listed pods that the entry or the migration
   names runs on the target.
   */
  predicate AttachedOn(vmi: VMI, pods: seq<Pod>, target: string, name: string) {
    && (exists v :: v in vmi.volumes && v.name == name)
    && exists e, p :: e in vmi.volumeStatus && p in pods
                      && e.name == name && e.phase == "Ready" && e.attachment.Some?
                      && p.nodeName == target && p.phase == "Running"
                      && (p.uid == e.attachment.value.podUid || p.name == e.attachment.value.podName
                          || (target != vmi.nodeName && Some(p.uid) == vmi.targetAttachment))
  }

  /**
   A ready volume is in the spec, has an entry reported ready, and one of the listed pods that the entry or the
   migration names runs on the target.
   */
  lemma ReadyNeeds(vmi: VMI, pods: seq<Pod>, target: string, name: string)
    requires VolumeReady(vmi, pods, target, name)
    ensures AttachedOn(vmi, pods, target, name)
  {
    VolumeStatusIs(vmi.volumeStatus, name);
    var e := StatusByName(vmi.volumeStatus)[name];
    var at := e.attachment.value;
    ByUidIs(pods, at.podUid);
    ByNameIs(pods, at.podName);
    if vmi.targetAttachment.Some? { ByUidIs(pods, vmi.targetAttachment.value); }
    var p := AttachmentPod(vmi, pods, target, at).value;
    assert p in pods && e in vmi.volumeStatus;
    var i :| 0 <= i < |vmi.volumes| && vmi.volumes[i].name == name;
    assert vmi.volumes[i] in vmi.volumes;
  }

  /** The listings name each pod and each volume status once. */
  ghost predicate Distinct(vmi: VMI, pods: seq<Pod>) {
    && (forall p, q :: p in pods && q in pods && (p.uid == q.uid || p.name == q.name) ==> p == q)
    && (forall e, f :: e in vmi.volumeStatus && f in vmi.volumeStatus && e.name == f.name ==> e == f)
  }

  /**
   Where the VMI runs, a volume is ready if and only if it is in the spec, its entry is reported ready, and the pod
   with the entry's UID, or if no pod has it the one with the entry's name, runs on that node.
   */
  lemma ReadyIs(vmi: VMI, pods: seq<Pod>, name: string)
    requires Distinct(vmi, pods)
    ensures VolumeReady(vmi, pods, vmi.nodeName, name)
            <==> (exists v :: v in vmi.volumes && v.name == name)
                 && exists e, p :: e in vmi.volumeStatus && p in pods
                      && e.name == name && e.phase == "Ready" && e.attachment.Some?
                      && p.nodeName == vmi.nodeName && p.phase == "Running"
                      && ((e.attachment.value.podUid != "" && p.uid == e.attachment.value.podUid)
                          || (e.attachment.value.podName != "" && p.name == e.attachment.value.podName
                              && (e.attachment.value.podUid == ""
                                  || forall q :: q in pods ==> q.uid != e.attachment.value.podUid)))
  {
    VolumeStatusIs(vmi.volumeStatus, name);
    if VolumeReady(vmi, pods, vmi.nodeName, name) {
      var e := StatusByName(vmi.volumeStatus)[name];
      var at := e.attachment.value;
      ByUidIs(pods, at.podUid);
      ByNameIs(pods, at.podName);
      var p := AttachmentPod(vmi, pods, vmi.nodeName, at).value;
      assert p in pods && e in vmi.volumeStatus;
      var i :| 0 <= i < |vmi.volumes| && vmi.volumes[i].name == name;
      assert vmi.volumes[i] in vmi.volumes;
    } else if exists v :: v in vmi.volumes && v.name == name {
      assert InSpec(vmi, name) by {
        var v :| v in vmi.volumes && v.name == name;
        var i :| 0 <= i < |vmi.volumes| && vmi.volumes[i] == v;
      }
      forall e, p | e in vmi.volumeStatus && p in pods
           && e.name == name && e.phase == "Ready" && e.attachment.Some?
           && p.nodeName == vmi.nodeName && p.phase == "Running"
        ensures !((e.attachment.value.podUid != "" && p.uid == e.attachment.value.podUid)
                  || (e.attachment.value.podName != "" && p.name == e.attachment.value.podName
                      && (e.attachment.value.podUid == ""
                          || forall q :: q in pods ==> q.uid != e.attachment.value.podUid)))
      {
        ByUidIs(pods, e.attachment.value.podUid);
        ByNameIs(pods, e.attachment.value.podName);
        assert StatusByName(vmi.volumeStatus)[name] == e;
      }
    }
  }

  /** How many of `names` are ready. */
  function ReadyCount(vmi: VMI, pods: seq<Pod>, target: string, names: seq<string>): nat {
    if names == [] then 0
    else ReadyCount(vmi, pods, target, names[..|names| - 1])
         + (if VolumeReady(vmi, pods, target, names[|names| - 1]) then 1 else 0)
  }

  /** Counting falls short of the expectation exactly when some named volume is not ready. */
  lemma {:induction false} ReadyCountComplete(vmi: VMI, pods: seq<Pod>, target: string, names: seq<string>)
    ensures ReadyCount(vmi, pods, target, names) <= |names|
    ensures ReadyCount(vmi, pods, target, names) == |names| <==>
            (forall n :: n in names ==> VolumeReady(vmi, pods, target, n))
  {
    if names != [] {
      var front := names[..|names| - 1];
      ReadyCountComplete(vmi, pods, target, front);
      assert names == front + [names[|names| - 1]];
    }
  }

  method HotplugState(vmi: VMI, pods: seq<Pod>, givenTarget: string, expectedNames: seq<string>)
    returns (expected: nat, ready: nat)
    ensures expected == |expectedNames| && ready <= expected
    ensures ready == ReadyCount(vmi, pods, TargetOf(vmi, givenTarget), expectedNames)
    ensures ready == expected <==>
            (forall n :: n in expectedNames ==> VolumeReady(vmi, pods, TargetOf(vmi, givenTarget), n))
    ensures ready == expected ==>
            forall n :: n in expectedNames ==>
              AttachedOn(vmi, pods, if givenTarget == "" then vmi.nodeName else givenTarget, n)
  {
    var target := givenTarget;
    if target == "" { target := vmi.nodeName; }
    expected, ready := |expectedNames|, 0;
    var byUid, byName := map[], map[];
    for i := 0 to |pods|
      invariant byUid == PodsByUid(pods[..i]) && byName == PodsByName(pods[..i])
    {
      assert pods[..i + 1][..i] == pods[..i];
      byUid := byUid[pods[i].uid := pods[i]];
      byName := byName[pods[i].name := pods[i]];
    }
    assert pods[..|pods|] == pods;
    var spec: set<string> := {};
    for i := 0 to |vmi.volumes|
      invariant forall n :: n in spec <==> exists j :: 0 <= j < i && vmi.volumes[j].name == n
    {
      spec := spec + {vmi.volumes[i].name};
    }
    var status := map[];
    for i := 0 to |vmi.volumeStatus|
      invariant status == StatusByName(vmi.volumeStatus[..i])
    {
      assert vmi.volumeStatus[..i + 1][..i] == vmi.volumeStatus[..i];
      status := status[vmi.volumeStatus[i].name := vmi.volumeStatus[i]];
    }
    assert vmi.volumeStatus[..|vmi.volumeStatus|] == vmi.volumeStatus;
    for i := 0 to |expectedNames|
      invariant ready == ReadyCount(vmi, pods, target, expectedNames[..i])
    {
      assert expectedNames[..i + 1][..i] == expectedNames[..i];
      var name := expectedNames[i];
      if name !in status || name !in spec || status[name].attachment.None? { continue; }
      if status[name].phase != "Ready" { continue; }
      var at := status[name].attachment.value;
      var pod: Option<Pod> := None;
      if target != vmi.nodeName && vmi.targetAttachment.Some? && vmi.targetAttachment.value != "" {
        pod := if vmi.targetAttachment.value in byUid then Some(byUid[vmi.targetAttachment.value]) else None;
      }
      if pod.None? && at.podUid != "" {
        pod := if at.podUid in byUid then Some(byUid[at.podUid]) else None;
      }
      if pod.None? && at.podName != "" {
        pod := if at.podName in byName then Some(byName[at.podName]) else None;
      }
      assert pod == AttachmentPod(vmi, pods, target, at);
      if pod.Some? && pod.value.nodeName == target && pod.value.phase == "Running" {
        ready := ready + 1;
      }
    }
    assert expectedNames[..|expectedNames|] == expectedNames;
    ReadyCountComplete(vmi, pods, target, expectedNames);
    if ready == expected {
      forall n | n in expectedNames ensures AttachedOn(vmi, pods, target, n) { ReadyNeeds(vmi, pods, target, n); }
    }
  }
}
