/**
 The Kubernetes and KubeVirt objects the client reads, and the digests of them
 (`PodInfo`, `VMIInfo`, `MigrationInfo`, `Snapshot`) that the coordinator works on.
 */
module Kube {
  import opened Common

  /** An owner reference; `group` is the parsed API group, `None` when the version does not parse. */
  datatype Owner = Owner(group: Option<string>, kind: string, name: string, uid: string, controller: bool)

  datatype Toleration = Toleration(key: string, operator: string, value: string, effect: string)
  datatype Taint = Taint(key: string, value: string, effect: string)
  datatype Requirement = Requirement(key: string, operator: string, values: seq<string>)
  datatype Term = Term(expressions: seq<Requirement>, fields: seq<Requirement>)

  /** An affinity block; `required` is `None` when it carries no required node affinity. */
  datatype Affinity = Affinity(required: Option<seq<Term>>)

  datatype Condition = Condition(kind: string, status: string)

  datatype Node = Node(
    name: string, uid: string, unschedulable: bool,
    labels: map<string, string>, taints: seq<Taint>, conditions: seq<Condition>)

  datatype Pod = Pod(
    namespace: string, name: string, uid: string, generateName: string,
    labels: map<string, string>, annotations: map<string, string>, owners: seq<Owner>,
    nodeName: string, nodeSelector: map<string, string>, affinity: Option<Affinity>,
    tolerations: seq<Toleration>, emptyDirVolumes: seq<bool>, phase: string)

  datatype Attachment = Attachment(podUid: string, podName: string)
  datatype VolumeStatus = VolumeStatus(name: string, phase: string, attachment: Option<Attachment>)

  /** A VMI volume; `claim` names the persistent volume claim it uses, if any. */
  datatype Volume = Volume(name: string, claim: Option<string>)

  /** `targetAttachment` is the attachment pod UID of the migration state, `None` without one. */
  datatype VMI = VMI(
    namespace: string, name: string, uid: string, nodeName: string,
    activePods: map<string, string>, conditions: seq<Condition>,
    volumes: seq<Volume>, volumeStatus: seq<VolumeStatus>, targetAttachment: Option<string>,
    nodeSelector: map<string, string>, affinity: Option<Affinity>, tolerations: seq<Toleration>)

  datatype Claim = Claim(namespace: string, name: string, volumeName: string)
  datatype PersistentVolume = PersistentVolume(name: string, required: Option<seq<Term>>)

  /** A disruption budget object; `selects` is `None` when its selector is missing or does not parse. */
  datatype Budget = Budget(
    namespace: string, name: string, owners: seq<Owner>, disruptionsAllowed: int,
    selects: Option<map<string, string> -> bool>)

  /** A migration object; `stateSource` is the source node its status records, empty without one. */
  datatype Migration = Migration(
    uid: string, namespace: string, vmiName: string, stateSource: string, annotations: map<string, string>,
    phase: string)

  datatype PDB = PDB(name: string, disruptionsAllowed: int, kubeVirtOwned: bool)

  datatype PodInfo = PodInfo(
    pod: Pod, launcher: bool, unverifiedLauncher: bool, hotplug: bool,
    ignored: bool, managed: bool, emptyDir: bool)

  datatype VMIInfo = VMIInfo(
    vmi: VMI, launcher: Option<Pod>, launcherPDBs: seq<PDB>,
    hotplugVolumes: seq<string>, blocked: bool)

  datatype MigrationInfo = MigrationInfo(
    uid: string, namespace: string, vmiName: string, source: string, active: bool, failed: bool)

  datatype Snapshot = Snapshot(
    nodeUid: string, unschedulable: bool,
    vmis: seq<VMIInfo>, migrations: seq<MigrationInfo>, pods: seq<PodInfo>)

  function Key(namespace: string, name: string): string { namespace + "/" + name }
  function VMIKey(v: VMIInfo): string { Key(v.vmi.namespace, v.vmi.name) }
  function MigrationKey(m: MigrationInfo): string { Key(m.namespace, m.vmiName) }
}
