/**
 The API server's objects that drains share: the node and its drain lease, with UIDs and resource
 versions, and the atomic writes the client sends to them.
 */
module ApiServer {
  import opened Common

  datatype Lease = Lease(uid: nat, version: nat, holder: Option<string>)

  /** The node fields a drain writes; `owner` is the cordon-owner annotation. */
  datatype NodeObject = NodeObject(uid: string, version: nat, unschedulable: bool, owner: Option<string>)

  /** Who changed the node's scheduling, newest last; `Origin` is where the history starts. */
  datatype Write =
    | CordonedBy(run: string) | RestoredBy(run: string) | Uncordoned | Foreign | Recreated
    | Annotated(owner: Option<string>)
  datatype Log = Origin(owner: Option<string>) | Wrote(past: Log, write: Write)

  /** `next` is larger than every version and lease UID handed out so far. */
  datatype Server = Server(lease: Option<Lease>, node: NodeObject, next: nat, log: Log)

  // ---------------------------------------------------------------- patches

  datatype PatchOp =
    | TestUid(uid: string) | TestVersion(version: nat)
    | TestOwner(owner: string) | TestUnschedulable(value: bool)
    | ReplaceUnschedulable(value': bool) | RemoveOwner

  /** One JSON Patch operation; a failed test or a missing target yields `None`. */
  function ApplyOp(n: NodeObject, op: PatchOp): Option<NodeObject> {
    match op
    case TestUid(u) => if n.uid == u then Some(n) else None
    case TestVersion(v) => if n.version == v then Some(n) else None
    case TestOwner(o) => if n.owner == Some(o) then Some(n) else None
    case TestUnschedulable(b) => if n.unschedulable == b then Some(n) else None
    case ReplaceUnschedulable(b) => Some(n.(unschedulable := b))
    case RemoveOwner => if n.owner.Some? then Some(n.(owner := None)) else None
  }

  /** A JSON Patch document applies as a whole or not at all (section 5 of RFC 6902). */
  function ApplyPatch(n: NodeObject, ops: seq<PatchOp>): Option<NodeObject>
    decreases |ops|
  {
    if ops == [] then Some(n)
    else
      var first := ApplyOp(n, ops[0]);
      if first.None? then None else ApplyPatch(first.value, ops[1..])
  }

  /** The document that a rollback sends, for the node UID and version it was given. */
  function RollbackOps(uid: string, version: nat, run: string): seq<PatchOp> {
    [TestUid(uid), TestVersion(version), TestOwner(run), TestUnschedulable(true),
     ReplaceUnschedulable(false), RemoveOwner]
  }

  lemma PatchCons(n: NodeObject, op: PatchOp, rest: seq<PatchOp>)
    ensures ApplyPatch(n, [op] + rest)
         == if ApplyOp(n, op).None? then None else ApplyPatch(ApplyOp(n, op).value, rest)
  {
    assert ([op] + rest)[1..] == rest;
  }

  /** What a rollback does: exactly our own, unchanged cordon becomes schedulable and unowned. */
  lemma RollbackExact(n: NodeObject, uid: string, version: nat, run: string)
    ensures ApplyPatch(n, RollbackOps(uid, version, run)) ==
            if n.uid == uid && n.version == version && n.owner == Some(run) && n.unschedulable
            then Some(n.(unschedulable := false, owner := None)) else None
  {
    var free := n.(unschedulable := false);
    var t5 := [RemoveOwner];
    var t4 := [ReplaceUnschedulable(false)] + t5;
    var t3 := [TestUnschedulable(true)] + t4;
    var t2 := [TestOwner(run)] + t3;
    var t1 := [TestVersion(version)] + t2;
    assert RollbackOps(uid, version, run) == [TestUid(uid)] + t1;
    PatchCons(n, TestUid(uid), t1);
    PatchCons(n, TestVersion(version), t2);
    PatchCons(n, TestOwner(run), t3);
    PatchCons(n, TestUnschedulable(true), t4);
    PatchCons(n, ReplaceUnschedulable(false), t5);
    assert t5 == [RemoveOwner] + [];
    PatchCons(free, RemoveOwner, []);
  }

  /** Server-side apply without force: refused while another run's annotation is there. */
  function ApplyCordon(n: NodeObject, run: string): Option<NodeObject> {
    if n.owner.None? || n.owner == Some(run)
    then Some(n.(unschedulable := true, owner := Some(run))) else None
  }

  /** A merge patch with a null annotation removes it (section 2 of RFC 7396). */
  function MergeUnschedulable(n: NodeObject, value: bool): NodeObject {
    n.(unschedulable := value, owner := None)
  }

  /** Store a patched node under a new version. */
  function Store(s: Server, patched: Option<NodeObject>, w: Write): Server {
    if patched.None? then s
    else s.(node := patched.value.(version := s.next), next := s.next + 1, log := Wrote(s.log, w))
  }

  // ---------------------------------------------------------------- the drain's writes

  function PutLease(s: Server, run: string): Server {
    if s.lease.Some? then s
    else s.(lease := Some(Lease(s.next, s.next, Some(run))), next := s.next + 1)
  }

  predicate SameLease(s: Server, uid: nat, version: nat) {
    s.lease.Some? && s.lease.value.uid == uid && s.lease.value.version == version
  }

  /** A delete with UID and version preconditions. */
  function DropLease(s: Server, uid: nat, version: nat): Server {
    if SameLease(s, uid, version) then s.(lease := None) else s
  }

  function CordonNode(s: Server, run: string): Server {
    Store(s, ApplyCordon(s.node, run), CordonedBy(run))
  }

  function RollbackNode(s: Server, uid: string, version: nat, run: string): Server {
    Store(s, ApplyPatch(s.node, RollbackOps(uid, version, run)), RestoredBy(run))
  }

  /** Cordoning a schedulable, unowned node and rolling back undisturbed restores its scheduling state. */
  lemma CordonRollbackRoundTrip(s: Server, run: string)
    requires !s.node.unschedulable && s.node.owner.None?
    ensures var after := CordonNode(s, run);
            && after.node.unschedulable && after.node.owner == Some(run)
            && RollbackNode(after, s.node.uid, after.node.version, run).node
               == s.node.(version := after.next)
  {
    var after := CordonNode(s, run);
    RollbackExact(after.node, s.node.uid, after.node.version, run);
  }

  // ---------------------------------------------------------------- history

  /** The cordon owner that the history of writes leaves; foreign writes do not touch the annotation. */
  function OwnerOf(log: Log): Option<string> {
    match log
    case Origin(o) => o
    case Wrote(past, CordonedBy(r)) => Some(r)
    case Wrote(past, Annotated(o)) => o
    case Wrote(past, Foreign) => OwnerOf(past)
    case Wrote(past, _) => None
  }

  /** The newest write is the cordon of `run`, but for foreign writes after it. */
  predicate CordonStands(log: Log, run: string) {
    log.Wrote? && (log.write == CordonedBy(run) || (log.write.Foreign? && CordonStands(log.past, run)))
  }

  /** The newest write is somebody's, who put `run` into the annotation by hand, but for foreign writes after it. */
  predicate ForgeryStands(log: Log, run: string) {
    log.Wrote? && (log.write == Annotated(Some(run)) || (log.write.Foreign? && ForgeryStands(log.past, run)))
  }

  function OriginOwner(log: Log): Option<string> {
    match log
    case Origin(o) => o
    case Wrote(past, _) => OriginOwner(past)
  }

  lemma {:induction false} OwnedMeansCordoned(log: Log, run: string)
    requires OwnerOf(log) == Some(run) && OriginOwner(log) != Some(run)
    ensures CordonStands(log, run) || ForgeryStands(log, run)
  {
    match log
    case Origin(o) =>
    case Wrote(past, w) => if w.Foreign? { OwnedMeansCordoned(past, run); }
  }

  /** A forged owner is trusted: the rollback undoes a cordon that the run never made. */
  lemma ForgeryIsUndone(s: Server, run: string)
    requires s.node.unschedulable && s.node.owner == Some(run)
    ensures var after := RollbackNode(s, s.node.uid, s.node.version, run); !after.node.unschedulable
  {
    RollbackExact(s.node, s.node.uid, s.node.version, run);
  }

  /** Every restore in the history undid the restoring run's own cordon. */
  predicate RestoresOwn(log: Log) {
    log.Wrote? ==> RestoresOwn(log.past) && (log.write.RestoredBy? ==> OwnerOf(log.past) == Some(log.write.run))
  }
}
