/**
 The client calls that change shared objects, request by request. A request may not arrive, or its reply may
 be lost; `others` is whatever the rest of the cluster does between the two requests of a call.
 */
module Client {
  import opened Common
  import opened ApiServer

  /** The fate of a request; a resent one was applied, then repeated because its first reply was lost. */
  datatype Fate = Delivered | NotSent | ReplyLost | Resent

  class Client {
    const run: string
    var server: Server

    constructor (run: string, server: Server)
      ensures this.run == run && this.server == server
    {
      this.run, this.server := run, server;
    }

    /** Create if absent; on a conflict, the lease is ours only if it already names us. */
    method AcquireDrainLease(create: Fate, others: Server -> Server, get: Fate) returns (ok: bool)
      modifies this
      ensures create.NotSent? ==> server == old(server) && !ok
      ensures old(server).lease.None? && create.Delivered? ==> ok && server == PutLease(old(server), run)
      ensures create.ReplyLost? ==> !ok
      ensures ok ==> server.lease.Some? && server.lease.value.holder == Some(run)
      ensures !create.NotSent? ==>
                server == PutLease(old(server), run) || server == others(PutLease(old(server), run))
      ensures !create.NotSent? && !create.ReplyLost? && get.Delivered?
              && KeepsLease(others, PutLease(old(server), run))
              ==> (ok <==> old(server).lease.None? || old(server).lease.value.holder == Some(run))
    {
      if create.NotSent? { return false; }
      var exists_ := server.lease.Some? || create.Resent?;
      server := PutLease(server, run);
      if create.ReplyLost? { return false; }
      if !exists_ { return true; }
      server := others(server);
      if !get.Delivered? || server.lease.None? { return false; }
      return server.lease.value.holder == Some(run);
    }

    /**
     Deletes the lease only as it was read, naming this run: a lease of somebody else, or one that was replaced
     or edited since, stays.
     */
    method ReleaseDrainLease(get: Fate, others: Server -> Server, delete: Fate) returns (ok: bool)
      modifies this
      ensures server == old(server) || server == others(old(server))
              || (HeldBy(old(server), run) && server == others(old(server)).(lease := None)
                  && SameLease(others(old(server)), old(server).lease.value.uid, old(server).lease.value.version))
      ensures ok ==> server.lease.None?
      ensures get.Delivered? && old(server).lease.None? ==> ok && server == old(server)
      ensures HeldBy(old(server), run) && others(old(server)) == old(server) && get.Delivered? && delete.Delivered?
              ==> ok
    {
      if !get.Delivered? { return false; }
      if server.lease.None? { return true; }
      var found := server.lease.value;
      if found.holder != Some(run) { return false; }
      server := others(server);
      if delete.NotSent? { return false; }
      ok := SameLease(server, found.uid, found.version) && delete.Delivered?;
      server := DropLease(server, found.uid, found.version);
    }

    /** Server-side apply of the cordon and its owner; refused while another run owns the cordon. */
    method Cordon(apply: Fate) returns (version: Option<nat>)
      modifies this
      ensures server == old(server) || (MayOwn(old(server).node, run) && server == CordonNode(old(server), run))
      ensures version.Some? ==>
                && version == Some(server.node.version) && server.node.unschedulable
                && server.node.owner == Some(run) && server == CordonNode(old(server), run)
      ensures apply.Delivered? && MayOwn(old(server).node, run) ==> version.Some?
    {
      if apply.NotSent? { return None; }
      var patched := ApplyCordon(server.node, run);
      server := Store(server, patched, CordonedBy(run));
      return if patched.Some? && !apply.ReplyLost? then Some(server.node.version) else None;
    }

    /** Reads the node, then sends the tests and the changes as one patch: our own, unchanged cordon or nothing. */
    method RollbackCordon(uid: string, get: Fate, others: Server -> Server, patch: Fate) returns (ok: bool)
      modifies this
      ensures var now := others(old(server));
              || server == old(server) || server == now
              || (&& OwnCordon(now.node, uid, run) && now.node.version == old(server).node.version
                  && server == Store(now, Some(now.node.(unschedulable := false, owner := None)), RestoredBy(run)))
      ensures ok ==> !server.node.unschedulable && server.node.owner.None? && server.node.uid == uid
      ensures others(old(server)) == old(server) && get.Delivered? && patch.Delivered? ==>
                (ok <==> OwnCordon(old(server).node, uid, run))
    {
      if !get.Delivered? { return false; }
      var version := server.node.version;
      server := others(server);
      if patch.NotSent? { return false; }
      var ops := RollbackOps(uid, version, run);
      RollbackExact(server.node, uid, version, run);
      var patched := ApplyPatch(server.node, ops);
      server := Store(server, patched, RestoredBy(run));
      return patched.Some? && patch.Delivered?;
    }

    /** The uncordon command (with `value` false): an unconditional merge patch that also drops the cordon's owner. */
    method SetUnschedulable(value: bool, patch: Fate) returns (ok: bool)
      modifies this
      ensures ok ==> server.node.unschedulable == value && server.node.owner.None?
      ensures server == old(server)
              || (server.lease == old(server).lease
                  && server.node == old(server).node.(
                       unschedulable := value, owner := None, version := old(server).next))
      ensures patch.Delivered? ==> ok
    {
      if patch.NotSent? { return false; }
      server := Store(server, Some(MergeUnschedulable(server.node, value)), Uncordoned);
      return patch.Delivered? || patch.Resent?;
    }
  }

  predicate HeldBy(s: Server, run: string) { s.lease.Some? && s.lease.value.holder == Some(run) }

  predicate KeepsLease(others: Server -> Server, s: Server) { others(s).lease == s.lease }

  /** The node is the one expected, and this run's cordon stands. */
  predicate OwnCordon(n: NodeObject, uid: string, run: string) {
    n.uid == uid && n.owner == Some(run) && n.unschedulable
  }

  /** Nobody else owns the cordon. */
  predicate MayOwn(n: NodeObject, run: string) { n.owner.None? || n.owner == Some(run) }
}
