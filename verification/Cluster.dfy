/**
 Any number of drains of one node, the uncordon command and other writers, interleaved step by step against
 one API server. A request may take effect while its reply is lost, and a run may stop for good at any point.
 */
module Cluster {
  import opened Common
  import opened Errors
  import opened Kube
  import opened Machine
  import opened Safety
  import opened Moves
  import opened ApiServer

  datatype World = World(server: Server, runs: map<string, State>)

  datatype Action =
    | Advance(run: string, input: Input, applied: bool)   // one step of a run; did its request take effect?
    | Uncordon                                            // the uncordon command
    | Touch                                               // an unrelated change of the node object
    | Cordoning(value: bool)                              // another tool sets spec.unschedulable
    | Annotate(owner: Option<string>)                     // somebody writes the owner annotation by hand
    | Recreate(uid: string, unschedulable: bool)          // the node object is replaced
    | Tamper(lease: Option<Lease>)                        // somebody edits or deletes the lease by hand

  /** What the request sent at this point of a run does to the server, if it takes effect. */
  function Effect(cfg: Config, st: State, s: Server): Server {
    match st.pc
    case Acquiring(CreateLease) => PutLease(s, cfg.runID)
    case Preparing(SendCordon) => CordonNode(s, cfg.runID)
    case Restoring(_, Some(version)) => RollbackNode(s, st.nodeUid, version, cfg.runID)
    case Releasing(_, Some(id)) => DropLease(s, id.uid, id.version)
    case _ => s
  }

  /** Replies agree with the server; only failures may be made up. */
  predicate Honest(cfg: Config, st: State, s: Server, e: Input, applied: bool) {
    match st.pc
    case Acquiring(CreateLease) =>
      && (e.create.Created? ==> applied && s.lease.None?)
      && (e.create.AlreadyExists? ==> applied || s.lease.Some?)
    case Acquiring(GetLease) => HonestLease(s, e.lease)
    case Preparing(FirstLook) =>
      e.snap.Got? ==> e.snap.value.nodeUid == s.node.uid && e.snap.value.unschedulable == s.node.unschedulable
    case Preparing(SendCordon) => e.ack.Acked? ==> applied && ApplyCordon(s.node, cfg.runID).Some?
    case Restoring(_, None) => e.nodeVersion.Got? ==> e.nodeVersion.value == s.node.version
    case Restoring(_, Some(version)) =>
      e.ack.Acked? ==> applied && ApplyPatch(s.node, RollbackOps(st.nodeUid, version, cfg.runID)).Some?
    case Releasing(_, None) => HonestLease(s, e.lease)
    case Releasing(_, Some(id)) => e.ack.Acked? ==> applied && SameLease(s, id.uid, id.version)
    case _ => true
  }

  predicate HonestLease(s: Server, reply: LeaseReply) {
    match reply
    case Found(uid, version, holder) => s.lease == Some(Lease(uid, version, holder))
    case NoLease => s.lease.None?
    case LeaseFailed => true
  }

  function ConfigOf(opts: map<string, Options>, r: string): Config
    requires r in opts
  {
    Config(r, opts[r])
  }

  /** One action of one party. */
  ghost predicate Next(opts: map<string, Options>, w: World, a: Action, w': World) {
    var s := w.server;
    match a
    case Advance(r, e, applied) =>
      && r in w.runs && r in opts
      && var cfg, st := ConfigOf(opts, r), w.runs[r];
         && Honest(cfg, st, s, e, applied)
         && w' == World(if applied then Effect(cfg, st, s) else s, w.runs[r := Step(cfg, st, e)])
    case Uncordon => w' == w.(server := Store(s, Some(MergeUnschedulable(s.node, false)), Uncordoned))
    case Touch => w' == w.(server := s.(node := s.node.(version := s.next), next := s.next + 1))
    case Cordoning(value) => w' == w.(server := Store(s, Some(s.node.(unschedulable := value)), Foreign))
    case Annotate(owner) => w' == w.(server := Store(s, Some(s.node.(owner := owner)), Annotated(owner)))
    case Recreate(uid, unschedulable) =>
      w' == w.(server := Store(s, Some(NodeObject(uid, 0, unschedulable, None)), Recreated))
    case Tamper(lease) =>
      && (lease.Some? ==> lease.value.version == s.next)
      && w' == w.(server := s.(lease := lease, next := s.next + 1))
  }

  ghost predicate StartsAt(w: World) {
    && (forall r :: r in w.runs ==> w.runs[r] == Init())
    && (w.server.lease.Some? ==> w.server.lease.value.version < w.server.next)
    && w.server.log == Origin(w.server.node.owner)
  }

  /** A finite history of the whole system. */
  ghost predicate Execution(opts: map<string, Options>, ws: seq<World>, acts: seq<Action>) {
    && |ws| == |acts| + 1 && StartsAt(ws[0])
    && forall i :: 0 <= i < |acts| ==> Next(opts, ws[i], acts[i], ws[i + 1])
  }

  // ---------------------------------------------------------------- mutual exclusion

  /** Every run between acquire and release is the holder of the lease. */
  ghost predicate Exclusive(w: World) {
    forall r :: r in w.runs && Holding(w.runs[r].pc) ==>
      w.server.lease.Some? && w.server.lease.value.holder == Some(r)
  }

  /** A run enters the span only on a created lease or on one that it already holds. */
  lemma EntersOnLease(cfg: Config, st: State, e: Input)
    requires !Holding(st.pc) && Holding(Step(cfg, st, e).pc)
    ensures (st.pc == Acquiring(CreateLease) && e.create.Created?)
         || (st.pc == Acquiring(GetLease) && e.lease.Found? && e.lease.holder == Some(cfg.runID))
  {
    hide ContextError, ValidOptions, StepPrepare, StepRevalidate, StepPods, StepObserve, StepTrigger, StepJudge,
      StepRestore, StepRelease;
    match st.pc
    case Acquiring(Start) =>
    case Acquiring(CreateLease) =>
    case Acquiring(GetLease) =>
    case Done(_) =>
  }

  /** Deleting the lease is a run's last step. */
  lemma DeleteLeaves(cfg: Config, st: State, e: Input)
    requires st.pc.Releasing? && st.pc.lease.Some?
    ensures !Holding(Step(cfg, st, e).pc)
  {}

  lemma ExclusiveStep(opts: map<string, Options>, w: World, a: Action, w': World)
    requires Exclusive(w) && Next(opts, w, a, w') && !a.Tamper?
    ensures Exclusive(w')
  {
    hide Step;
    if a.Advance? {
      var r, cfg, st := a.run, ConfigOf(opts, a.run), w.runs[a.run];
      if !Holding(st.pc) && Holding(Step(cfg, st, a.input).pc) { EntersOnLease(cfg, st, a.input); }
      if st.pc.Releasing? && st.pc.lease.Some? { DeleteLeaves(cfg, st, a.input); }
      forall q | q in w'.runs && Holding(w'.runs[q].pc)
        ensures w'.server.lease.Some? && w'.server.lease.value.holder == Some(q)
      {
        if q != r { assert Holding(w.runs[q].pc); }
      }
    }
  }

  lemma {:induction false} ExclusiveAlways(opts: map<string, Options>, ws: seq<World>, acts: seq<Action>, i: nat)
    requires Execution(opts, ws, acts) && i < |ws|
    requires forall j :: 0 <= j < i ==> !acts[j].Tamper?
    ensures Exclusive(ws[i])
  {
    if i > 0 {
      ExclusiveAlways(opts, ws, acts, i - 1);
      ExclusiveStep(opts, ws[i - 1], acts[i - 1], ws[i]);
    }
  }

  /** While nobody edits the lease by hand, two different runs are never both inside their span. */
  lemma MutualExclusion(opts: map<string, Options>, ws: seq<World>, acts: seq<Action>, i: nat, r: string, q: string)
    requires Execution(opts, ws, acts) && i < |ws|
    requires forall j :: 0 <= j < i ==> !acts[j].Tamper?
    requires r in ws[i].runs && q in ws[i].runs && r != q
    ensures !(Holding(ws[i].runs[r].pc) && Holding(ws[i].runs[q].pc))
  {
    ExclusiveAlways(opts, ws, acts, i);
  }

  // ---------------------------------------------------------------- everything inside the span

  /** What a step adds to its run's history, if anything, it adds while the run is inside its span. */
  lemma EventsInside(cfg: Config, st: State, e: Input)
    requires Step(cfg, st, e).trace != st.trace
    ensures Holding(st.pc) || Step(cfg, st, e).trace == Then(st.trace, Acquired)
  {
    hide ContextError, ValidOptions, Holding, StepAcquire, StepPrepare, StepRevalidate, StepPods, StepObserve,
      StepTrigger, StepJudge, StepRestore, StepRelease;
    HoldingOrNot(st.pc);
    match st.pc
    case Acquiring(at) => AcquireWrites(cfg, st, at, e);
    case _ =>
  }

  lemma HoldingOrNot(pc: Pc)
    ensures Holding(pc) || pc.Acquiring? || pc.Done?
  {}

  lemma AcquireWrites(cfg: Config, st: State, at: AcquirePc, e: Input)
    ensures var tr := StepAcquire(cfg, st, at, e).trace; tr == st.trace || tr == Then(st.trace, Acquired)
  {
    hide ContextError, ValidOptions;
    match at
    case Start =>
    case CreateLease =>
    case GetLease =>
  }

  predicate Guarded(ev: Event) { ev.Cordon? || ev.Evicted? || ev.Triggered? || ev.Restore? }

  /**
   While nobody edits the lease by hand, whenever a run sends a cordon, an eviction or a restore, that run
   holds the lease and no other run is inside its span.
   */
  lemma MutationsUnderLease(
      opts: map<string, Options>, ws: seq<World>, acts: seq<Action>, i: nat, r: string, q: string)
    requires Execution(opts, ws, acts) && i < |acts| && acts[i].Advance? && acts[i].run == r
    requires forall j :: 0 <= j < i ==> !acts[j].Tamper?
    requires r in ws[i].runs && r in ws[i + 1].runs && q in ws[i].runs && q != r
    requires var before, after := ws[i].runs[r].trace, ws[i + 1].runs[r].trace;
             after.Then? && after.past == before && Guarded(after.ev)
    ensures ws[i].server.lease.Some? && ws[i].server.lease.value.holder == Some(r)
    ensures !Holding(ws[i].runs[q].pc)
  {
    hide Step;
    var w := ws[i];
    ExclusiveAlways(opts, ws, acts, i);
    assert Next(opts, w, acts[i], ws[i + 1]);
    EventsInside(ConfigOf(opts, r), w.runs[r], acts[i].input);
  }

  // ---------------------------------------------------------------- releasing, even with tampering

  /** Versions grow, and what a run read identifies the lease that it may delete. */
  ghost predicate ReadsValid(w: World) {
    var s := w.server;
    && (s.lease.Some? ==> s.lease.value.version < s.next)
    && forall r :: r in w.runs && w.runs[r].pc.Releasing? && w.runs[r].pc.lease.Some? ==>
         var id := w.runs[r].pc.lease.value;
         id.version < s.next
         && (s.lease.Some? && s.lease.value.version == id.version ==> s.lease.value.holder == Some(r))
  }

  /** A run gets ready to delete only a lease it just read as its own. */
  lemma ReadsOwnLease(cfg: Config, st: State, e: Input)
    requires Step(cfg, st, e).pc.Releasing? && Step(cfg, st, e).pc.lease.Some?
    ensures st.pc.Releasing? && st.pc.lease.None? && e.lease.Found? && e.lease.holder == Some(cfg.runID)
    ensures Step(cfg, st, e).pc.lease.value == LeaseId(e.lease.uid, e.lease.version)
  {
    hide StepAcquire, StepPrepare, StepRevalidate, StepPods, StepObserve, StepTrigger, StepJudge, StepRestore,
      StepRelease;
    MovesStep(cfg, st, e);
    match st.pc
    case Releasing(ret, lease) => ReleaseReads(cfg, st, ret, lease, e);
    case _ =>
  }

  lemma ReleaseReads(cfg: Config, st: State, ret: Option<Error>, lease: Option<LeaseId>, e: Input)
    ensures var pc := StepRelease(cfg, st, ret, lease, e).pc;
            pc.Releasing? && pc.lease.Some? ==>
              && lease.None? && e.lease.Found? && e.lease.holder == Some(cfg.runID)
              && pc.lease.value == LeaseId(e.lease.uid, e.lease.version)
  {
    hide ReleaseFailed;
    var mine := e.lease.Found? && e.lease.holder == Some(cfg.runID);
    if lease.Some? { if e.ack.Acked? { } } else if e.lease.NoLease? { } else if mine { }
  }

  lemma ReadsValidStep(opts: map<string, Options>, w: World, a: Action, w': World)
    requires ReadsValid(w) && Next(opts, w, a, w')
    ensures ReadsValid(w')
  {
    hide Step;
    if a.Advance? {
      var r, cfg, st := a.run, ConfigOf(opts, a.run), w.runs[a.run];
      var next := Step(cfg, st, a.input);
      if next.pc.Releasing? && next.pc.lease.Some? { ReadsOwnLease(cfg, st, a.input); }
    }
  }

  lemma {:induction false} ReadsValidAlways(opts: map<string, Options>, ws: seq<World>, acts: seq<Action>, i: nat)
    requires Execution(opts, ws, acts) && i < |ws|
    ensures ReadsValid(ws[i])
  {
    if i > 0 {
      ReadsValidAlways(opts, ws, acts, i - 1);
      ReadsValidStep(opts, ws[i - 1], acts[i - 1], ws[i]);
    }
  }

  /** Whatever others do to the lease, a run only ever deletes a lease that it holds. */
  lemma ReleaseDeletesOwn(opts: map<string, Options>, ws: seq<World>, acts: seq<Action>, i: nat)
    requires Execution(opts, ws, acts) && i < |acts| && acts[i].Advance?
    requires ws[i].server.lease.Some? && ws[i + 1].server.lease.None?
    ensures ws[i].server.lease.value.holder == Some(acts[i].run)
  {
    hide Step;
    ReadsValidAlways(opts, ws, acts, i);
    assert Next(opts, ws[i], acts[i], ws[i + 1]);
  }

  /** A step into success either found no lease or had the one it read deleted. */
  lemma SuccessStep(cfg: Config, st: State, e: Input, s: Server, applied: bool)
    requires !st.pc.Done? && Step(cfg, st, e).pc == Done(None) && Honest(cfg, st, s, e, applied)
    ensures (if applied then Effect(cfg, st, s) else s).lease.None?
  {
    hide StepAcquire, StepPrepare, StepRevalidate, StepPods, StepObserve, StepTrigger, StepJudge, StepRestore,
      StepRelease, CordonNode, RollbackNode, PutLease;
    MovesStep(cfg, st, e);
    match st.pc
    case Acquiring(at) => AcquireFails(cfg, st, at, e);
    case Releasing(ret, lease) => ReleaseSucceeds(cfg, st, ret, lease, e);
    case _ =>
  }

  lemma ReleaseSucceeds(cfg: Config, st: State, ret: Option<Error>, lease: Option<LeaseId>, e: Input)
    requires StepRelease(cfg, st, ret, lease, e).pc == Done(None)
    ensures if lease.Some? then e.ack.Acked? else e.lease.NoLease?
  {}

  lemma AcquireFails(cfg: Config, st: State, at: AcquirePc, e: Input)
    ensures StepAcquire(cfg, st, at, e).pc != Done(None)
  {
    hide ContextError;
    match at
    case Start =>
    case CreateLease =>
    case GetLease =>
  }

  /** Once run `r` succeeded no lease names it any more, unless somebody edits the lease by hand. */
  lemma {:induction false} SuccessFreesLease(
      opts: map<string, Options>, ws: seq<World>, acts: seq<Action>, i: nat, k: nat, r: string)
    requires Execution(opts, ws, acts) && i < k < |ws|
    requires r in ws[i].runs && !ws[i].runs[r].pc.Done?
    requires r in ws[i + 1].runs && ws[i + 1].runs[r].pc == Done(None)
    requires forall j :: i < j < k ==> !acts[j].Tamper?
    ensures r in ws[k].runs && ws[k].runs[r].pc == Done(None)
    ensures ws[k].server.lease.Some? ==> ws[k].server.lease.value.holder != Some(r)
    decreases k
  {
    hide Step, Honest, Effect;
    var w, a := ws[k - 1], acts[k - 1];
    assert Next(opts, w, a, ws[k]);
    if k == i + 1 {
      assert a.Advance? && a.run == r;
      SuccessStep(ConfigOf(opts, r), w.runs[r], a.input, w.server, a.applied);
    } else {
      SuccessFreesLease(opts, ws, acts, i, k - 1, r);
      FreedStays(opts, w, a, ws[k], r);
    }
  }

  lemma FreedStays(opts: map<string, Options>, w: World, a: Action, w': World, r: string)
    requires Next(opts, w, a, w') && !a.Tamper? && r in w.runs && w.runs[r].pc == Done(None)
    requires w.server.lease.Some? ==> w.server.lease.value.holder != Some(r)
    ensures r in w'.runs && w'.runs[r].pc == Done(None)
    ensures w'.server.lease.Some? ==> w'.server.lease.value.holder != Some(r)
  {
    hide StepAcquire, StepPrepare, StepRevalidate, StepPods, StepObserve, StepTrigger, StepJudge, StepRestore,
      StepRelease, ApplyPatch, Honest;
  }

  // ---------------------------------------------------------------- whose cordon is undone

  ghost predicate LogValid(w: World) {
    w.server.node.owner == OwnerOf(w.server.log) && RestoresOwn(w.server.log)
  }

  lemma LogValidStep(opts: map<string, Options>, w: World, a: Action, w': World)
    requires LogValid(w) && Next(opts, w, a, w')
    ensures LogValid(w') && OriginOwner(w'.server.log) == OriginOwner(w.server.log)
  {
    hide Step, ApplyPatch;
    if a.Advance? {
      var cfg, st := ConfigOf(opts, a.run), w.runs[a.run];
      if st.pc.Restoring? && st.pc.node.Some? {
        RollbackExact(w.server.node, st.nodeUid, st.pc.node.value, cfg.runID);
      }
    }
  }

  lemma {:induction false} LogValidAlways(opts: map<string, Options>, ws: seq<World>, acts: seq<Action>, i: nat)
    requires Execution(opts, ws, acts) && i < |ws|
    ensures LogValid(ws[i]) && OriginOwner(ws[i].server.log) == ws[0].server.node.owner
  {
    if i > 0 {
      LogValidAlways(opts, ws, acts, i - 1);
      LogValidStep(opts, ws[i - 1], acts[i - 1], ws[i]);
    }
  }

  /** The node went from unschedulable to schedulable in this action. */
  ghost predicate Reopens(w: World, w': World) { w.server.node.unschedulable && !w'.server.node.unschedulable }

  /**
   When a step of run `r` makes the node schedulable, the node has the UID `r` first read and the version `r`
   just read, and its newest scheduling write is `r`'s own cordon, up to writes by tools that leave the
   annotation alone; unless somebody wrote `r` into the annotation by hand, which nothing can tell from a cordon.
   */
  lemma RollbackUndoesOwnCordon(opts: map<string, Options>, ws: seq<World>, acts: seq<Action>, i: nat)
    requires Execution(opts, ws, acts) && i < |acts| && acts[i].Advance?
    requires Reopens(ws[i], ws[i + 1])
    requires ws[0].server.node.owner != Some(acts[i].run)
    ensures acts[i].run in ws[i].runs
    ensures var st := ws[i].runs[acts[i].run];
            && st.pc.Restoring? && st.pc.node == Some(ws[i].server.node.version)
            && ws[i].server.node.uid == st.nodeUid
            && (CordonStands(ws[i].server.log, acts[i].run) || ForgeryStands(ws[i].server.log, acts[i].run))
            && ws[i + 1].server.node.owner.None?
  {
    hide Step, ApplyPatch, RestoresOwn;
    var r, w := acts[i].run, ws[i];
    var st := w.runs[r];
    LogValidAlways(opts, ws, acts, i);
    assert Next(opts, w, acts[i], ws[i + 1]);
    if st.pc.Restoring? && st.pc.node.Some? {
      RollbackExact(w.server.node, st.nodeUid, st.pc.node.value, r);
      OwnedMeansCordoned(w.server.log, r);
    }
  }

  /** In this action run `r`'s cordon takes effect, acknowledged or not. */
  ghost predicate CordonTakes(opts: map<string, Options>, w: World, a: Action, r: string) {
    && a.Advance? && a.run == r && a.applied && r in w.runs && r in opts
    && w.runs[r].pc == Preparing(SendCordon) && ApplyCordon(w.server.node, r).Some?
  }

  /** Nobody writes `r` into the owner annotation but run `r` itself. */
  predicate Unforged(a: Action, r: string) { a != Annotate(Some(r)) }

  /** Nobody but run `r` itself makes the node its own, unless by hand. */
  lemma StaysUnowned(opts: map<string, Options>, w: World, a: Action, w': World, r: string)
    requires Next(opts, w, a, w') && w.server.node.owner != Some(r) && !CordonTakes(opts, w, a, r) && Unforged(a, r)
    ensures w'.server.node.owner != Some(r)
  {
    hide Step, ApplyPatch;
    if a.Advance? {
      var st := w.runs[a.run];
      if st.pc.Restoring? && st.pc.node.Some? {
        RollbackExact(w.server.node, st.nodeUid, st.pc.node.value, a.run);
      }
    }
  }

  lemma {:induction false} UnownedSince(
      opts: map<string, Options>, ws: seq<World>, acts: seq<Action>, i: nat, k: nat, r: string)
    requires Execution(opts, ws, acts) && i < k < |ws| && acts[i].Uncordon?
    requires forall j :: i < j < k ==> !CordonTakes(opts, ws[j], acts[j], r) && Unforged(acts[j], r)
    ensures ws[k].server.node.owner != Some(r)
  {
    hide CordonTakes;
    assert Next(opts, ws[k - 1], acts[k - 1], ws[k]);
    if k > i + 1 {
      UnownedSince(opts, ws, acts, i, k - 1, r);
      StaysUnowned(opts, ws[k - 1], acts[k - 1], ws[k], r);
    }
  }

  /**
   After an uncordon command no rollback of run `r` changes anything, until `r` cordons the node again or somebody
   writes `r` into the annotation.
   */
  lemma UncordonedStaysUntouched(
      opts: map<string, Options>, ws: seq<World>, acts: seq<Action>, i: nat, k: nat, r: string)
    requires Execution(opts, ws, acts) && i < k < |acts| && acts[i].Uncordon?
    requires forall j :: i < j < k ==> !CordonTakes(opts, ws[j], acts[j], r) && Unforged(acts[j], r)
    requires acts[k].Advance? && acts[k].run == r && r in ws[k].runs && ws[k].runs[r].pc.Restoring?
    ensures ws[k + 1].server == ws[k].server
  {
    hide Step, ApplyPatch, CordonTakes;
    UnownedSince(opts, ws, acts, i, k, r);
    assert Next(opts, ws[k], acts[k], ws[k + 1]);
    var st := ws[k].runs[r];
    if st.pc.node.Some? { RollbackExact(ws[k].server.node, st.nodeUid, st.pc.node.value, r); }
  }
}
