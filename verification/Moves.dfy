/** Where a single step of the program can lead. */
module Moves {
  import opened Common
  import opened Machine

  /** Not about to delete a lease. */
  predicate Unread(pc: Pc) { pc.Releasing? ==> pc.lease.None? }

  predicate Plain(pc: Pc) { Inside(pc) && !pc.Triggering? }

  /** Not finished, and not about to delete a lease. */
  predicate Inside(pc: Pc) { Unread(pc) && !pc.Done? }

  lemma MovesAcquire(cfg: Config, st: State, at: AcquirePc, e: Input)
    ensures Unread(StepAcquire(cfg, st, at, e).pc) && !StepAcquire(cfg, st, at, e).pc.Triggering?
  {
    hide ContextError, ValidOptions;
    match at
    case Start =>
    case CreateLease =>
    case GetLease =>
  }

  lemma MovesPrepare(cfg: Config, st: State, at: PreparePc, e: Input)
    ensures Plain(StepPrepare(cfg, st, at, e).pc)
  {
    hide ContextError, Preflighted, EvacuationAccepted, ConfirmOne;
    match at
    case FirstLook => if e.snap.Lost? { }
    case ConfirmFirst(i, bad) => if i < |st.snapshot.vmis| { } else if bad { } else { }
    case SendCordon => if e.ack.Refused? { } else if e.interrupt { }
  }

  lemma MovesRevalidate(cfg: Config, st: State, at: RevalidatePc, e: Input)
    ensures Plain(StepRevalidate(cfg, st, at, e).pc)
  {
    hide ContextError, Preflighted, EvacuationAccepted, ConfirmOne;
    match at
    case SecondLook => if e.snap.Lost? { }
    case ConfirmSecond(i, bad) => if i < |st.snapshot.vmis| { } else if bad { }
  }

  lemma MovesPods(cfg: Config, st: State, pass: Pass, i: nat, at: PodPc, e: Input)
    ensures Inside(StepPods(cfg, st, pass, i, at, e).pc)
  {
    hide ContextError, Tolerable, NormalEligible, Outstanding;
    if i < |st.snapshot.pods| {
      match at
      case PodPoll => if e.interrupt { }
      case PodEvict =>
      case PodOutput =>
    } else if pass.Setup? { }
  }

  lemma MovesObserve(cfg: Config, st: State, at: ObservePc, e: Input)
    ensures Plain(StepObserve(cfg, st, at, e).pc)
  {
    hide ContextError, Preflighted, MergeFailed, NewlyFailed, Track, WithinBudget, EffectiveLimit;
  }

  lemma MovesTrigger(cfg: Config, st: State, i: nat, at: TriggerPc, e: Input)
    ensures Inside(StepTrigger(cfg, st, i, at, e).pc)
  {
    hide ContextError, EvacuationAccepted, Confirmable, Skipped;
    if i < |st.snapshot.vmis| {
      match at
      case TriggerPoll => if e.interrupt { }
      case TriggerDryRun =>
      case TriggerEvict =>
    }
  }

  lemma MovesJudge(cfg: Config, st: State, at: JudgePc, e: Input)
    ensures Plain(StepJudge(cfg, st, at, e).pc)
  {
    hide ContextError, Quiet, CountActive, RepliesFor, SomeUnverifiable, AllSettled, Track;
    match at
    case Judge => if st.interrupted && CountActive(st.snapshot.migrations) == 0 { }
    case VerifyHotplug =>
    case FinalLook => if e.snap.Lost? { }
    case Sleep =>
  }

  lemma MovesRestore(cfg: Config, st: State, why: Why, node: Option<nat>, e: Input)
    ensures Plain(StepRestore(cfg, st, why, node, e).pc)
  {
    hide ContextError;
    match why
    case CordonInterrupted =>
    case RevalidationFailed =>
    case Aborted(ret) =>
  }

  /**
   Only a release gets to read the lease, only the loop's pod pass starts a trigger pass, and a run that holds
   the lease finishes only through its release.
   */
  lemma MovesStep(cfg: Config, st: State, e: Input)
    ensures !st.pc.Releasing? && !st.pc.Done? ==> Unread(Step(cfg, st, e).pc)
    ensures Step(cfg, st, e).pc.Triggering? ==> st.pc.Evicting? || st.pc.Triggering?
    ensures Step(cfg, st, e).pc.Done? ==> st.pc.Acquiring? || st.pc.Releasing? || st.pc.Done?
  {
    hide StepAcquire, StepPrepare, StepRevalidate, StepPods, StepObserve, StepTrigger, StepJudge, StepRestore;
    match st.pc
    case Acquiring(at) => MovesAcquire(cfg, st, at, e);
    case Preparing(at) => MovesPrepare(cfg, st, at, e);
    case Revalidating(at) => MovesRevalidate(cfg, st, at, e);
    case Evicting(pass, i, at) => MovesPods(cfg, st, pass, i, at, e);
    case Observing(at) => MovesObserve(cfg, st, at, e);
    case Triggering(i, at) => MovesTrigger(cfg, st, i, at, e);
    case Judging(at) => MovesJudge(cfg, st, at, e);
    case Restoring(why, node) => MovesRestore(cfg, st, why, node, e);
    case Releasing(ret, lease) =>
    case Done(_) =>
  }

  /** On the way out; there is no way back. */
  predicate Leaving(pc: Pc) { pc.Restoring? || pc.Releasing? || pc.Done? }

  lemma LeavingStep(cfg: Config, st: State, e: Input)
    requires Leaving(st.pc)
    ensures Leaving(Step(cfg, st, e).pc) && Step(cfg, st, e).baseline == st.baseline
  {
    hide StepAcquire, StepPrepare, StepRevalidate, StepPods, StepObserve, StepTrigger, StepJudge, ContextError,
      ReleaseFailed, AfterRollback;
    match st.pc
    case Restoring(why, node) =>
      RollbackLeaves(cfg, st, why, e.ack.Acked?, e);
      RollbackLeaves(cfg, st, why, false, e);
    case Releasing(ret, lease) =>
    case Done(_) =>
  }

  lemma RollbackLeaves(cfg: Config, st: State, why: Why, restored: bool, e: Input)
    ensures Leaving(AfterRollback(cfg, st, why, restored, e))
  {
    hide ContextError;
  }

  // ---------------------------------------------------------------- what a step adds to the history

  /** At most one event; an observation is the input's snapshot, and it restores nothing. */
  predicate Writes(before: Trace, after: Trace, e: Input) {
    || after == before
    || (after.Then? && after.past == before && (after.ev.Observed? ==> e.snap == Got(after.ev.snap))
        && !after.ev.Restore?)
  }

  lemma WritesPrepare(cfg: Config, st: State, at: PreparePc, e: Input)
    ensures Writes(st.trace, StepPrepare(cfg, st, at, e).trace, e)
  {
    hide ContextError, Preflighted, EvacuationAccepted, FailPc;
    match at
    case FirstLook => if e.snap.Lost? { }
    case ConfirmFirst(i, bad) => if i < |st.snapshot.vmis| { } else if bad { } else { }
    case SendCordon =>
  }

  lemma WritesRevalidate(cfg: Config, st: State, at: RevalidatePc, e: Input)
    ensures Writes(st.trace, StepRevalidate(cfg, st, at, e).trace, e)
  {
    hide ContextError, Preflighted, EvacuationAccepted, RecoverPc;
    match at
    case SecondLook => if e.snap.Lost? { }
    case ConfirmSecond(i, bad) => if i < |st.snapshot.vmis| { } else if bad { }
  }

  lemma WritesPods(cfg: Config, st: State, pass: Pass, i: nat, at: PodPc, e: Input)
    ensures Writes(st.trace, StepPods(cfg, st, pass, i, at, e).trace, e)
  {
    hide ContextError, Tolerable, NormalEligible, Outstanding, FailPc;
  }

  lemma WritesObserve(cfg: Config, st: State, at: ObservePc, e: Input)
    ensures Writes(st.trace, StepObserve(cfg, st, at, e).trace, e)
  {
    hide ContextError, Preflighted, MergeFailed, NewlyFailed, Track, WithinBudget, EffectiveLimit, FailPc;
  }

  lemma WritesTrigger(cfg: Config, st: State, i: nat, at: TriggerPc, e: Input)
    ensures Writes(st.trace, StepTrigger(cfg, st, i, at, e).trace, e)
  {
    hide ContextError, EvacuationAccepted, Confirmable, Skipped, FailPc;
  }

  lemma WritesJudge(cfg: Config, st: State, at: JudgePc, e: Input)
    ensures Writes(st.trace, StepJudge(cfg, st, at, e).trace, e)
  {
    hide ContextError, Quiet, CountActive, RepliesFor, SomeUnverifiable, AllSettled, Track, FailPc, ExitPc;
  }

  /** The program is about to learn that its conditional restore was applied. */
  predicate Restores(st: State, e: Input) { st.pc.Restoring? && st.pc.node.Some? && e.ack.Acked? }

  lemma WritesStep(cfg: Config, st: State, e: Input)
    ensures !st.pc.Restoring? ==> Writes(st.trace, Step(cfg, st, e).trace, e)
    ensures st.pc.Restoring? ==>
              Step(cfg, st, e).trace
              == if st.pc.node.Some? then Then(st.trace, Restore(e.ack.Acked?)) else st.trace
  {
    hide StepPrepare, StepRevalidate, StepPods, StepObserve, StepTrigger, StepJudge, ContextError, FailPc,
      AfterRollback;
    match st.pc
    case Preparing(at) => WritesPrepare(cfg, st, at, e);
    case Revalidating(at) => WritesRevalidate(cfg, st, at, e);
    case Evicting(pass, i, at) => WritesPods(cfg, st, pass, i, at, e);
    case Observing(at) => WritesObserve(cfg, st, at, e);
    case Triggering(i, at) => WritesTrigger(cfg, st, i, at, e);
    case Judging(at) => WritesJudge(cfg, st, at, e);
    case _ =>
  }
}
