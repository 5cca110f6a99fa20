/**
 What decides how a run goes on and what it exits with, point by point: failed calls, broken output, failed checks,
 interrupts. Inputs and snapshots are spelled out; exit codes are numbers.
 */
module Decisions {
  import opened Common
  import opened Errors
  import opened Kube
  import opened Machine
  import opened History
  import opened Safety
  import opened Moves
  import opened Meaning
  import opened Guards
  import opened Endings
  import Outcome

  // ---------------------------------------------------------------- failed calls

  /** What a pod eviction may answer for the run to go on. */
  ghost predicate Tolerated(reply: EvictReply) {
    || reply.Accepted? || reply.status == NotFound
    || (reply.status == TooManyRequests
        && exists before: string, mid: string, after: string ::
             reply.message == before + mid + after && SameLetters(mid, "disruption budget"))
  }

  /** The call that the run makes now fails, or its answer is not the one that is needed. */
  ghost predicate CallFails(cfg: Config, st: State, e: Input) {
    match st.pc
    case Acquiring(Start) =>
      cfg.opts.timeout >= 1 && cfg.opts.retries >= 0 && cfg.opts.parallelOutbound >= 0 && e.ack.Refused?
    case Acquiring(CreateLease) => e.create.CreateFailed?
    case Acquiring(GetLease) => !(e.lease.Found? && e.lease.holder == Some(cfg.runID))
    case Preparing(FirstLook) => e.snap.Lost?
    case Preparing(ConfirmFirst(i, bad)) => i >= |st.snapshot.vmis| && (bad || (!e.broken && e.listed.Lost?))
    case Preparing(SendCordon) => e.ack.Refused?
    case Revalidating(SecondLook) => !st.cordonedByUs && (e.snap.Lost? || !Unblocked(e.snap.value, cfg.opts))
    case Revalidating(ConfirmSecond(i, bad)) => i >= |st.snapshot.vmis| && bad && !st.cordonedByUs
    case Evicting(_, i, PodEvict) => i < |st.snapshot.pods| && (!Tolerated(e.evict) || e.broken)
    case Observing(LoopLook) => e.snap.Lost?
    case Triggering(i, TriggerDryRun) =>
      i < |st.snapshot.vmis|
      && var v := st.snapshot.vmis[i]; v.blocked || !Protected(v) || !Confirms(e.evict, v)
    case Triggering(i, TriggerEvict) =>
      i < |st.snapshot.vmis| && (!Confirms(e.evict, st.snapshot.vmis[i]) || e.broken)
    case Judging(FinalLook) => e.snap.Lost?
    case Restoring(RevalidationFailed, node) => node.Some? || e.nodeVersion.Lost?   // the rollback is over
    case _ => false
  }

  /** 124 past the deadline, else 130 if interrupted, else 1. */
  function CodeNow(e: Input): int { if e.deadline then 124 else if e.interrupt then 130 else 1 }

  lemma FailLeaves(cfg: Config, st: State, e: Input)
    ensures LeavesWith(FailPc(cfg, st, ContextError(e)), CodeNow(e))
    ensures LeavesWith(FailPc(cfg, st, Operational()), 1) && LeavesWith(FailPc(cfg, st, Interrupt()), 130)
    ensures LeavesWith(Done(Some(ContextError(e))), CodeNow(e))
  {
    ContextCodeIs(e);
    assert CodeOf(Some(Operational())) == 1 && CodeOf(Some(Interrupt())) == 130;
    hide ContextError, CodeOf;
  }

  lemma EarlyCallFails(cfg: Config, st: State, e: Input)
    requires CallFails(cfg, st, e) && (st.pc.Acquiring? || st.pc.Preparing?)
    ensures LeavesWith(Step(cfg, st, e).pc, CodeNow(e))
  {
    FailLeaves(cfg, st, e);
    FailAfterLook(cfg, st, e);
    OptionsAre(cfg.opts);
    hide ContextError, LeavesWith, ExitPc, CodeNow, ConfirmOne, Preflighted, StepRevalidate, StepPods, StepObserve,
      StepTrigger, StepJudge, StepRestore, StepRelease;
    match st.pc
    case Acquiring(Start) =>
    case Acquiring(CreateLease) =>
    case Acquiring(GetLease) =>
    case Preparing(FirstLook) =>
    case Preparing(ConfirmFirst(i, bad)) =>
    case Preparing(SendCordon) =>
  }

  /** Leaving does not depend on the history. */
  lemma FailAfterLook(cfg: Config, st: State, e: Input)
    ensures forall tr :: FailPc(cfg, st.(trace := tr), ContextError(e)) == FailPc(cfg, st, ContextError(e))
  {
    hide ContextError;
  }

  lemma RevalidateCallFails(cfg: Config, st: State, e: Input)
    requires CallFails(cfg, st, e) && st.pc.Revalidating?
    ensures LeavesWith(Step(cfg, st, e).pc, CodeNow(e))
  {
    FailLeaves(cfg, st, e);
    FailAfterLook(cfg, st, e);
    if e.snap.Got? { PreflightIs(e.snap.value, cfg.opts); }
    hide ContextError, LeavesWith, ExitPc, CodeNow, ConfirmOne, Preflighted, StepAcquire, StepPrepare, StepPods,
      StepObserve, StepTrigger, StepJudge, StepRestore, StepRelease;
    match st.pc
    case Revalidating(SecondLook) =>
    case Revalidating(ConfirmSecond(i, bad)) =>
  }

  lemma PodCallFails(cfg: Config, st: State, pass: Pass, i: nat, e: Input)
    requires CallFails(cfg, st, e) && st.pc == Evicting(pass, i, PodEvict)
    ensures LeavesWith(StepPods(cfg, st, pass, i, PodEvict, e).pc, CodeNow(e))
  {
    FailLeaves(cfg, st, e);
    TolerableIs(e.evict);
    hide ContextError, LeavesWith, ExitPc, FailPc, CodeNow, Tolerable;
  }

  lemma TriggerCallFails(cfg: Config, st: State, i: nat, at: TriggerPc, e: Input)
    requires CallFails(cfg, st, e) && st.pc == Triggering(i, at)
    ensures LeavesWith(StepTrigger(cfg, st, i, at, e).pc, CodeNow(e))
  {
    FailLeaves(cfg, st, e);
    ConfirmsIs(e.evict, st.snapshot.vmis[i]);
    ConfirmableIs(st.snapshot.vmis[i]);
    hide ContextError, LeavesWith, ExitPc, FailPc, CodeNow, EvacuationAccepted, Confirms, Confirmable, Protected;
    match at
    case TriggerDryRun => ProtectedIs(st.snapshot.vmis[i]);
    case TriggerEvict =>
  }

  lemma ProtectedIs(v: VMIInfo)
    ensures Protected(v) <==> Confirmable(v)
  {
    ConfirmableIs(v);
  }

  lemma CallStep(cfg: Config, st: State, e: Input)
    requires CallFails(cfg, st, e)
    ensures LeavesWith(Step(cfg, st, e).pc, CodeNow(e))
  {
    hide StepAcquire, StepPrepare, StepRevalidate, StepObserve, StepJudge, StepRelease;
    match st.pc
    case Acquiring(_) => EarlyCallFails(cfg, st, e);
    case Preparing(_) => EarlyCallFails(cfg, st, e);
    case Revalidating(_) => RevalidateCallFails(cfg, st, e);
    case Evicting(pass, i, PodEvict) =>
      PodCallFails(cfg, st, pass, i, e);
      hide StepPods, CodeNow, LeavesWith;
    case Triggering(i, at) =>
      TriggerCallFails(cfg, st, i, at, e);
      hide StepTrigger, CodeNow, LeavesWith;
    case Observing(_) => LookCallFails(cfg, st, e);
    case Judging(_) => LookCallFails(cfg, st, e);
    case Restoring(why, node) =>
      FailLeaves(cfg, st, e);
      hide CodeNow, LeavesWith, FailPc, ContextError;
  }

  lemma LookCallFails(cfg: Config, st: State, e: Input)
    requires CallFails(cfg, st, e) && (st.pc.Observing? || st.pc.Judging?)
    ensures LeavesWith(Step(cfg, st, e).pc, CodeNow(e))
  {
    FailLeaves(cfg, st, e);
    hide CodeNow, LeavesWith, FailPc, ContextError, StepAcquire, StepPrepare, StepRevalidate, StepPods, StepTrigger,
      StepRestore, StepRelease, Preflighted, Track, Quiet;
  }

  /** A failed call settles the exit code, by what is known when it fails. */
  lemma FailedCallDecides(cfg: Config, inputs: nat -> Input, u: nat, t: nat)
    requires CallFails(cfg, StateAt(cfg, inputs, u), inputs(u)) && u < t && StateAt(cfg, inputs, t).pc.Done?
    ensures CodeOf(StateAt(cfg, inputs, t).pc.ret)
         == if inputs(u).deadline then 124 else if inputs(u).interrupt then 130 else 1
  {
    hide StateAt, Step, CallFails, CodeOf;
    CallStep(cfg, StateAt(cfg, inputs, u), inputs(u));
    Tick(cfg, inputs, u);
    LeavesRun(cfg, inputs, u + 1, t, CodeNow(inputs(u)));
  }

  // ---------------------------------------------------------------- broken output and failed checks

  /** Something in the snapshot is left to do: a VMI, a migration, or a pod to wait for or to evict. */
  predicate Busy(s: Snapshot, opts: Options) {
    || s.vmis != [] || (exists m :: m in s.migrations && m.active)
    || exists p :: p in s.pods && (p.launcher || p.hotplug || Evictable(p, opts))
  }

  predicate Evictable(p: PodInfo, opts: Options) {
    && !p.launcher && !p.hotplug && !p.ignored && !p.unverifiedLauncher
    && (opts.force || p.managed) && (opts.deleteEmptyDirData || !p.emptyDir)
  }

  lemma BusyIs(s: Snapshot, opts: Options)
    ensures Busy(s, opts) <==> !Quiet(s, opts)
  {
    QuietIs(s, opts);
    hide Quiet;
  }

  /** An event could not be written, a check found a blocker, or a VMI could not be verified. */
  ghost predicate ChecksFail(cfg: Config, st: State, e: Input) {
    match st.pc
    case Preparing(FirstLook) => e.snap.Got? && !Unblocked(e.snap.value, cfg.opts)
    case Preparing(ConfirmFirst(i, bad)) => i >= |st.snapshot.vmis| && !bad && e.broken
    case Preparing(SendCordon) => e.ack.Acked? && !e.interrupt && e.broken
    case Evicting(_, i, PodOutput) => i < |st.snapshot.pods| && e.broken
    case Observing(LoopTop) => e.broken
    case Observing(LoopLook) => e.snap.Got? && !st.interrupted && !Unblocked(e.snap.value, cfg.opts)
    case Observing(Account) => e.broken
    case Judging(VerifyHotplug) =>
      exists u :: u in st.tracked
                  && (e.hotplug(u) == Unreadable || (e.hotplug(u).Read? && e.hotplug(u).vmi.uid != u))
    case Judging(FinalLook) => e.snap.Got? && !Busy(e.snap.value, cfg.opts) && e.broken
    case _ => false
  }

  lemma FailAnyhow(cfg: Config, st: State)
    ensures LeavesWith(FailPc(cfg, st, Operational()), 1) && LeavesWith(FailPc(cfg, st, Interrupt()), 130)
  {
    assert CodeOf(Some(Operational())) == 1 && CodeOf(Some(Interrupt())) == 130;
    hide CodeOf;
  }

  lemma ChecksStep(cfg: Config, st: State, e: Input)
    requires ChecksFail(cfg, st, e)
    ensures LeavesWith(Step(cfg, st, e).pc, 1)
  {
    match st.pc
    case Preparing(_) => PrepareChecksFail(cfg, st, e);
    case Evicting(_, _, _) =>
      FailAnyhow(cfg, st);
      hide LeavesWith, FailPc, NormalEligible, Tolerable, StepAcquire, StepPrepare, StepRevalidate, StepObserve,
        StepTrigger, StepJudge, StepRestore, StepRelease, BeginTriggers;
    case Observing(at) => ObserveChecksFail(cfg, st, at, e);
    case Judging(at) => JudgeChecksFail(cfg, st, at, e);
  }

  lemma PrepareChecksFail(cfg: Config, st: State, e: Input)
    requires ChecksFail(cfg, st, e) && st.pc.Preparing?
    ensures LeavesWith(Step(cfg, st, e).pc, 1)
  {
    FailAnyhow(cfg, st);
    if e.snap.Got? { PreflightIs(e.snap.value, cfg.opts); }
    hide LeavesWith, FailPc, ContextError, ConfirmOne, Preflighted, StepAcquire, StepRevalidate, StepPods, StepObserve,
      StepTrigger, StepJudge, StepRestore, StepRelease;
    match st.pc.prepare
    case FirstLook =>
    case ConfirmFirst(i, bad) =>
    case SendCordon =>
  }

  lemma ObserveChecksFail(cfg: Config, st: State, at: ObservePc, e: Input)
    requires ChecksFail(cfg, st, e) && st.pc == Observing(at)
    ensures LeavesWith(StepObserve(cfg, st, at, e).pc, 1)
  {
    FailAnyhow(cfg, st);
    if e.snap.Got? { PreflightIs(e.snap.value, cfg.opts); }
    hide LeavesWith, FailPc, ContextError, Preflighted, Track, MergeFailed, NewlyFailed, WithinBudget;
    match at
    case LoopTop =>
    case LoopLook =>
    case Account =>
  }

  lemma JudgeChecksFail(cfg: Config, st: State, at: JudgePc, e: Input)
    requires ChecksFail(cfg, st, e) && st.pc == Judging(at)
    ensures LeavesWith(StepJudge(cfg, st, at, e).pc, 1)
  {
    FailAnyhow(cfg, st);
    match at
    case VerifyHotplug =>
      var u :| u in st.tracked && (e.hotplug(u) == Unreadable || (e.hotplug(u).Read? && e.hotplug(u).vmi.uid != u));
      assert Unverifiable(u, e.hotplug(u));
      hide LeavesWith, FailPc, Quiet, Track, AllSettled, CountActive;
    case FinalLook =>
      BusyIs(e.snap.value, cfg.opts);
      hide FailPc, Quiet, Busy, Track, AllSettled, CountActive, CodeOf;
      FailAnyhow(cfg, st.(tracked := Track(st.tracked, e.snap.value.vmis)));
  }

  /** Broken output, a blocker and an unverifiable VMI make the run exit with 1. */
  lemma FailedCheckDecides(cfg: Config, inputs: nat -> Input, u: nat, t: nat)
    requires ChecksFail(cfg, StateAt(cfg, inputs, u), inputs(u)) && u < t && StateAt(cfg, inputs, t).pc.Done?
    ensures CodeOf(StateAt(cfg, inputs, t).pc.ret) == 1
  {
    hide StateAt, Step, ChecksFail, CodeOf;
    ChecksStep(cfg, StateAt(cfg, inputs, u), inputs(u));
    Tick(cfg, inputs, u);
    LeavesRun(cfg, inputs, u + 1, t, 1);
  }

  // ---------------------------------------------------------------- interrupts

  /** Polls that notice an interrupt and go on to wait for what is moving. */
  predicate Polls(st: State, e: Input) {
    || (st.pc == Observing(LoopTop) && !e.broken)
    || (st.pc.Evicting? && st.pc.evict.PodPoll? && st.pc.pod < |st.snapshot.pods|)
    || (st.pc.Triggering? && st.pc.trigger.TriggerPoll? && st.pc.vmi < |st.snapshot.vmis|)
    || st.pc == Judging(Sleep)
  }

  lemma PollStep(cfg: Config, st: State, e: Input)
    requires Polls(st, e) && e.interrupt
    ensures Step(cfg, st, e).interrupted && Step(cfg, st, e).trace == st.trace
  {
    hide NormalEligible, Skipped, StepAcquire, StepPrepare, StepRevalidate, StepRestore, StepRelease;
    match st.pc
    case Observing(at) =>
    case Evicting(pass, i, at) =>
    case Triggering(i, at) =>
    case Judging(at) =>
  }

  /** An interrupt is noticed at every poll: no eviction follows, and the run does not return nil. */
  lemma PollDecides(cfg: Config, inputs: nat -> Input, u: nat, t: nat)
    requires Polls(StateAt(cfg, inputs, u), inputs(u)) && inputs(u).interrupt && u < t
    ensures StateAt(cfg, inputs, t).interrupted && StateAt(cfg, inputs, t).pc != Done(None)
    ensures Evictions(StateAt(cfg, inputs, t).trace) == Evictions(StateAt(cfg, inputs, u).trace)
  {
    hide StateAt, Step, Polls;
    PollStep(cfg, StateAt(cfg, inputs, u), inputs(u));
    Tick(cfg, inputs, u);
    Outcome.InterruptIsFinal(cfg, inputs, u + 1, t);
  }

  /** An interrupted run looks on past every blocker, evicts nothing more, and judges what it saw. */
  lemma InterruptedLooks(cfg: Config, inputs: nat -> Input, u: nat, t: nat)
    requires StateAt(cfg, inputs, u).pc == Observing(LoopLook) && StateAt(cfg, inputs, u).interrupted
    requires inputs(u).snap.Got? && u + 2 <= t
    ensures StateAt(cfg, inputs, u + 1).pc == Observing(Account)
    ensures StateAt(cfg, inputs, u + 2).trace
         == Then(StateAt(cfg, inputs, u).trace, Observed(Looped, inputs(u).snap.value))
    ensures StateAt(cfg, inputs, u + 2).pc == Judging(Judge)
            || (StateAt(cfg, inputs, t).pc.Done? ==> CodeOf(StateAt(cfg, inputs, t).pc.ret) == 1)
  {
    hide StateAt, Step, CodeOf;
    Tick(cfg, inputs, u);
    Tick(cfg, inputs, u + 1);
    LookStep(cfg, StateAt(cfg, inputs, u), inputs(u), inputs(u + 1));
    if StateAt(cfg, inputs, u + 2).pc != Judging(Judge) && StateAt(cfg, inputs, t).pc.Done? {
      LeavesRun(cfg, inputs, u + 2, t, 1);
    }
  }

  lemma LookStep(cfg: Config, st: State, e: Input, e': Input)
    requires st.pc == Observing(LoopLook) && st.interrupted && e.snap.Got?
    ensures var (next, after) := (Step(cfg, st, e), Step(cfg, Step(cfg, st, e), e'));
            && next.pc == Observing(Account) && after.trace == Then(st.trace, Observed(Looped, e.snap.value))
            && (after.pc == Judging(Judge) || LeavesWith(after.pc, 1))
  {
    hide FailPc, LeavesWith, Track, Preflighted, MergeFailed, NewlyFailed, WithinBudget, StepAcquire, StepPrepare,
      StepRevalidate, StepPods, StepTrigger, StepJudge, StepRestore, StepRelease;
    var next := Step(cfg, st, e);
    var failed := MergeFailed(next.failedSeen, next.snapshot.migrations, next.baseline);
    FailAnyhow(cfg, next.(failedSeen := failed));
    FailAnyhow(cfg, next);
  }

  /** An interrupt before the cordon, and one right after it. */
  ghost predicate EarlyInterrupt(st: State, e: Input) {
    e.interrupt
    && match st.pc
       case Preparing(ConfirmFirst(i, bad)) => i >= |st.snapshot.vmis| && !bad && !e.broken && e.listed.Got?
       case Preparing(SendCordon) => e.ack.Acked?
       case _ => false
  }

  lemma EarlyInterruptStep(cfg: Config, st: State, e: Input)
    requires EarlyInterrupt(st, e)
    ensures st.pc.prepare.SendCordon? ==> Step(cfg, st, e).pc == Restoring(CordonInterrupted, None)
    ensures st.pc.prepare.ConfirmFirst? ==> LeavesWith(Step(cfg, st, e).pc, 130) && Step(cfg, st, e).trace == st.trace
    ensures st.pc.prepare.SendCordon? || st.pc.prepare.ConfirmFirst?
  {
    FailAnyhow(cfg, st);
    hide FailPc, LeavesWith, ContextError, ConfirmOne, StepAcquire, StepRevalidate, StepPods, StepObserve, StepTrigger,
      StepJudge, StepRestore, StepRelease;
  }

  /** An interrupt before the cordon prevents it, and one right after it undoes it; both exit with 130. */
  lemma EarlyInterruptDecides(cfg: Config, inputs: nat -> Input, u: nat, t: nat)
    requires EarlyInterrupt(StateAt(cfg, inputs, u), inputs(u)) && u < t && StateAt(cfg, inputs, t).pc.Done?
    ensures CodeOf(StateAt(cfg, inputs, t).pc.ret) == 130
    ensures StateAt(cfg, inputs, u).pc.prepare.SendCordon? ==>
              StateAt(cfg, inputs, u + 1).pc == Restoring(CordonInterrupted, None)
  {
    hide StateAt, Step, EarlyInterrupt, CodeOf;
    EarlyInterruptStep(cfg, StateAt(cfg, inputs, u), inputs(u));
    Tick(cfg, inputs, u);
    UndoesWith130(cfg, inputs, u + 1, t);
  }

  /** A rollback after an interrupt ends with 130, whatever becomes of it. */
  lemma {:induction false} UndoesWith130(cfg: Config, inputs: nat -> Input, u: nat, t: nat)
    requires u <= t && StateAt(cfg, inputs, t).pc.Done?
    requires var pc := StateAt(cfg, inputs, u).pc;
             LeavesWith(pc, 130) || (pc.Restoring? && pc.why.CordonInterrupted?)
    ensures CodeOf(StateAt(cfg, inputs, t).pc.ret) == 130
    decreases t - u
  {
    hide StateAt, Step, CodeOf;
    var st := StateAt(cfg, inputs, u);
    if LeavesWith(st.pc, 130) {
      LeavesRun(cfg, inputs, u, t, 130);
    } else {
      Tick(cfg, inputs, u);
      UndoStep(cfg, st, inputs(u));
      UndoesWith130(cfg, inputs, u + 1, t);
    }
  }

  lemma UndoStep(cfg: Config, st: State, e: Input)
    requires st.pc.Restoring? && st.pc.why.CordonInterrupted?
    ensures var pc := Step(cfg, st, e).pc; LeavesWith(pc, 130) || (pc.Restoring? && pc.why.CordonInterrupted?)
  {
    FailAnyhow(cfg, st);
    hide FailPc, ContextError, CodeOf, StepAcquire, StepPrepare, StepRevalidate, StepPods, StepObserve, StepTrigger,
      StepJudge, StepRelease;
  }

  /**
   An interrupted run judges its latest snapshot. With nothing moving it ends with 130, and it only restores when no
   VMI is left; with something moving it waits, and counts nothing as quiet.
   */
  lemma InterruptedJudges(cfg: Config, inputs: nat -> Input, u: nat, t: nat)
    requires StateAt(cfg, inputs, u).pc == Judging(Judge) && StateAt(cfg, inputs, u).interrupted && u + 1 < t
    ensures var st := StateAt(cfg, inputs, u);
            if exists m :: m in st.snapshot.migrations && m.active then
              StateAt(cfg, inputs, u + 2).pc == Observing(LoopTop) && StateAt(cfg, inputs, u + 2).empty == 0
            else
              && (StateAt(cfg, inputs, t).pc.Done? ==> CodeOf(StateAt(cfg, inputs, t).pc.ret) == 130)
              && (st.snapshot.vmis != [] ==> StateAt(cfg, inputs, u + 1).pc == Releasing(Some(Interrupt()), None))
  {
    hide StateAt, Step, CodeOf;
    var st := StateAt(cfg, inputs, u);
    Tick(cfg, inputs, u);
    Tick(cfg, inputs, u + 1);
    CodingAt(cfg, inputs, u);
    SettledAfterJudge(cfg, st, inputs(u), inputs(u + 1));
    if !exists m :: m in st.snapshot.migrations && m.active && StateAt(cfg, inputs, t).pc.Done? {
      if StateAt(cfg, inputs, t).pc.Done? && LeavesWith(StateAt(cfg, inputs, u + 1).pc, 130) {
        LeavesRun(cfg, inputs, u + 1, t, 130);
      }
    }
  }

  lemma CodingAt(cfg: Config, inputs: nat -> Input, u: nat)
    requires StateAt(cfg, inputs, u).pc == Judging(Judge)
    ensures !StateAt(cfg, inputs, u).settledAbort
  {
    hide StateAt;
    Outcome.CodingRun(cfg, inputs, u);
  }

  lemma SettledAfterJudge(cfg: Config, st: State, e: Input, e': Input)
    requires st.pc == Judging(Judge) && st.interrupted && !st.settledAbort
    ensures var next := Step(cfg, st, e);
            if exists m :: m in st.snapshot.migrations && m.active then
              Step(cfg, next, e').pc == Observing(LoopTop) && Step(cfg, next, e').empty == 0
            else
              && LeavesWith(next.pc, 130)
              && (st.snapshot.vmis != [] ==> next.pc == Releasing(Some(Interrupt()), None))
  {
    NoneActiveIs(st.snapshot.migrations);
    QuietIs(st.snapshot, cfg.opts);
    FailAnyhow(cfg, st.(settledAbort := st.settledAbort || st.snapshot.vmis == []));
    hide CountActive, Quiet, CodeOf, Track, AllSettled, SomeUnverifiable, RepliesFor, StepAcquire, StepPrepare,
      StepRevalidate, StepPods, StepObserve, StepTrigger, StepRestore, StepRelease;
  }

  // ---------------------------------------------------------------- who is evicted

  /** Without an interrupt, a pod is evicted if and only if the options let it go. */
  lemma PodElected(cfg: Config, inputs: nat -> Input, u: nat, pass: Pass, i: nat)
    requires StateAt(cfg, inputs, u).pc == Evicting(pass, i, PodPoll) && !inputs(u).interrupt
    requires i < |StateAt(cfg, inputs, u).snapshot.pods|
    ensures StateAt(cfg, inputs, u + 1).pc
         == if Evictable(StateAt(cfg, inputs, u).snapshot.pods[i], cfg.opts) then Evicting(pass, i, PodEvict)
            else Evicting(pass, i + 1, PodPoll)
  {
    EligibleIs(StateAt(cfg, inputs, u).snapshot.pods[i], cfg.opts);
    Tick(cfg, inputs, u);
    hide StateAt, NormalEligible, Evictable, StepAcquire, StepPrepare, StepRevalidate, StepObserve, StepTrigger,
      StepJudge, StepRestore, StepRelease;
    assert Evictable(StateAt(cfg, inputs, u).snapshot.pods[i], cfg.opts)
        == NormalEligible(StateAt(cfg, inputs, u).snapshot.pods[i], cfg.opts) by {
      EvictableIs(StateAt(cfg, inputs, u).snapshot.pods[i], cfg.opts);
    }
  }

  lemma EvictableIs(p: PodInfo, opts: Options)
    ensures Evictable(p, opts) <==> NormalEligible(p, opts)
  {
    EligibleIs(p, opts);
  }

  /**
   Without an interrupt, a VMI is asked to migrate if and only if the limit allows one more, it was not asked yet,
   no active migration is its own, and it has a launcher.
   */
  lemma VMIElected(cfg: Config, inputs: nat -> Input, u: nat, i: nat)
    requires StateAt(cfg, inputs, u).pc == Triggering(i, TriggerPoll) && !inputs(u).interrupt
    requires i < |StateAt(cfg, inputs, u).snapshot.vmis|
    ensures var st := StateAt(cfg, inputs, u);
            var v := st.snapshot.vmis[i];
            StateAt(cfg, inputs, u + 1).pc
            == if st.outstanding < st.limit && v.vmi.namespace + "/" + v.vmi.name !in st.triggered
                  && !Migrates(st.snapshot, v) && v.launcher.Some?
               then Triggering(i, TriggerDryRun) else Triggering(i + 1, TriggerPoll)
  {
    hide StateAt, Has, ClearedView, Safety.Cordoned;
    var st := StateAt(cfg, inputs, u);
    SafeRun(cfg, inputs, u);
    Tick(cfg, inputs, u);
    MigratingIs(st.snapshot.migrations, VMIKey(st.snapshot.vmis[i]));
    hide ActiveKeys, StepAcquire, StepPrepare, StepRevalidate, StepPods;
    hide StepObserve, StepJudge, StepRestore, StepRelease;
  }

  // ---------------------------------------------------------------- the lease

  /** A run gets its first look if it creates the lease, or finds it under its own name; else it has done nothing. */
  lemma LeaseDecides(cfg: Config, inputs: nat -> Input, u: nat)
    requires StateAt(cfg, inputs, u).pc == Acquiring(CreateLease)
    ensures var (now, then') := (inputs(u).create, inputs(u + 1).lease);
            if now.Created? then StateAt(cfg, inputs, u + 1).pc == Preparing(FirstLook)
            else if now.AlreadyExists? && then'.Found? && then'.holder == Some(cfg.runID) then
              StateAt(cfg, inputs, u + 2).pc == Preparing(FirstLook)
            else
              StateAt(cfg, inputs, u + 2).pc.Done? && StateAt(cfg, inputs, u + 2).trace == StateAt(cfg, inputs, u).trace
  {
    hide StateAt, Step;
    Tick(cfg, inputs, u);
    Tick(cfg, inputs, u + 1);
    LeaseStep(cfg, StateAt(cfg, inputs, u), inputs(u));
    LeaseStep(cfg, StateAt(cfg, inputs, u + 1), inputs(u + 1));
  }

  lemma LeaseStep(cfg: Config, st: State, e: Input)
    ensures st.pc == Acquiring(CreateLease) ==>
              match e.create
              case Created => Step(cfg, st, e).pc == Preparing(FirstLook)
              case AlreadyExists => Step(cfg, st, e) == st.(pc := Acquiring(GetLease))
              case CreateFailed => Step(cfg, st, e).pc.Done? && Step(cfg, st, e).trace == st.trace
    ensures st.pc == Acquiring(GetLease) ==>
              if e.lease.Found? && e.lease.holder == Some(cfg.runID) then Step(cfg, st, e).pc == Preparing(FirstLook)
              else Step(cfg, st, e).pc.Done? && Step(cfg, st, e).trace == st.trace
    ensures st.pc.Done? ==> Step(cfg, st, e) == st
  {
    hide ContextError, StepPrepare, StepRevalidate, StepPods, StepObserve, StepTrigger, StepJudge, StepRestore,
      StepRelease;
  }

  // ---------------------------------------------------------------- the release

  /** A failed release makes a run exit with 1 that would have returned nil, and changes no other result. */
  lemma FailedReleaseDecides(cfg: Config, st: State, e: Input)
    requires st.pc.Releasing?
    requires if st.pc.lease.Some? then e.ack.Refused?
             else !e.lease.NoLease? && !(e.lease.Found? && e.lease.holder == Some(cfg.runID))
    ensures Step(cfg, st, e).pc.Done? && Step(cfg, st, e).trace == st.trace
    ensures if st.pc.leaving.Some? then Step(cfg, st, e).pc.ret == st.pc.leaving
            else CodeOf(Step(cfg, st, e).pc.ret) == 1
  {
    hide StepAcquire, StepPrepare, StepRevalidate, StepPods, StepObserve, StepTrigger, StepJudge, StepRestore;
  }
}
