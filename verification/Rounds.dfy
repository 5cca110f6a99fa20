/** The checks that come first: what a run has established before it cordons, and before it evicts. */
module Rounds {
  import opened Common
  import opened Kube
  import opened Machine
  import opened History
  import opened Safety
  import opened Moves

  /** The latest observation of the history. */
  function LastLook(tr: Trace): (r: Option<Event>)
    ensures r.Some? ==> r.value.Observed?
  {
    if tr.Empty? then None else if tr.ev.Observed? then Some(tr.ev) else LastLook(tr.past)
  }

  /** Since the latest observation a dry run of the VMI's launcher eviction drew KubeVirt's answer. */
  predicate AnsweredSince(tr: Trace, v: VMIInfo) {
    tr.Then? && !tr.ev.Observed?
    && ((tr.ev.DryRun? && tr.ev.vmi == v && EvacuationAccepted(tr.ev.reply, v)) || AnsweredSince(tr.past, v))
  }

  /** The VMI is migrating already, or its dry run was answered. */
  predicate Cleared(tr: Trace, s: Snapshot, v: VMIInfo) {
    VMIKey(v) in ActiveKeys(s.migrations) || AnsweredSince(tr, v)
  }

  /** The latest observation is the given look at `s`, which passed preflight, and its first `n` VMIs are cleared. */
  predicate InRound(cfg: Config, tr: Trace, look: Look, s: Snapshot, n: nat) {
    && LastLook(tr) == Some(Observed(look, s)) && Preflighted(s, cfg.opts)
    && n <= |s.vmis| && forall j :: 0 <= j < n ==> Cleared(tr, s, s.vmis[j])
  }

  /** The latest look was of this kind, and its whole round passed. */
  predicate RoundPassed(cfg: Config, tr: Trace, look: Look) {
    LastLook(tr).Some? && var s := LastLook(tr).value.snap; InRound(cfg, tr, look, s, |s.vmis|)
  }

  /** A cordon: the first round has just passed, and the node was schedulable. */
  predicate MayCordon(cfg: Config, tr: Trace) {
    RoundPassed(cfg, tr, Initial) && !LastLook(tr).value.snap.unschedulable
  }

  /** At some moment of the history the second round passed. */
  predicate CheckedTwice(cfg: Config, tr: Trace) {
    tr.Then? && (RoundPassed(cfg, tr, Revalidated) || CheckedTwice(cfg, tr.past))
  }

  /** What the checks demand of a history before the event. */
  predicate Checked(cfg: Config, tr: Trace, ev: Event) {
    (ev.Cordon? ==> MayCordon(cfg, tr)) && (RealEviction(ev) ==> CheckedTwice(cfg, tr))
  }

  predicate AllChecked(cfg: Config, tr: Trace) {
    tr.Then? ==> AllChecked(cfg, tr.past) && Checked(cfg, tr.past, tr.ev)
  }

  // ---------------------------------------------------------------- at each point of the program

  predicate Stage(cfg: Config, st: State) {
    match st.pc
    case Preparing(ConfirmFirst(i, bad)) => !bad ==> InRound(cfg, st.trace, Initial, st.snapshot, i)
    case Preparing(SendCordon) =>
      InRound(cfg, st.trace, Initial, st.snapshot, |st.snapshot.vmis|) && !st.snapshot.unschedulable
    case Revalidating(ConfirmSecond(i, bad)) =>
      !bad ==> InRound(cfg, st.trace, Revalidated, st.snapshot, i)
    case Evicting(_, _, _) => CheckedTwice(cfg, st.trace)
    case Observing(_) => CheckedTwice(cfg, st.trace)
    case Triggering(_, _) => CheckedTwice(cfg, st.trace)
    case Judging(_) => CheckedTwice(cfg, st.trace)
    case _ => true
  }

  /** One more dry run of a round. */
  lemma ClearsOne(cfg: Config, tr: Trace, look: Look, s: Snapshot, i: nat, e: Input)
    requires InRound(cfg, tr, look, s, i) && i < |s.vmis| && !ConfirmOne(s, s.vmis[i], e).0
    ensures InRound(cfg, AfterConfirm(tr, ConfirmOne(s, s.vmis[i], e).1), look, s, i + 1)
  {
    hide EvacuationAccepted, VMIKey, ActiveKeys, Confirmable;
    assert s.vmis[i] in s.vmis;
  }

  /** Dry runs are always allowed. */
  lemma ConfirmChecked(cfg: Config, tr: Trace, s: Snapshot, v: VMIInfo, e: Input)
    requires AllChecked(cfg, tr)
    ensures AllChecked(cfg, AfterConfirm(tr, ConfirmOne(s, v, e).1))
  {
    hide EvacuationAccepted, VMIKey, ActiveKeys, Confirmable;
  }

  /** Looks are always allowed, and start a round. */
  lemma LookChecked(cfg: Config, tr: Trace, look: Look, s: Snapshot)
    requires AllChecked(cfg, tr)
    ensures AllChecked(cfg, Then(tr, Observed(look, s)))
    ensures Preflighted(s, cfg.opts) ==> InRound(cfg, Then(tr, Observed(look, s)), look, s, 0)
  {
    hide Preflighted, Cleared;
  }

  /** The cordon follows the first round. */
  lemma CordonChecked(cfg: Config, tr: Trace, s: Snapshot, acked: bool)
    requires AllChecked(cfg, tr) && InRound(cfg, tr, Initial, s, |s.vmis|) && !s.unschedulable
    ensures AllChecked(cfg, Then(tr, Cordon(acked)))
  {
    hide Preflighted, Cleared, CheckedTwice;
  }

  lemma PrepareChecked(cfg: Config, st: State, at: PreparePc, e: Input)
    requires Stage(cfg, st) && AllChecked(cfg, st.trace) && st.pc == Preparing(at) && !at.ConfirmFirst?
    ensures var after := StepPrepare(cfg, st, at, e); Stage(cfg, after) && AllChecked(cfg, after.trace)
  {
    hide Preflighted, ContextError, ConfirmOne, AfterConfirm, Baselined, Cleared, CheckedTwice, AllChecked;
    match at
    case FirstLook => if e.snap.Got? { LookChecked(cfg, st.trace, Initial, e.snap.value); }
    case SendCordon => CordonChecked(cfg, st.trace, st.snapshot, e.ack.Acked?);
  }

  lemma ConfirmFirstChecked(cfg: Config, st: State, i: nat, bad: bool, e: Input)
    requires Stage(cfg, st) && AllChecked(cfg, st.trace) && st.pc == Preparing(ConfirmFirst(i, bad))
    ensures var after := StepPrepare(cfg, st, ConfirmFirst(i, bad), e);
            Stage(cfg, after) && AllChecked(cfg, after.trace)
  {
    hide Preflighted, ContextError, ConfirmOne, AfterConfirm, Baselined, Cleared, CheckedTwice, AllChecked, InRound;
    if i < |st.snapshot.vmis| {
      ConfirmChecked(cfg, st.trace, st.snapshot, st.snapshot.vmis[i], e);
      if !bad && !ConfirmOne(st.snapshot, st.snapshot.vmis[i], e).0 {
        ClearsOne(cfg, st.trace, Initial, st.snapshot, i, e);
      }
    } else if !bad {
      RoundEnds(cfg, st.trace, Initial, st.snapshot, i);
      BaselinedStage(cfg, st, e);
    }
  }

  lemma RoundEnds(cfg: Config, tr: Trace, look: Look, s: Snapshot, i: nat)
    requires InRound(cfg, tr, look, s, i) && i >= |s.vmis|
    ensures InRound(cfg, tr, look, s, |s.vmis|)
  {}

  lemma BaselinedStage(cfg: Config, st: State, e: Input)
    requires InRound(cfg, st.trace, Initial, st.snapshot, |st.snapshot.vmis|)
    ensures Stage(cfg, Baselined(cfg, st, e)) && Baselined(cfg, st, e).trace == st.trace
  {
    hide InRound, ContextError;
  }

  lemma RevalidateChecked(cfg: Config, st: State, at: RevalidatePc, e: Input)
    requires Stage(cfg, st) && AllChecked(cfg, st.trace) && st.pc == Revalidating(at)
    ensures var after := StepRevalidate(cfg, st, at, e); Stage(cfg, after) && AllChecked(cfg, after.trace)
  {
    hide Preflighted, ContextError, ConfirmOne, AfterConfirm, Cleared, AllChecked;
    match at
    case SecondLook =>
      if e.snap.Got? { LookChecked(cfg, st.trace, Revalidated, e.snap.value); }
    case ConfirmSecond(i, bad) =>
      if i < |st.snapshot.vmis| {
        ConfirmChecked(cfg, st.trace, st.snapshot, st.snapshot.vmis[i], e);
        if !bad && !ConfirmOne(st.snapshot, st.snapshot.vmis[i], e).0 {
          ClearsOne(cfg, st.trace, Revalidated, st.snapshot, i, e);
        }
      }
  }

  /** Later events leave it at that. */
  lemma StaysCheckedTwice(cfg: Config, tr: Trace, ev: Event)
    requires CheckedTwice(cfg, tr) && AllChecked(cfg, tr) && !ev.Cordon?
    ensures CheckedTwice(cfg, Then(tr, ev)) && AllChecked(cfg, Then(tr, ev))
  {
    hide RoundPassed;
  }

  /** After the second round there is no way back before it, and no cordon. */
  predicate GoesOn(before: State, after: State) {
    && (after.trace == before.trace
        || (after.trace.Then? && after.trace.past == before.trace && !after.trace.ev.Cordon?))
    && !after.pc.Preparing? && !after.pc.Revalidating?
  }

  lemma LoopChecked(cfg: Config, before: State, after: State)
    requires CheckedTwice(cfg, before.trace) && AllChecked(cfg, before.trace) && GoesOn(before, after)
    ensures Stage(cfg, after) && AllChecked(cfg, after.trace)
  {
    hide RoundPassed, MayCordon;
    if after.trace != before.trace { StaysCheckedTwice(cfg, before.trace, after.trace.ev); }
  }

  lemma PodsGoOn(cfg: Config, st: State, pass: Pass, i: nat, at: PodPc, e: Input)
    ensures GoesOn(st, StepPods(cfg, st, pass, i, at, e))
  {
    hide ContextError, Tolerable, NormalEligible, Outstanding;
    if i < |st.snapshot.pods| {
      match at
      case PodPoll => if e.interrupt { }
      case PodEvict =>
      case PodOutput =>
    } else if pass.Setup? { }
  }

  lemma ObserveGoesOn(cfg: Config, st: State, at: ObservePc, e: Input)
    ensures GoesOn(st, StepObserve(cfg, st, at, e))
  {
    hide ContextError, Preflighted, MergeFailed, NewlyFailed, Track, WithinBudget, EffectiveLimit;
    match at
    case DiscoverLimit =>
    case LoopTop => if e.broken { } else if !e.deadline { }
    case LoopLook => if e.snap.Lost? { }
    case Account =>
  }

  lemma TriggerGoesOn(cfg: Config, st: State, i: nat, at: TriggerPc, e: Input)
    ensures GoesOn(st, StepTrigger(cfg, st, i, at, e))
  {
    hide ContextError, EvacuationAccepted, Confirmable, Skipped;
    if i < |st.snapshot.vmis| {
      match at
      case TriggerPoll => if e.interrupt { }
      case TriggerDryRun =>
      case TriggerEvict =>
    }
  }

  lemma JudgeGoesOn(cfg: Config, st: State, at: JudgePc, e: Input)
    ensures GoesOn(st, StepJudge(cfg, st, at, e))
  {
    hide ContextError, Quiet, CountActive, RepliesFor, SomeUnverifiable, AllSettled, Track;
    match at
    case Judge => if st.interrupted && CountActive(st.snapshot.migrations) == 0 { }
    case VerifyHotplug =>
    case FinalLook => if e.snap.Lost? { }
    case Sleep =>
  }

  /** Acquiring and leaving write neither cordons nor evictions. */
  lemma EdgeChecked(cfg: Config, st: State, e: Input)
    requires AllChecked(cfg, st.trace) && (st.pc.Acquiring? || Leaving(st.pc))
    ensures Stage(cfg, Step(cfg, st, e)) && AllChecked(cfg, Step(cfg, st, e).trace)
  {
    hide Stage, ContextError, ReleaseFailed, AfterRollback, RoundPassed, CheckedTwice, MayCordon, StepPrepare,
      StepRevalidate, StepPods, StepObserve, StepTrigger, StepJudge;
    EdgeStage(cfg, st, e);
    match st.pc
    case Acquiring(at) =>
    case Restoring(why, node) =>
    case Releasing(ret, lease) => if lease.Some? { } else if e.lease.NoLease? { }
    case Done(_) =>
  }

  lemma EdgeStage(cfg: Config, st: State, e: Input)
    requires st.pc.Acquiring? || Leaving(st.pc)
    ensures Stage(cfg, Step(cfg, st, e))
  {
    if Leaving(st.pc) {
      LeavingStep(cfg, st, e);
      hide Step;
    } else {
      AcquireStage(cfg, st, st.pc.acquire, e);
      hide StepAcquire, Stage;
    }
  }

  lemma AcquireStage(cfg: Config, st: State, at: AcquirePc, e: Input)
    ensures Stage(cfg, StepAcquire(cfg, st, at, e))
  {
    hide ContextError, ValidOptions;
    match at
    case Start =>
    case CreateLease =>
    case GetLease =>
  }

  lemma CheckedStep(cfg: Config, st: State, e: Input)
    requires Stage(cfg, st) && AllChecked(cfg, st.trace)
    ensures Stage(cfg, Step(cfg, st, e)) && AllChecked(cfg, Step(cfg, st, e).trace)
  {
    hide AllChecked, CheckedTwice, InRound, StepAcquire, StepPrepare, StepRevalidate, StepPods, StepObserve,
      StepTrigger, StepJudge, StepRestore, StepRelease, GoesOn;
    match st.pc
    case Preparing(ConfirmFirst(i, bad)) => ConfirmFirstChecked(cfg, st, i, bad, e);
    case Preparing(at) => PrepareChecked(cfg, st, at, e);
    case Revalidating(at) => RevalidateChecked(cfg, st, at, e);
    case Evicting(pass, i, at) =>
      PodsGoOn(cfg, st, pass, i, at, e);
      LoopChecked(cfg, st, Step(cfg, st, e));
    case Observing(at) =>
      ObserveGoesOn(cfg, st, at, e);
      LoopChecked(cfg, st, Step(cfg, st, e));
    case Triggering(i, at) =>
      TriggerGoesOn(cfg, st, i, at, e);
      LoopChecked(cfg, st, Step(cfg, st, e));
    case Judging(at) =>
      JudgeGoesOn(cfg, st, at, e);
      LoopChecked(cfg, st, Step(cfg, st, e));
    case _ => EdgeChecked(cfg, st, e);
  }

  lemma {:induction false} CheckedRun(cfg: Config, inputs: nat -> Input, t: nat)
    ensures Stage(cfg, StateAt(cfg, inputs, t)) && AllChecked(cfg, StateAt(cfg, inputs, t).trace)
  {
    hide StateAt, Step, Init, Stage, AllChecked;
    if t == 0 {
      Begins(cfg, inputs);
      CheckedInit(cfg);
    } else {
      CheckedRun(cfg, inputs, t - 1);
      Tick(cfg, inputs, t - 1);
      CheckedStep(cfg, StateAt(cfg, inputs, t - 1), inputs(t - 1));
    }
  }

  lemma CheckedInit(cfg: Config)
    ensures Stage(cfg, Init()) && AllChecked(cfg, Init().trace)
  {}

  /**
   In every run, a cordon is sent only when the first snapshot passed preflight and showed a schedulable node, and
   each of its VMIs was migrating or had its dry run answered; and the first eviction only after a second such round
   on a snapshot taken after the cordon step.
   */
  lemma ChecksComeFirst(cfg: Config, inputs: nat -> Input, t: nat, past: Trace, ev: Event)
    requires Earlier(Then(past, ev), StateAt(cfg, inputs, t).trace)
    ensures Allowed(cfg, past, ev) && Checked(cfg, past, ev)
  {
    hide StateAt, Stage, Checked, Allowed;
    EveryEventAllowed(cfg, inputs, t, past, ev);
    CheckedRun(cfg, inputs, t);
    CheckedEarlier(cfg, Then(past, ev), StateAt(cfg, inputs, t).trace);
  }

  lemma {:induction false} CheckedEarlier(cfg: Config, part: Trace, tr: Trace)
    requires AllChecked(cfg, tr) && Earlier(part, tr)
    ensures AllChecked(cfg, part)
  {
    hide Checked;
    if part != tr { CheckedEarlier(cfg, part, tr.past); }
  }
}
