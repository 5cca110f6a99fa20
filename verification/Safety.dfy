/** Which events a run may add to its history, and when: guarded evictions, restores, and the lease span. */
module Safety {
  import opened Common
  import opened Errors
  import opened Kube
  import opened Machine
  import opened History

  /** The node was already unschedulable when first read, or this run's cordon was acknowledged. */
  predicate CordonSettled(tr: Trace) {
    && FirstSnapshot(tr).Some?
    && (FirstSnapshot(tr).value.unschedulable || Has(tr, Cordon(true)))
  }

  /** This run cordoned a node that it first read as schedulable. */
  predicate CordonIsOurs(tr: Trace) {
    && FirstSnapshot(tr).Some?
    && !FirstSnapshot(tr).value.unschedulable && Has(tr, Cordon(true))
  }

  /** The latest snapshot is `s`, it passed preflight, and it was taken after the cordon step. */
  predicate ClearedView(cfg: Config, tr: Trace, s: Snapshot) {
    && LastSeen(tr) == Some(s) && Preflighted(s, cfg.opts)
    && SeenAgain(tr) && CordonSettled(tr)
  }

  predicate JustConfirmed(tr: Trace, v: VMIInfo) {
    tr.Then? && tr.ev.DryRun? && tr.ev.vmi == v && EvacuationAccepted(tr.ev.reply, v)
  }

  /** The node has no VMI and no active migration left. */
  predicate Vacated(s: Snapshot) { s.vmis == [] && CountActive(s.migrations) == 0 }

  /** The history is open: the lease was acquired and not released. */
  predicate Open(tr: Trace) { tr.Then? && !Has(tr, Released) }

  /** A normal eviction targets an eligible pod of a cleared view. */
  predicate MayEvict(cfg: Config, tr: Trace, p: PodInfo, grace: int) {
    && LastSeen(tr).Some? && ClearedView(cfg, tr, LastSeen(tr).value)
    && p in LastSeen(tr).value.pods && NormalEligible(p, cfg.opts) && grace == cfg.opts.gracePeriod
  }

  /** A launcher eviction targets a cleared VMI without active migration, straight after its dry run. */
  predicate MayTrigger(cfg: Config, tr: Trace, v: VMIInfo, grace: int) {
    && LastSeen(tr).Some? && ClearedView(cfg, tr, LastSeen(tr).value)
    && v in LastSeen(tr).value.vmis && Confirmable(v)
    && VMIKey(v) !in ActiveKeys(LastSeen(tr).value.migrations)
    && JustConfirmed(tr, v) && grace == -1
  }

  /** A restore undoes our own cordon: before any eviction, or once an aborted run settled. */
  predicate MayRestore(cfg: Config, tr: Trace) {
    && CordonIsOurs(tr)
    && (Evictions(tr) == 0
        || (cfg.opts.abortUncordons && LastSeen(tr).Some? && Vacated(LastSeen(tr).value)))
  }

  /** What must hold of the history `tr` for the run to do `ev` next. */
  predicate Allowed(cfg: Config, tr: Trace, ev: Event) {
    match ev
    case Acquired => tr.Empty?
    case Evicted(p, grace, _) => Open(tr) && MayEvict(cfg, tr, p, grace)
    case Triggered(v, grace, _) => Open(tr) && MayTrigger(cfg, tr, v, grace)
    case Restore(_) => Open(tr) && MayRestore(cfg, tr)
    case _ => Open(tr)
  }

  /** Every event of the history was allowed when it happened. */
  predicate Lawful(cfg: Config, tr: Trace) {
    tr.Empty? || (Lawful(cfg, tr.past) && Allowed(cfg, tr.past, tr.ev))
  }

  // ---------------------------------------------------------------- where the run stands

  /** Between a successful acquire and the end of the release. */
  predicate Holding(pc: Pc) { !pc.Acquiring? && !pc.Done? }

  /** The VMI under the trigger pass was not skipped. */
  predicate Chosen(st: State, i: nat) { i < |st.snapshot.vmis| && !Skipped(st, st.snapshot.vmis[i]) }

  /** The cordon step is behind us: what the run knows of the first snapshot. */
  predicate Cordoned(st: State) {
    && CordonSettled(st.trace)
    && st.nodeUid == FirstSnapshot(st.trace).value.nodeUid
    && st.cordonedByUs == !FirstSnapshot(st.trace).value.unschedulable
  }

  predicate Viewing(st: State) { LastSeen(st.trace) == Some(st.snapshot) }

  predicate FirstView(st: State) {
    && LastSeen(st.trace) == FirstSnapshot(st.trace) == Some(st.snapshot)
    && st.nodeUid == st.snapshot.nodeUid
  }

  predicate StandingPrepare(st: State, at: PreparePc) {
    && !st.interrupted && Evictions(st.trace) == 0
    && (!at.FirstLook? ==> FirstView(st))
    && (at.SendCordon? ==> st.cordonedByUs && !st.snapshot.unschedulable)
  }

  predicate StandingRevalidate(cfg: Config, st: State, at: RevalidatePc) {
    && !st.interrupted && Evictions(st.trace) == 0 && Cordoned(st)
    && (at.ConfirmSecond? ==> ClearedView(cfg, st.trace, st.snapshot))
  }

  predicate StandingPods(cfg: Config, st: State, i: nat, at: PodPc) {
    && !st.interrupted && Cordoned(st) && ClearedView(cfg, st.trace, st.snapshot)
    && (at.PodEvict? ==> i < |st.snapshot.pods| && NormalEligible(st.snapshot.pods[i], cfg.opts))
  }

  predicate StandingObserve(cfg: Config, st: State, at: ObservePc) {
    && Cordoned(st) && SeenAgain(st.trace)
    && (at.Account? ==> Viewing(st) && (!st.interrupted ==> Preflighted(st.snapshot, cfg.opts)))
  }

  predicate StandingTrigger(cfg: Config, st: State, i: nat, at: TriggerPc) {
    && !st.interrupted && Cordoned(st) && ClearedView(cfg, st.trace, st.snapshot)
    && st.active == ActiveKeys(st.snapshot.migrations)
    && (!at.TriggerPoll? ==> Chosen(st, i))
    && (at.TriggerEvict? ==> Confirmable(st.snapshot.vmis[i]) && JustConfirmed(st.trace, st.snapshot.vmis[i]))
  }

  predicate StandingJudge(cfg: Config, st: State, at: JudgePc) {
    && Cordoned(st) && SeenAgain(st.trace)
    && (at.Judge? ==> Viewing(st) && (!st.interrupted ==> Preflighted(st.snapshot, cfg.opts)))
  }

  predicate StandingRestore(cfg: Config, st: State, why: Why) {
    && Cordoned(st) && st.cordonedByUs
    && (!why.Aborted? ==> Evictions(st.trace) == 0 && !st.interrupted && !st.settledAbort)
    && (why.Aborted? ==>
          && st.interrupted && cfg.opts.abortUncordons && Viewing(st) && Vacated(st.snapshot)
          && CodeOf(Some(why.ret)) == INTERRUPTED)
  }

  /** What holds of a run at each point of its program. */
  predicate Standing(cfg: Config, st: State) {
    match st.pc
    case Acquiring(_) => st.trace.Empty? && !st.interrupted && !st.settledAbort
    case Preparing(at) => !st.settledAbort && StandingPrepare(st, at)
    case Revalidating(at) => !st.settledAbort && StandingRevalidate(cfg, st, at)
    case Evicting(_, i, at) => !st.settledAbort && StandingPods(cfg, st, i, at)
    case Observing(at) => !st.settledAbort && StandingObserve(cfg, st, at)
    case Triggering(i, at) => !st.settledAbort && StandingTrigger(cfg, st, i, at)
    case Judging(at) => !st.settledAbort && StandingJudge(cfg, st, at)
    case Restoring(why, _) => StandingRestore(cfg, st, why)
    case Releasing(_, _) => true
    case Done(_) => true
  }

  predicate Steady(cfg: Config, st: State) {
    Standing(cfg, st) && (Holding(st.pc) ==> Open(st.trace))
  }

  /** A step adds at most one event, and only an allowed one. */
  predicate Extends(cfg: Config, before: Trace, after: Trace) {
    after == before || (after.Then? && after.past == before && Allowed(cfg, before, after.ev))
  }

  lemma SafeAcquire(cfg: Config, st: State, at: AcquirePc, e: Input)
    requires Steady(cfg, st) && st.pc == Acquiring(at)
    ensures Steady(cfg, StepAcquire(cfg, st, at, e)) && Extends(cfg, st.trace, StepAcquire(cfg, st, at, e).trace)
  {
    hide ContextError, ValidOptions;
    match at
    case Start =>
    case CreateLease =>
    case GetLease =>
  }

  lemma SafePrepare(cfg: Config, st: State, at: PreparePc, e: Input)
    requires Steady(cfg, st) && st.pc == Preparing(at)
    ensures Steady(cfg, StepPrepare(cfg, st, at, e)) && Extends(cfg, st.trace, StepPrepare(cfg, st, at, e).trace)
  {
    hide EvacuationAccepted, Confirmable, Preflighted, ContextError, ActiveKeys, VMIKey, Vacated, NormalEligible;
    match at
    case FirstLook => if e.snap.Lost? { }
    case ConfirmFirst(i, bad) => if i < |st.snapshot.vmis| { } else if bad { } else { }
    case SendCordon => if e.ack.Refused? { } else if e.interrupt { }
  }

  lemma SafeRevalidate(cfg: Config, st: State, at: RevalidatePc, e: Input)
    requires Steady(cfg, st) && st.pc == Revalidating(at)
    ensures Steady(cfg, StepRevalidate(cfg, st, at, e)) && Extends(cfg, st.trace, StepRevalidate(cfg, st, at, e).trace)
  {
    hide EvacuationAccepted, Confirmable, Preflighted, ContextError, ActiveKeys, VMIKey, Vacated, NormalEligible;
    match at
    case SecondLook => if e.snap.Lost? { }
    case ConfirmSecond(i, bad) => if i < |st.snapshot.vmis| { } else if bad { }
  }

  lemma SafePods(cfg: Config, st: State, pass: Pass, i: nat, at: PodPc, e: Input)
    requires Steady(cfg, st) && st.pc == Evicting(pass, i, at)
    ensures Steady(cfg, StepPods(cfg, st, pass, i, at, e))
    ensures Extends(cfg, st.trace, StepPods(cfg, st, pass, i, at, e).trace)
  {
    hide Tolerable, NormalEligible, Preflighted, ContextError, Outstanding, ActiveKeys, Vacated, EvacuationAccepted;
    if i < |st.snapshot.pods| {
      match at
      case PodPoll => if e.interrupt { }
      case PodEvict =>
      case PodOutput =>
    } else if pass.Setup? { }
  }

  lemma SafeObserve(cfg: Config, st: State, at: ObservePc, e: Input)
    requires Steady(cfg, st) && st.pc == Observing(at)
    ensures Steady(cfg, StepObserve(cfg, st, at, e)) && Extends(cfg, st.trace, StepObserve(cfg, st, at, e).trace)
  {
    hide EffectiveLimit, DiscoveredLimit, Track, ActiveKeys, Preflighted, MergeFailed, NewlyFailed, WithinBudget,
      ContextError, Vacated, EvacuationAccepted, NormalEligible;
    match at
    case DiscoverLimit =>
    case LoopTop => if e.broken { } else if !e.deadline { }
    case LoopLook => if e.snap.Lost? { }
    case Account =>
  }

  lemma SafeTrigger(cfg: Config, st: State, i: nat, at: TriggerPc, e: Input)
    requires Steady(cfg, st) && st.pc == Triggering(i, at)
    ensures Steady(cfg, StepTrigger(cfg, st, i, at, e)) && Extends(cfg, st.trace, StepTrigger(cfg, st, i, at, e).trace)
  {
    hide EvacuationAccepted, Confirmable, ContextError, Preflighted, ActiveKeys, VMIKey, Vacated, NormalEligible;
    if i < |st.snapshot.vmis| {
      match at
      case TriggerPoll => if e.interrupt { }
      case TriggerDryRun =>
      case TriggerEvict =>
    }
  }

  lemma SafeJudge(cfg: Config, st: State, at: JudgePc, e: Input)
    requires Steady(cfg, st) && st.pc == Judging(at)
    ensures Steady(cfg, StepJudge(cfg, st, at, e)) && Extends(cfg, st.trace, StepJudge(cfg, st, at, e).trace)
  {
    hide CountActive, Quiet, RepliesFor, SomeUnverifiable, AllSettled, Track, Preflighted, ContextError,
      EvacuationAccepted, NormalEligible;
    match at
    case Judge => if st.interrupted && CountActive(st.snapshot.migrations) == 0 { }
    case VerifyHotplug => if SomeUnverifiable(st.tracked, e) { }
    case FinalLook => if e.snap.Lost? { }
    case Sleep =>
  }

  lemma SafeRestore(cfg: Config, st: State, why: Why, node: Option<nat>, e: Input)
    requires Steady(cfg, st) && st.pc == Restoring(why, node)
    ensures Steady(cfg, StepRestore(cfg, st, why, node, e))
    ensures Extends(cfg, st.trace, StepRestore(cfg, st, why, node, e).trace)
  {
    hide ContextError, Preflighted, CountActive, EvacuationAccepted, NormalEligible;
    match why
    case CordonInterrupted =>
    case RevalidationFailed =>
    case Aborted(ret) =>
  }

  lemma SafeRelease(cfg: Config, st: State, ret: Option<Error>, lease: Option<LeaseId>, e: Input)
    requires Steady(cfg, st) && st.pc == Releasing(ret, lease)
    ensures Steady(cfg, StepRelease(cfg, st, ret, lease, e))
    ensures Extends(cfg, st.trace, StepRelease(cfg, st, ret, lease, e).trace)
  {
    hide ReleaseFailed, Preflighted, CountActive, EvacuationAccepted, NormalEligible;
    if lease.Some? { } else if e.lease.NoLease? { } else { }
  }

  lemma SafeStep(cfg: Config, st: State, e: Input)
    requires Steady(cfg, st)
    ensures Steady(cfg, Step(cfg, st, e)) && Extends(cfg, st.trace, Step(cfg, st, e).trace)
  {
    hide Standing, Extends, Lawful, StepAcquire, StepPrepare, StepRevalidate, StepPods, StepObserve, StepTrigger,
      StepJudge, StepRestore, StepRelease;
    match st.pc
    case Acquiring(at) => SafeAcquire(cfg, st, at, e);
    case Preparing(at) => SafePrepare(cfg, st, at, e);
    case Revalidating(at) => SafeRevalidate(cfg, st, at, e);
    case Evicting(pass, i, at) => SafePods(cfg, st, pass, i, at, e);
    case Observing(at) => SafeObserve(cfg, st, at, e);
    case Triggering(i, at) => SafeTrigger(cfg, st, i, at, e);
    case Judging(at) => SafeJudge(cfg, st, at, e);
    case Restoring(why, node) => SafeRestore(cfg, st, why, node, e);
    case Releasing(ret, lease) => SafeRelease(cfg, st, ret, lease, e);
    case Done(_) =>
      assert Extends(cfg, st.trace, st.trace) by { Unmoved(cfg, st.trace); }
  }

  lemma Unmoved(cfg: Config, tr: Trace)
    ensures Extends(cfg, tr, tr)
  {}

  lemma {:induction false} SafeRun(cfg: Config, inputs: nat -> Input, t: nat)
    ensures Steady(cfg, StateAt(cfg, inputs, t)) && Lawful(cfg, StateAt(cfg, inputs, t).trace)
  {
    hide StateAt, Step, Init, Steady, Lawful;
    if t == 0 {
      Begins(cfg, inputs);
      SafeInit(cfg);
    } else {
      SafeRun(cfg, inputs, t - 1);
      Tick(cfg, inputs, t - 1);
      var st := StateAt(cfg, inputs, t - 1);
      SafeStep(cfg, st, inputs(t - 1));
      StaysLawful(cfg, st.trace, StateAt(cfg, inputs, t).trace);
    }
  }

  lemma SafeInit(cfg: Config)
    ensures Steady(cfg, Init()) && Lawful(cfg, Init().trace)
  {}

  lemma StaysLawful(cfg: Config, before: Trace, after: Trace)
    requires Lawful(cfg, before) && Extends(cfg, before, after)
    ensures Lawful(cfg, after)
  {}

  /** `part` is the whole of `tr`, or `tr` as it was at some earlier moment. */
  predicate Earlier(part: Trace, tr: Trace) {
    part == tr || (tr.Then? && Earlier(part, tr.past))
  }

  /** In every run, whatever the cluster answers, each event was allowed by the history before it. */
  lemma {:induction false} EveryEventAllowed(cfg: Config, inputs: nat -> Input, t: nat, past: Trace, ev: Event)
    requires Earlier(Then(past, ev), StateAt(cfg, inputs, t).trace)
    ensures Allowed(cfg, past, ev)
  {
    SafeRun(cfg, inputs, t);
    LawfulEarlier(cfg, Then(past, ev), StateAt(cfg, inputs, t).trace);
  }

  lemma {:induction false} LawfulEarlier(cfg: Config, part: Trace, tr: Trace)
    requires Lawful(cfg, tr) && Earlier(part, tr)
    ensures Lawful(cfg, part)
  {
    if part != tr { LawfulEarlier(cfg, part, tr.past); }
  }
}
