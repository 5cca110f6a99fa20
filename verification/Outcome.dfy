/** What the end of a run tells: a nil result is sound, an interrupt is final, and the exit codes. */
module Outcome {
  import opened Common
  import opened Errors
  import opened Kube
  import opened Machine
  import opened History
  import opened Safety

  /** The last `n` loop snapshots were quiet and passed preflight. */
  predicate QuietTail(cfg: Config, snaps: seq<Snapshot>, n: nat) {
    && n <= |snaps|
    && forall j :: |snaps| - n <= j < |snaps| ==> Quiet(snaps[j], cfg.opts) && Preflighted(snaps[j], cfg.opts)
  }

  /** `s` is the newest loop snapshot; the `n` before it were quiet. */
  predicate Counting(cfg: Config, snaps: seq<Snapshot>, s: Snapshot, n: nat) {
    snaps != [] && snaps[|snaps| - 1] == s && QuietTail(cfg, snaps[..|snaps| - 1], n)
  }

  /** The newest event is a hotplug verification of every tracked VMI, and all of them settled. */
  predicate HotplugProven(tracked: map<string, Tracked>, tr: Trace) {
    && tr.Then? && tr.ev.Verified? && tr.ev.replies.Keys == tracked.Keys
    && forall u :: u in tracked ==>
         HotplugSettled(tracked[u], tr.ev.replies[u]) && !Unverifiable(u, tr.ev.replies[u])
  }

  /** The history of a run that may report success. */
  predicate Proven(cfg: Config, tracked: map<string, Tracked>, tr: Trace) {
    && tr.Then? && tr.ev.Observed? && tr.ev.look.Final? && Quiet(tr.ev.snap, cfg.opts)
    && HotplugProven(tracked, tr.past)
    && QuietTail(cfg, LoopSnapshots(tr.past), 3)
  }

  predicate Concluding(cfg: Config, st: State) {
    match st.pc
    case Evicting(pass, _, _) =>
      !st.interrupted && (pass.Loop? ==> Counting(cfg, LoopSnapshots(st.trace), st.snapshot, st.empty))
    case Observing(at) =>
      (match at
       case DiscoverLimit => true
       case Account => Counting(cfg, LoopSnapshots(st.trace), st.snapshot, st.empty)
       case _ => QuietTail(cfg, LoopSnapshots(st.trace), st.empty))
    case Triggering(_, _) => !st.interrupted && Counting(cfg, LoopSnapshots(st.trace), st.snapshot, st.empty)
    case Judging(at) =>
      (match at
       case Judge => Counting(cfg, LoopSnapshots(st.trace), st.snapshot, st.empty)
       case VerifyHotplug => !st.interrupted && st.empty >= 3 && QuietTail(cfg, LoopSnapshots(st.trace), st.empty)
       case FinalLook =>
         && !st.interrupted && st.empty >= 3 && QuietTail(cfg, LoopSnapshots(st.trace), st.empty)
         && HotplugProven(st.tracked, st.trace)
       case Sleep => QuietTail(cfg, LoopSnapshots(st.trace), st.empty))
    case Restoring(why, _) => why.Aborted? || !st.interrupted
    case Releasing(ret, _) => ret.None? ==> !st.interrupted && Proven(cfg, st.tracked, st.trace)
    case Done(ret) =>
      ret.None? ==>
        !st.interrupted && st.trace.Then? && st.trace.ev.Released? && Proven(cfg, st.tracked, st.trace.past)
    case _ => !st.interrupted
  }

  lemma TrackNone(tracked: map<string, Tracked>)
    ensures Track(tracked, []) == tracked
  {}

  lemma ConcludingAcquire(cfg: Config, st: State, at: AcquirePc, e: Input)
    requires Concluding(cfg, st) && st.pc == Acquiring(at)
    ensures Concluding(cfg, StepAcquire(cfg, st, at, e))
  {
    hide ContextError;
    match at
    case Start =>
    case CreateLease =>
    case GetLease =>
  }

  lemma ConcludingPrepare(cfg: Config, st: State, at: PreparePc, e: Input)
    requires Concluding(cfg, st) && st.pc == Preparing(at)
    ensures Concluding(cfg, StepPrepare(cfg, st, at, e))
  {
    hide EvacuationAccepted, Confirmable, Preflighted, ContextError, ActiveKeys, VMIKey, NormalEligible;
    match at
    case FirstLook => if e.snap.Lost? { }
    case ConfirmFirst(i, bad) => if i < |st.snapshot.vmis| { } else if bad { } else { }
    case SendCordon => if e.ack.Refused? { } else if e.interrupt { }
  }

  lemma ConcludingRevalidate(cfg: Config, st: State, at: RevalidatePc, e: Input)
    requires Concluding(cfg, st) && st.pc == Revalidating(at)
    ensures Concluding(cfg, StepRevalidate(cfg, st, at, e))
  {
    hide EvacuationAccepted, Confirmable, Preflighted, ContextError, ActiveKeys, VMIKey, NormalEligible;
    match at
    case SecondLook => if e.snap.Lost? { }
    case ConfirmSecond(i, bad) => if i < |st.snapshot.vmis| { } else if bad { }
  }

  lemma ConcludingPods(cfg: Config, st: State, pass: Pass, i: nat, at: PodPc, e: Input)
    requires Concluding(cfg, st) && st.pc == Evicting(pass, i, at)
    ensures Concluding(cfg, StepPods(cfg, st, pass, i, at, e))
  {
    hide Tolerable, NormalEligible, Preflighted, ContextError, Outstanding, ActiveKeys, QuietTail, HotplugProven;
    if i < |st.snapshot.pods| {
      match at
      case PodPoll => if e.interrupt { }
      case PodEvict =>
      case PodOutput =>
    } else if pass.Setup? { }
  }

  lemma ConcludingObserve(cfg: Config, st: State, at: ObservePc, e: Input)
    requires Concluding(cfg, st) && st.pc == Observing(at)
    ensures Concluding(cfg, StepObserve(cfg, st, at, e))
  {
    hide EffectiveLimit, DiscoveredLimit, ActiveKeys, Preflighted, MergeFailed, NewlyFailed, WithinBudget,
      ContextError, NormalEligible, HotplugProven, Track, HasEligiblePods, Quiet;
    if at.LoopLook? && e.snap.Got? {
      var snaps := LoopSnapshots(st.trace);
      assert (snaps + [e.snap.value])[..|snaps|] == snaps;
    }
  }

  lemma ConcludingTrigger(cfg: Config, st: State, i: nat, at: TriggerPc, e: Input)
    requires Concluding(cfg, st) && st.pc == Triggering(i, at)
    ensures Concluding(cfg, StepTrigger(cfg, st, i, at, e))
  {
    hide EvacuationAccepted, Confirmable, ContextError, Preflighted, ActiveKeys, VMIKey, NormalEligible, Skipped,
      QuietTail, HotplugProven;
    if i < |st.snapshot.vmis| {
      match at
      case TriggerPoll => if e.interrupt { }
      case TriggerDryRun =>
      case TriggerEvict =>
    }
  }

  lemma ConcludingJudge(cfg: Config, st: State, e: Input)
    requires Concluding(cfg, st) && st.pc == Judging(Judge)
    requires !st.interrupted ==> Preflighted(st.snapshot, cfg.opts)
    ensures Concluding(cfg, StepJudge(cfg, st, Judge, e))
  {
    hide CountActive, Preflighted, ContextError, NormalEligible, HotplugProven, HasEligiblePods;
  }

  lemma ConcludingVerify(cfg: Config, st: State, at: JudgePc, e: Input)
    requires Concluding(cfg, st) && st.pc == Judging(at) && !at.Judge?
    ensures Concluding(cfg, StepJudge(cfg, st, at, e))
  {
    hide CountActive, Preflighted, ContextError, NormalEligible, HotplugSettled, Unverifiable, HasEligiblePods;
    if at.FinalLook? { TrackNone(st.tracked); }
  }

  lemma ConcludingRestore(cfg: Config, st: State, why: Why, node: Option<nat>, e: Input)
    requires Concluding(cfg, st) && st.pc == Restoring(why, node)
    ensures Concluding(cfg, StepRestore(cfg, st, why, node, e))
  {
    hide ContextError, Preflighted, CountActive, NormalEligible, Quiet, QuietTail, HotplugProven;
  }

  lemma ConcludingRelease(cfg: Config, st: State, ret: Option<Error>, lease: Option<LeaseId>, e: Input)
    requires Concluding(cfg, st) && st.pc == Releasing(ret, lease)
    ensures Concluding(cfg, StepRelease(cfg, st, ret, lease, e))
  {
    hide Preflighted, CountActive, NormalEligible, Quiet, Proven;
    if lease.Some? { } else if e.lease.NoLease? { } else { }
  }

  lemma ConcludingStep(cfg: Config, st: State, e: Input)
    requires Steady(cfg, st) && Concluding(cfg, st)
    ensures Concluding(cfg, Step(cfg, st, e))
  {
    hide Concluding, StepAcquire, StepPrepare, StepRevalidate, StepPods, StepObserve, StepTrigger, StepJudge,
      StepRestore, StepRelease;
    match st.pc
    case Acquiring(at) => ConcludingAcquire(cfg, st, at, e);
    case Preparing(at) => ConcludingPrepare(cfg, st, at, e);
    case Revalidating(at) => ConcludingRevalidate(cfg, st, at, e);
    case Evicting(pass, i, at) => ConcludingPods(cfg, st, pass, i, at, e);
    case Observing(at) => ConcludingObserve(cfg, st, at, e);
    case Triggering(i, at) => ConcludingTrigger(cfg, st, i, at, e);
    case Judging(Judge) => ConcludingJudge(cfg, st, e);
    case Judging(at) => ConcludingVerify(cfg, st, at, e);
    case Restoring(why, node) => ConcludingRestore(cfg, st, why, node, e);
    case Releasing(ret, lease) => ConcludingRelease(cfg, st, ret, lease, e);
    case Done(_) =>
  }

  lemma {:induction false} ConcludingRun(cfg: Config, inputs: nat -> Input, t: nat)
    ensures Concluding(cfg, StateAt(cfg, inputs, t))
  {
    hide StateAt, Step, Init, Concluding, Steady, Lawful;
    if t == 0 {
      Begins(cfg, inputs);
      ConcludingInit(cfg);
    } else {
      SafeRun(cfg, inputs, t - 1);
      ConcludingRun(cfg, inputs, t - 1);
      Tick(cfg, inputs, t - 1);
      ConcludingStep(cfg, StateAt(cfg, inputs, t - 1), inputs(t - 1));
    }
  }

  lemma ConcludingInit(cfg: Config)
    ensures Concluding(cfg, Init())
  {}

  // ---------------------------------------------------------------- interrupts

  lemma InterruptedStep(cfg: Config, st: State, e: Input)
    requires Steady(cfg, st) && st.interrupted
    ensures Step(cfg, st, e).interrupted && Evictions(Step(cfg, st, e).trace) == Evictions(st.trace)
  {
    match st.pc
    case Acquiring(at) =>
    case Preparing(at) =>
    case Revalidating(at) =>
    case Evicting(pass, i, at) =>
    case Observing(at) => InterruptedObserve(cfg, st, at, e);
    case Triggering(i, at) =>
    case Judging(at) => InterruptedJudge(cfg, st, at, e);
    case Restoring(why, node) => InterruptedUnwind(cfg, st, e);
    case Releasing(ret, lease) => InterruptedUnwind(cfg, st, e);
    case Done(_) =>
  }

  lemma InterruptedObserve(cfg: Config, st: State, at: ObservePc, e: Input)
    requires st.interrupted
    ensures var next := StepObserve(cfg, st, at, e);
            next.interrupted && Evictions(next.trace) == Evictions(st.trace)
  {
    hide ContextError, Preflighted, MergeFailed, NewlyFailed, Track;
  }

  lemma InterruptedJudge(cfg: Config, st: State, at: JudgePc, e: Input)
    requires st.interrupted
    ensures var next := StepJudge(cfg, st, at, e);
            next.interrupted && Evictions(next.trace) == Evictions(st.trace)
  {
    hide ContextError, Quiet, RepliesFor, SomeUnverifiable, AllSettled, Track;
  }

  lemma InterruptedUnwind(cfg: Config, st: State, e: Input)
    requires st.interrupted && (st.pc.Restoring? || st.pc.Releasing?)
    ensures Step(cfg, st, e).interrupted && Evictions(Step(cfg, st, e).trace) == Evictions(st.trace)
  {
    hide StepAcquire, StepPrepare, StepRevalidate, StepPods, StepObserve, StepTrigger, StepJudge, AfterRollback;
    match st.pc
    case Restoring(why, node) =>
    case Releasing(ret, lease) =>
  }

  /** Interrupted, with `n` evictions sent, and not on the way to success. */
  predicate Stopping(st: State, n: nat) {
    && st.interrupted && Evictions(st.trace) == n
    && (st.pc.Releasing? ==> st.pc.leaving.Some?) && (st.pc.Done? ==> st.pc.ret.Some?)
  }

  lemma StoppingStep(cfg: Config, st: State, e: Input, n: nat)
    requires Steady(cfg, st) && Concluding(cfg, st) && Stopping(st, n)
    ensures Stopping(Step(cfg, st, e), n)
  {
    hide Steady, Step;
    InterruptedStep(cfg, st, e);
    ConcludingStep(cfg, st, e);
  }

  lemma StoppingNext(cfg: Config, inputs: nat -> Input, t: nat, n: nat)
    requires t > 0 && Stopping(StateAt(cfg, inputs, t - 1), n)
    ensures Stopping(StateAt(cfg, inputs, t), n)
  {
    hide StateAt, Step, Concluding, Steady, Lawful, Stopping;
    SafeRun(cfg, inputs, t - 1);
    ConcludingRun(cfg, inputs, t - 1);
    Tick(cfg, inputs, t - 1);
    StoppingStep(cfg, StateAt(cfg, inputs, t - 1), inputs(t - 1), n);
  }

  lemma {:induction false} StoppingRun(cfg: Config, inputs: nat -> Input, noticed: nat, t: nat, n: nat)
    requires noticed <= t && Stopping(StateAt(cfg, inputs, noticed), n)
    ensures Stopping(StateAt(cfg, inputs, t), n)
    decreases t
  {
    hide StateAt, Stopping, Step;
    if noticed < t {
      StoppingRun(cfg, inputs, noticed, t - 1, n);
      StoppingNext(cfg, inputs, t, n);
    }
  }

  /** Since `noticed`, no event of the history is an eviction. */
  predicate NoEvictionSince(tr: Trace, noticed: Trace) {
    tr == noticed || (tr.Then? && !tr.ev.Evicted? && !tr.ev.Triggered? && NoEvictionSince(tr.past, noticed))
  }

  lemma {:induction false} NoEvictionAfterInterrupt(cfg: Config, inputs: nat -> Input, noticed: nat, t: nat)
    requires noticed <= t && StateAt(cfg, inputs, noticed).interrupted
    ensures NoEvictionSince(StateAt(cfg, inputs, t).trace, StateAt(cfg, inputs, noticed).trace)
    decreases t
  {
    hide StateAt, Step, Allowed;
    if noticed < t {
      var st := StateAt(cfg, inputs, t - 1);
      NoEvictionAfterInterrupt(cfg, inputs, noticed, t - 1);
      SafeRun(cfg, inputs, t - 1);
      Tick(cfg, inputs, t - 1);
      SafeStep(cfg, st, inputs(t - 1));
      InterruptIsFinal(cfg, inputs, noticed, t - 1);
      InterruptIsFinal(cfg, inputs, noticed, t);
    }
  }

  /** Once the run noticed the interrupt it evicts nothing more, and it can no longer succeed. */
  lemma InterruptIsFinal(cfg: Config, inputs: nat -> Input, noticed: nat, t: nat)
    requires noticed <= t && StateAt(cfg, inputs, noticed).interrupted
    ensures StateAt(cfg, inputs, t).interrupted
    ensures Evictions(StateAt(cfg, inputs, t).trace) == Evictions(StateAt(cfg, inputs, noticed).trace)
    ensures StateAt(cfg, inputs, t).pc != Done(None)
  {
    ConcludingRun(cfg, inputs, noticed);
    StoppingRun(cfg, inputs, noticed, t, Evictions(StateAt(cfg, inputs, noticed).trace));
  }

  // ---------------------------------------------------------------- exit codes

  predicate KnownCode(code: int) { code == OPERATIONAL || code == TIMEOUT || code == INTERRUPTED }

  /** The error a run is leaving with. */
  predicate Coded(st: State, ret: Option<Error>) {
    && (ret.Some? ==> KnownCode(CodeOf(ret)))
    && (st.settledAbort ==> CodeOf(ret) == INTERRUPTED)
    && (Has(st.trace, Restore(true)) && !st.settledAbort ==>
          LoopSnapshots(st.trace) == [] && Evictions(st.trace) == 0)
  }

  predicate Unrestored(st: State) { !st.settledAbort && !Has(st.trace, Restore(true)) }

  /** Nothing was evicted, observed in the loop, or restored yet. */
  predicate Untouched(st: State) {
    Unrestored(st) && LoopSnapshots(st.trace) == [] && Evictions(st.trace) == 0
  }

  predicate Coding(cfg: Config, st: State) {
    match st.pc
    case Acquiring(at) => st.trace == Empty && !st.settledAbort && (at.Start? || ValidOptions(cfg.opts))
    case Preparing(_) => Untouched(st) && ValidOptions(cfg.opts)
    case Revalidating(_) => Untouched(st) && ValidOptions(cfg.opts)
    case Restoring(why, _) =>
      && ValidOptions(cfg.opts)
      && if why.Aborted? then st.settledAbort && CodeOf(Some(why.ret)) == INTERRUPTED else Untouched(st)
    case Releasing(ret, _) => Coded(st, ret) && ValidOptions(cfg.opts)
    case Done(ret) =>
      if ValidOptions(cfg.opts) then Coded(st, ret)
      else ret == Some(Usage()) && st.trace == Empty && !st.settledAbort
    case _ => Unrestored(st) && ValidOptions(cfg.opts)
  }

  lemma CodingAcquire(cfg: Config, st: State, at: AcquirePc, e: Input)
    requires Coding(cfg, st) && st.pc == Acquiring(at)
    ensures Coding(cfg, StepAcquire(cfg, st, at, e))
  {
    match at
    case Start =>
    case CreateLease =>
    case GetLease =>
  }

  lemma CodingPrepare(cfg: Config, st: State, at: PreparePc, e: Input)
    requires Coding(cfg, st) && st.pc == Preparing(at) && !at.ConfirmFirst?
    ensures Coding(cfg, StepPrepare(cfg, st, at, e))
  {
    hide EvacuationAccepted, Confirmable, Preflighted, ActiveKeys, VMIKey, NormalEligible;
    match at
    case FirstLook => if e.snap.Lost? { }
    case SendCordon => if e.ack.Refused? { } else if e.interrupt { }
  }

  lemma CodingConfirm(cfg: Config, st: State, i: nat, bad: bool, e: Input)
    requires Coding(cfg, st) && st.pc == Preparing(ConfirmFirst(i, bad))
    ensures Coding(cfg, StepPrepare(cfg, st, ConfirmFirst(i, bad), e))
  {
    hide EvacuationAccepted, Confirmable, Preflighted, ActiveKeys, VMIKey, NormalEligible;
    if i < |st.snapshot.vmis| { } else if bad { } else { }
  }

  lemma CodingRevalidate(cfg: Config, st: State, at: RevalidatePc, e: Input)
    requires Coding(cfg, st) && st.pc == Revalidating(at)
    ensures Coding(cfg, StepRevalidate(cfg, st, at, e))
  {
    hide EvacuationAccepted, Confirmable, Preflighted, ActiveKeys, VMIKey, NormalEligible;
    match at
    case SecondLook => if e.snap.Lost? { }
    case ConfirmSecond(i, bad) => if i < |st.snapshot.vmis| { } else if bad { }
  }

  lemma CodingPods(cfg: Config, st: State, pass: Pass, i: nat, at: PodPc, e: Input)
    requires Coding(cfg, st) && st.pc == Evicting(pass, i, at)
    ensures Coding(cfg, StepPods(cfg, st, pass, i, at, e))
  {
    hide Tolerable, NormalEligible, Preflighted, Outstanding, ActiveKeys;
    if i < |st.snapshot.pods| {
      match at
      case PodPoll => if e.interrupt { }
      case PodEvict =>
      case PodOutput =>
    } else if pass.Setup? { }
  }

  lemma CodingObserve(cfg: Config, st: State, at: ObservePc, e: Input)
    requires Coding(cfg, st) && st.pc == Observing(at)
    ensures Coding(cfg, StepObserve(cfg, st, at, e))
  {
    hide EffectiveLimit, DiscoveredLimit, ActiveKeys, Preflighted, MergeFailed, NewlyFailed, WithinBudget,
      NormalEligible, Track;
    match at
    case DiscoverLimit =>
    case LoopTop => if e.broken { } else if !e.deadline { }
    case LoopLook => if e.snap.Lost? { }
    case Account =>
  }

  lemma CodingTrigger(cfg: Config, st: State, i: nat, at: TriggerPc, e: Input)
    requires Coding(cfg, st) && st.pc == Triggering(i, at)
    ensures Coding(cfg, StepTrigger(cfg, st, i, at, e))
  {
    hide EvacuationAccepted, Confirmable, Preflighted, ActiveKeys, VMIKey, NormalEligible, Skipped;
    if i < |st.snapshot.vmis| {
      match at
      case TriggerPoll => if e.interrupt { }
      case TriggerDryRun =>
      case TriggerEvict =>
    }
  }

  lemma CodingJudge(cfg: Config, st: State, at: JudgePc, e: Input)
    requires Coding(cfg, st) && st.pc == Judging(at)
    ensures Coding(cfg, StepJudge(cfg, st, at, e))
  {
    hide CountActive, Quiet, Preflighted, NormalEligible, Track, RepliesFor, SomeUnverifiable, AllSettled;
    match at
    case Judge => if st.interrupted && CountActive(st.snapshot.migrations) == 0 { }
    case VerifyHotplug => if SomeUnverifiable(st.tracked, e) { }
    case FinalLook => if e.snap.Lost? { }
    case Sleep =>
  }

  lemma CodingRestore(cfg: Config, st: State, why: Why, node: Option<nat>, e: Input)
    requires Coding(cfg, st) && st.pc == Restoring(why, node)
    ensures Coding(cfg, StepRestore(cfg, st, why, node, e))
  {
    hide Preflighted, CountActive, NormalEligible, Quiet;
    match why
    case CordonInterrupted =>
    case RevalidationFailed =>
    case Aborted(ret) =>
  }

  lemma CodingRelease(cfg: Config, st: State, ret: Option<Error>, lease: Option<LeaseId>, e: Input)
    requires Coding(cfg, st) && st.pc == Releasing(ret, lease)
    ensures Coding(cfg, StepRelease(cfg, st, ret, lease, e))
  {
    hide Coded;
    if ret.Some? { assert ReleaseFailed(ret) == ret; }
    CodedReleased(st, ret);
    if lease.Some? { } else if e.lease.NoLease? { } else { }
  }

  /** Releasing the lease, or failing to, keeps what is known of the code. */
  lemma CodedReleased(st: State, ret: Option<Error>)
    requires Coded(st, ret)
    ensures Coded(st, ReleaseFailed(ret))
    ensures forall pc :: Coded(st.(pc := pc), ReleaseFailed(ret)) && Coded(st.(pc := pc), ret)
                         && Coded(st.(trace := Then(st.trace, Released), pc := pc), ret)
  {
    hide Quiet, Codes;
    CodeOfOperational();
  }

  lemma CodeOfOperational()
    ensures CodeOf(Some(Operational())) == OPERATIONAL
  {}

  lemma CodingStep(cfg: Config, st: State, e: Input)
    requires Coding(cfg, st)
    ensures Coding(cfg, Step(cfg, st, e))
  {
    hide Coding, StepAcquire, StepPrepare, StepRevalidate, StepPods, StepObserve, StepTrigger, StepJudge,
      StepRestore, StepRelease;
    match st.pc
    case Acquiring(at) => CodingAcquire(cfg, st, at, e);
    case Preparing(ConfirmFirst(i, bad)) => CodingConfirm(cfg, st, i, bad, e);
    case Preparing(at) => CodingPrepare(cfg, st, at, e);
    case Revalidating(at) => CodingRevalidate(cfg, st, at, e);
    case Evicting(pass, i, at) => CodingPods(cfg, st, pass, i, at, e);
    case Observing(at) => CodingObserve(cfg, st, at, e);
    case Triggering(i, at) => CodingTrigger(cfg, st, i, at, e);
    case Judging(at) => CodingJudge(cfg, st, at, e);
    case Restoring(why, node) => CodingRestore(cfg, st, why, node, e);
    case Releasing(ret, lease) => CodingRelease(cfg, st, ret, lease, e);
    case Done(_) =>
  }

  lemma {:induction false} CodingRun(cfg: Config, inputs: nat -> Input, t: nat)
    ensures Coding(cfg, StateAt(cfg, inputs, t))
  {
    hide StateAt, Step, Init, Coding;
    if t == 0 {
      Begins(cfg, inputs);
      CodingInit(cfg);
    } else {
      CodingRun(cfg, inputs, t - 1);
      Tick(cfg, inputs, t - 1);
      CodingStep(cfg, StateAt(cfg, inputs, t - 1), inputs(t - 1));
    }
  }

  lemma CodingInit(cfg: Config)
    ensures Coding(cfg, Init())
  {}
}
