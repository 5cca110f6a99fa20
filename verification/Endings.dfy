/** How runs end: the release, exit codes that are settled early, and which of them go with a restore. */
module Endings {
  import opened Common
  import opened Errors
  import opened Machine
  import opened History
  import opened Safety
  import opened Moves
  import opened Outcome
  import Meaning

  // ---------------------------------------------------------------- where a restore comes from

  ghost predicate RestoredBefore(cfg: Config, inputs: nat -> Input, t: nat) {
    exists u: nat :: u < t && Restores(StateAt(cfg, inputs, u), inputs(u))
  }

  /** A restore is in the history exactly when some earlier step got one acknowledged. */
  lemma {:induction false} RestoreSource(cfg: Config, inputs: nat -> Input, t: nat)
    ensures Has(StateAt(cfg, inputs, t).trace, Restore(true)) <==> RestoredBefore(cfg, inputs, t)
  {
    hide StateAt, Step, Restores, Has, RestoredBefore;
    if t == 0 {
      NothingBefore(cfg, inputs);
    } else {
      RestoreSource(cfg, inputs, t - 1);
      RestoreStep(cfg, StateAt(cfg, inputs, t - 1), inputs(t - 1));
      Tick(cfg, inputs, t - 1);
      RestoredOneMore(cfg, inputs, t - 1);
    }
  }

  lemma NothingBefore(cfg: Config, inputs: nat -> Input)
    ensures !Has(StateAt(cfg, inputs, 0).trace, Restore(true)) && !RestoredBefore(cfg, inputs, 0)
  {}

  lemma RestoredOneMore(cfg: Config, inputs: nat -> Input, t: nat)
    ensures RestoredBefore(cfg, inputs, t + 1)
            <==> RestoredBefore(cfg, inputs, t) || Restores(StateAt(cfg, inputs, t), inputs(t))
  {
    hide StateAt, Restores;
    if RestoredBefore(cfg, inputs, t) {
      var u: nat :| u < t && Restores(StateAt(cfg, inputs, u), inputs(u));
      assert u < t + 1;
    }
  }

  lemma RestoreStep(cfg: Config, st: State, e: Input)
    ensures Has(Step(cfg, st, e).trace, Restore(true)) <==> Has(st.trace, Restore(true)) || Restores(st, e)
  {
    WritesStep(cfg, st, e);
    hide Step;
  }

  // ---------------------------------------------------------------- the code a run leaves with

  /** The run is leaving with an error whose exit code is `code`. */
  predicate LeavesWith(pc: Pc, code: int) {
    match pc
    case Restoring(Aborted(err), _) => CodeOf(Some(err)) == code
    case Releasing(ret, _) => ret.Some? && CodeOf(ret) == code
    case Done(ret) => ret.Some? && CodeOf(ret) == code
    case _ => false
  }

  lemma LeavesStep(cfg: Config, st: State, e: Input, code: int)
    requires LeavesWith(st.pc, code)
    ensures LeavesWith(Step(cfg, st, e).pc, code)
  {
    hide StepAcquire, StepPrepare, StepRevalidate, StepPods, StepObserve, StepTrigger, StepJudge, StepRestore,
      StepRelease, CodeOf;
    match st.pc
    case Restoring(Aborted(err), node) => LeavesRestore(cfg, st, err, node, e, code);
    case Releasing(ret, lease) => LeavesRelease(cfg, st, ret, lease, e, code);
    case Done(ret) =>
  }

  lemma LeavesRestore(cfg: Config, st: State, err: Error, node: Option<nat>, e: Input, code: int)
    requires CodeOf(Some(err)) == code
    ensures LeavesWith(StepRestore(cfg, st, Aborted(err), node, e).pc, code)
  {
    hide CodeOf;
    WrapKeepsCode(err);
  }

  lemma LeavesRelease(cfg: Config, st: State, ret: Option<Error>, lease: Option<LeaseId>, e: Input, code: int)
    requires ret.Some? && CodeOf(ret) == code
    ensures LeavesWith(StepRelease(cfg, st, ret, lease, e).pc, code)
  {
    hide CodeOf;
    if lease.Some? { } else if e.lease.NoLease? { } else { }
  }

  lemma WrapKeepsCode(err: Error)
    ensures CodeOf(Some(Wrap(Some(err)))) == CodeOf(Some(err))
  {}

  lemma {:induction false} LeavesRun(cfg: Config, inputs: nat -> Input, u: nat, t: nat, code: int)
    requires u <= t && LeavesWith(StateAt(cfg, inputs, u).pc, code)
    ensures LeavesWith(StateAt(cfg, inputs, t).pc, code)
    decreases t
  {
    hide Step, LeavesWith;
    if u < t {
      LeavesRun(cfg, inputs, u, t - 1, code);
      LeavesStep(cfg, StateAt(cfg, inputs, t - 1), inputs(t - 1), code);
    }
  }

  /** At the top of the loop past the deadline, the exit code is settled: 130 if an interrupt is known, else 124. */
  lemma DeadlineDecides(cfg: Config, inputs: nat -> Input, u: nat, t: nat)
    requires u < t && StateAt(cfg, inputs, u).pc == Observing(LoopTop)
    requires inputs(u).deadline && !inputs(u).broken && StateAt(cfg, inputs, t).pc.Done?
    ensures CodeOf(StateAt(cfg, inputs, t).pc.ret)
         == if StateAt(cfg, inputs, u).interrupted || inputs(u).interrupt then 130 else 124
  {
    hide StateAt, Step, CodeOf;
    var code := if StateAt(cfg, inputs, u).interrupted || inputs(u).interrupt then INTERRUPTED else TIMEOUT;
    Tick(cfg, inputs, u);
    DeadlineStep(cfg, StateAt(cfg, inputs, u), inputs(u));
    LeavesRun(cfg, inputs, u + 1, t, code);
  }

  lemma DeadlineStep(cfg: Config, st: State, e: Input)
    requires st.pc == Observing(LoopTop) && e.deadline && !e.broken
    ensures LeavesWith(Step(cfg, st, e).pc, if st.interrupted || e.interrupt then INTERRUPTED else TIMEOUT)
  {}

  /**
   An interrupted run that is asked to, and that cordoned the node itself, does send the conditional restore once
   nothing is left on the node, and the acknowledged restore is in its history.
   */
  lemma SettledAbortRestores(cfg: Config, inputs: nat -> Input, u: nat)
    requires StateAt(cfg, inputs, u).pc == Judging(Judge) && Settled(cfg, StateAt(cfg, inputs, u))
    requires inputs(u + 1).nodeVersion.Got?
    ensures StateAt(cfg, inputs, u + 3).pc.Releasing?
    ensures StateAt(cfg, inputs, u + 3).trace
         == Then(StateAt(cfg, inputs, u).trace, Restore(inputs(u + 2).ack.Acked?))
  {
    Meaning.NoneActiveIs(StateAt(cfg, inputs, u).snapshot.migrations);
    hide StateAt, CountActive, StepAcquire, StepPrepare, StepRevalidate, StepPods;
    hide StepObserve, StepTrigger, StepRelease;
    Tick(cfg, inputs, u);
    Tick(cfg, inputs, u + 1);
    Tick(cfg, inputs, u + 2);
  }

  /** What `--abort-uncordons` waits for. */
  predicate Settled(cfg: Config, st: State) {
    && st.interrupted && cfg.opts.abortUncordons && st.cordonedByUs
    && st.snapshot.vmis == [] && forall m :: m in st.snapshot.migrations ==> !m.active
  }

  /**
   A run is about to restore either before it evicted anything or was interrupted, or because it was interrupted,
   has settled, and was asked to; in both cases the cordon is its own.
   */
  lemma RestoreOccasions(cfg: Config, inputs: nat -> Input, t: nat)
    requires StateAt(cfg, inputs, t).pc.Restoring?
    ensures var st := StateAt(cfg, inputs, t);
            && CordonIsOurs(st.trace)
            && if st.pc.why.Aborted? then
                 && st.interrupted && st.settledAbort && cfg.opts.abortUncordons
                 && LastSeen(st.trace).Some? && LastSeen(st.trace).value.vmis == []
                 && forall m :: m in LastSeen(st.trace).value.migrations ==> !m.active
               else !st.interrupted && !st.settledAbort && Evictions(st.trace) == 0
  {
    hide StateAt, Step, Has, CodeOf;
    SafeRun(cfg, inputs, t);
    CodingRun(cfg, inputs, t);
    Meaning.NoneActiveIs(StateAt(cfg, inputs, t).snapshot.migrations);
    hide CountActive;
  }

  /** A restore after some eviction means that the run was interrupted, had settled, and was asked to restore. */
  lemma LateRestoreIsAbort(cfg: Config, inputs: nat -> Input, t: nat, acked: bool)
    requires StateAt(cfg, inputs, t + 1).trace == Then(StateAt(cfg, inputs, t).trace, Restore(acked))
    requires Evictions(StateAt(cfg, inputs, t).trace) > 0
    ensures var st := StateAt(cfg, inputs, t); st.interrupted && st.settledAbort && cfg.opts.abortUncordons
  {
    hide StateAt, Step;
    Tick(cfg, inputs, t);
    WritesStep(cfg, StateAt(cfg, inputs, t), inputs(t));
    RestoreOccasions(cfg, inputs, t);
  }

  /** Rollbacks after an interrupt, and those of an aborted run, lead to exit code 130, acknowledged or not. */
  lemma InterruptedRestore(cfg: Config, st: State, e: Input)
    requires Coding(cfg, st) && st.pc.Restoring? && st.pc.node.Some? && !st.pc.why.RevalidationFailed?
    ensures LeavesWith(Step(cfg, st, e).pc, INTERRUPTED)
  {
    match st.pc.why
    case CordonInterrupted =>
    case Aborted(ret) => WrapKeepsCode(ret);
  }

  /** The post-cordon checks failed, and undoing the cordon was acknowledged. */
  predicate GivesUpEarly(st: State, e: Input) { Restores(st, e) && st.pc.why.RevalidationFailed? }

  /**
   What a run that timed out knows: its history holds an acknowledged restore exactly when it failed its checks
   right after the cordon and then got the rollback acknowledged. Module `Scheduling` says what became of the node.
   */
  lemma TimeoutRestoresExactly(cfg: Config, inputs: nat -> Input, t: nat)
    requires StateAt(cfg, inputs, t).pc.Done? && CodeOf(StateAt(cfg, inputs, t).pc.ret) == TIMEOUT
    ensures Has(StateAt(cfg, inputs, t).trace, Restore(true))
            <==> exists u: nat :: u < t && GivesUpEarly(StateAt(cfg, inputs, u), inputs(u))
  {
    hide StateAt, Step, Coding, Restores, CodeOf;
    RestoreSource(cfg, inputs, t);
    forall u: nat | u < t && Restores(StateAt(cfg, inputs, u), inputs(u))
      ensures GivesUpEarly(StateAt(cfg, inputs, u), inputs(u))
    {
      OnlyEarly(cfg, inputs, u, t);
    }
  }

  lemma OnlyEarly(cfg: Config, inputs: nat -> Input, u: nat, t: nat)
    requires u < t && Restores(StateAt(cfg, inputs, u), inputs(u))
    requires StateAt(cfg, inputs, t).pc.Done? && CodeOf(StateAt(cfg, inputs, t).pc.ret) == TIMEOUT
    ensures GivesUpEarly(StateAt(cfg, inputs, u), inputs(u))
  {
    hide StateAt, Step, Coding, CodeOf;
    CodingRun(cfg, inputs, u);
    Tick(cfg, inputs, u);
    if !StateAt(cfg, inputs, u).pc.why.RevalidationFailed? {
      InterruptedRestore(cfg, StateAt(cfg, inputs, u), inputs(u));
      LeavesRun(cfg, inputs, u + 1, t, INTERRUPTED);
    }
  }

  /**
   A run that timed out may have had a restore acknowledged, but only when it failed its checks right after the
   cordon: it evicted nothing and never reached the observation loop.
   */
  lemma TimeoutRestoresOnlyEarly(cfg: Config, inputs: nat -> Input, t: nat)
    requires StateAt(cfg, inputs, t).pc.Done? && CodeOf(StateAt(cfg, inputs, t).pc.ret) == TIMEOUT
    requires Has(StateAt(cfg, inputs, t).trace, Restore(true))
    ensures Evictions(StateAt(cfg, inputs, t).trace) == 0
    ensures LoopSnapshots(StateAt(cfg, inputs, t).trace) == []
  {
    hide Step;
    CodingRun(cfg, inputs, t);
  }

  // ---------------------------------------------------------------- the release

  /** A run that ended after it acquired the lease got there through its release. */
  lemma {:induction false} LeasedRunsRelease(cfg: Config, inputs: nat -> Input, t: nat) returns (u: nat)
    requires StateAt(cfg, inputs, t).pc.Done? && StateAt(cfg, inputs, t).trace != Empty
    ensures u < t && StateAt(cfg, inputs, u).pc.Releasing?
  {
    hide StateAt, Step, Standing;
    StartsUnfinished(cfg, inputs);
    var st := StateAt(cfg, inputs, t - 1);
    Tick(cfg, inputs, t - 1);
    SafeRun(cfg, inputs, t - 1);
    EndStep(cfg, st, inputs(t - 1));
    u := t - 1;
    if st.pc.Done? { u := LeasedRunsRelease(cfg, inputs, t - 1); }
  }

  lemma StartsUnfinished(cfg: Config, inputs: nat -> Input)
    ensures !StateAt(cfg, inputs, 0).pc.Done?
  {}

  lemma EndStep(cfg: Config, st: State, e: Input)
    requires Standing(cfg, st) && Step(cfg, st, e).pc.Done? && Step(cfg, st, e).trace != Empty
    ensures st.pc.Releasing? || (st.pc.Done? && Step(cfg, st, e) == st)
  {
    MovesStep(cfg, st, e);
    hide StepPrepare, StepRevalidate, StepPods, StepObserve, StepTrigger, StepJudge, StepRestore, StepRelease;
    match st.pc
    case Acquiring(at) =>
    case Done(_) =>
    case _ =>
  }
}
