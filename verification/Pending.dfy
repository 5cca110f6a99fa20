/** When a VMI that was asked to move, or was already moving, may be asked again: exactly after a new failure. */
module Pending {
  import opened Common
  import opened Errors
  import opened Kube
  import opened Machine
  import opened History
  import opened Moves
  import opened Triggers
  import Outcome
  import opened Meaning
  import Safety

  /** No failed migration of VMI `key` but those that existed before the drain. */
  predicate NoNews(s: Snapshot, baseline: set<string>, key: string) {
    forall m :: m in s.migrations && m.namespace + "/" + m.vmiName == key ==> !m.failed || m.uid in baseline
  }

  /** The run observes, or is leaving; VMI `key` counts as asked, and was sent `n` launcher evictions so far. */
  predicate Waits(st: State, baseline: set<string>, key: string, n: nat) {
    && Launches(st.trace, key) == n && st.baseline == baseline
    && match st.pc
       case Evicting(pass, _, _) => pass.Loop? && key in st.triggered
       case Observing(at) =>
         !at.DiscoverLimit? && key in st.triggered && (at.Account? ==> NoNews(st.snapshot, baseline, key))
       case Triggering(i, at) =>
         && key in st.triggered
         && (!at.TriggerPoll? ==> i < |st.snapshot.vmis| && VMIKey(st.snapshot.vmis[i]) != key)
       case Judging(_) => key in st.triggered
       case Restoring(_, _) => true
       case Releasing(_, _) => true
       case Done(_) => true
       case _ => false
  }

  lemma WaitsPods(cfg: Config, st: State, i: nat, at: PodPc, e: Input, baseline: set<string>, key: string, n: nat)
    requires Waits(st, baseline, key, n) && st.pc == Evicting(Loop, i, at)
    ensures Waits(StepPods(cfg, st, Loop, i, at, e), baseline, key, n)
  {
    hide ContextError, Tolerable, NormalEligible, Outstanding, ActiveKeys, VMIKey;
    if i < |st.snapshot.pods| {
      match at
      case PodPoll => if e.interrupt { }
      case PodEvict =>
      case PodOutput =>
    }
  }

  lemma WaitsObserve(cfg: Config, st: State, at: ObservePc, e: Input, baseline: set<string>, key: string, n: nat)
    requires Waits(st, baseline, key, n) && st.pc == Observing(at)
    requires e.snap.Got? ==> NoNews(e.snap.value, baseline, key)
    ensures Waits(StepObserve(cfg, st, at, e), baseline, key, n)
  {
    hide ContextError, Preflighted, MergeFailed, Track, WithinBudget, VMIKey, NewlyFailed;
    match at
    case LoopTop => if e.broken { } else if !e.deadline { }
    case LoopLook => if e.snap.Lost? { }
    case Account => NewlyFailedAre(st.failedSeen, st.snapshot.migrations, st.baseline, key);
  }

  lemma WaitsTrigger(
      cfg: Config, st: State, i: nat, at: TriggerPc, e: Input, baseline: set<string>, key: string, n: nat)
    requires Waits(st, baseline, key, n) && st.pc == Triggering(i, at)
    ensures Waits(StepTrigger(cfg, st, i, at, e), baseline, key, n)
  {
    hide ContextError, EvacuationAccepted, Confirmable, VMIKey;
    if i < |st.snapshot.vmis| {
      match at
      case TriggerPoll => if e.interrupt { } else if Skipped(st, st.snapshot.vmis[i]) { }
      case TriggerDryRun =>
      case TriggerEvict =>
    }
  }

  lemma WaitsJudge(cfg: Config, st: State, at: JudgePc, e: Input, baseline: set<string>, key: string, n: nat)
    requires Waits(st, baseline, key, n) && st.pc == Judging(at)
    ensures Waits(StepJudge(cfg, st, at, e), baseline, key, n)
  {
    hide ContextError, Quiet, CountActive, RepliesFor, SomeUnverifiable, AllSettled, Track, VMIKey;
    match at
    case Judge => if st.interrupted && CountActive(st.snapshot.migrations) == 0 { }
    case VerifyHotplug =>
    case FinalLook => if e.snap.Lost? { }
    case Sleep =>
  }

  lemma WaitsRestore(
      cfg: Config, st: State, why: Why, node: Option<nat>, e: Input, baseline: set<string>, key: string, n: nat)
    requires Waits(st, baseline, key, n) && st.pc == Restoring(why, node)
    ensures Waits(StepRestore(cfg, st, why, node, e), baseline, key, n)
  {
    hide ContextError, VMIKey;
    match why
    case CordonInterrupted =>
    case RevalidationFailed =>
    case Aborted(ret) =>
  }

  lemma WaitsRelease(
      cfg: Config, st: State, ret: Option<Error>, lease: Option<LeaseId>, e: Input, baseline: set<string>, key: string,
      n: nat)
    requires Waits(st, baseline, key, n) && st.pc == Releasing(ret, lease)
    ensures Waits(StepRelease(cfg, st, ret, lease, e), baseline, key, n)
  {
    hide ReleaseFailed, VMIKey;
    if lease.Some? { } else if e.lease.NoLease? { } else { }
  }

  lemma WaitsStep(cfg: Config, st: State, e: Input, baseline: set<string>, key: string, n: nat)
    requires Waits(st, baseline, key, n)
    requires e.snap.Got? ==> NoNews(e.snap.value, baseline, key)
    ensures Waits(Step(cfg, st, e), baseline, key, n)
  {
    hide NoNews, StepAcquire, StepPrepare, StepRevalidate, StepPods, StepObserve, StepTrigger, StepJudge, StepRestore,
      StepRelease, VMIKey;
    match st.pc
    case Evicting(_, i, at) => WaitsPods(cfg, st, i, at, e, baseline, key, n);
    case Observing(at) => WaitsObserve(cfg, st, at, e, baseline, key, n);
    case Triggering(i, at) => WaitsTrigger(cfg, st, i, at, e, baseline, key, n);
    case Judging(at) => WaitsJudge(cfg, st, at, e, baseline, key, n);
    case Restoring(why, node) => WaitsRestore(cfg, st, why, node, e, baseline, key, n);
    case Releasing(ret, lease) => WaitsRelease(cfg, st, ret, lease, e, baseline, key, n);
    case Done(_) =>
  }

  lemma {:induction false} WaitsRun(
      cfg: Config, inputs: nat -> Input, u: nat, t: nat, baseline: set<string>, key: string, n: nat)
    requires u <= t && Waits(StateAt(cfg, inputs, u), baseline, key, n)
    requires forall k: nat :: u <= k < t && inputs(k).snap.Got? ==> NoNews(inputs(k).snap.value, baseline, key)
    ensures Waits(StateAt(cfg, inputs, t), baseline, key, n)
    decreases t
  {
    hide StateAt, Step, Waits, NoNews;
    if u < t {
      WaitsRun(cfg, inputs, u, t - 1, baseline, key, n);
      Tick(cfg, inputs, t - 1);
      WaitsStep(cfg, StateAt(cfg, inputs, t - 1), inputs(t - 1), baseline, key, n);
    }
  }

  /**
   A VMI that counts as asked is not asked again until it shows a failure that is not of the baseline. So a VMI
   whose migration was under way when the drain started, and then failed, is never asked at all: the drain waits
   for it until the deadline, unless KubeVirt moves it by itself.
   */
  lemma AskedAgainOnlyAfterNews(cfg: Config, inputs: nat -> Input, u: nat, t: nat, key: string)
    requires u <= t && StateAt(cfg, inputs, u).pc == Observing(LoopTop) && key in StateAt(cfg, inputs, u).triggered
    requires forall k: nat :: u <= k < t && inputs(k).snap.Got? ==>
               NoNews(inputs(k).snap.value, StateAt(cfg, inputs, u).baseline, key)
    ensures Launches(StateAt(cfg, inputs, t).trace, key) == Launches(StateAt(cfg, inputs, u).trace, key)
  {
    hide StateAt, Step, NoNews;
    var st := StateAt(cfg, inputs, u);
    WaitsRun(cfg, inputs, u, t, st.baseline, key, Launches(st.trace, key));
  }

  // ---------------------------------------------------------------- exactly when a VMI stops counting as asked

  /** In the loop since VMI `key` counted as asked with the failures `base`; `left` says whether it stopped to. */
  predicate Since(st: State, baseline: set<string>, key: string, base: set<string>, left: bool) {
    st.baseline == baseline && (InLoop(st.pc) || Leaving(st.pc)) && (InLoop(st.pc) ==> Tally(st, key, base, left))
  }

  predicate InLoop(pc: Pc) {
    (pc.Evicting? && pc.pass.Loop?) || (pc.Observing? && !pc.observe.DiscoverLimit?) || pc.Triggering? || pc.Judging?
  }

  predicate Tally(st: State, key: string, base: set<string>, left: bool) {
    && base <= Seen(st.failedSeen, key) && (left <==> Seen(st.failedSeen, key) != base)
    && (!left ==> key in st.triggered)
  }

  /** Steps other than accounting keep the failures, and nobody stops to count as asked. */
  predicate KeepsTally(st: State, after: State) {
    && after.baseline == st.baseline && (InLoop(after.pc) || Leaving(after.pc))
    && after.failedSeen == st.failedSeen && st.triggered <= after.triggered
  }

  lemma TallyPods(cfg: Config, st: State, i: nat, at: PodPc, e: Input)
    ensures KeepsTally(st, StepPods(cfg, st, Loop, i, at, e))
  {
    hide ContextError, Tolerable, NormalEligible, Outstanding, ActiveKeys;
    if i < |st.snapshot.pods| {
      match at
      case PodPoll => if e.interrupt { }
      case PodEvict =>
      case PodOutput =>
    }
  }

  lemma TallyObserve(cfg: Config, st: State, at: ObservePc, e: Input)
    requires at.LoopTop? || at.LoopLook?
    ensures KeepsTally(st, StepObserve(cfg, st, at, e))
  {
    hide ContextError, Preflighted, Track;
    match at
    case LoopTop => if e.broken { } else if !e.deadline { }
    case LoopLook => if e.snap.Lost? { }
  }

  lemma TallyTrigger(cfg: Config, st: State, i: nat, at: TriggerPc, e: Input)
    ensures KeepsTally(st, StepTrigger(cfg, st, i, at, e))
  {
    hide ContextError, EvacuationAccepted, Confirmable, VMIKey, Skipped;
    if i < |st.snapshot.vmis| {
      match at
      case TriggerPoll => if e.interrupt { }
      case TriggerDryRun =>
      case TriggerEvict =>
    }
  }

  lemma TallyJudge(cfg: Config, st: State, at: JudgePc, e: Input)
    ensures KeepsTally(st, StepJudge(cfg, st, at, e))
  {
    hide ContextError, Quiet, CountActive, RepliesFor, SomeUnverifiable, AllSettled, Track;
    match at
    case Judge => if st.interrupted && CountActive(st.snapshot.migrations) == 0 { }
    case VerifyHotplug =>
    case FinalLook => if e.snap.Lost? { }
    case Sleep =>
  }

  lemma TallyAccount(cfg: Config, st: State, e: Input, key: string, base: set<string>, left: bool)
    requires Tally(st, key, base, left)
    ensures var after := StepObserve(cfg, st, Account, e);
            && after.baseline == st.baseline && (InLoop(after.pc) || Leaving(after.pc))
            && Tally(after, key, base, left || key !in after.triggered)
  {
    hide MergeFailed, NewlyFailed, FailedUids, WithinBudget, Seen;
    MergeExact(st.failedSeen, st.snapshot.migrations, st.baseline, key);
    NewFailureGrows(st.failedSeen, st.snapshot.migrations, st.baseline, key);
  }

  lemma SinceStep(
      cfg: Config, st: State, e: Input, baseline: set<string>, key: string, base: set<string>, left: bool)
    requires Since(st, baseline, key, base, left)
    ensures Since(Step(cfg, st, e), baseline, key, base, left || key !in Step(cfg, st, e).triggered)
  {
    hide StepAcquire, StepPrepare, StepRevalidate, StepPods, StepObserve, StepTrigger, StepJudge, StepRestore,
      StepRelease, Seen;
    if Leaving(st.pc) {
      LeavingStep(cfg, st, e);
    } else {
      match st.pc
      case Evicting(_, i, at) => TallyPods(cfg, st, i, at, e);
      case Observing(Account) => TallyAccount(cfg, st, e, key, base, left);
      case Observing(at) => TallyObserve(cfg, st, at, e);
      case Triggering(i, at) => TallyTrigger(cfg, st, i, at, e);
      case Judging(at) => TallyJudge(cfg, st, at, e);
    }
  }

  /** At some moment from `u` to `t`, VMI `key` did not count as asked. */
  ghost predicate Freed(cfg: Config, inputs: nat -> Input, u: nat, t: nat, key: string) {
    exists k: nat :: u <= k <= t && key !in StateAt(cfg, inputs, k).triggered
  }

  lemma FreedOneMore(cfg: Config, inputs: nat -> Input, u: nat, t: nat, key: string)
    requires u <= t
    ensures Freed(cfg, inputs, u, t + 1, key)
            <==> Freed(cfg, inputs, u, t, key) || key !in StateAt(cfg, inputs, t + 1).triggered
    ensures Freed(cfg, inputs, u, u, key) <==> key !in StateAt(cfg, inputs, u).triggered
  {
    hide StateAt;
    if Freed(cfg, inputs, u, t, key) {
      var k: nat :| u <= k <= t && key !in StateAt(cfg, inputs, k).triggered;
      assert u <= k <= t + 1;
    }
  }

  lemma {:induction false} SinceRun(
      cfg: Config, inputs: nat -> Input, u: nat, t: nat, baseline: set<string>, key: string, base: set<string>)
    requires u <= t && Since(StateAt(cfg, inputs, u), baseline, key, base, Freed(cfg, inputs, u, u, key))
    ensures Since(StateAt(cfg, inputs, t), baseline, key, base, Freed(cfg, inputs, u, t, key))
    decreases t
  {
    hide StateAt, Step, Since, Freed;
    if u < t {
      SinceRun(cfg, inputs, u, t - 1, baseline, key, base);
      FreedOneMore(cfg, inputs, u, t - 1, key);
      Tick(cfg, inputs, t - 1);
      var left := Freed(cfg, inputs, u, t - 1, key);
      SinceStep(cfg, StateAt(cfg, inputs, t - 1), inputs(t - 1), baseline, key, base, left);
    }
  }

  /**
   Between two observations, a VMI that counts as asked stops to, at some moment, if and only if the loop snapshots
   in between showed a failure of it that is neither of the baseline nor seen before.
   */
  lemma FreedExactlyByNews(cfg: Config, inputs: nat -> Input, u: nat, t: nat, key: string)
    requires u <= t && StateAt(cfg, inputs, u).pc == StateAt(cfg, inputs, t).pc == Observing(LoopTop)
    requires key in StateAt(cfg, inputs, u).triggered
    ensures var (before, after) := (StateAt(cfg, inputs, u), StateAt(cfg, inputs, t));
            && after.baseline == before.baseline
            && (Freed(cfg, inputs, u, t, key)
                <==> FailedInLoop(after.trace, before.baseline, key)
                     != FailedInLoop(before.trace, before.baseline, key))
  {
    hide StateAt, Step, Freed, Seen, FailuresIn, FailedInLoop, Ledger;
    FailuresAre(StateAt(cfg, inputs, u).trace, StateAt(cfg, inputs, u).baseline, key);
    FailuresAre(StateAt(cfg, inputs, t).trace, StateAt(cfg, inputs, u).baseline, key);
    var st, after := StateAt(cfg, inputs, u), StateAt(cfg, inputs, t);
    FreedOneMore(cfg, inputs, u, u, key);
    Outcome.CodingRun(cfg, inputs, u);
    ValidInLoop(cfg, st);
    LedgerRun(cfg, inputs, u, key);
    LedgerRun(cfg, inputs, t, key);
    LedgerAtTop(cfg, st, key);
    LedgerAtTop(cfg, after, key);
    SinceRun(cfg, inputs, u, t, st.baseline, key, Seen(st.failedSeen, key));
  }

  lemma ValidInLoop(cfg: Config, st: State)
    requires Outcome.Coding(cfg, st) && st.pc.Observing?
    ensures ValidOptions(cfg.opts)
  {}

  lemma LedgerAtTop(cfg: Config, st: State, key: string)
    requires Ledger(cfg, st, key) && st.pc == Observing(LoopTop)
    ensures Seen(st.failedSeen, key) == FailuresIn(st.trace, st.baseline, key)
  {}

  // ---------------------------------------------------------------- VMIs that were moving already

  /** One request of VMI `key` was booked that the run did not send: it was migrating when observing started. */
  predicate Booked(st: State, key: string, retries: int) {
    && (InLoop(st.pc) || Leaving(st.pc))
    && (InLoop(st.pc) ==> Credit(st.trace, st.failedSeen, st.triggered, key) && |Seen(st.failedSeen, key)| <= retries)
    && (Leaving(st.pc) ==> Launches(st.trace, key) <= retries)
  }

  predicate Credit(tr: Trace, failed: map<string, set<string>>, triggered: set<string>, key: string) {
    Launches(tr, key) + 1 <= |Seen(failed, key)| + (if key in triggered then 1 else 0)
  }

  lemma BookedPods(cfg: Config, st: State, i: nat, at: PodPc, e: Input, key: string, retries: int)
    requires Booked(st, key, retries) && st.pc == Evicting(Loop, i, at)
    ensures Booked(StepPods(cfg, st, Loop, i, at, e), key, retries)
  {
    hide ContextError, Tolerable, NormalEligible, Outstanding, ActiveKeys, Seen, VMIKey;
    if i < |st.snapshot.pods| {
      match at
      case PodPoll => if e.interrupt { }
      case PodEvict =>
      case PodOutput =>
    }
  }

  lemma BookedObserve(cfg: Config, st: State, at: ObservePc, e: Input, key: string, retries: int)
    requires Booked(st, key, retries) && st.pc == Observing(at) && !at.Account?
    ensures Booked(StepObserve(cfg, st, at, e), key, retries)
  {
    hide ContextError, Preflighted, Track, Seen, VMIKey;
    match at
    case LoopTop => if e.broken { } else if !e.deadline { }
    case LoopLook => if e.snap.Lost? { }
  }

  lemma BookedAccount(cfg: Config, st: State, e: Input, key: string)
    requires Booked(st, key, cfg.opts.retries) && st.pc == Observing(Account) && cfg.opts.retries >= 0
    ensures Booked(StepObserve(cfg, st, Account, e), key, cfg.opts.retries)
  {
    hide MergeFailed, NewlyFailed, FailedUids, ContextError, VMIKey;
    NewFailureGrows(st.failedSeen, st.snapshot.migrations, st.baseline, key);
  }

  lemma BookedTrigger(cfg: Config, st: State, i: nat, at: TriggerPc, e: Input, key: string, retries: int)
    requires Booked(st, key, retries) && st.pc == Triggering(i, at)
    requires at.TriggerEvict? ==> i < |st.snapshot.vmis| && VMIKey(st.snapshot.vmis[i]) !in st.triggered
    ensures Booked(StepTrigger(cfg, st, i, at, e), key, retries)
  {
    hide ContextError, EvacuationAccepted, Confirmable, VMIKey, Skipped, Seen;
    if i < |st.snapshot.vmis| {
      match at
      case TriggerPoll => if e.interrupt { }
      case TriggerDryRun =>
      case TriggerEvict =>
    }
  }

  lemma BookedJudge(cfg: Config, st: State, at: JudgePc, e: Input, key: string, retries: int)
    requires Booked(st, key, retries) && st.pc == Judging(at)
    ensures Booked(StepJudge(cfg, st, at, e), key, retries)
  {
    hide ContextError, Quiet, CountActive, RepliesFor, SomeUnverifiable, AllSettled, Track, Seen, VMIKey;
    match at
    case Judge => if st.interrupted && CountActive(st.snapshot.migrations) == 0 { }
    case VerifyHotplug =>
    case FinalLook => if e.snap.Lost? { }
    case Sleep =>
  }

  /** On the way out nothing is launched any more. */
  lemma BookedLeaving(cfg: Config, st: State, e: Input, key: string, retries: int)
    requires Booked(st, key, retries) && Leaving(st.pc)
    ensures Booked(Step(cfg, st, e), key, retries)
  {
    LeavingStep(cfg, st, e);
    WritesStep(cfg, st, e);
    LeavingWrites(cfg, st, e);
    hide Step, VMIKey;
  }

  lemma LeavingWrites(cfg: Config, st: State, e: Input)
    requires Leaving(st.pc)
    ensures var tr := Step(cfg, st, e).trace;
            tr == st.trace || (tr.Then? && tr.past == st.trace && (tr.ev.Restore? || tr.ev.Released?))
  {
    hide StepAcquire, StepPrepare, StepRevalidate, StepPods, StepObserve, StepTrigger, StepJudge, ContextError,
      ReleaseFailed, AfterRollback;
    match st.pc
    case Restoring(why, node) =>
    case Releasing(ret, lease) =>
    case Done(_) =>
  }

  lemma BookedStep(cfg: Config, st: State, e: Input, key: string)
    requires Booked(st, key, cfg.opts.retries) && Safety.Steady(cfg, st) && cfg.opts.retries >= 0
    ensures Booked(Step(cfg, st, e), key, cfg.opts.retries)
  {
    if Leaving(st.pc) {
      BookedLeaving(cfg, st, e, key, cfg.opts.retries);
    } else {
      hide StepAcquire, StepPrepare, StepRevalidate, StepPods, StepObserve, StepTrigger, StepJudge, StepRestore,
        StepRelease, Credit, VMIKey;
      match st.pc
      case Evicting(_, i, at) => BookedPods(cfg, st, i, at, e, key, cfg.opts.retries);
      case Observing(Account) => BookedAccount(cfg, st, e, key);
      case Observing(at) => BookedObserve(cfg, st, at, e, key, cfg.opts.retries);
      case Triggering(i, at) => BookedTrigger(cfg, st, i, at, e, key, cfg.opts.retries);
      case Judging(at) => BookedJudge(cfg, st, at, e, key, cfg.opts.retries);
    }
  }

  lemma {:induction false} BookedRun(cfg: Config, inputs: nat -> Input, u: nat, t: nat, key: string)
    requires u <= t && cfg.opts.retries >= 0 && Booked(StateAt(cfg, inputs, u), key, cfg.opts.retries)
    ensures Booked(StateAt(cfg, inputs, t), key, cfg.opts.retries)
    decreases t
  {
    hide StateAt, Step, Booked, Safety.Steady, Safety.Lawful;
    if u < t {
      BookedRun(cfg, inputs, u, t - 1, key);
      Safety.SafeRun(cfg, inputs, t - 1);
      Tick(cfg, inputs, t - 1);
      BookedStep(cfg, StateAt(cfg, inputs, t - 1), inputs(t - 1), key);
    }
  }

  /** A VMI that already migrates when observing starts is launched at most `retries` times in the whole run. */
  lemma MovingLaunchedLess(cfg: Config, inputs: nat -> Input, u: nat, t: nat, key: string)
    requires u < t && StateAt(cfg, inputs, u).pc == Observing(DiscoverLimit)
    requires key in ActiveKeys(StateAt(cfg, inputs, u).snapshot.migrations)
    ensures Launches(StateAt(cfg, inputs, t).trace, key) <= cfg.opts.retries
  {
    hide StateAt, Step, Booked, Ledger, ActiveKeys;
    var st := StateAt(cfg, inputs, u);
    Outcome.CodingRun(cfg, inputs, u);
    ValidInLoop(cfg, st);
    LedgerRun(cfg, inputs, u, key);
    Tick(cfg, inputs, u);
    StartsBooked(cfg, st, inputs(u), key);
    BookedRun(cfg, inputs, u + 1, t, key);
    BookedBound(cfg, StateAt(cfg, inputs, t), key);
  }

  lemma StartsBooked(cfg: Config, st: State, e: Input, key: string)
    requires st.pc == Observing(DiscoverLimit) && key in ActiveKeys(st.snapshot.migrations)
    requires Ledger(cfg, st, key) && cfg.opts.retries >= 0
    ensures Booked(Step(cfg, st, e), key, cfg.opts.retries)
  {
    hide Track, EffectiveLimit, DiscoveredLimit, ActiveKeys;
  }

  lemma BookedBound(cfg: Config, st: State, key: string)
    requires Booked(st, key, cfg.opts.retries)
    ensures Launches(st.trace, key) <= cfg.opts.retries
  {}
}
