/**
 A drain that makes no progress: its one VMI was already migrating when it started, that migration fails, and the
 VMI is never asked to migrate again.
 */
module Stalling {
  import opened Common
  import opened Errors
  import opened Kube
  import opened Machine
  import opened History
  import opened ClosedLoop
  import opened Witnesses

  const MIGRATION := "migration"

  function Moving(v: VMIInfo, active: bool): MigrationInfo {
    MigrationInfo(MIGRATION, v.vmi.namespace, v.vmi.name, v.vmi.nodeName, active, !active)
  }

  /** The node with the VMI, its launcher, and its migration, under way or failed. */
  function StalledView(v: VMIInfo, active: bool): Snapshot { Hosting([v]).(migrations := [Moving(v, active)]) }

  /** The migration is under way until the cordon is checked; the deadline passes after `n` observations. */
  function Reply(v: VMIInfo, n: nat, st: State): Input {
    Input(false, |LoopSnapshots(st.trace)| >= n, false, Acked, Created, NoLease, Got(0),
          Got(StalledView(v, !st.pc.Observing?)), Got([Moving(v, true)]), Accepted, Lost, _ => Gone)
  }

  function Replying(v: VMIInfo, n: nat): State -> Input { (st: State) => Reply(v, n, st) }

  predicate Able(v: VMIInfo) { Confirmable(v) && !v.blocked }

  // ---------------------------------------------------------------- the path of the run

  /** Where the run goes from each point that it passes. */
  function After(pc: Pc): Option<Pc> {
    match pc
    case Acquiring(Start) => Some(Acquiring(CreateLease))
    case Acquiring(CreateLease) => Some(Preparing(FirstLook))
    case Preparing(FirstLook) => Some(Preparing(ConfirmFirst(0, false)))
    case Preparing(ConfirmFirst(0, false)) => Some(Preparing(ConfirmFirst(1, false)))
    case Preparing(ConfirmFirst(1, false)) => Some(Preparing(SendCordon))
    case Preparing(SendCordon) => Some(Revalidating(SecondLook))
    case Revalidating(SecondLook) => Some(Revalidating(ConfirmSecond(0, false)))
    case Revalidating(ConfirmSecond(0, false)) => Some(Revalidating(ConfirmSecond(1, false)))
    case Revalidating(ConfirmSecond(1, false)) => Some(Evicting(Setup, 0, PodPoll))
    case Evicting(Setup, 0, PodPoll) => Some(Evicting(Setup, 1, PodPoll))
    case Evicting(Setup, 1, PodPoll) => Some(Observing(DiscoverLimit))
    case Observing(DiscoverLimit) => Some(Observing(LoopTop))
    case Observing(LoopTop) => Some(Observing(LoopLook))
    case Observing(LoopLook) => Some(Observing(Account))
    case Observing(Account) => Some(Evicting(Loop, 0, PodPoll))
    case Evicting(Loop, 0, PodPoll) => Some(Evicting(Loop, 1, PodPoll))
    case Evicting(Loop, 1, PodPoll) => Some(Triggering(0, TriggerPoll))
    case Triggering(0, TriggerPoll) => Some(Triggering(1, TriggerPoll))
    case Triggering(1, TriggerPoll) => Some(Judging(Judge))
    case Judging(Judge) => Some(Judging(Sleep))
    case Judging(Sleep) => Some(Observing(LoopTop))
    case _ => None
  }

  /** The VMI counts as asked, although nobody asked it. */
  predicate Asked(v: VMIInfo, st: State) {
    st.triggered == {VMIKey(v)} && st.baseline == {MIGRATION}
  }

  /** What the run knows at the points of its path. */
  predicate Knows(v: VMIInfo, st: State) {
    match st.pc
    case Acquiring(_) => true
    case Preparing(at) =>
      at.FirstLook? || (st.snapshot == StalledView(v, true) && (at.SendCordon? ==> st.baseline == {MIGRATION}))
    case Revalidating(at) => st.baseline == {MIGRATION} && (at.SecondLook? || st.snapshot == StalledView(v, true))
    case Evicting(pass, _, _) =>
      if pass.Setup? then st.baseline == {MIGRATION} && st.snapshot == StalledView(v, true)
      else Asked(v, st) && st.snapshot == StalledView(v, false)
    case Observing(at) =>
      (match at
       case DiscoverLimit => st.baseline == {MIGRATION} && st.snapshot == StalledView(v, true)
       case Account => Asked(v, st) && st.snapshot == StalledView(v, false)
       case _ => Asked(v, st))
    case Judging(at) => Asked(v, st) && (at.Judge? ==> st.snapshot == StalledView(v, false))
    case Triggering(_, _) => Asked(v, st) && st.snapshot == StalledView(v, false)
    case _ => false
  }

  /** Nothing was evicted, and every observation showed the VMI with its failed migration. */
  predicate Idle(v: VMIInfo, tr: Trace) {
    Evictions(tr) == 0 && forall s :: s in LoopSnapshots(tr) ==> s == StalledView(v, false)
  }

  predicate Stalled(v: VMIInfo, st: State) {
    After(st.pc).Some? && Knows(v, st) && Idle(v, st.trace) && !st.interrupted && st.failedSeen == map[]
  }

  // ---------------------------------------------------------------- its steps

  lemma ShownWell(v: VMIInfo, active: bool, opts: Options)
    requires Able(v)
    ensures var s := StalledView(v, active);
            && Preflighted(s, opts) && |s.pods| == 1 && !NormalEligible(s.pods[0], opts) && s.vmis == [v]
            && ActiveKeys(s.migrations) == (if active then {VMIKey(v)} else {}) && !Quiet(s, opts)
            && MergeFailed(map[], s.migrations, {MIGRATION}) == map[]
            && NewlyFailed(map[], s.migrations, {MIGRATION}) == {}
  {
    hide VerifiedPDB;
    assert [v][..0] == [] && [v][..|[v]| - 1] == [];
    var s := StalledView(v, active);
    assert Launchers([]) == [];
    assert s.pods == [LauncherInfo(v.launcher.value)];
    assert FailedKeys(s.migrations, {MIGRATION}) == {};
  }

  lemma StalledPrepare(cfg: Config, v: VMIInfo, n: nat, st: State, at: PreparePc)
    requires Able(v) && Stalled(v, st) && st.pc == Preparing(at)
    ensures var after := StepPrepare(cfg, st, at, Reply(v, n, st));
            Stalled(v, after) && Some(after.pc) == After(st.pc) && LoopSnapshots(after.trace) == LoopSnapshots(st.trace)
  {
    ShownWell(v, true, cfg.opts);
    assert (set m | m in [Moving(v, true)] :: m.uid) == {MIGRATION};
    hide Preflighted, NormalEligible, ActiveKeys, StalledView, VMIKey, EvacuationAccepted, Confirmable;
  }

  lemma StalledRevalidate(cfg: Config, v: VMIInfo, n: nat, st: State, at: RevalidatePc)
    requires Able(v) && Stalled(v, st) && st.pc == Revalidating(at)
    ensures var after := StepRevalidate(cfg, st, at, Reply(v, n, st));
            Stalled(v, after) && Some(after.pc) == After(st.pc) && LoopSnapshots(after.trace) == LoopSnapshots(st.trace)
  {
    ShownWell(v, true, cfg.opts);
    hide Preflighted, NormalEligible, ActiveKeys, StalledView, VMIKey, EvacuationAccepted, Confirmable;
  }

  lemma StalledPods(cfg: Config, v: VMIInfo, n: nat, st: State, pass: Pass, i: nat, at: PodPc)
    requires Able(v) && Stalled(v, st) && st.pc == Evicting(pass, i, at)
    ensures var after := StepPods(cfg, st, pass, i, at, Reply(v, n, st));
            Stalled(v, after) && Some(after.pc) == After(st.pc) && LoopSnapshots(after.trace) == LoopSnapshots(st.trace)
  {
    ShownWell(v, pass.Setup?, cfg.opts);
    hide Preflighted, NormalEligible, ActiveKeys, StalledView, VMIKey, Tolerable, Outstanding;
  }

  lemma StalledObserve(cfg: Config, v: VMIInfo, n: nat, st: State, at: ObservePc)
    requires Able(v) && Stalled(v, st) && st.pc == Observing(at) && ValidOptions(cfg.opts)
    requires at.LoopTop? ==> |LoopSnapshots(st.trace)| < n
    ensures var after := StepObserve(cfg, st, at, Reply(v, n, st));
            && Stalled(v, after) && Some(after.pc) == After(st.pc)
            && |LoopSnapshots(after.trace)| == |LoopSnapshots(st.trace)| + (if at.LoopLook? then 1 else 0)
  {
    ShownWell(v, true, cfg.opts);
    ShownWell(v, false, cfg.opts);
    hide Preflighted, NormalEligible, ActiveKeys, StalledView, VMIKey, MergeFailed, NewlyFailed, Track, EffectiveLimit;
  }

  lemma StalledTrigger(cfg: Config, v: VMIInfo, n: nat, st: State, i: nat, at: TriggerPc)
    requires Able(v) && Stalled(v, st) && st.pc == Triggering(i, at)
    ensures var after := StepTrigger(cfg, st, i, at, Reply(v, n, st));
            Stalled(v, after) && Some(after.pc) == After(st.pc) && LoopSnapshots(after.trace) == LoopSnapshots(st.trace)
  {
    ShownWell(v, false, cfg.opts);
    hide Preflighted, NormalEligible, ActiveKeys, StalledView, VMIKey;
  }

  lemma StalledJudge(cfg: Config, v: VMIInfo, n: nat, st: State, at: JudgePc)
    requires Able(v) && Stalled(v, st) && st.pc == Judging(at)
    ensures var after := StepJudge(cfg, st, at, Reply(v, n, st));
            Stalled(v, after) && Some(after.pc) == After(st.pc) && LoopSnapshots(after.trace) == LoopSnapshots(st.trace)
  {
    ShownWell(v, false, cfg.opts);
    hide Preflighted, Quiet, StalledView, VMIKey;
  }

  lemma StalledStep(cfg: Config, v: VMIInfo, n: nat, st: State)
    requires Able(v) && Stalled(v, st) && ValidOptions(cfg.opts)
    requires st.pc == Observing(LoopTop) ==> |LoopSnapshots(st.trace)| < n
    ensures var after := Step(cfg, st, Reply(v, n, st));
            && Stalled(v, after) && Some(after.pc) == After(st.pc)
            && |LoopSnapshots(after.trace)|
               == |LoopSnapshots(st.trace)| + (if st.pc == Observing(LoopLook) then 1 else 0)
  {
    hide Stalled, After, Reply, StepPrepare, StepRevalidate, StepPods, StepObserve, StepTrigger, StepJudge;
    match st.pc
    case Acquiring(at) => StalledAcquire(cfg, v, n, st, at);
    case Preparing(at) => StalledPrepare(cfg, v, n, st, at);
    case Revalidating(at) => StalledRevalidate(cfg, v, n, st, at);
    case Evicting(pass, i, at) => StalledPods(cfg, v, n, st, pass, i, at);
    case Observing(at) => StalledObserve(cfg, v, n, st, at);
    case Triggering(i, at) => StalledTrigger(cfg, v, n, st, i, at);
    case Judging(at) => StalledJudge(cfg, v, n, st, at);
    case _ => NotStalled(v, st);
  }

  lemma NotStalled(v: VMIInfo, st: State)
    requires st.pc.Restoring? || st.pc.Releasing? || st.pc.Done?
    ensures !Stalled(v, st)
  {}

  lemma StalledAcquire(cfg: Config, v: VMIInfo, n: nat, st: State, at: AcquirePc)
    requires Able(v) && Stalled(v, st) && st.pc == Acquiring(at) && ValidOptions(cfg.opts)
    ensures var after := StepAcquire(cfg, st, at, Reply(v, n, st));
            Stalled(v, after) && Some(after.pc) == After(st.pc) && LoopSnapshots(after.trace) == LoopSnapshots(st.trace)
  {
    hide StalledView;
  }

  // ---------------------------------------------------------------- the whole run

  /** How many steps a point is from the top of the loop. */
  function Distance(pc: Pc): nat
  {
    match pc
    case Acquiring(at) => if at.Start? then 12 else 11
    case Preparing(at) =>
      (match at case FirstLook => 10 case ConfirmFirst(i, _) => if i == 0 then 9 else 8 case SendCordon => 7)
    case Revalidating(at) => (match at case SecondLook => 6 case ConfirmSecond(i, _) => if i == 0 then 5 else 4)
    case Evicting(pass, i, _) => if pass.Setup? then (if i == 0 then 3 else 2) else if i == 0 then 6 else 5
    case Observing(at) =>
      (match at case DiscoverLimit => 1 case LoopTop => 0 case LoopLook => 8 case Account => 7)
    case Triggering(i, _) => if i == 0 then 4 else 3
    case Judging(at) => if at.Judge? then 2 else 1
    case _ => 0
  }

  lemma Nearer(pc: Pc)
    requires After(pc).Some? && pc != Observing(LoopTop)
    ensures Distance(After(pc).value) < Distance(pc)
  {}

  lemma {:induction false} ReachesTop(cfg: Config, v: VMIInfo, n: nat, t: nat, k: nat) returns (t': nat)
    requires Able(v) && ValidOptions(cfg.opts)
    requires var st := ClosedRun(cfg, Replying(v, n), t);
             Stalled(v, st) && |LoopSnapshots(st.trace)| + (if st.pc == Observing(LoopLook) then 1 else 0) == k
    ensures var st := ClosedRun(cfg, Replying(v, n), t');
            Stalled(v, st) && st.pc == Observing(LoopTop) && |LoopSnapshots(st.trace)| == k
    decreases Distance(ClosedRun(cfg, Replying(v, n), t).pc)
  {
    hide ClosedRun, Step, Stalled, Reply, After, Distance;
    var st := ClosedRun(cfg, Replying(v, n), t);
    if st.pc == Observing(LoopTop) { return t; }
    OneReply(cfg, v, n, t);
    StalledStep(cfg, v, n, st);
    Continues(v, st);
    Nearer(st.pc);
    t' := ReachesTop(cfg, v, n, t + 1, k);
  }

  lemma OneReply(cfg: Config, v: VMIInfo, n: nat, t: nat)
    ensures var st := ClosedRun(cfg, Replying(v, n), t);
            ClosedRun(cfg, Replying(v, n), t + 1) == Step(cfg, st, Reply(v, n, st))
  {
    hide Step, Reply;
  }

  /** Only the top of the loop leads to another observation. */
  lemma Continues(v: VMIInfo, st: State)
    requires Stalled(v, st)
    ensures After(st.pc).Some? && (st.pc != Observing(LoopTop) ==> After(st.pc) != Some(Observing(LoopLook)))
    ensures After(Observing(LoopTop)) == Some(Observing(LoopLook))
  {}

  lemma {:induction false} Observes(cfg: Config, v: VMIInfo, n: nat, t: nat, k: nat) returns (t': nat)
    requires Able(v) && ValidOptions(cfg.opts) && k <= n
    requires var st := ClosedRun(cfg, Replying(v, n), t);
             Stalled(v, st) && st.pc == Observing(LoopTop) && |LoopSnapshots(st.trace)| == k
    ensures var st := ClosedRun(cfg, Replying(v, n), t');
            Stalled(v, st) && st.pc == Observing(LoopTop) && |LoopSnapshots(st.trace)| == n
    decreases n - k
  {
    hide ClosedRun, Step, Stalled, Reply, After;
    if k == n { return t; }
    var st := ClosedRun(cfg, Replying(v, n), t);
    OneReply(cfg, v, n, t);
    StalledStep(cfg, v, n, st);
    Continues(v, st);
    var u := ReachesTop(cfg, v, n, t + 1, k + 1);
    t' := Observes(cfg, v, n, u, k + 1);
  }

  lemma StartsStalled(cfg: Config, v: VMIInfo, n: nat)
    ensures Stalled(v, ClosedRun(cfg, Replying(v, n), 0)) && ClosedRun(cfg, Replying(v, n), 0).pc == Acquiring(Start)
    ensures LoopSnapshots(ClosedRun(cfg, Replying(v, n), 0).trace) == []
  {}

  lemma TimesOut(cfg: Config, v: VMIInfo, n: nat, st: State)
    requires Stalled(v, st) && st.pc == Observing(LoopTop) && |LoopSnapshots(st.trace)| == n
    ensures var after := Step(cfg, st, Reply(v, n, st));
            after.pc == Releasing(Some(Timeout()), None) && after.trace == st.trace
            && Step(cfg, after, Reply(v, n, after)).pc == Done(Some(Timeout()))
            && Step(cfg, after, Reply(v, n, after)).trace == Then(st.trace, Released)
  {
    hide StalledView;
  }

  /**
   For any positive number of observations there is a run that makes them, sees its one VMI stay with a failed
   migration that existed before the drain, never evicts anything, and times out.
   */
  lemma BaselineFailureStalls(cfg: Config, v: VMIInfo, n: nat) returns (inputs: nat -> Input, t: nat)
    requires Able(v) && ValidOptions(cfg.opts) && n >= 1
    ensures var tr := StateAt(cfg, inputs, t).trace;
            && StateAt(cfg, inputs, t).pc == Done(Some(Timeout()))
            && |LoopSnapshots(tr)| == n && (forall s :: s in LoopSnapshots(tr) ==> s == StalledView(v, false))
            && Evictions(tr) == 0
  {
    hide StateAt, ClosedRun, Step, Stalled, Reply, StalledView, LoopSnapshots;
    inputs := Responses(cfg, Replying(v, n));
    StartsStalled(cfg, v, n);
    var u := ReachesTop(cfg, v, n, 0, 0);
    var w := Observes(cfg, v, n, u, 0);
    OneReply(cfg, v, n, w);
    OneReply(cfg, v, n, w + 1);
    var st := ClosedRun(cfg, Replying(v, n), w);
    TimesOut(cfg, v, n, st);
    StaysIdle(v, st);
    t := w + 2;
    ClosedRunIsRun(cfg, Replying(v, n), t);
  }

  lemma StaysIdle(v: VMIInfo, st: State)
    requires Stalled(v, st)
    ensures Idle(v, Then(st.trace, Released)) && LoopSnapshots(Then(st.trace, Released)) == LoopSnapshots(st.trace)
  {}
}
