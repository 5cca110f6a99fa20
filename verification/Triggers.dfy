/** Failed migrations, launcher evictions and in-flight migrations: what the drain counts, and the bounds it keeps. */
module Triggers {
  import opened Common
  import opened Errors
  import opened Kube
  import opened Machine
  import opened History
  import opened Safety
  import opened Moves
  import opened Meaning
  import Outcome

  // ---------------------------------------------------------------- failures, per VMI

  /** The failed migrations of VMI `key` outside the baseline, over every loop snapshot of the history. */
  function FailuresIn(tr: Trace, baseline: set<string>, key: string): set<string> {
    if tr.Empty? then {}
    else if tr.ev.Observed? && tr.ev.look.Looped? then
      FailuresIn(tr.past, baseline, key) + FailedUids(tr.ev.snap.migrations, baseline, key)
    else FailuresIn(tr.past, baseline, key)
  }

  lemma {:induction false} FailuresNeedLoop(tr: Trace, baseline: set<string>, key: string)
    requires LoopSnapshots(tr) == []
    ensures FailuresIn(tr, baseline, key) == {}
  {
    if tr.Then? { FailuresNeedLoop(tr.past, baseline, key); }
  }

  lemma SeenNothing(key: string)
    ensures Seen(map[], key) == {}
  {}

  lemma MergeExact(seen: map<string, set<string>>, ms: seq<MigrationInfo>, baseline: set<string>, key: string)
    ensures Seen(MergeFailed(seen, ms, baseline), key) == Seen(seen, key) + FailedUids(ms, baseline, key)
  {
    if key !in FailedKeys(ms, baseline) { assert FailedUids(ms, baseline, key) == {}; }
  }

  /** A VMI has a new failure exactly when its set of failures grows. */
  lemma NewFailureGrows(seen: map<string, set<string>>, ms: seq<MigrationInfo>, baseline: set<string>, key: string)
    ensures key in NewlyFailed(seen, ms, baseline) <==> !(FailedUids(ms, baseline, key) <= Seen(seen, key))
    ensures |Seen(MergeFailed(seen, ms, baseline), key)|
         >= |Seen(seen, key)| + (if key in NewlyFailed(seen, ms, baseline) then 1 else 0)
  {
    var old_, more := Seen(seen, key), FailedUids(ms, baseline, key);
    MergeExact(seen, ms, baseline, key);
    if key in NewlyFailed(seen, ms, baseline) {
      var m :| m in ms && Counts(m, baseline) && m.uid !in Seen(seen, MigrationKey(m)) && MigrationKey(m) == key;
      assert m.uid in more - old_;
      Larger(old_ + {m.uid}, old_ + more);
    } else {
      assert old_ + more == old_;
    }
  }

  lemma {:induction false} Larger(a: set<string>, b: set<string>)
    requires a <= b
    ensures |a| <= |b|
  {
    assert b == a + (b - a);
    assert |b| == |a| + |b - a|;
  }

  // ---------------------------------------------------------------- the ledger of one VMI

  /** Failures are exact, and every launcher eviction is paid for by a failure or still pending. */
  predicate Paid(
      failed: map<string, set<string>>, pending: set<string>, baseline: set<string>, tr: Trace, key: string)
  {
    && Seen(failed, key) == FailuresIn(tr, baseline, key)
    && Launches(tr, key) <= |Seen(failed, key)| + (if key in pending then 1 else 0)
  }

  /** Events that are neither loop sightings nor launcher evictions cost nothing. */
  lemma PaidKeeps(st: State, tr: Trace, ev: Event, key: string)
    requires Paid(st.failedSeen, st.triggered, st.baseline, tr, key) && !ev.Observed? && !ev.Triggered?
    ensures Paid(st.failedSeen, st.triggered, st.baseline, Then(tr, ev), key)
    ensures Launches(Then(tr, ev), key) == Launches(tr, key)
  {}

  lemma PaidFinal(st: State, tr: Trace, s: Snapshot, key: string)
    requires Paid(st.failedSeen, st.triggered, st.baseline, tr, key)
    ensures Paid(st.failedSeen, st.triggered, st.baseline, Then(tr, Observed(Final, s)), key)
    ensures Launches(Then(tr, Observed(Final, s)), key) == Launches(tr, key)
  {}

  /** A launcher eviction of a VMI with none pending: pending afterwards, or the last one of the run. */
  lemma PaidTriggered(cfg: Config, st: State, v: VMIInfo, reply: EvictReply, key: string)
    requires Paid(st.failedSeen, st.triggered, st.baseline, st.trace, key) && Affordable(cfg, st.failedSeen, key)
    requires VMIKey(v) !in st.triggered
    ensures var after := Then(st.trace, Triggered(v, -1, reply));
            && Paid(st.failedSeen, st.triggered + {VMIKey(v)}, st.baseline, after, key)
            && Launches(after, key) <= cfg.opts.retries + 1
  {}

  lemma PaidWithinAllowance(cfg: Config, st: State, tr: Trace, key: string)
    requires Paid(st.failedSeen, st.triggered, st.baseline, tr, key) && Affordable(cfg, st.failedSeen, key)
    ensures Launches(tr, key) <= cfg.opts.retries + 1
  {}

  predicate Fresh(st: State, key: string) {
    LoopSnapshots(st.trace) == [] && st.failedSeen == map[] && Launches(st.trace, key) == 0
  }

  predicate Affordable(cfg: Config, failed: map<string, set<string>>, key: string) {
    |Seen(failed, key)| <= cfg.opts.retries
  }

  /** The ledger of VMI `key` at each point of the program. */
  predicate Ledger(cfg: Config, st: State, key: string) {
    match st.pc
    case Acquiring(_) => st.trace == Empty && st.failedSeen == map[]
    case Preparing(_) => Fresh(st, key)
    case Revalidating(_) => Fresh(st, key)
    case Evicting(pass, _, _) =>
      if pass.Setup? then Fresh(st, key)
      else Paid(st.failedSeen, st.triggered, st.baseline, st.trace, key) && Affordable(cfg, st.failedSeen, key)
    case Observing(at) =>
      (match at
       case DiscoverLimit => Fresh(st, key)
       case Account =>
         && st.trace.Then? && st.trace.ev == Observed(Looped, st.snapshot)
         && Paid(st.failedSeen, st.triggered, st.baseline, st.trace.past, key) && Affordable(cfg, st.failedSeen, key)
       case _ => Paid(st.failedSeen, st.triggered, st.baseline, st.trace, key) && Affordable(cfg, st.failedSeen, key))
    case Triggering(_, _) =>
      Paid(st.failedSeen, st.triggered, st.baseline, st.trace, key) && Affordable(cfg, st.failedSeen, key)
    case Judging(_) =>
      Paid(st.failedSeen, st.triggered, st.baseline, st.trace, key) && Affordable(cfg, st.failedSeen, key)
    case _ => Launches(st.trace, key) <= cfg.opts.retries + 1
  }

  lemma LedgerAcquire(cfg: Config, st: State, at: AcquirePc, e: Input, key: string)
    requires Ledger(cfg, st, key) && st.pc == Acquiring(at) && cfg.opts.retries >= 0
    ensures Ledger(cfg, StepAcquire(cfg, st, at, e), key)
  {
    hide ContextError;
    assert Launches(Empty, key) == 0 && LoopSnapshots(Empty) == [];
    match at
    case Start =>
    case CreateLease =>
    case GetLease =>
  }

  lemma LedgerPrepare(cfg: Config, st: State, at: PreparePc, e: Input, key: string)
    requires Ledger(cfg, st, key) && st.pc == Preparing(at) && !at.ConfirmFirst? && cfg.opts.retries >= 0
    ensures Ledger(cfg, StepPrepare(cfg, st, at, e), key)
  {
    hide EvacuationAccepted, Confirmable, Preflighted, ContextError, ActiveKeys, VMIKey, NormalEligible, Seen,
      FailedUids;
    match at
    case FirstLook => if e.snap.Lost? { }
    case SendCordon => if e.ack.Refused? { } else if e.interrupt { }
  }

  lemma LedgerConfirm(cfg: Config, st: State, i: nat, bad: bool, e: Input, key: string)
    requires Ledger(cfg, st, key) && st.pc == Preparing(ConfirmFirst(i, bad)) && cfg.opts.retries >= 0
    ensures Ledger(cfg, StepPrepare(cfg, st, ConfirmFirst(i, bad), e), key)
  {
    hide EvacuationAccepted, Confirmable, Preflighted, ContextError, ActiveKeys, VMIKey, NormalEligible, Seen,
      FailedUids;
    if i < |st.snapshot.vmis| { } else if bad { } else { }
  }

  lemma LedgerRevalidate(cfg: Config, st: State, at: RevalidatePc, e: Input, key: string)
    requires Ledger(cfg, st, key) && st.pc == Revalidating(at) && cfg.opts.retries >= 0
    ensures Ledger(cfg, StepRevalidate(cfg, st, at, e), key)
  {
    hide EvacuationAccepted, Confirmable, Preflighted, ContextError, ActiveKeys, VMIKey, NormalEligible, Seen,
      FailedUids;
    match at
    case SecondLook => if e.snap.Lost? { }
    case ConfirmSecond(i, bad) => if i < |st.snapshot.vmis| { } else if bad { }
  }

  /** Pod evictions before the loop leave the ledger empty. */
  lemma FreshKeeps(tr: Trace, key: string)
    requires LoopSnapshots(tr) == [] && Launches(tr, key) == 0
    ensures forall p, grace, reply ::
              LoopSnapshots(Then(tr, Evicted(p, grace, reply))) == []
              && Launches(Then(tr, Evicted(p, grace, reply)), key) == 0
  {}

  lemma LedgerPods(cfg: Config, st: State, pass: Pass, i: nat, at: PodPc, e: Input, key: string)
    requires Ledger(cfg, st, key) && st.pc == Evicting(pass, i, at) && cfg.opts.retries >= 0
    ensures Ledger(cfg, StepPods(cfg, st, pass, i, at, e), key)
  {
    hide Tolerable, NormalEligible, Preflighted, ContextError, Outstanding, ActiveKeys, VMIKey, Paid, Affordable,
      Launches, LoopSnapshots;
    if pass.Loop? { PaidWithinAllowance(cfg, st, st.trace, key); } else { FreshKeeps(st.trace, key); }
    if i < |st.snapshot.pods| {
      match at
      case PodPoll => if e.interrupt { }
      case PodEvict =>
        if pass.Loop? { PaidKeeps(st, st.trace, StepPods(cfg, st, pass, i, at, e).trace.ev, key); }
      case PodOutput =>
    } else if pass.Setup? { }
  }

  lemma LedgerAccount(cfg: Config, st: State, e: Input, key: string)
    requires Ledger(cfg, st, key) && st.pc == Observing(Account) && cfg.opts.retries >= 0
    ensures Ledger(cfg, StepObserve(cfg, st, Account, e), key)
  {
    hide MergeFailed, NewlyFailed, FailedUids, ContextError;
    MergeExact(st.failedSeen, st.snapshot.migrations, st.baseline, key);
    NewFailureGrows(st.failedSeen, st.snapshot.migrations, st.baseline, key);
  }

  lemma LedgerObserve(cfg: Config, st: State, at: ObservePc, e: Input, key: string)
    requires Ledger(cfg, st, key) && st.pc == Observing(at) && !at.Account? && cfg.opts.retries >= 0
    ensures Ledger(cfg, StepObserve(cfg, st, at, e), key)
  {
    hide EffectiveLimit, DiscoveredLimit, ActiveKeys, Preflighted, ContextError, Track, Seen, FailedUids;
    match at
    case DiscoverLimit => SeenNothing(key); FailuresNeedLoop(st.trace, st.baseline, key);
    case LoopTop => if e.broken { } else if !e.deadline { }
    case LoopLook => if e.snap.Lost? { }
  }

  lemma LedgerTrigger(cfg: Config, st: State, i: nat, at: TriggerPc, e: Input, key: string)
    requires Ledger(cfg, st, key) && st.pc == Triggering(i, at) && cfg.opts.retries >= 0
    requires at.TriggerEvict? ==> Chosen(st, i)
    ensures Ledger(cfg, StepTrigger(cfg, st, i, at, e), key)
  {
    hide EvacuationAccepted, Confirmable, ContextError, Preflighted, ActiveKeys, VMIKey, NormalEligible, Paid,
      Affordable;
    PaidWithinAllowance(cfg, st, st.trace, key);
    if i < |st.snapshot.vmis| {
      match at
      case TriggerPoll => if e.interrupt { }
      case TriggerDryRun => PaidKeeps(st, st.trace, DryRun(st.snapshot.vmis[i], e.evict), key);
      case TriggerEvict => PaidTriggered(cfg, st, st.snapshot.vmis[i], e.evict, key);
    }
  }

  lemma LedgerJudge(cfg: Config, st: State, at: JudgePc, e: Input, key: string)
    requires Ledger(cfg, st, key) && st.pc == Judging(at) && cfg.opts.retries >= 0
    ensures Ledger(cfg, StepJudge(cfg, st, at, e), key)
  {
    hide CountActive, Quiet, ContextError, RepliesFor, SomeUnverifiable, AllSettled, Track, Paid, Affordable, VMIKey;
    PaidWithinAllowance(cfg, st, st.trace, key);
    match at
    case Judge => if st.interrupted && CountActive(st.snapshot.migrations) == 0 { }
    case VerifyHotplug => PaidKeeps(st, st.trace, Verified(RepliesFor(st.tracked, e)), key);
    case FinalLook => if e.snap.Got? { PaidFinal(st, st.trace, e.snap.value, key); }
    case Sleep =>
  }

  lemma LedgerRestore(cfg: Config, st: State, why: Why, node: Option<nat>, e: Input, key: string)
    requires Ledger(cfg, st, key) && st.pc == Restoring(why, node)
    ensures Ledger(cfg, StepRestore(cfg, st, why, node, e), key)
  {
    hide ContextError, Seen, FailedUids, VMIKey;
    match why
    case CordonInterrupted =>
    case RevalidationFailed =>
    case Aborted(ret) =>
  }

  lemma LedgerRelease(cfg: Config, st: State, ret: Option<Error>, lease: Option<LeaseId>, e: Input, key: string)
    requires Ledger(cfg, st, key) && st.pc == Releasing(ret, lease)
    ensures Ledger(cfg, StepRelease(cfg, st, ret, lease, e), key)
  {
    hide Paid, Affordable, Fresh, Launches, StepRelease;
    ReleaseLaunchesNone(st.trace, key);
    ReleaseOnly(cfg, st, ret, lease, e);
  }

  /** A release writes nothing else, and does not go back. */
  lemma ReleaseOnly(cfg: Config, st: State, ret: Option<Error>, lease: Option<LeaseId>, e: Input)
    ensures var after := StepRelease(cfg, st, ret, lease, e);
            && (after.pc.Releasing? || after.pc.Done?)
            && (after.trace == st.trace || after.trace == Then(st.trace, Released))
  {
    hide ReleaseFailed;
    var mine := e.lease.Found? && e.lease.holder == Some(cfg.runID);
    if lease.Some? { if e.ack.Acked? { } } else if e.lease.NoLease? { } else if mine { }
  }

  lemma ReleaseLaunchesNone(tr: Trace, key: string)
    ensures Launches(Then(tr, Released), key) == Launches(tr, key)
  {}

  lemma LedgerStep(cfg: Config, st: State, e: Input, key: string)
    requires Steady(cfg, st) && Ledger(cfg, st, key) && cfg.opts.retries >= 0
    ensures Ledger(cfg, Step(cfg, st, e), key)
  {
    hide Ledger, StepAcquire, StepPrepare, StepRevalidate, StepPods, StepObserve, StepTrigger, StepJudge,
      StepRestore, StepRelease;
    match st.pc
    case Acquiring(at) => LedgerAcquire(cfg, st, at, e, key);
    case Preparing(ConfirmFirst(i, bad)) => LedgerConfirm(cfg, st, i, bad, e, key);
    case Preparing(at) => LedgerPrepare(cfg, st, at, e, key);
    case Revalidating(at) => LedgerRevalidate(cfg, st, at, e, key);
    case Evicting(pass, i, at) => LedgerPods(cfg, st, pass, i, at, e, key);
    case Observing(Account) => LedgerAccount(cfg, st, e, key);
    case Observing(at) => LedgerObserve(cfg, st, at, e, key);
    case Triggering(i, at) => LedgerTrigger(cfg, st, i, at, e, key);
    case Judging(at) => LedgerJudge(cfg, st, at, e, key);
    case Restoring(why, node) => LedgerRestore(cfg, st, why, node, e, key);
    case Releasing(ret, lease) => LedgerRelease(cfg, st, ret, lease, e, key);
    case Done(_) =>
  }

  lemma LedgerInit(cfg: Config, key: string)
    ensures Ledger(cfg, Init(), key)
  {}

  lemma {:induction false} LedgerRun(cfg: Config, inputs: nat -> Input, t: nat, key: string)
    requires cfg.opts.retries >= 0
    ensures Ledger(cfg, StateAt(cfg, inputs, t), key)
  {
    hide StateAt, Step, Init, Ledger, Steady, Lawful;
    if t == 0 {
      Begins(cfg, inputs);
      LedgerInit(cfg, key);
    } else {
      SafeRun(cfg, inputs, t - 1);
      LedgerRun(cfg, inputs, t - 1, key);
      Tick(cfg, inputs, t - 1);
      LedgerStep(cfg, StateAt(cfg, inputs, t - 1), inputs(t - 1), key);
    }
  }

  /** No VMI's launcher is ever sent more real evictions than the retry budget plus one. */
  lemma LaunchesBounded(cfg: Config, inputs: nat -> Input, t: nat, key: string)
    ensures Launches(StateAt(cfg, inputs, t).trace, key)
         <= if cfg.opts.retries < 0 then 0 else cfg.opts.retries + 1
  {
    if cfg.opts.retries >= 0 {
      LedgerRun(cfg, inputs, t, key);
      LedgerBounds(cfg, StateAt(cfg, inputs, t), key);
    } else {
      Outcome.CodingRun(cfg, inputs, t);
      NoOptionsNoLaunch(cfg, StateAt(cfg, inputs, t), key);
    }
  }

  lemma LedgerBounds(cfg: Config, st: State, key: string)
    requires Ledger(cfg, st, key) && cfg.opts.retries >= 0
    ensures Launches(st.trace, key) <= cfg.opts.retries + 1
  {
    match st.pc
    case Observing(Account) => assert Launches(st.trace, key) == Launches(st.trace.past, key);
    case _ =>
  }

  lemma NoOptionsNoLaunch(cfg: Config, st: State, key: string)
    requires Outcome.Coding(cfg, st) && !ValidOptions(cfg.opts)
    ensures Launches(st.trace, key) == 0
  {}

  /** While the drain goes on, a VMI's failures are exactly those its loop snapshots showed. */
  lemma FailuresExact(cfg: Config, inputs: nat -> Input, t: nat, key: string)
    requires cfg.opts.retries >= 0
    requires var pc := StateAt(cfg, inputs, t).pc; pc.Triggering? || pc.Judging?
    ensures var st := StateAt(cfg, inputs, t);
            && Seen(st.failedSeen, key) == FailuresIn(st.trace, st.baseline, key)
            && Seen(st.failedSeen, key) == FailedInLoop(st.trace, st.baseline, key)
  {
    hide Step;
    LedgerRun(cfg, inputs, t, key);
    FailuresAre(StateAt(cfg, inputs, t).trace, StateAt(cfg, inputs, t).baseline, key);
  }

  /** The UIDs of the VMI's failed migrations, outside the baseline, in all the loop snapshots. */
  function FailedInLoop(tr: Trace, baseline: set<string>, key: string): set<string> {
    set s, m | s in LoopSnapshots(tr) && m in s.migrations
               && m.failed && m.uid !in baseline && m.namespace + "/" + m.vmiName == key :: m.uid
  }

  lemma {:induction false} FailuresAre(tr: Trace, baseline: set<string>, key: string)
    ensures FailuresIn(tr, baseline, key) == FailedInLoop(tr, baseline, key)
  {
    if tr.Then? {
      FailuresAre(tr.past, baseline, key);
      if tr.ev.Observed? && tr.ev.look.Looped? {
        FailedOneMore(tr, baseline, key);
      }
    }
  }

  lemma FailedOneMore(tr: Trace, baseline: set<string>, key: string)
    requires tr.Then? && tr.ev.Observed? && tr.ev.look.Looped?
    ensures FailedInLoop(tr, baseline, key)
         == FailedInLoop(tr.past, baseline, key) + FailedUids(tr.ev.snap.migrations, baseline, key)
  {
    hide FailedUids;
    var ms := tr.ev.snap.migrations;
    forall uid
      ensures uid in FailedInLoop(tr, baseline, key)
              <==> uid in FailedInLoop(tr.past, baseline, key) || uid in FailedUids(ms, baseline, key)
    {
      FailedUidsAre(ms, baseline, key, uid);
      assert forall s :: s in LoopSnapshots(tr) <==> s in LoopSnapshots(tr.past) || s == tr.ev.snap;
    }
  }

  /** The budget check ends the run exactly when some VMI has failed more often than the budget allows. */
  lemma BudgetDecides(cfg: Config, inputs: nat -> Input, t: nat)
    requires cfg.opts.retries >= 0 && !inputs(t).broken
    requires StateAt(cfg, inputs, t).pc == Observing(Account)
    ensures StateAt(cfg, inputs, t + 1).pc == FailPc(cfg, StateAt(cfg, inputs, t), Operational())
            <==> exists key :: OverBudget(cfg, StateAt(cfg, inputs, t), key)
  {
    hide StepObserve, Ledger, OverBudget, FailPc;
    var st := StateAt(cfg, inputs, t);
    forall key ensures Ledger(cfg, st, key) { LedgerRun(cfg, inputs, t, key); }
    BudgetAt(cfg, st, inputs(t));
  }

  /** The failures that VMI `key` has shown by now exceed the budget. */
  predicate OverBudget(cfg: Config, st: State, key: string) {
    |FailedInLoop(st.trace, st.baseline, key)| > cfg.opts.retries
  }

  lemma BudgetAt(cfg: Config, st: State, e: Input)
    requires cfg.opts.retries >= 0 && !e.broken && st.pc == Observing(Account)
    requires forall key :: Ledger(cfg, st, key)
    ensures StepObserve(cfg, st, Account, e).pc == FailPc(cfg, st, Operational())
            <==> exists key :: OverBudget(cfg, st, key)
  {
    hide NewlyFailed, MergeFailed, FailedUids, WithinBudget;
    var failed := MergeFailed(st.failedSeen, st.snapshot.migrations, st.baseline);
    forall key ensures OverBudget(cfg, st, key) <==> |Seen(failed, key)| > cfg.opts.retries {
      assert Ledger(cfg, st, key);
      MergeExact(st.failedSeen, st.snapshot.migrations, st.baseline, key);
      FailuresAre(st.trace, st.baseline, key);
    }
    BudgetByKey(failed, cfg.opts.retries);
  }

  lemma BudgetByKey(failed: map<string, set<string>>, retries: int)
    requires retries >= 0
    ensures WithinBudget(failed, retries) <==> forall key :: |Seen(failed, key)| <= retries
  {
    if forall key :: |Seen(failed, key)| <= retries {
      forall k | k in failed ensures |failed[k]| <= retries { assert failed[k] == Seen(failed, k); }
    }
  }

  // ---------------------------------------------------------------- migrations in flight

  ghost predicate DistinctKeys(vmis: seq<VMIInfo>) {
    forall i, j :: 0 <= i < j < |vmis| ==> VMIKey(vmis[i]) != VMIKey(vmis[j])
  }

  lemma {:induction false} CountInWithout(vmis: seq<VMIInfo>, keys: set<string>, k: string)
    requires forall i :: 0 <= i < |vmis| ==> VMIKey(vmis[i]) != k
    ensures CountIn(vmis, keys + {k}) == CountIn(vmis, keys)
  {
    if vmis != [] { CountInWithout(vmis[..|vmis| - 1], keys, k); }
  }

  lemma {:induction false} CountInWith(vmis: seq<VMIInfo>, keys: set<string>, i: nat)
    requires DistinctKeys(vmis) && i < |vmis| && VMIKey(vmis[i]) !in keys
    ensures CountIn(vmis, keys + {VMIKey(vmis[i])}) == CountIn(vmis, keys) + 1
  {
    var n := |vmis| - 1;
    if i == n { CountInWithout(vmis[..n], keys, VMIKey(vmis[i])); } else { CountInWith(vmis[..n], keys, i); }
  }

  /** Requesting one more VMI adds exactly one to what is outstanding. */
  lemma OutstandingGrows(s: Snapshot, triggered: set<string>, i: nat)
    requires DistinctKeys(s.vmis) && i < |s.vmis|
    requires VMIKey(s.vmis[i]) !in triggered && VMIKey(s.vmis[i]) !in ActiveKeys(s.migrations)
    ensures Outstanding(s, triggered + {VMIKey(s.vmis[i])}) == Outstanding(s, triggered) + 1
  {
    var k, active := VMIKey(s.vmis[i]), ActiveKeys(s.migrations);
    assert triggered + {k} - active == (triggered - active) + {k};
    CountInWith(s.vmis, triggered - active, i);
  }

  function Max(a: int, b: int): int { if a < b then b else a }

  /** The running count of a trigger pass, against the count it started from. */
  ghost predicate InFlight(st: State) {
    st.pc.Triggering? ==>
      && st.passStart <= st.outstanding <= Max(st.limit, st.passStart)
      && (st.pc.vmi == 0 && st.pc.trigger.TriggerPoll? ==> st.outstanding == st.passStart)
      && (DistinctKeys(st.snapshot.vmis) ==> st.outstanding == Outstanding(st.snapshot, st.triggered))
  }

  lemma InFlightTrigger(cfg: Config, st: State, i: nat, at: TriggerPc, e: Input)
    requires InFlight(st) && st.pc == Triggering(i, at)
    requires st.active == ActiveKeys(st.snapshot.migrations) && (at.TriggerEvict? ==> Chosen(st, i))
    ensures InFlight(StepTrigger(cfg, st, i, at, e))
  {
    hide EvacuationAccepted, Confirmable, ContextError, ActiveKeys, VMIKey, DistinctKeys, Outstanding;
    if i < |st.snapshot.vmis| {
      match at
      case TriggerPoll => if e.interrupt { }
      case TriggerDryRun =>
      case TriggerEvict =>
        if DistinctKeys(st.snapshot.vmis) { OutstandingGrows(st.snapshot, st.triggered, i); }
    }
  }

  lemma InFlightPods(cfg: Config, st: State, pass: Pass, i: nat, at: PodPc, e: Input)
    ensures InFlight(StepPods(cfg, st, pass, i, at, e))
  {
    hide Tolerable, NormalEligible, ContextError, ActiveKeys, DistinctKeys, Outstanding;
    if i < |st.snapshot.pods| {
      match at
      case PodPoll => if e.interrupt { }
      case PodEvict =>
      case PodOutput =>
    } else if pass.Setup? { }
  }

  lemma InFlightStep(cfg: Config, st: State, e: Input)
    requires Steady(cfg, st) && InFlight(st)
    ensures InFlight(Step(cfg, st, e))
  {
    hide DistinctKeys, Outstanding, StepAcquire, StepPrepare, StepRevalidate, StepPods, StepObserve, StepTrigger,
      StepJudge, StepRestore, StepRelease;
    match st.pc
    case Evicting(pass, i, at) => InFlightPods(cfg, st, pass, i, at, e);
    case Triggering(i, at) => InFlightTrigger(cfg, st, i, at, e);
    case _ => MovesStep(cfg, st, e);
  }

  lemma {:induction false} InFlightRun(cfg: Config, inputs: nat -> Input, t: nat)
    ensures InFlight(StateAt(cfg, inputs, t))
  {
    hide StateAt, Step, Init, InFlight, Steady, Lawful;
    if t == 0 {
      Begins(cfg, inputs);
      InFlightInit();
    } else {
      SafeRun(cfg, inputs, t - 1);
      InFlightRun(cfg, inputs, t - 1);
      Tick(cfg, inputs, t - 1);
      InFlightStep(cfg, StateAt(cfg, inputs, t - 1), inputs(t - 1));
    }
  }

  lemma InFlightInit()
    ensures InFlight(Init())
  {}

  /**
   During a trigger pass the running count is the true number of outstanding migrations, stays within
   the limit (or within what the pass started with), and a VMI is evicted only below the limit, with no
   request pending and no migration active.
   */
  lemma InFlightAccounting(cfg: Config, inputs: nat -> Input, t: nat)
    requires StateAt(cfg, inputs, t).pc.Triggering?
    ensures var st := StateAt(cfg, inputs, t);
            && st.passStart <= st.outstanding <= Max(st.limit, st.passStart)
            && (DistinctKeys(st.snapshot.vmis) ==>
                  st.outstanding == Outstanding(st.snapshot, st.triggered)
                  == |ActiveEntries(st.snapshot)| + |WaitingEntries(st.snapshot, st.triggered)|)
            && (st.pc.trigger.TriggerEvict? ==>
                  && st.pc.vmi < |st.snapshot.vmis| && st.outstanding < st.limit
                  && var key := VMIKey(st.snapshot.vmis[st.pc.vmi]);
                     && key !in st.triggered && key !in ActiveKeys(st.snapshot.migrations)
                     && MovesNowhere(st.snapshot, st.pc.vmi))
  {
    hide Step, DistinctKeys, Outstanding, ClearedView, Cordoned, Has;
    SafeRun(cfg, inputs, t);
    InFlightRun(cfg, inputs, t);
    var st := StateAt(cfg, inputs, t);
    OutstandingIs(st.snapshot, st.triggered);
    forall i: nat | i < |st.snapshot.vmis| && VMIKey(st.snapshot.vmis[i]) !in ActiveKeys(st.snapshot.migrations)
      ensures MovesNowhere(st.snapshot, i)
    {
      MigratingIs(st.snapshot.migrations, VMIKey(st.snapshot.vmis[i]));
    }
  }
}
