/** The drain's two ledgers, tracked VMIs and failed migrations, equal what the history shows. */
module Accounts {
  import opened Common
  import opened Errors
  import opened Kube
  import opened Machine
  import opened History

  // ---------------------------------------------------------------- hotplug expectations

  function Uids(vmis: seq<VMIInfo>): set<string> { set v | v in vmis :: v.vmi.uid }

  /** The volumes that the listed VMIs with UID `u` expect. */
  function Names(vmis: seq<VMIInfo>, u: string): set<string> {
    set v, n | v in vmis && v.vmi.uid == u && n in v.hotplugVolumes :: n
  }

  /** Every VMI UID seen after the cordon step. */
  function UidsIn(tr: Trace): set<string> {
    if tr.Empty? then {}
    else if tr.ev.Observed? && !tr.ev.look.Initial? then UidsIn(tr.past) + Uids(tr.ev.snap.vmis)
    else UidsIn(tr.past)
  }

  /** Every volume that any sighting of VMI `u` after the cordon step expected. */
  function NamesIn(tr: Trace, u: string): set<string> {
    if tr.Empty? then {}
    else if tr.ev.Observed? && !tr.ev.look.Initial? then NamesIn(tr.past, u) + Names(tr.ev.snap.vmis, u)
    else NamesIn(tr.past, u)
  }

  function Volumes(tracked: map<string, Tracked>, u: string): set<string> {
    if u in tracked then tracked[u].volumes else {}
  }

  lemma UidsAppend(front: seq<VMIInfo>, last: VMIInfo, u: string)
    ensures Uids(front + [last]) == Uids(front) + {last.vmi.uid}
    ensures Names(front + [last], u)
         == Names(front, u) + (if last.vmi.uid == u then set n | n in last.hotplugVolumes else {})
  {}

  lemma {:induction false} TrackExact(tracked: map<string, Tracked>, vmis: seq<VMIInfo>, u: string)
    ensures Track(tracked, vmis).Keys == tracked.Keys + Uids(vmis)
    ensures Volumes(Track(tracked, vmis), u) == Volumes(tracked, u) + Names(vmis, u)
  {
    if vmis != [] {
      var front, last := vmis[..|vmis| - 1], vmis[|vmis| - 1];
      TrackExact(tracked, front, u);
      assert vmis == front + [last];
      UidsAppend(front, last, u);
    }
  }

  /** The `k`-th VMI of a listing is the first one with this UID. */
  predicate FirstUnder(vmis: seq<VMIInfo>, u: string, k: int) {
    0 <= k < |vmis| && vmis[k].vmi.uid == u && forall j :: 0 <= j < k ==> vmis[j].vmi.uid != u
  }

  /** A VMI is tracked under the namespace and name of its first sighting, whatever later ones say. */
  lemma {:induction false} TrackedUnderFirst(tracked: map<string, Tracked>, vmis: seq<VMIInfo>, u: string)
    ensures u in tracked ==>
              u in Track(tracked, vmis) && Track(tracked, vmis)[u].namespace == tracked[u].namespace
              && Track(tracked, vmis)[u].name == tracked[u].name
    ensures u !in tracked && u in Track(tracked, vmis) ==>
              exists k :: FirstUnder(vmis, u, k)
                          && Track(tracked, vmis)[u].namespace == vmis[k].vmi.namespace
                          && Track(tracked, vmis)[u].name == vmis[k].vmi.name
  {
    if vmis != [] {
      var n := |vmis| - 1;
      TrackedUnderFirst(tracked, vmis[..n], u);
      if u !in tracked && u in Track(tracked, vmis[..n]) {
        var k :| FirstUnder(vmis[..n], u, k)
                 && Track(tracked, vmis[..n])[u].namespace == vmis[..n][k].vmi.namespace
                 && Track(tracked, vmis[..n])[u].name == vmis[..n][k].vmi.name;
        assert vmis[k] == vmis[..n][k] && FirstUnder(vmis, u, k);
      } else if u !in tracked && vmis[n].vmi.uid == u {
        TrackExact(tracked, vmis[..n], u);
        assert forall j :: 0 <= j < n ==> vmis[j].vmi.uid in Uids(vmis[..n]) by {
          assert forall j :: 0 <= j < n ==> vmis[..n][j] in vmis[..n];
        }
        assert FirstUnder(vmis, u, n);
      }
    }
  }

  /** The ledger of tracked VMIs is exactly the union over the sightings. */
  predicate Balanced(tracked: map<string, Tracked>, tr: Trace) {
    && tracked.Keys == UidsIn(tr)
    && forall u :: u in tracked ==> tracked[u].volumes == NamesIn(tr, u)
  }

  /** The only sighting after the cordon step listed `vmis`. */
  predicate SeenOnce(tr: Trace, vmis: seq<VMIInfo>) {
    tr.Then? &&
    if tr.ev.Observed? then !tr.ev.look.Initial? && tr.ev.snap.vmis == vmis && !SeenAgain(tr.past)
    else SeenOnce(tr.past, vmis)
  }

  lemma {:induction false} UnseenHasNothing(tr: Trace, u: string)
    requires !SeenAgain(tr)
    ensures UidsIn(tr) == {} && NamesIn(tr, u) == {}
  {
    if tr.Then? { UnseenHasNothing(tr.past, u); }
  }

  lemma {:induction false} SeenOnceExact(tr: Trace, vmis: seq<VMIInfo>, u: string)
    requires SeenOnce(tr, vmis)
    ensures UidsIn(tr) == Uids(vmis) && NamesIn(tr, u) == Names(vmis, u)
  {
    if tr.ev.Observed? { UnseenHasNothing(tr.past, u); } else { SeenOnceExact(tr.past, vmis, u); }
  }

  lemma BalancedLater(tracked: map<string, Tracked>, tr: Trace, look: Look, s: Snapshot)
    requires Balanced(tracked, tr) && !look.Initial?
    ensures Balanced(Track(tracked, s.vmis), Then(tr, Observed(look, s)))
  {
    var more := Track(tracked, s.vmis);
    TrackExact(tracked, s.vmis, "");
    forall u | u in more ensures more[u].volumes == NamesIn(tr, u) + Names(s.vmis, u) {
      TrackExact(tracked, s.vmis, u);
      assert more[u].volumes == Volumes(more, u);
      if u !in tracked { NamesNeedUid(tr, u); }
    }
  }

  /** Events that are not sightings leave the ledger balanced. */
  lemma BalancedKeeps(tracked: map<string, Tracked>, tr: Trace, ev: Event)
    requires Balanced(tracked, tr) && !ev.Observed?
    ensures Balanced(tracked, Then(tr, ev))
  {}

  lemma {:induction false} NamesNeedUid(tr: Trace, u: string)
    requires u !in UidsIn(tr)
    ensures NamesIn(tr, u) == {}
  {
    if tr.Then? { NamesNeedUid(tr.past, u); }
  }

  lemma BalancedFirst(tr: Trace, vmis: seq<VMIInfo>)
    requires SeenOnce(tr, vmis)
    ensures Balanced(Track(map[], vmis), tr)
  {
    var more := Track(map[], vmis);
    TrackExact(map[], vmis, "");
    SeenOnceExact(tr, vmis, "");
    forall u | u in more ensures more[u].volumes == NamesIn(tr, u) {
      TrackExact(map[], vmis, u);
      SeenOnceExact(tr, vmis, u);
      assert more[u].volumes == Volumes(more, u);
    }
  }

  predicate Tracking(st: State) {
    match st.pc
    case Acquiring(_) => st.trace == Empty
    case Preparing(_) => !SeenAgain(st.trace)
    case Revalidating(at) =>
      if at.SecondLook? then !SeenAgain(st.trace) else SeenOnce(st.trace, st.snapshot.vmis)
    case Evicting(pass, _, _) =>
      if pass.Setup? then SeenOnce(st.trace, st.snapshot.vmis) else Balanced(st.tracked, st.trace)
    case Observing(at) =>
      if at.DiscoverLimit? then SeenOnce(st.trace, st.snapshot.vmis) else Balanced(st.tracked, st.trace)
    case Triggering(_, _) => Balanced(st.tracked, st.trace)
    case Judging(_) => Balanced(st.tracked, st.trace)
    case Restoring(_, _) => true
    case Releasing(ret, _) => ret.None? ==> Balanced(st.tracked, st.trace)
    case Done(ret) => ret.None? ==> Balanced(st.tracked, st.trace)
  }

  lemma TrackingAcquire(cfg: Config, st: State, at: AcquirePc, e: Input)
    requires Tracking(st) && st.pc == Acquiring(at)
    ensures Tracking(StepAcquire(cfg, st, at, e))
  {
    hide ContextError;
    match at
    case Start =>
    case CreateLease =>
    case GetLease =>
  }

  lemma TrackingPrepare(cfg: Config, st: State, at: PreparePc, e: Input)
    requires Tracking(st) && st.pc == Preparing(at) && !at.ConfirmFirst?
    ensures Tracking(StepPrepare(cfg, st, at, e))
  {
    hide EvacuationAccepted, Confirmable, Preflighted, ContextError, ActiveKeys, VMIKey, NormalEligible;
    match at
    case FirstLook => if e.snap.Lost? { }
    case SendCordon => if e.ack.Refused? { } else if e.interrupt { }
  }

  lemma TrackingConfirm(cfg: Config, st: State, i: nat, bad: bool, e: Input)
    requires Tracking(st) && st.pc == Preparing(ConfirmFirst(i, bad))
    ensures Tracking(StepPrepare(cfg, st, ConfirmFirst(i, bad), e))
  {
    hide EvacuationAccepted, Confirmable, Preflighted, ContextError, ActiveKeys, VMIKey, NormalEligible;
    if i < |st.snapshot.vmis| { } else if bad { } else { }
  }

  lemma TrackingRevalidate(cfg: Config, st: State, at: RevalidatePc, e: Input)
    requires Tracking(st) && st.pc == Revalidating(at)
    ensures Tracking(StepRevalidate(cfg, st, at, e))
  {
    hide EvacuationAccepted, Confirmable, Preflighted, ContextError, ActiveKeys, VMIKey, NormalEligible;
    match at
    case SecondLook => if e.snap.Lost? { }
    case ConfirmSecond(i, bad) => if i < |st.snapshot.vmis| { } else if bad { }
  }

  lemma TrackingPods(cfg: Config, st: State, pass: Pass, i: nat, at: PodPc, e: Input)
    requires Tracking(st) && st.pc == Evicting(pass, i, at)
    ensures Tracking(StepPods(cfg, st, pass, i, at, e))
  {
    hide Tolerable, NormalEligible, Preflighted, ContextError, Outstanding, ActiveKeys, Balanced;
    if i < |st.snapshot.pods| {
      match at
      case PodPoll => if e.interrupt { }
      case PodEvict =>
        if pass.Loop? { BalancedKeeps(st.tracked, st.trace, StepPods(cfg, st, pass, i, at, e).trace.ev); }
      case PodOutput =>
    } else if pass.Setup? { }
  }

  lemma TrackingObserve(cfg: Config, st: State, at: ObservePc, e: Input)
    requires Tracking(st) && st.pc == Observing(at)
    ensures Tracking(StepObserve(cfg, st, at, e))
  {
    hide EffectiveLimit, DiscoveredLimit, ActiveKeys, Preflighted, MergeFailed, NewlyFailed, WithinBudget,
      ContextError, NormalEligible, Balanced, Track;
    match at
    case DiscoverLimit => BalancedFirst(st.trace, st.snapshot.vmis);
    case LoopTop => if e.broken { } else if !e.deadline { }
    case LoopLook =>
      if e.snap.Got? { BalancedLater(st.tracked, st.trace, Looped, e.snap.value); }
    case Account =>
  }

  lemma TrackingTrigger(cfg: Config, st: State, i: nat, at: TriggerPc, e: Input)
    requires Tracking(st) && st.pc == Triggering(i, at)
    ensures Tracking(StepTrigger(cfg, st, i, at, e))
  {
    hide EvacuationAccepted, Confirmable, ContextError, Preflighted, ActiveKeys, VMIKey, Skipped, Balanced;
    if i < |st.snapshot.vmis| {
      match at
      case TriggerPoll => if e.interrupt { }
      case TriggerDryRun => BalancedKeeps(st.tracked, st.trace, DryRun(st.snapshot.vmis[i], e.evict));
      case TriggerEvict => BalancedKeeps(st.tracked, st.trace, Triggered(st.snapshot.vmis[i], -1, e.evict));
    }
  }

  lemma TrackingJudge(cfg: Config, st: State, at: JudgePc, e: Input)
    requires Tracking(st) && st.pc == Judging(at)
    ensures Tracking(StepJudge(cfg, st, at, e))
  {
    hide CountActive, Quiet, Preflighted, ContextError, NormalEligible, Track, Balanced, RepliesFor;
    match at
    case Judge => if st.interrupted && CountActive(st.snapshot.migrations) == 0 { }
    case VerifyHotplug => BalancedKeeps(st.tracked, st.trace, Verified(RepliesFor(st.tracked, e)));
    case FinalLook =>
      if e.snap.Got? { BalancedLater(st.tracked, st.trace, Final, e.snap.value); }
    case Sleep =>
  }

  lemma TrackingRestore(cfg: Config, st: State, why: Why, node: Option<nat>, e: Input)
    requires Tracking(st) && st.pc == Restoring(why, node)
    ensures Tracking(StepRestore(cfg, st, why, node, e))
  {
    hide ContextError, Preflighted, CountActive, NormalEligible, Quiet, Balanced;
  }

  lemma TrackingRelease(cfg: Config, st: State, ret: Option<Error>, lease: Option<LeaseId>, e: Input)
    requires Tracking(st) && st.pc == Releasing(ret, lease)
    ensures Tracking(StepRelease(cfg, st, ret, lease, e))
  {
    hide Balanced;
    if ret.None? { BalancedKeeps(st.tracked, st.trace, Released); }
    if lease.Some? { } else if e.lease.NoLease? { } else { }
  }

  lemma TrackingStep(cfg: Config, st: State, e: Input)
    requires Tracking(st)
    ensures Tracking(Step(cfg, st, e))
  {
    hide Tracking, StepAcquire, StepPrepare, StepRevalidate, StepPods, StepObserve, StepTrigger, StepJudge,
      StepRestore, StepRelease;
    match st.pc
    case Acquiring(at) => TrackingAcquire(cfg, st, at, e);
    case Preparing(ConfirmFirst(i, bad)) => TrackingConfirm(cfg, st, i, bad, e);
    case Preparing(at) => TrackingPrepare(cfg, st, at, e);
    case Revalidating(at) => TrackingRevalidate(cfg, st, at, e);
    case Evicting(pass, i, at) => TrackingPods(cfg, st, pass, i, at, e);
    case Observing(at) => TrackingObserve(cfg, st, at, e);
    case Triggering(i, at) => TrackingTrigger(cfg, st, i, at, e);
    case Judging(at) => TrackingJudge(cfg, st, at, e);
    case Restoring(why, node) => TrackingRestore(cfg, st, why, node, e);
    case Releasing(ret, lease) => TrackingRelease(cfg, st, ret, lease, e);
    case Done(_) =>
  }

  lemma {:induction false} TrackingRun(cfg: Config, inputs: nat -> Input, t: nat)
    ensures Tracking(StateAt(cfg, inputs, t))
  {
    hide StateAt, Step, Init, Tracking;
    if t == 0 {
      Begins(cfg, inputs);
      TrackingInit();
    } else {
      TrackingRun(cfg, inputs, t - 1);
      Tick(cfg, inputs, t - 1);
      TrackingStep(cfg, StateAt(cfg, inputs, t - 1), inputs(t - 1));
    }
  }

  lemma TrackingInit()
    ensures Tracking(Init())
  {}
}
