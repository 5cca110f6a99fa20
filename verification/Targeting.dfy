/** Which objects of the cluster a run's evictions really hit. */
module Targeting {
  import opened Common
  import opened Kube
  import opened Machine
  import opened History
  import opened Safety
  import opened Moves
  import opened Selection
  import opened Snapshots

  /** UIDs identify: VMIs have distinct, non-empty ones, and pods distinct ones. */
  ghost predicate Identified(view: View) {
    && UniqueVMIs(view.vmis)
    && forall p, q :: p in view.pods && q in view.pods && p.uid == q.uid ==> p == q
  }

  lemma {:induction false} PodOn(pods: seq<Pod>, node: string, p: Pod)
    ensures p in PodsOn(pods, node) <==> p in pods && p.nodeName == node
  {
    if pods != [] {
      PodOn(pods[..|pods| - 1], node, p);
      assert pods == pods[..|pods| - 1] + [pods[|pods| - 1]];
    }
  }

  lemma {:induction false} VMIOn(vmis: seq<VMI>, node: string, v: VMI)
    ensures v in VMIsOn(vmis, node) <==> v in vmis && v.nodeName == node
  {
    if vmis != [] {
      VMIOn(vmis[..|vmis| - 1], node, v);
      assert vmis == vmis[..|vmis| - 1] + [vmis[|vmis| - 1]];
    }
  }

  /** A depicted VMI is one of the listed ones, on the node. */
  lemma DepictedVMI(s: Snapshot, view: View, look: Lookups, v: VMIInfo)
    requires Depicts(s, view, look) && v in s.vmis
    ensures v.vmi in view.vmis && v.vmi.nodeName == view.node.name && Describes(v, view, look)
  {
    hide Describes, ClassifiedAll;
    var i :| 0 <= i < |s.vmis| && s.vmis[i] == v;
    assert VMIsIn(s.vmis)[i] == v.vmi;
    assert v.vmi in multiset(VMIsIn(s.vmis));
    assert v.vmi in VMIsOn(view.vmis, view.node.name);
    VMIOn(view.vmis, view.node.name, v.vmi);
  }

  /** A depicted pod is one of the listed ones, on the node, and classified by the listed VMIs. */
  lemma DepictedPod(s: Snapshot, view: View, look: Lookups, p: PodInfo)
    requires Depicts(s, view, look) && p in s.pods
    ensures p.pod in view.pods && p.pod.nodeName == view.node.name
    ensures Classified(p, p.pod, AttachmentsOf(view.vmis), view.vmis)
  {
    hide Describes, AttachmentsOf, Hosted, LooksLikeLauncher, Stays, HasController;
    var i :| 0 <= i < |s.pods| && s.pods[i] == p;
    var on := PodsOn(view.pods, view.node.name);
    assert Classified(p, on[i], AttachmentsOf(view.vmis), view.vmis);
    assert on[i] in on;
    PodOn(view.pods, view.node.name, p.pod);
  }

  /** A VMI's launcher is among the snapshot's pods, as a launcher. */
  lemma LauncherDepicted(s: Snapshot, view: View, look: Lookups, v: VMIInfo) returns (p: PodInfo)
    requires Depicts(s, view, look) && UniqueVMIs(view.vmis) && v in s.vmis && v.launcher.Some?
    ensures p in s.pods && p.pod == v.launcher.value && p.launcher
    ensures Hosted(v.launcher.value, view.vmis) == Some(v.vmi)
  {
    DepictedVMI(s, view, look, v);
    hide AttachmentsOf, Hosted, LooksLikeLauncher, Stays, HasController, Movable;
    LauncherIsOwned(v.vmi, view.pods);
    LauncherIsClassified(v.vmi, view.vmis, view.pods);
    PodOn(view.pods, view.node.name, v.launcher.value);
    var on := PodsOn(view.pods, view.node.name);
    var i :| 0 <= i < |on| && on[i] == v.launcher.value;
    assert Classified(s.pods[i], on[i], AttachmentsOf(view.vmis), view.vmis);
    p := s.pods[i];
  }

  /** The two ways to evict never meet: a VMI's launcher is no ordinary target, under any options. */
  lemma PathsDisjoint(s: Snapshot, view: View, look: Lookups, v: VMIInfo, q: PodInfo, opts: Options)
    requires Depicts(s, view, look) && Identified(view)
    requires v in s.vmis && v.launcher.Some? && q in s.pods && NormalEligible(q, opts)
    ensures q.pod.uid != v.launcher.value.uid
  {
    hide Depicts, AttachmentsOf, Hosted, LooksLikeLauncher, Stays, HasController;
    DepictedPod(s, view, look, q);
    var p := LauncherDepicted(s, view, look, v);
    DepictedPod(s, view, look, p);
  }

  /** The budget that lets a launcher be evicted is controlled by that launcher's own VMI, and allows no disruption. */
  lemma BudgetIsItsOwn(s: Snapshot, view: View, look: Lookups, v: VMIInfo) returns (b: Budget)
    requires Depicts(s, view, look) && UniqueVMIs(view.vmis) && v in s.vmis && Confirmable(v)
    ensures b in view.budgets && Covers(b, v.launcher.value)
    ensures Controls(b.owners, v.vmi) && b.disruptionsAllowed == 0
  {
    var _ := LauncherDepicted(s, view, look, v);
    DepictedVMI(s, view, look, v);
    hide Depicts, AttachmentsOf, Hosted, Movable, Covers, Controls;
    var i :| 0 <= i < |v.launcherPDBs| && v.launcherPDBs[i].kubeVirtOwned && v.launcherPDBs[i].disruptionsAllowed == 0;
    var pdb := v.launcherPDBs[i];
    assert pdb in multiset(v.launcherPDBs);
    CoveringSource(v.launcher.value, view.budgets, view.vmis, pdb);
    b :| b in view.budgets && Covers(b, v.launcher.value) && pdb == Digest(b, v.launcher.value, view.vmis);
  }

  // ---------------------------------------------------------------- over whole runs

  /** Every snapshot of the history was answered by one of the first `t` inputs. */
  ghost predicate Answered(inputs: nat -> Input, t: nat, tr: Trace) {
    tr.Then? ==> Answered(inputs, t, tr.past) && (tr.ev.Observed? ==> AnsweredBy(inputs, t, tr.ev.snap))
  }

  ghost predicate AnsweredBy(inputs: nat -> Input, t: nat, s: Snapshot) {
    exists k: nat :: k < t && inputs(k).snap == Got(s)
  }

  lemma {:induction false} StillAnswered(inputs: nat -> Input, t: nat, tr: Trace)
    requires Answered(inputs, t, tr)
    ensures Answered(inputs, t + 1, tr)
  {
    if tr.Then? {
      StillAnswered(inputs, t, tr.past);
      if tr.ev.Observed? { var k: nat :| k < t && inputs(k).snap == Got(tr.ev.snap); }
    }
  }

  lemma {:induction false} AnsweredRun(cfg: Config, inputs: nat -> Input, t: nat)
    ensures Answered(inputs, t, StateAt(cfg, inputs, t).trace)
  {
    hide StateAt, Step;
    if t == 0 {
      Begins(cfg, inputs);
    } else {
      var st := StateAt(cfg, inputs, t - 1);
      AnsweredRun(cfg, inputs, t - 1);
      StillAnswered(inputs, t - 1, st.trace);
      Tick(cfg, inputs, t - 1);
      WritesStep(cfg, st, inputs(t - 1));
      var tr := StateAt(cfg, inputs, t).trace;
      if tr != st.trace && tr.ev.Observed? { assert AnsweredBy(inputs, t, tr.ev.snap); }
    }
  }

  lemma {:induction false} AnsweredEarlier(inputs: nat -> Input, t: nat, part: Trace, tr: Trace)
    requires Answered(inputs, t, tr) && Earlier(part, tr)
    ensures Answered(inputs, t, part)
  {
    if part != tr { AnsweredEarlier(inputs, t, part, tr.past); }
  }

  lemma {:induction false} LastAnswered(inputs: nat -> Input, t: nat, tr: Trace)
    requires Answered(inputs, t, tr) && LastSeen(tr).Some?
    ensures AnsweredBy(inputs, t, LastSeen(tr).value)
  {
    if !tr.ev.Observed? { LastAnswered(inputs, t, tr.past); }
  }

  /** Every snapshot that a run was shown depicts some view in which UIDs identify. */
  ghost predicate Depicted(inputs: nat -> Input, views: nat -> View, looks: nat -> Lookups) {
    forall t: nat :: inputs(t).snap.Got? ==> Depicts(inputs(t).snap.value, views(t), looks(t)) && Identified(views(t))
  }

  /** What is known of an eviction's target in the view it was chosen from. */
  ghost predicate RightTarget(ev: Event, view: View) {
    && (ev.Evicted? ==>
          && ev.pod.pod in view.pods && !Marked(ev.pod.pod) && !LooksLikeLauncher(ev.pod.pod)
          && (forall v :: v in view.vmis ==> !Hosts(ev.pod.pod, v)) && Hosted(ev.pod.pod, view.vmis).None?)
    && (ev.Triggered? ==>
          && ev.vmi.launcher.Some? && ev.vmi.launcher.value in view.pods && ev.vmi.vmi in view.vmis
          && ev.vmi.launcher.value.nodeName == ev.vmi.vmi.nodeName && Hosts(ev.vmi.launcher.value, ev.vmi.vmi)
          && Hosted(ev.vmi.launcher.value, view.vmis) == Some(ev.vmi.vmi)
          && exists b :: b in view.budgets && CoveredBy(ev.vmi.launcher.value, b) && Controlled(b.owners, ev.vmi.vmi)
                         && b.disruptionsAllowed == 0)
  }

  /**
   In every run, each normal eviction hits a pod that hosts no VMI and does not even look like a launcher, and
   each launcher eviction hits the pod that provably hosts the VMI, under a budget of that very VMI.
   */
  lemma EvictionsHitTheRightPods(
      cfg: Config, inputs: nat -> Input, views: nat -> View, looks: nat -> Lookups, t: nat, past: Trace, ev: Event)
    returns (k: nat)
    requires Depicted(inputs, views, looks)
    requires Earlier(Then(past, ev), StateAt(cfg, inputs, t).trace) && RealEviction(ev)
    ensures k < t && RightTarget(ev, views(k))
  {
    hide StateAt, Depicts, Identified, ClearedView, NormalEligible, Confirmable, JustConfirmed, RightTarget;
    EveryEventAllowed(cfg, inputs, t, past, ev);
    AnsweredRun(cfg, inputs, t);
    AnsweredEarlier(inputs, t, Then(past, ev), StateAt(cfg, inputs, t).trace);
    var s := LastSeen(past).value;
    LastAnswered(inputs, t, past);
    k :| k < t && inputs(k).snap == Got(s);
    assert Depicts(inputs(k).snap.value, views(k), looks(k)) && Identified(views(k));
    if ev.Evicted? {
      PodIsRight(s, views(k), looks(k), ev, cfg.opts);
    } else {
      VMIIsRight(s, views(k), looks(k), ev);
    }
  }

  lemma PodIsRight(s: Snapshot, view: View, look: Lookups, ev: Event, opts: Options)
    requires Depicts(s, view, look) && Identified(view)
    requires ev.Evicted? && ev.pod in s.pods && NormalEligible(ev.pod, opts)
    ensures RightTarget(ev, view)
  {
    hide Depicts, AttachmentsOf, Hosted, Hosts, LooksLikeLauncher, Marked, Stays, HasController;
    DepictedPod(s, view, look, ev.pod);
    ClassIs(ev.pod, ev.pod.pod, AttachmentsOf(view.vmis), view.vmis);
    MarkedIs(ev.pod.pod);
  }

  lemma VMIIsRight(s: Snapshot, view: View, look: Lookups, ev: Event)
    requires Depicts(s, view, look) && Identified(view) && ev.Triggered? && ev.vmi in s.vmis && Confirmable(ev.vmi)
    ensures RightTarget(ev, view)
  {
    hide Depicts, Hosted, Hosts, Controls, Controlled, VerifiedPDB;
    var _ := LauncherDepicted(s, view, look, ev.vmi);
    var b := BudgetIsItsOwn(s, view, look, ev.vmi);
    ControlsIs(b.owners, ev.vmi.vmi);
    LauncherHosts(s, view, look, ev.vmi);
  }

  lemma LauncherHosts(s: Snapshot, view: View, look: Lookups, v: VMIInfo)
    requires Depicts(s, view, look) && UniqueVMIs(view.vmis) && v in s.vmis && v.launcher.Some?
    ensures v.launcher.value in view.pods && v.vmi in view.vmis
    ensures v.launcher.value.nodeName == v.vmi.nodeName && Hosts(v.launcher.value, v.vmi)
  {
    DepictedVMI(s, view, look, v);
    hide Depicts, Hosts, Movable;
    LauncherIsClassified(v.vmi, view.vmis, view.pods);
  }
}
