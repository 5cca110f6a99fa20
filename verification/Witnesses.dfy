/** Runs that exist: a co-operative cluster for any VMIs, and runs that show where the drain promises less. */
module Witnesses {
  import opened Common
  import opened Kube
  import opened Machine
  import opened Accounts
  import opened Moves
  import opened ClosedLoop
  import opened Triggers
  import opened Progress
  import Selection
  import Snapshots
  import Success

  // ---------------------------------------------------------------- such a cluster exists

  /** The infos whose keys are in `keys`. */
  function Only(vmis: seq<VMIInfo>, keys: set<string>): seq<VMIInfo> {
    if vmis == [] then []
    else Only(vmis[..|vmis| - 1], keys)
         + (if VMIKey(vmis[|vmis| - 1]) in keys then [vmis[|vmis| - 1]] else [])
  }

  lemma {:induction false} OnlyExact(vmis: seq<VMIInfo>, keys: set<string>)
    requires DistinctKeys(vmis)
    ensures DistinctKeys(Only(vmis, keys)) && KeySet(Only(vmis, keys)) == KeySet(vmis) * keys
    ensures forall v :: v in Only(vmis, keys) ==> v in vmis
  {
    hide VMIKey;
    if vmis != [] {
      var n := |vmis| - 1;
      OnlyExact(vmis[..n], keys);
      KeysOneMore(vmis, n);
      assert vmis[..n + 1] == vmis;
      var front := Only(vmis[..n], keys);
      if VMIKey(vmis[n]) in keys {
        var all := front + [vmis[n]];
        assert all[..|front| + 1] == all && all[..|front|] == front;
        KeysOneMore(all, |front|);
        forall i, j | 0 <= i < j < |all| ensures VMIKey(all[i]) != VMIKey(all[j]) {
          if j == |front| { KeysOneMore(front, i); }
        }
        assert Only(vmis, keys) == all;
      } else {
        assert Only(vmis, keys) == front;
      }
    }
  }

  /** The message of the VMI that the run is about to evict. */
  function Answer(s: Snapshot, i: nat): EvictReply {
    Rejected(TooManyRequests, if i < |s.vmis| then EvacuationMessage(s.vmis[i]) else "")
  }

  function Answered(st: State): EvictReply {
    match st.pc
    case Preparing(ConfirmFirst(i, _)) => Answer(st.snapshot, i)
    case Revalidating(ConfirmSecond(i, _)) => Answer(st.snapshot, i)
    case Triggering(i, _) => Answer(st.snapshot, i)
    case _ => Accepted
  }

  /**
   A cluster that shows `first`, then those of `vmis` not asked to move, and `left` at the final relist; `limits` is
   what it answers about its migration limit.
   */
  datatype Script = Script(first: Snapshot, vmis: seq<VMIInfo>, left: Snapshot, limits: Reply<seq<Option<int>>>)

  function LauncherInfo(pod: Pod): PodInfo { PodInfo(pod, true, false, false, false, false, false) }

  /** The launchers of the VMIs, as pods of the node. */
  function Launchers(vmis: seq<VMIInfo>): (r: seq<PodInfo>)
    ensures forall p :: p in r ==> p.launcher
  {
    if vmis == [] then []
    else Launchers(vmis[..|vmis| - 1])
         + (if vmis[|vmis| - 1].launcher.Some? then [LauncherInfo(vmis[|vmis| - 1].launcher.value)] else [])
  }

  /** A node with these VMIs and their launchers. */
  function Hosting(vmis: seq<VMIInfo>): Snapshot { NOTHING.(vmis := vmis, pods := Launchers(vmis)) }

  /** What such a cluster shows first is able to migrate, as are `vmis`, and it is quiet in the end. */
  ghost predicate Plausible(sc: Script, opts: Options) {
    && Shows(sc.first, KeySet(sc.first.vmis), opts) && Quiet(sc.left, opts)
    && DistinctKeys(sc.vmis) && (forall v :: v in sc.vmis ==> Confirmable(v) && !v.blocked)
  }

  function Showing(sc: Script, st: State): Snapshot {
    if st.pc == Judging(FinalLook) then sc.left
    else if st.pc == Preparing(FirstLook) then sc.first
    else Hosting(Only(sc.vmis, if st.pc.Observing? then KeySet(sc.vmis) - st.triggered else KeySet(sc.vmis)))
  }

  function Response(sc: Script, st: State): Input {
    Input(false, false, false, Acked, Created, NoLease, Got(0), Got(Showing(sc, st)), Got([]), Answered(st),
          sc.limits, _ => Gone)
  }

  function Responding(sc: Script): State -> Input { (st: State) => Response(sc, st) }

  lemma ContainsItself(s: string)
    ensures Contains(s, s)
  {
    assert OccursAt(s, s, 0);
  }

  lemma AnswerAccepted(s: Snapshot, i: nat)
    requires i < |s.vmis|
    ensures EvacuationAccepted(Answer(s, i), s.vmis[i])
  {
    ContainsItself(EvacuationMessage(s.vmis[i]));
  }

  lemma ShowingShows(vmis: seq<VMIInfo>, keys: set<string>, opts: Options)
    requires DistinctKeys(vmis) && (forall v :: v in vmis ==> Confirmable(v) && !v.blocked) && keys <= KeySet(vmis)
    ensures Shows(Hosting(Only(vmis, keys)), keys, opts)
    ensures Emptied(Hosting(Only(vmis, keys)), opts)
  {
    hide DistinctKeys, Confirmable;
    OnlyExact(vmis, keys);
    assert KeySet(vmis) * keys == keys;
  }

  lemma ResponseHelps(cfg: Config, sc: Script, st: State)
    requires Plausible(sc, cfg.opts)
    ensures Helps(cfg, KeySet(sc.vmis), sc.limits, st, Response(sc, st))
  {
    hide Shows, Emptied, KeySet, EvacuationAccepted, EvacuationMessage, Quiet, DistinctKeys, Confirmable, Only;
    ShowingShows(sc.vmis, KeySet(sc.vmis), cfg.opts);
    ShowingShows(sc.vmis, KeySet(sc.vmis) - st.triggered, cfg.opts);
    match st.pc
    case Preparing(ConfirmFirst(i, _)) => if i < |st.snapshot.vmis| { AnswerAccepted(st.snapshot, i); }
    case Revalidating(ConfirmSecond(i, _)) => if i < |st.snapshot.vmis| { AnswerAccepted(st.snapshot, i); }
    case Triggering(i, _) => if i < |st.snapshot.vmis| { AnswerAccepted(st.snapshot, i); }
    case _ =>
  }

  /** For any VMIs that can migrate there is a co-operative cluster, whatever quiet snapshot the relist shows. */
  lemma CooperationExists(cfg: Config, sc: Script)
    requires ValidOptions(cfg.opts) && Plausible(sc, cfg.opts)
    ensures Cooperative(cfg, KeySet(sc.vmis), sc.limits, Responses(cfg, Responding(sc)))
  {
    hide StateAt, ClosedRun, Response, Helps, Plausible;
    var inputs := Responses(cfg, Responding(sc));
    forall t: nat ensures Helps(cfg, KeySet(sc.vmis), sc.limits, StateAt(cfg, inputs, t), inputs(t)) {
      ClosedRunIsRun(cfg, Responding(sc), t);
      ResponseHelps(cfg, sc, ClosedRun(cfg, Responding(sc), t));
    }
  }

  /**
   Success does not mean that the final relist passed preflight: whatever quiet snapshot it shows, some run
   succeeds on it. With `QuietLeavesOnlyIgnored`, the node then holds only ignored pods exactly when the
   relist would have passed preflight.
   */
  lemma FinalRelistIsNotRechecked(cfg: Config, left: Snapshot) returns (inputs: nat -> Input, t: nat)
    requires ValidOptions(cfg.opts) && Quiet(left, cfg.opts)
    ensures var tr := StateAt(cfg, inputs, t).trace;
            && StateAt(cfg, inputs, t).pc == Done(None)
            && tr.Then? && tr.past.Then? && tr.past.ev == Observed(Final, left)
  {
    hide StateAt, Quiet, Cooperative;
    var sc := Script(NOTHING, [], left, Lost);
    NothingShows(cfg.opts);
    inputs := Responses(cfg, Responding(sc));
    CooperationExists(cfg, sc);
    var last;
    t, last := BoundedProgress(cfg, KeySet([]), Lost, inputs);
    ClosedRunIsRun(cfg, Responding(sc), last);
  }

  lemma NothingShows(opts: Options)
    ensures Shows(NOTHING, KeySet(NOTHING.vmis), opts) && Quiet(NOTHING, opts)
  {}

  /** A pod that looks like a launcher, hosts no VMI, and would not be left alone. */
  predicate Stray(pod: Pod) { Selection.LooksLikeLauncher(pod) && !Selection.Stays(pod) }

  /** A node without VMIs and migrations, and with one such pod. */
  predicate StrayView(view: Snapshots.View) {
    && view.vmis == [] && view.migrations == []
    && |view.pods| == 1 && view.pods[0].nodeName == view.node.name && Stray(view.pods[0])
  }

  /** However such a pod is classified, its snapshot is quiet and fails preflight. */
  lemma QuietYetBlocked(view: Snapshots.View, look: Snapshots.Lookups, left: Snapshot, opts: Options)
    requires StrayView(view) && Snapshots.Depicts(left, view, look)
    ensures Quiet(left, opts) && !Preflighted(left, opts)
  {
    hide Selection.LooksLikeLauncher, Selection.Stays, Snapshots.Describes;
    assert Snapshots.PodsOn(view.pods, view.node.name) == [view.pods[0]] by {
      assert view.pods[..0] == [];
    }
    assert Snapshots.VMIsOn(view.vmis, view.node.name) == [];
    assert |multiset(Snapshots.VMIsIn(left.vmis))| == |left.vmis|;
    var info := left.pods[0];
    assert Selection.Classified(info, view.pods[0], Snapshots.AttachmentsOf([]), []);
    assert info in left.pods && info.unverifiedLauncher && !Exempt(info);
    assert forall p :: p in left.pods ==> p == info;
  }

  /** What the node is seen to hold then. */
  function StraySnapshot(view: Snapshots.View): Snapshot
    requires StrayView(view)
  {
    var emptyDir := true in view.pods[0].emptyDirVolumes;
    Snapshot(view.node.uid, view.node.unschedulable, [], [],
             [PodInfo(view.pods[0], false, true, false, false, false, emptyDir)])
  }

  lemma StrayDepicted(view: Snapshots.View, look: Snapshots.Lookups)
    requires StrayView(view)
    ensures Snapshots.Depicts(StraySnapshot(view), view, look)
  {
    hide Selection.LooksLikeLauncher, Selection.Stays, Selection.HasController, Snapshots.Describes;
    assert view.pods[..0] == [];
    assert Snapshots.PodsOn(view.pods, view.node.name) == [view.pods[0]];
    assert Snapshots.VMIsIn([]) == [];
    assert Selection.Under([], Lookup(view.pods[0].labels, Selection.CREATED_BY)) == None;
  }

  /**
   A drain succeeds although its final relist, a true picture of the node, shows a pod that preflight rejects: one
   that looks like a launcher and cannot be attributed to any VMI.
   */
  lemma SucceedsWithStrayLauncher(cfg: Config, view: Snapshots.View, look: Snapshots.Lookups)
    returns (left: Snapshot, inputs: nat -> Input, t: nat)
    requires ValidOptions(cfg.opts) && StrayView(view)
    ensures Snapshots.Depicts(left, view, look) && !Preflighted(left, cfg.opts)
    ensures var tr := StateAt(cfg, inputs, t).trace;
            && StateAt(cfg, inputs, t).pc == Done(None)
            && tr.Then? && tr.past.Then? && tr.past.ev == Observed(Final, left)
  {
    hide StateAt, Snapshots.Depicts, StrayView, Quiet, Preflighted;
    left := StraySnapshot(view);
    StrayDepicted(view, look);
    QuietYetBlocked(view, look, left, cfg.opts);
    inputs, t := FinalRelistIsNotRechecked(cfg, left);
  }

  /** There are such pods: one that carries the label of a VMI that is gone. */
  lemma StraysExist(pod: Pod)
    requires Lookup(pod.labels, Selection.CREATED_BY) != "" && Lookup(pod.annotations, Selection.MIRROR) == ""
    requires pod.phase == "Running" && pod.owners == []
    ensures Stray(pod)
  {}

  // ---------------------------------------------------------------- VMIs that leave before the cordon

  /** After the first look, this cluster shows no VMI. */
  lemma {:induction false} NoVMILater(cfg: Config, sc: Script, t: nat)
    requires sc.vmis == [] && sc.left.vmis == []
    ensures UidsIn(ClosedRun(cfg, Responding(sc), t).trace) == {}
  {
    hide Step;
    if t > 0 {
      NoVMILater(cfg, sc, t - 1);
      NoVMIStep(cfg, sc, ClosedRun(cfg, Responding(sc), t - 1));
    }
  }

  lemma NoVMIStep(cfg: Config, sc: Script, st: State)
    requires sc.vmis == [] && sc.left.vmis == [] && UidsIn(st.trace) == {}
    ensures UidsIn(Step(cfg, st, Response(sc, st)).trace) == {}
  {
    WritesStep(cfg, st, Response(sc, st));
    if st.pc == Preparing(FirstLook) {
      hide ExitPc, Preflighted;
    } else {
      hide Step;
    }
  }

  /**
   A VMI that was on the node at the first look, but no longer after the cordon, is never verified: such a run
   succeeds whatever became of it.
   */
  lemma EarlyLeaversGoUnverified(cfg: Config, first: Snapshot) returns (inputs: nat -> Input, t: nat)
    requires ValidOptions(cfg.opts) && Shows(first, KeySet(first.vmis), cfg.opts)
    ensures StateAt(cfg, inputs, 2).pc == Preparing(FirstLook) && inputs(2).snap == Got(first)
    ensures StateAt(cfg, inputs, t).pc == Done(None)
    ensures var tr := StateAt(cfg, inputs, t).trace;
            && tr.Then? && tr.past.Then? && tr.past.past.Then? && tr.past.past.ev == Verified(map[])
  {
    hide StateAt, ClosedRun, Cooperative, Shows, Quiet, Success.SoundHistory;
    var sc := Script(first, [], NOTHING, Lost);
    NothingShows(cfg.opts);
    inputs := Responses(cfg, Responding(sc));
    CooperationExists(cfg, sc);
    FirstSteps(cfg, KeySet([]), Lost, inputs);
    ClosedRunIsRun(cfg, Responding(sc), 2);
    var last;
    t, last := BoundedProgress(cfg, KeySet([]), Lost, inputs);
    ClosedRunIsRun(cfg, Responding(sc), t);
    NoVMILater(cfg, sc, t);
    Success.VerifiesWhatItSawLater(cfg, inputs, t);
  }
}
