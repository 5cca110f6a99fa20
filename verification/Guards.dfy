/**
 What each cordon and each eviction of a run had before it, spelled out on the snapshot and on the answers: no
 statement here uses a test of the program.
 */
module Guards {
  import opened Common
  import opened Kube
  import opened Machine
  import opened History
  import opened Safety
  import opened Rounds
  import opened Meaning

  /** Some active migration of the snapshot is the VMI's. */
  predicate Migrates(s: Snapshot, v: VMIInfo) {
    exists m :: m in s.migrations && m.active && m.namespace + "/" + m.vmiName == v.vmi.namespace + "/" + v.vmi.name
  }

  /** The VMI has a launcher, under a budget of KubeVirt's that allows no disruption. */
  predicate Protected(v: VMIInfo) {
    v.launcher.Some? && exists b :: b in v.launcherPDBs && b.kubeVirtOwned && b.disruptionsAllowed == 0
  }

  /** Nothing in the snapshot is a hard blocker under these options. */
  predicate Unblocked(s: Snapshot, opts: Options) {
    && (forall v :: v in s.vmis ==> !v.blocked)
    && forall p :: p in s.pods ==>
         || p.launcher || p.hotplug || p.ignored
         || (!p.unverifiedLauncher && (p.managed || opts.force) && (!p.emptyDir || opts.deleteEmptyDirData))
  }

  /**
   Each launcher eviction of each run directly follows a dry run of the same VMI that drew KubeVirt's words for that
   VMI; the VMI is in the latest snapshot, which has no blocker, it is protected, and nothing migrates it.
   */
  lemma LauncherEvictionGuard(cfg: Config, inputs: nat -> Input, t: nat, past: Trace, ev: Event)
    requires Earlier(Then(past, ev), StateAt(cfg, inputs, t).trace) && ev.Triggered?
    ensures past.Then? && past.ev.DryRun? && past.ev.vmi == ev.vmi && Confirms(past.ev.reply, ev.vmi)
    ensures LastSeen(past).Some?
    ensures var s := LastSeen(past).value;
            Unblocked(s, cfg.opts) && ev.vmi in s.vmis && Protected(ev.vmi) && !Migrates(s, ev.vmi)
    ensures ev.grace == -1
  {
    hide StateAt, SeenAgain, CordonSettled, Has;
    EveryEventAllowed(cfg, inputs, t, past, ev);
    TriggerSpelled(cfg, past, ev.vmi, ev.grace);
  }

  lemma TriggerSpelled(cfg: Config, past: Trace, v: VMIInfo, grace: int)
    requires MayTrigger(cfg, past, v, grace)
    ensures past.Then? && past.ev.DryRun? && past.ev.vmi == v && Confirms(past.ev.reply, v) && LastSeen(past).Some?
    ensures var s := LastSeen(past).value; Unblocked(s, cfg.opts) && v in s.vmis && Protected(v) && !Migrates(s, v)
    ensures grace == -1
  {
    hide SeenAgain, CordonSettled;
    var s := LastSeen(past).value;
    ConfirmsIs(past.ev.reply, v);
    PreflightIs(s, cfg.opts);
    ConfirmableIs(v);
    MigratingIs(s.migrations, v.vmi.namespace + "/" + v.vmi.name);
    hide EvacuationAccepted, Confirms, Preflighted, Confirmable, ActiveKeys;
  }

  /** Each pod eviction hits a pod of the latest snapshot, which has no blocker, and one that the options let go. */
  lemma PodEvictionGuard(cfg: Config, inputs: nat -> Input, t: nat, past: Trace, ev: Event)
    requires Earlier(Then(past, ev), StateAt(cfg, inputs, t).trace) && ev.Evicted?
    ensures LastSeen(past).Some? && Unblocked(LastSeen(past).value, cfg.opts) && ev.pod in LastSeen(past).value.pods
    ensures !ev.pod.launcher && !ev.pod.hotplug && !ev.pod.ignored && !ev.pod.unverifiedLauncher
    ensures (cfg.opts.force || ev.pod.managed) && (cfg.opts.deleteEmptyDirData || !ev.pod.emptyDir)
    ensures ev.grace == cfg.opts.gracePeriod
  {
    hide StateAt, SeenAgain, CordonSettled, Has;
    EveryEventAllowed(cfg, inputs, t, past, ev);
    PreflightIs(LastSeen(past).value, cfg.opts);
    EligibleIs(ev.pod, cfg.opts);
  }

  /** Somewhere in the history a dry run of the VMI drew KubeVirt's words for it. */
  ghost predicate Sounded(tr: Trace, v: VMIInfo) {
    tr.Then? && ((tr.ev.DryRun? && tr.ev.vmi == v && Confirms(tr.ev.reply, v)) || Sounded(tr.past, v))
  }

  lemma {:induction false} SoundedIs(tr: Trace, v: VMIInfo)
    requires AnsweredSince(tr, v)
    ensures Sounded(tr, v)
  {
    hide EvacuationAccepted, Confirms;
    if tr.ev.DryRun? && tr.ev.vmi == v && EvacuationAccepted(tr.ev.reply, v) {
      ConfirmsIs(tr.ev.reply, v);
    } else {
      SoundedIs(tr.past, v);
    }
  }

  /** The snapshot has no blocker, and each of its VMIs migrates already or was answered for. */
  ghost predicate Sanctioned(cfg: Config, tr: Trace, s: Snapshot) {
    Unblocked(s, cfg.opts) && forall v :: v in s.vmis ==> Migrates(s, v) || Sounded(tr, v)
  }

  lemma RoundSpelled(cfg: Config, tr: Trace, look: Look, s: Snapshot)
    requires InRound(cfg, tr, look, s, |s.vmis|)
    ensures Sanctioned(cfg, tr, s)
  {
    PreflightIs(s, cfg.opts);
    hide Preflighted, ActiveKeys, AnsweredSince, Sounded;
    forall v | v in s.vmis ensures Migrates(s, v) || Sounded(tr, v) {
      var j :| 0 <= j < |s.vmis| && s.vmis[j] == v;
      assert Cleared(tr, s, s.vmis[j]);
      MigratingIs(s.migrations, v.vmi.namespace + "/" + v.vmi.name);
      if AnsweredSince(tr, v) { SoundedIs(tr, v); }
    }
  }

  /** Each cordon follows a first look that showed the node schedulable and was sanctioned. */
  lemma CordonGuard(cfg: Config, inputs: nat -> Input, t: nat, past: Trace, ev: Event)
    requires Earlier(Then(past, ev), StateAt(cfg, inputs, t).trace) && ev.Cordon?
    ensures LastLook(past).Some? && LastLook(past).value.look == Initial
    ensures var s := LastLook(past).value.snap; !s.unschedulable && Sanctioned(cfg, past, s)
  {
    hide StateAt, Allowed, InRound, Sanctioned;
    ChecksComeFirst(cfg, inputs, t, past, ev);
    RoundSpelled(cfg, past, Initial, LastLook(past).value.snap);
    RoundLook(cfg, past, Initial, LastLook(past).value.snap);
  }

  lemma RoundLook(cfg: Config, tr: Trace, look: Look, s: Snapshot)
    requires InRound(cfg, tr, look, s, |s.vmis|)
    ensures LastLook(tr) == Some(Observed(look, s))
  {}

  /** Each eviction follows, at some earlier moment, a sanctioned look after the cordon step. */
  lemma EvictionGuard(cfg: Config, inputs: nat -> Input, t: nat, past: Trace, ev: Event) returns (before: Trace)
    requires Earlier(Then(past, ev), StateAt(cfg, inputs, t).trace) && (ev.Evicted? || ev.Triggered?)
    ensures Earlier(before, past) && LastLook(before).Some? && LastLook(before).value.look == Revalidated
    ensures Sanctioned(cfg, before, LastLook(before).value.snap)
  {
    hide StateAt, Allowed, CheckedTwice, Sanctioned;
    ChecksComeFirst(cfg, inputs, t, past, ev);
    before := FindRound(cfg, past);
  }

  lemma {:induction false} FindRound(cfg: Config, tr: Trace) returns (before: Trace)
    requires CheckedTwice(cfg, tr)
    ensures Earlier(before, tr) && LastLook(before).Some? && LastLook(before).value.look == Revalidated
    ensures Sanctioned(cfg, before, LastLook(before).value.snap)
  {
    hide InRound, Sanctioned;
    if RoundPassed(cfg, tr, Revalidated) {
      RoundSpelled(cfg, tr, Revalidated, LastLook(tr).value.snap);
      RoundLook(cfg, tr, Revalidated, LastLook(tr).value.snap);
      return tr;
    }
    before := FindRound(cfg, tr.past);
  }
}
