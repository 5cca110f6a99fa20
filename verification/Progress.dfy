/**
 How fast a drain ends when the cluster co-operates: a drain of `n` VMIs with limit `L` succeeds in exactly
 ceil(n / L) + 3 observations of its loop.
 */
module Progress {
  import opened Common
  import opened Kube
  import opened Machine
  import opened History
  import opened Triggers

  // ---------------------------------------------------------------- a co-operative cluster

  function KeySet(vmis: seq<VMIInfo>): set<string> { set v | v in vmis :: VMIKey(v) }

  /** The snapshot shows exactly the VMIs `keys`, each once and able to migrate, and nothing moving. */
  ghost predicate Shows(s: Snapshot, keys: set<string>, opts: Options) {
    && DistinctKeys(s.vmis) && KeySet(s.vmis) == keys && (forall v :: v in s.vmis ==> Confirmable(v))
    && CountActive(s.migrations) == 0 && Preflighted(s, opts)
  }

  /** Pods that do not host a VMI are gone, and the VMIs' pods with the last VMI. */
  predicate Emptied(s: Snapshot, opts: Options) {
    && (forall p :: p in s.pods ==> !NormalEligible(p, opts))
    && (s.vmis == [] ==> !HasEligiblePods(s, opts))
  }

  predicate NoNewFailure(s: Snapshot, baseline: set<string>) {
    forall m :: m in s.migrations ==> !Counts(m, baseline)
  }

  predicate Undisturbed(e: Input) { !e.interrupt && !e.deadline && !e.broken && e.ack.Acked? }

  predicate EvacuationAnswered(s: Snapshot, i: nat, e: Input) {
    i < |s.vmis| ==> EvacuationAccepted(e.evict, s.vmis[i])
  }

  /**
   What a co-operative cluster answers at each point: nothing disturbs the run, evictions are answered as
   they should be, the VMIs `vms` are on the node after the cordon, and each one that was asked to migrate has
   moved by the next observation.
   */
  ghost predicate Helps(cfg: Config, vms: set<string>, limits: Reply<seq<Option<int>>>, st: State, e: Input) {
    && Undisturbed(e)
    && match st.pc
       case Acquiring(_) => e.create.Created?
       case Preparing(FirstLook) => e.snap.Got? && Shows(e.snap.value, KeySet(e.snap.value.vmis), cfg.opts)
       case Preparing(ConfirmFirst(i, _)) => EvacuationAnswered(st.snapshot, i, e) && e.listed.Got?
       case Revalidating(SecondLook) => e.snap.Got? && Shows(e.snap.value, vms, cfg.opts)
       case Revalidating(ConfirmSecond(i, _)) => EvacuationAnswered(st.snapshot, i, e)
       case Evicting(_, _, _) => Tolerable(e.evict)
       case Observing(DiscoverLimit) => e.limits == limits
       case Observing(LoopLook) =>
         && e.snap.Got? && Shows(e.snap.value, vms - st.triggered, cfg.opts)
         && Emptied(e.snap.value, cfg.opts) && NoNewFailure(e.snap.value, st.baseline)
       case Triggering(i, _) => EvacuationAnswered(st.snapshot, i, e)
       case Judging(VerifyHotplug) => !SomeUnverifiable(st.tracked, e) && AllSettled(st.tracked, e)
       case Judging(FinalLook) => e.snap.Got? && Quiet(e.snap.value, cfg.opts)
       case Releasing(_, _) => e.lease.NoLease? || (e.lease.Found? && e.lease.holder == Some(cfg.runID))
       case _ => true
  }

  ghost predicate Cooperative(
      cfg: Config, vms: set<string>, limits: Reply<seq<Option<int>>>, inputs: nat -> Input)
  {
    ValidOptions(cfg.opts) && forall t: nat :: Helps(cfg, vms, limits, StateAt(cfg, inputs, t), inputs(t))
  }

  // ---------------------------------------------------------------- before the loop

  /** The VMIs `asked` have been asked to move, each exactly once, and no other. */
  ghost predicate AskedOnce(tr: Trace, asked: set<string>) {
    forall key :: Launches(tr, key) == if key in asked then 1 else 0
  }

  /** Nothing has gone wrong before the loop. */
  ghost predicate Early(st: State) {
    !st.interrupted && st.failedSeen == map[] && LoopSnapshots(st.trace) == [] && AskedOnce(st.trace, {})
  }

  ghost predicate Shown(cfg: Config, st: State, vms: set<string>) {
    Early(st) && Shows(st.snapshot, vms, cfg.opts)
  }

  lemma Helped(cfg: Config, vms: set<string>, limits: Reply<seq<Option<int>>>, inputs: nat -> Input, t: nat)
    requires Cooperative(cfg, vms, limits, inputs)
    ensures Helps(cfg, vms, limits, StateAt(cfg, inputs, t), inputs(t)) && ValidOptions(cfg.opts)
    ensures StateAt(cfg, inputs, t + 1) == Step(cfg, StateAt(cfg, inputs, t), inputs(t))
  {
    hide Helps, Step, StateAt;
    Tick(cfg, inputs, t);
  }

  lemma AcquireStep(cfg: Config, vms: set<string>, limits: Reply<seq<Option<int>>>, st: State, e: Input)
    requires Helps(cfg, vms, limits, st, e) && ValidOptions(cfg.opts) && Early(st)
    requires st.pc == Acquiring(Start) || st.pc == Acquiring(CreateLease)
    ensures Early(Step(cfg, st, e))
    ensures Step(cfg, st, e).pc == if st.pc.acquire.Start? then Acquiring(CreateLease) else Preparing(FirstLook)
  {}

  lemma FirstLookStep(cfg: Config, vms: set<string>, limits: Reply<seq<Option<int>>>, st: State, e: Input)
    requires Helps(cfg, vms, limits, st, e) && Early(st) && st.pc == Preparing(FirstLook)
    ensures Shown(cfg, Step(cfg, st, e), KeySet(e.snap.value.vmis))
    ensures Step(cfg, st, e).pc == Preparing(ConfirmFirst(0, false)) && Step(cfg, st, e).snapshot == e.snap.value
  {
    ShownPasses(e.snap.value, KeySet(e.snap.value.vmis), cfg.opts);
    hide Shows;
  }

  lemma FirstSteps(cfg: Config, vms: set<string>, limits: Reply<seq<Option<int>>>, inputs: nat -> Input)
    requires Cooperative(cfg, vms, limits, inputs)
    ensures StateAt(cfg, inputs, 2).pc == Preparing(FirstLook)
    ensures StateAt(cfg, inputs, 3).pc == Preparing(ConfirmFirst(0, false))
    ensures Shown(cfg, StateAt(cfg, inputs, 3), KeySet(StateAt(cfg, inputs, 3).snapshot.vmis))
  {
    hide Helps, Cooperative, Step, Shown;
    assert Early(StateAt(cfg, inputs, 0));
    Helped(cfg, vms, limits, inputs, 0);
    AcquireStep(cfg, vms, limits, StateAt(cfg, inputs, 0), inputs(0));
    Helped(cfg, vms, limits, inputs, 1);
    AcquireStep(cfg, vms, limits, StateAt(cfg, inputs, 1), inputs(1));
    Helped(cfg, vms, limits, inputs, 2);
    FirstLookStep(cfg, vms, limits, StateAt(cfg, inputs, 2), inputs(2));
  }

  lemma ShownPasses(s: Snapshot, vms: set<string>, opts: Options)
    requires Shows(s, vms, opts)
    ensures Preflighted(s, opts) && CountActive(s.migrations) == 0
  {}

  /** One dry run of a co-operative round finds nothing wrong. */
  lemma ConfirmsWell(cfg: Config, vms: set<string>, st: State, i: nat, e: Input)
    requires Shows(st.snapshot, vms, cfg.opts) && i < |st.snapshot.vmis| && EvacuationAnswered(st.snapshot, i, e)
    ensures !ConfirmOne(st.snapshot, st.snapshot.vmis[i], e).0
    ensures var sent := ConfirmOne(st.snapshot, st.snapshot.vmis[i], e).1; sent.Some? ==> sent.value.DryRun?
  {
    hide EvacuationAccepted, ActiveKeys;
  }

  lemma FirstConfirmStep(
      cfg: Config, vms: set<string>, limits: Reply<seq<Option<int>>>, st: State, i: nat, e: Input, first: set<string>)
    requires Shown(cfg, st, first) && st.pc == Preparing(ConfirmFirst(i, false)) && i < |st.snapshot.vmis|
    requires Helps(cfg, vms, limits, st, e)
    ensures var after := Step(cfg, st, e);
            && after.pc == Preparing(ConfirmFirst(i + 1, false))
            && Shown(cfg, after, first) && after.snapshot == st.snapshot
  {
    hide Shows, EvacuationAnswered, ConfirmOne;
    ConfirmsWell(cfg, first, st, i, e);
  }

  lemma SecondConfirmStep(
      cfg: Config, vms: set<string>, limits: Reply<seq<Option<int>>>, st: State, i: nat, e: Input)
    requires Shown(cfg, st, vms) && st.pc == Revalidating(ConfirmSecond(i, false)) && i < |st.snapshot.vmis|
    requires Helps(cfg, vms, limits, st, e)
    ensures var after := Step(cfg, st, e);
            after.pc == Revalidating(ConfirmSecond(i + 1, false)) && Shown(cfg, after, vms)
            && after.snapshot == st.snapshot
  {
    hide Shows, EvacuationAnswered, ConfirmOne;
    ConfirmsWell(cfg, vms, st, i, e);
  }

  lemma {:induction false} FirstRound(
      cfg: Config, vms: set<string>, limits: Reply<seq<Option<int>>>, inputs: nat -> Input, t: nat, i: nat,
      first: set<string>)
    returns (t': nat)
    requires Cooperative(cfg, vms, limits, inputs)
    requires var st := StateAt(cfg, inputs, t);
             Shown(cfg, st, first) && st.pc == Preparing(ConfirmFirst(i, false)) && i <= |st.snapshot.vmis|
    ensures var st := StateAt(cfg, inputs, t');
            Shown(cfg, st, first) && st.pc == Preparing(ConfirmFirst(|st.snapshot.vmis|, false))
    decreases |StateAt(cfg, inputs, t).snapshot.vmis| - i
  {
    hide StateAt, Step, Shown, Helps, Cooperative;
    var st := StateAt(cfg, inputs, t);
    if i == |st.snapshot.vmis| { return t; }
    Helped(cfg, vms, limits, inputs, t);
    FirstConfirmStep(cfg, vms, limits, st, i, inputs(t), first);
    t' := FirstRound(cfg, vms, limits, inputs, t + 1, i + 1, first);
  }

  lemma {:induction false} SecondRound(
      cfg: Config, vms: set<string>, limits: Reply<seq<Option<int>>>, inputs: nat -> Input, t: nat, i: nat)
    returns (t': nat)
    requires Cooperative(cfg, vms, limits, inputs)
    requires var st := StateAt(cfg, inputs, t);
             Shown(cfg, st, vms) && st.pc == Revalidating(ConfirmSecond(i, false)) && i <= |st.snapshot.vmis|
    ensures var st := StateAt(cfg, inputs, t');
            Shown(cfg, st, vms) && st.pc == Revalidating(ConfirmSecond(|st.snapshot.vmis|, false))
    decreases |StateAt(cfg, inputs, t).snapshot.vmis| - i
  {
    hide StateAt, Step, Shown, Helps, Cooperative;
    var st := StateAt(cfg, inputs, t);
    if i == |st.snapshot.vmis| { return t; }
    Helped(cfg, vms, limits, inputs, t);
    SecondConfirmStep(cfg, vms, limits, st, i, inputs(t));
    t' := SecondRound(cfg, vms, limits, inputs, t + 1, i + 1);
  }

  /** From the passed dry runs to the second look: baseline, and the cordon if one is needed. */
  lemma ToSecondLook(
      cfg: Config, vms: set<string>, limits: Reply<seq<Option<int>>>, inputs: nat -> Input, t: nat,
      first: set<string>)
    returns (t': nat)
    requires Cooperative(cfg, vms, limits, inputs)
    requires var st := StateAt(cfg, inputs, t);
             Shown(cfg, st, first) && st.pc == Preparing(ConfirmFirst(|st.snapshot.vmis|, false))
    ensures Early(StateAt(cfg, inputs, t')) && StateAt(cfg, inputs, t').pc == Revalidating(SecondLook)
  {
    hide StateAt, Step, Shows, Helps, Cooperative;
    var st := StateAt(cfg, inputs, t);
    Helped(cfg, vms, limits, inputs, t);
    BaselineStep(cfg, vms, limits, st, inputs(t));
    if st.snapshot.unschedulable { return t + 1; }
    Helped(cfg, vms, limits, inputs, t + 1);
    CordonStep(cfg, vms, limits, StateAt(cfg, inputs, t + 1), inputs(t + 1));
    return t + 2;
  }

  lemma BaselineStep(cfg: Config, vms: set<string>, limits: Reply<seq<Option<int>>>, st: State, e: Input)
    requires Helps(cfg, vms, limits, st, e) && Early(st)
    requires st.pc == Preparing(ConfirmFirst(|st.snapshot.vmis|, false))
    ensures Early(Step(cfg, st, e))
    ensures Step(cfg, st, e).pc
            == if st.snapshot.unschedulable then Revalidating(SecondLook) else Preparing(SendCordon)
  {}

  lemma CordonStep(cfg: Config, vms: set<string>, limits: Reply<seq<Option<int>>>, st: State, e: Input)
    requires Helps(cfg, vms, limits, st, e) && Early(st) && st.pc == Preparing(SendCordon)
    ensures Early(Step(cfg, st, e)) && Step(cfg, st, e).pc == Revalidating(SecondLook)
  {}

  lemma SecondLookStep(cfg: Config, vms: set<string>, limits: Reply<seq<Option<int>>>, st: State, e: Input)
    requires Helps(cfg, vms, limits, st, e) && Early(st) && st.pc == Revalidating(SecondLook)
    ensures Shown(cfg, Step(cfg, st, e), vms) && Step(cfg, st, e).pc == Revalidating(ConfirmSecond(0, false))
  {
    ShownPasses(e.snap.value, vms, cfg.opts);
    hide Shows;
  }

  /** The setup pass ends with every eligible pod evicted once. */
  lemma {:induction false} SetupPods(
      cfg: Config, vms: set<string>, limits: Reply<seq<Option<int>>>, inputs: nat -> Input, t: nat)
    returns (t': nat)
    requires Cooperative(cfg, vms, limits, inputs)
    requires var st := StateAt(cfg, inputs, t);
             Shown(cfg, st, vms) && st.pc.Evicting? && st.pc.pass.Setup? && st.pc.pod <= |st.snapshot.pods|
    ensures var st := StateAt(cfg, inputs, t'); Shown(cfg, st, vms) && st.pc == Observing(DiscoverLimit)
    decreases var st := StateAt(cfg, inputs, t); |st.snapshot.pods| - st.pc.pod,
              match StateAt(cfg, inputs, t).pc.evict { case PodPoll => 2 case PodEvict => 1 case PodOutput => 0 }
  {
    hide StateAt, Step, Shown, Helps, Cooperative;
    var st := StateAt(cfg, inputs, t);
    Helped(cfg, vms, limits, inputs, t);
    SetupPodStep(cfg, vms, limits, st, inputs(t));
    t' := t + 1;
    if st.pc.pod < |st.snapshot.pods| { t' := SetupPods(cfg, vms, limits, inputs, t + 1); }
  }

  lemma SetupPodStep(cfg: Config, vms: set<string>, limits: Reply<seq<Option<int>>>, st: State, e: Input)
    requires Shown(cfg, st, vms) && st.pc.Evicting? && st.pc.pass.Setup? && st.pc.pod <= |st.snapshot.pods|
    requires Helps(cfg, vms, limits, st, e)
    ensures var after := Step(cfg, st, e);
            && Shown(cfg, after, vms) && after.snapshot == st.snapshot
            && if st.pc.pod == |st.snapshot.pods| then after.pc == Observing(DiscoverLimit)
               else after.pc.Evicting? && after.pc.pass.Setup?
                    && match st.pc.evict
                       case PodPoll =>
                         after.pc.pod == st.pc.pod + 1 || (after.pc.pod == st.pc.pod && after.pc.evict.PodEvict?)
                       case PodEvict => after.pc.pod == st.pc.pod && after.pc.evict.PodOutput?
                       case PodOutput => after.pc.pod == st.pc.pod + 1
  {
    hide Shows, Tolerable, NormalEligible;
  }

  // ---------------------------------------------------------------- the loop

  /** A healthy run in its loop: `k` observations made, limit `limit`, no failure on the books. */
  ghost predicate Healthy(st: State, limit: int, k: nat) {
    && !st.interrupted && st.failedSeen == map[] && st.limit == limit && |LoopSnapshots(st.trace)| == k
    && AskedOnce(st.trace, st.triggered)
  }

  lemma StartStep(cfg: Config, vms: set<string>, limits: Reply<seq<Option<int>>>, st: State, e: Input)
    requires Helps(cfg, vms, limits, st, e) && Shown(cfg, st, vms) && st.pc == Observing(DiscoverLimit)
    ensures var after := Step(cfg, st, e);
            && after.pc == Observing(LoopTop) && after.triggered == {} && after.empty == 0
            && Healthy(after, EffectiveLimit(DiscoveredLimit(limits), cfg.opts), 0)
  {
    hide Track, DiscoveredLimit, EffectiveLimit;
    NoneActive(st.snapshot.migrations);
  }

  lemma {:induction false} NoneActive(ms: seq<MigrationInfo>)
    requires CountActive(ms) == 0
    ensures (forall m :: m in ms ==> !m.active) && ActiveKeys(ms) == {}
  {
    if ms != [] {
      NoneActive(ms[..|ms| - 1]);
      assert ms == ms[..|ms| - 1] + [ms[|ms| - 1]];
    }
  }

  /** A healthy run that looks at what a co-operative cluster shows of the VMIs not asked to move before `asked`. */
  ghost predicate LookedAt(cfg: Config, vms: set<string>, st: State, asked: set<string>, limit: int, k: nat) {
    Healthy(st, limit, k) && Shows(st.snapshot, vms - asked, cfg.opts) && Emptied(st.snapshot, cfg.opts)
  }

  lemma TopStep(
      cfg: Config, vms: set<string>, limits: Reply<seq<Option<int>>>, st: State, e: Input, limit: int, k: nat)
    requires Helps(cfg, vms, limits, st, e) && Healthy(st, limit, k) && st.pc == Observing(LoopTop)
    ensures Step(cfg, st, e) == st.(pc := Observing(LoopLook))
  {}

  lemma LookStep(
      cfg: Config, vms: set<string>, limits: Reply<seq<Option<int>>>, st: State, e: Input, limit: int, k: nat)
    requires Helps(cfg, vms, limits, st, e) && Healthy(st, limit, k) && st.pc == Observing(LoopLook)
    ensures var after := Step(cfg, st, e);
            && after.pc == Observing(Account) && after.triggered == st.triggered && after.empty == st.empty
            && LookedAt(cfg, vms, after, st.triggered, limit, k + 1) && NoNewFailure(after.snapshot, after.baseline)
  {
    ShownPasses(e.snap.value, vms - st.triggered, cfg.opts);
    hide Shows, Emptied, Track, NoNewFailure;
  }

  lemma AccountStep(
      cfg: Config, vms: set<string>, limits: Reply<seq<Option<int>>>, st: State, e: Input, limit: int, k: nat)
    requires Helps(cfg, vms, limits, st, e) && st.pc == Observing(Account) && ValidOptions(cfg.opts)
    requires LookedAt(cfg, vms, st, st.triggered, limit, k) && NoNewFailure(st.snapshot, st.baseline)
    ensures Step(cfg, st, e) == st.(pc := Evicting(Loop, 0, PodPoll))
  {
    hide Shows, Emptied, Track, Counts;
    NothingNew(st.snapshot.migrations, st.baseline);
  }

  lemma NothingNew(ms: seq<MigrationInfo>, baseline: set<string>)
    requires forall m :: m in ms ==> !Counts(m, baseline)
    ensures MergeFailed(map[], ms, baseline) == map[] && NewlyFailed(map[], ms, baseline) == {}
  {
    hide Counts;
    assert FailedKeys(ms, baseline) == {};
  }

  lemma LoopPodStep(
      cfg: Config, vms: set<string>, limits: Reply<seq<Option<int>>>, st: State, e: Input, limit: int, k: nat, i: nat)
    requires Helps(cfg, vms, limits, st, e) && st.pc == Evicting(Loop, i, PodPoll) && i <= |st.snapshot.pods|
    requires LookedAt(cfg, vms, st, st.triggered, limit, k)
    ensures Step(cfg, st, e)
         == if i < |st.snapshot.pods| then st.(pc := Evicting(Loop, i + 1, PodPoll))
            else st.(pc := Triggering(0, TriggerPoll), outstanding := 0, passStart := 0, active := {})
  {
    hide NormalEligible, Tolerable;
    if i < |st.snapshot.pods| {
      assert st.snapshot.pods[i] in st.snapshot.pods;
    } else {
      NoneActive(st.snapshot.migrations);
      NonePending(st.snapshot.vmis, st.triggered);
      assert st.triggered - {} == st.triggered;
    }
  }

  lemma {:induction false} NonePending(vmis: seq<VMIInfo>, keys: set<string>)
    requires forall v :: v in vmis ==> VMIKey(v) !in keys
    ensures CountIn(vmis, keys) == 0
  {
    if vmis != [] { NonePending(vmis[..|vmis| - 1], keys); }
  }

  lemma {:induction false} LoopPods(
      cfg: Config, vms: set<string>, limits: Reply<seq<Option<int>>>, inputs: nat -> Input, t: nat, limit: int, k: nat,
      i: nat)
    returns (t': nat)
    requires Cooperative(cfg, vms, limits, inputs)
    requires var st := StateAt(cfg, inputs, t);
             && st.pc == Evicting(Loop, i, PodPoll) && i <= |st.snapshot.pods|
             && LookedAt(cfg, vms, st, st.triggered, limit, k)
    ensures StateAt(cfg, inputs, t') == StateAt(cfg, inputs, t).(
              pc := Triggering(0, TriggerPoll), outstanding := 0, passStart := 0, active := {})
    decreases |StateAt(cfg, inputs, t).snapshot.pods| - i
  {
    hide StateAt, Step, Shows, Emptied, Helps, Cooperative;
    var st := StateAt(cfg, inputs, t);
    Helped(cfg, vms, limits, inputs, t);
    LoopPodStep(cfg, vms, limits, st, inputs(t), limit, k, i);
    t' := t + 1;
    if i < |st.snapshot.pods| { t' := LoopPods(cfg, vms, limits, inputs, t + 1, limit, k, i + 1); }
  }

  // ---------------------------------------------------------------- the trigger pass

  function Min(a: int, b: int): int { if a < b then a else b }

  /** After the first `i` VMIs of the pass, the first `limit` of them have been asked to move. */
  ghost predicate Asking(
      cfg: Config, vms: set<string>, st: State, asked: set<string>, limit: int, k: nat, i: nat)
  {
    && LookedAt(cfg, vms, st, asked, limit, k) && limit >= 1 && i <= |st.snapshot.vmis|
    && st.active == {} && st.outstanding == Min(i, limit)
    && st.triggered == asked + KeySet(st.snapshot.vmis[..Min(i, limit)])
  }

  lemma KeysOneMore(vmis: seq<VMIInfo>, i: nat)
    requires i < |vmis|
    ensures KeySet(vmis[..i + 1]) == KeySet(vmis[..i]) + {VMIKey(vmis[i])}
    ensures DistinctKeys(vmis) ==> VMIKey(vmis[i]) !in KeySet(vmis[..i])
    ensures VMIKey(vmis[i]) in KeySet(vmis)
  {
    hide VMIKey;
    assert vmis[..i + 1] == vmis[..i] + [vmis[i]];
    assert vmis[i] in vmis;
    forall v | v in vmis[..i + 1] ensures v in vmis[..i] || v == vmis[i] {}
    forall v | v in vmis[..i] ensures v in vmis[..i + 1] {}
  }

  /** One VMI of the pass: asked below the limit, passed over at it. */
  lemma AskStep(
      cfg: Config, vms: set<string>, limits: Reply<seq<Option<int>>>, st: State, e: Input, asked: set<string>,
      limit: int, k: nat, i: nat)
    requires Helps(cfg, vms, limits, st, e) && st.pc.Triggering? && st.pc.vmi == i
    requires Asking(cfg, vms, st, asked, limit, k, i) && i < |st.snapshot.vmis|
    requires !st.pc.trigger.TriggerPoll? ==> i < limit
    ensures var after := Step(cfg, st, e);
            && after.snapshot == st.snapshot && after.empty == st.empty
            && match st.pc.trigger
               case TriggerPoll =>
                 if i < limit then
                   after.pc == Triggering(i, TriggerDryRun) && Asking(cfg, vms, after, asked, limit, k, i)
                 else after.pc == Triggering(i + 1, TriggerPoll) && Asking(cfg, vms, after, asked, limit, k, i + 1)
               case TriggerDryRun =>
                 after.pc == Triggering(i, TriggerEvict) && Asking(cfg, vms, after, asked, limit, k, i)
               case TriggerEvict =>
                 after.pc == Triggering(i + 1, TriggerPoll) && Asking(cfg, vms, after, asked, limit, k, i + 1)
  {
    hide EvacuationAccepted, VerifiedPDB, VMIKey, Emptied, KeySet, CountActive, DistinctKeys, PodSafe;
    KeysOneMore(st.snapshot.vmis, i);
    assert st.snapshot.vmis[i] in st.snapshot.vmis;
    match st.pc.trigger
    case TriggerPoll =>
    case TriggerDryRun =>
    case TriggerEvict =>
  }

  lemma {:induction false} AskAll(
      cfg: Config, vms: set<string>, limits: Reply<seq<Option<int>>>, inputs: nat -> Input, t: nat, asked: set<string>,
      limit: int, k: nat, i: nat, at: TriggerPc, n: nat)
    returns (t': nat)
    requires Cooperative(cfg, vms, limits, inputs)
    requires var st := StateAt(cfg, inputs, t);
             && st.pc == Triggering(i, at) && Asking(cfg, vms, st, asked, limit, k, i) && n == |st.snapshot.vmis|
    requires at.TriggerPoll? || (i < limit && i < n)
    ensures var st := StateAt(cfg, inputs, t');
            && st.pc == Judging(Judge) && st.empty == StateAt(cfg, inputs, t).empty
            && Asking(cfg, vms, st, asked, limit, k, n) && n == |st.snapshot.vmis|
    decreases n - i, match at { case TriggerPoll => 2 case TriggerDryRun => 1 case TriggerEvict => 0 }
  {
    hide StateAt, Step, LookedAt, Helps, Cooperative, KeySet;
    var st := StateAt(cfg, inputs, t);
    Helped(cfg, vms, limits, inputs, t);
    if i < n {
      AskStep(cfg, vms, limits, st, inputs(t), asked, limit, k, i);
      var next := StateAt(cfg, inputs, t + 1).pc;
      t' := AskAll(cfg, vms, limits, inputs, t + 1, asked, limit, k, next.vmi, next.trigger, n);
    } else {
      AskedStep(cfg, vms, st, inputs(t), asked, limit, k);
      t' := t + 1;
    }
  }

  lemma AskedStep(
      cfg: Config, vms: set<string>, st: State, e: Input, asked: set<string>, limit: int, k: nat)
    requires st.pc.Triggering? && st.pc.vmi == |st.snapshot.vmis|
    requires Asking(cfg, vms, st, asked, limit, k, |st.snapshot.vmis|)
    ensures Step(cfg, st, e) == st.(pc := Judging(Judge))
    ensures Asking(cfg, vms, Step(cfg, st, e), asked, limit, k, |st.snapshot.vmis|)
  {
    hide Shows, Emptied, KeySet;
  }

  // ---------------------------------------------------------------- one observation

  lemma {:induction false} DistinctCount(vmis: seq<VMIInfo>)
    requires DistinctKeys(vmis)
    ensures |KeySet(vmis)| == |vmis|
  {
    if vmis != [] {
      var n := |vmis| - 1;
      DistinctCount(vmis[..n]);
      KeysOneMore(vmis, n);
      assert vmis[..n + 1] == vmis;
    }
  }

  /** What is left of `vms` once the first `j` listed VMIs have been asked as well. */
  lemma LeftOver(vms: set<string>, asked: set<string>, vmis: seq<VMIInfo>, j: nat)
    requires DistinctKeys(vmis) && KeySet(vmis) == vms - asked && j <= |vmis|
    ensures |vms - asked| == |vmis|
    ensures |vms - (asked + KeySet(vmis[..j]))| == |vmis| - j && KeySet(vmis[..j]) <= vms
  {
    hide VMIKey;
    DistinctCount(vmis);
    DistinctCount(vmis[..j]);
    forall v | v in vmis[..j] ensures v in vmis {}
    assert KeySet(vmis[..j]) <= KeySet(vmis);
    assert vms - (asked + KeySet(vmis[..j])) == KeySet(vmis) - KeySet(vmis[..j]);
  }

  /** How many VMIs are left to ask after one observation. */
  function Rest(left: nat, limit: int): nat { if 0 <= limit <= left then left - limit else 0 }

  /** How many quiet snapshots in a row there are after one more observation. */
  function Quiets(left: nat, empty: nat): nat { if left == 0 then empty + 1 else 0 }

  /** The loop between two observations, with `left` VMIs not asked to move and `empty` quiet snapshots so far. */
  ghost predicate Between(vms: set<string>, st: State, limit: int, k: nat, left: nat, empty: nat) {
    Healthy(st, limit, k) && limit >= 1 && st.triggered <= vms && |vms - st.triggered| == left && st.empty == empty
  }

  lemma QuietWithoutVMIs(
      cfg: Config, vms: set<string>, st: State, asked: set<string>, limit: int, k: nat)
    requires LookedAt(cfg, vms, st, asked, limit, k)
    ensures Quiet(st.snapshot, cfg.opts) <==> st.snapshot.vmis == []
  {
    hide KeySet, DistinctKeys, HasEligiblePods, AskedOnce;
  }

  lemma JudgeStep(
      cfg: Config, vms: set<string>, st: State, e: Input, asked: set<string>, limit: int, k: nat)
    requires st.pc == Judging(Judge) && Asking(cfg, vms, st, asked, limit, k, |st.snapshot.vmis|) && asked <= vms
    ensures var after, left := Step(cfg, st, e), |vms - asked|;
            && after.pc == (if after.empty >= 3 then Judging(VerifyHotplug) else Judging(Sleep))
            && Between(vms, after, limit, k, Rest(left, limit), Quiets(left, st.empty))
  {
    hide Step, KeySet, Emptied, DistinctKeys, AskedOnce, Confirmable, Preflighted, CountActive;
    JudgeMove(cfg, vms, st, e, asked, limit, k);
    LeftAfterPass(vms, st, asked, limit);
  }

  lemma LeftAfterPass(vms: set<string>, st: State, asked: set<string>, limit: int)
    requires DistinctKeys(st.snapshot.vmis) && KeySet(st.snapshot.vmis) == vms - asked && asked <= vms && limit >= 1
    requires st.triggered == asked + KeySet(st.snapshot.vmis[..Min(|st.snapshot.vmis|, limit)])
    ensures |vms - asked| == |st.snapshot.vmis|
    ensures st.triggered <= vms && |vms - st.triggered| == Rest(|vms - asked|, limit)
  {
    hide KeySet, DistinctKeys;
    LeftOver(vms, asked, st.snapshot.vmis, Min(|st.snapshot.vmis|, limit));
  }

  lemma JudgeMove(cfg: Config, vms: set<string>, st: State, e: Input, asked: set<string>, limit: int, k: nat)
    requires st.pc == Judging(Judge) && LookedAt(cfg, vms, st, asked, limit, k)
    ensures var n := Quiets(|st.snapshot.vmis|, st.empty);
            Step(cfg, st, e) == st.(empty := n, pc := if n >= 3 then Judging(VerifyHotplug) else Judging(Sleep))
  {
    QuietWithoutVMIs(cfg, vms, st, asked, limit, k);
    hide LookedAt, Quiet, CountActive, StepAcquire, StepPrepare, StepRevalidate, StepPods, StepObserve, StepTrigger,
      StepRestore, StepRelease;
    assert !st.interrupted by { assert Healthy(st, limit, k) by { ViewsHealthy(cfg, vms, st, asked, limit, k); } }
  }

  lemma ViewsHealthy(cfg: Config, vms: set<string>, st: State, asked: set<string>, limit: int, k: nat)
    requires LookedAt(cfg, vms, st, asked, limit, k)
    ensures Healthy(st, limit, k)
  {}

  /** One observation asks up to `limit` more VMIs to move, or counts one more quiet snapshot. */
  lemma Observation(
      cfg: Config, vms: set<string>, limits: Reply<seq<Option<int>>>, inputs: nat -> Input, t: nat, limit: int, k: nat,
      left: nat, empty: nat)
    returns (t': nat)
    requires Cooperative(cfg, vms, limits, inputs)
    requires StateAt(cfg, inputs, t).pc == Observing(LoopTop)
    requires Between(vms, StateAt(cfg, inputs, t), limit, k, left, empty)
    ensures var st := StateAt(cfg, inputs, t');
            && st.pc == (if st.empty >= 3 then Judging(VerifyHotplug) else Judging(Sleep))
            && Between(vms, st, limit, k + 1, Rest(left, limit), Quiets(left, empty))
  {
    hide StateAt, Step, Shows, Emptied, Helps, Cooperative, KeySet, NoNewFailure, AskedOnce;
    Helped(cfg, vms, limits, inputs, t);
    TopStep(cfg, vms, limits, StateAt(cfg, inputs, t), inputs(t), limit, k);
    Helped(cfg, vms, limits, inputs, t + 1);
    LookStep(cfg, vms, limits, StateAt(cfg, inputs, t + 1), inputs(t + 1), limit, k);
    Helped(cfg, vms, limits, inputs, t + 2);
    AccountStep(cfg, vms, limits, StateAt(cfg, inputs, t + 2), inputs(t + 2), limit, k + 1);
    var u := LoopPods(cfg, vms, limits, inputs, t + 3, limit, k + 1, 0);
    var asked := StateAt(cfg, inputs, u).triggered;
    NobodyAsked(StateAt(cfg, inputs, u).snapshot.vmis, asked);
    var n := |StateAt(cfg, inputs, u).snapshot.vmis|;
    var w := AskAll(cfg, vms, limits, inputs, u, asked, limit, k + 1, 0, TriggerPoll, n);
    Helped(cfg, vms, limits, inputs, w);
    JudgeStep(cfg, vms, StateAt(cfg, inputs, w), inputs(w), asked, limit, k + 1);
    t' := w + 1;
  }

  lemma NobodyAsked(vmis: seq<VMIInfo>, asked: set<string>)
    ensures asked == asked + KeySet(vmis[..0])
  {}

  lemma SleepStep(cfg: Config, vms: set<string>, limits: Reply<seq<Option<int>>>, st: State, e: Input)
    requires Helps(cfg, vms, limits, st, e) && st.pc == Judging(Sleep)
    ensures Step(cfg, st, e) == st.(pc := Observing(LoopTop), interrupted := st.interrupted)
  {}

  /** The run's last observation was the final relist that input `u` answered. */
  ghost predicate EndsOnRelist(cfg: Config, inputs: nat -> Input, st: State, u: nat) {
    && StateAt(cfg, inputs, u).pc == Judging(FinalLook) && inputs(u).snap.Got?
    && st.trace.Then? && st.trace.past.Then? && st.trace.past.ev == Observed(Final, inputs(u).snap.value)
  }

  /** Three quiet snapshots are the end. */
  lemma Finish(
      cfg: Config, vms: set<string>, limits: Reply<seq<Option<int>>>, inputs: nat -> Input, t: nat, limit: int, k: nat)
    returns (t': nat, u: nat)
    requires Cooperative(cfg, vms, limits, inputs)
    requires StateAt(cfg, inputs, t).pc == Judging(VerifyHotplug) && Healthy(StateAt(cfg, inputs, t), limit, k)
    ensures StateAt(cfg, inputs, t').pc == Done(None) && |LoopSnapshots(StateAt(cfg, inputs, t').trace)| == k
    ensures AskedOnce(StateAt(cfg, inputs, t').trace, StateAt(cfg, inputs, t).triggered)
    ensures EndsOnRelist(cfg, inputs, StateAt(cfg, inputs, t'), u)
  {
    hide StateAt, Step, Helps, Cooperative;
    Helped(cfg, vms, limits, inputs, t);
    VerifyStep(cfg, vms, limits, StateAt(cfg, inputs, t), inputs(t), limit, k);
    Helped(cfg, vms, limits, inputs, t + 1);
    RelistStep(cfg, vms, limits, StateAt(cfg, inputs, t + 1), inputs(t + 1), limit, k);
    Helped(cfg, vms, limits, inputs, t + 2);
    ReleaseStep(cfg, vms, limits, StateAt(cfg, inputs, t + 2), inputs(t + 2), limit, k);
    if StateAt(cfg, inputs, t + 3).pc.Done? { return t + 3, t + 1; }
    Helped(cfg, vms, limits, inputs, t + 3);
    ReleaseStep(cfg, vms, limits, StateAt(cfg, inputs, t + 3), inputs(t + 3), limit, k);
    return t + 4, t + 1;
  }

  lemma VerifyStep(
      cfg: Config, vms: set<string>, limits: Reply<seq<Option<int>>>, st: State, e: Input, limit: int, k: nat)
    requires Helps(cfg, vms, limits, st, e) && Healthy(st, limit, k) && st.pc == Judging(VerifyHotplug)
    ensures Step(cfg, st, e).triggered == st.triggered
    ensures Healthy(Step(cfg, st, e), limit, k) && Step(cfg, st, e).pc == Judging(FinalLook)
  {
    hide AllSettled, SomeUnverifiable;
  }

  lemma RelistStep(
      cfg: Config, vms: set<string>, limits: Reply<seq<Option<int>>>, st: State, e: Input, limit: int, k: nat)
    requires Helps(cfg, vms, limits, st, e) && Healthy(st, limit, k) && st.pc == Judging(FinalLook)
    ensures Step(cfg, st, e).triggered == st.triggered
    ensures Healthy(Step(cfg, st, e), limit, k) && Step(cfg, st, e).pc == Releasing(None, None)
    ensures e.snap.Got? && Step(cfg, st, e).trace == Then(st.trace, Observed(Final, e.snap.value))
  {
    hide Quiet, Track;
  }

  lemma ReleaseStep(
      cfg: Config, vms: set<string>, limits: Reply<seq<Option<int>>>, st: State, e: Input, limit: int, k: nat)
    requires Helps(cfg, vms, limits, st, e) && Healthy(st, limit, k) && st.pc.Releasing? && st.pc.leaving.None?
    ensures Step(cfg, st, e).triggered == st.triggered
    ensures var after := Step(cfg, st, e);
            && Healthy(after, limit, k)
            && (after.pc == Done(None)
                || (st.pc.lease.None? && after.pc.Releasing? && after.pc.leaving.None? && after.pc.lease.Some?))
            && after.trace == if after.pc.Done? then Then(st.trace, Released) else st.trace
  {}

  // ---------------------------------------------------------------- the whole drain

  /** The observations left: enough to ask everybody, then three quiet ones. */
  function Rounds(left: nat, empty: nat, limit: int): nat
    requires limit >= 1 && empty < 3
    decreases left
  {
    if left == 0 then 3 - empty
    else if left <= limit then 1 + 3
    else 1 + Rounds(left - limit, 0, limit)
  }

  lemma {:induction false} RoundsExact(left: nat, limit: int)
    requires limit >= 1
    ensures Rounds(left, 0, limit) == RoundedUp(left, limit) + 3
  {
    hide RoundedUp;
    RoundedUpStep(left, limit);
    if left > limit { RoundsExact(left - limit, limit); }
  }

  /** ceil(x / d). */
  function RoundedUp(x: nat, d: int): int
    requires d >= 1
  {
    (x + d - 1) / d
  }

  lemma RoundedUpStep(x: nat, d: int)
    requires d >= 1
    ensures RoundedUp(x, d) == if x == 0 then 0 else if x <= d then 1 else 1 + RoundedUp(x - d, d)
  {
    if x > 0 { DivisionStep(x - 1, d); }
  }

  lemma DivisionStep(x: nat, d: int)
    requires d >= 1
    ensures (x + d) / d == x / d + 1
  {
    var q, p := x / d + 1, (x + d) / d;
    assert d * (p - q) == x % d - (x + d) % d;
    AtLeast(d, p - q);
    AtLeast(d, q - p);
    assert d * (q - p) == -(d * (p - q));
  }

  lemma AtLeast(d: int, k: int)
    requires d >= 1
    ensures k >= 1 ==> d * k >= d
  {}

  lemma {:induction false} Observations(
      cfg: Config, vms: set<string>, limits: Reply<seq<Option<int>>>, inputs: nat -> Input, t: nat, limit: int, k: nat,
      left: nat, empty: nat)
    returns (t': nat, last: nat)
    requires Cooperative(cfg, vms, limits, inputs) && empty < 3
    requires StateAt(cfg, inputs, t).pc == Observing(LoopTop)
    requires Between(vms, StateAt(cfg, inputs, t), limit, k, left, empty)
    ensures StateAt(cfg, inputs, t').pc == Done(None)
    ensures |LoopSnapshots(StateAt(cfg, inputs, t').trace)| == k + Rounds(left, empty, limit)
    ensures AskedOnce(StateAt(cfg, inputs, t').trace, vms)
    ensures EndsOnRelist(cfg, inputs, StateAt(cfg, inputs, t'), last)
    decreases left, 3 - empty
  {
    hide StateAt, Step, Helps, Cooperative, EndsOnRelist;
    var u := Observation(cfg, vms, limits, inputs, t, limit, k, left, empty);
    var st := StateAt(cfg, inputs, u);
    if st.empty >= 3 {
      AllAsked(vms, st.triggered);
      t', last := Finish(cfg, vms, limits, inputs, u, limit, k + 1);
    } else {
      Helped(cfg, vms, limits, inputs, u);
      SleepStep(cfg, vms, limits, st, inputs(u));
      t', last := Observations(cfg, vms, limits, inputs, u + 1, limit, k + 1, Rest(left, limit), st.empty);
    }
  }

  /**
   In a co-operative cluster, a drain of `n` VMIs with effective limit `L` succeeds, after exactly
   ceil(n / L) + 3 observations, having asked each of them to move exactly once and nobody else; `L` is at least
   one and at most the cluster's own limit.
   */
  lemma BoundedProgress(cfg: Config, vms: set<string>, limits: Reply<seq<Option<int>>>, inputs: nat -> Input)
    returns (t: nat, last: nat)
    requires Cooperative(cfg, vms, limits, inputs)
    ensures var limit := EffectiveLimit(DiscoveredLimit(limits), cfg.opts);
            && 1 <= limit <= DiscoveredLimit(limits)
            && StateAt(cfg, inputs, t).pc == Done(None)
            && |LoopSnapshots(StateAt(cfg, inputs, t).trace)| == RoundedUp(|vms|, limit) + 3
    ensures AskedOnce(StateAt(cfg, inputs, t).trace, vms)
    ensures EndsOnRelist(cfg, inputs, StateAt(cfg, inputs, t), last)
  {
    hide StateAt, Step, Helps, Cooperative, EndsOnRelist, Shows;
    FirstSteps(cfg, vms, limits, inputs);
    var first := KeySet(StateAt(cfg, inputs, 3).snapshot.vmis);
    var a := FirstRound(cfg, vms, limits, inputs, 3, 0, first);
    var b := ToSecondLook(cfg, vms, limits, inputs, a, first);
    Helped(cfg, vms, limits, inputs, b);
    SecondLookStep(cfg, vms, limits, StateAt(cfg, inputs, b), inputs(b));
    var c := SecondRound(cfg, vms, limits, inputs, b + 1, 0);
    Helped(cfg, vms, limits, inputs, c);
    ConfirmedStep(cfg, vms, StateAt(cfg, inputs, c), inputs(c));
    var d := SetupPods(cfg, vms, limits, inputs, c + 1);
    Helped(cfg, vms, limits, inputs, d);
    StartStep(cfg, vms, limits, StateAt(cfg, inputs, d), inputs(d));
    var limit := EffectiveLimit(DiscoveredLimit(limits), cfg.opts);
    EffectiveBounds(limits, cfg.opts);
    assert vms - {} == vms;
    t, last := Observations(cfg, vms, limits, inputs, d + 1, limit, 0, |vms|, 0);
    RoundsExact(|vms|, limit);
  }

  lemma AllAsked(vms: set<string>, asked: set<string>)
    requires asked <= vms
    ensures |vms - asked| == 0 ==> vms == asked
  {
    if |vms - asked| == 0 { assert vms - asked == {}; }
  }

  lemma ConfirmedStep(cfg: Config, vms: set<string>, st: State, e: Input)
    requires Shown(cfg, st, vms) && st.pc == Revalidating(ConfirmSecond(|st.snapshot.vmis|, false))
    ensures Step(cfg, st, e) == st.(pc := Evicting(Setup, 0, PodPoll))
  {
    hide Shows;
  }

  /** The effective limit is at least one and never above the cluster's own. */
  lemma EffectiveBounds(limits: Reply<seq<Option<int>>>, opts: Options)
    ensures 1 <= EffectiveLimit(DiscoveredLimit(limits), opts) <= DiscoveredLimit(limits)
  {
    if limits.Got? { FirstIsPositive(limits.value); }
  }

  lemma {:induction false} FirstIsPositive(limits: seq<Option<int>>)
    ensures FirstPositive(limits) >= 1
  {
    if limits != [] { FirstIsPositive(limits[1..]); }
  }
}
