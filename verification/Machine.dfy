/**
 The drain of one node as a state machine. Every step makes at most one API call or
 reads one of the asynchronous flags (interrupt, deadline, broken output); everything the
 outside world decides arrives in the step's `Input`, so that a statement about all input
 streams is a statement about every cluster, every interleaving and every timing.
 */
module Machine {
  import opened Common
  import opened Errors
  import opened Kube
  import opened Hotplug

  datatype Options = Options(
    timeout: int, retries: int, parallelOutbound: int, force: bool,
    deleteEmptyDirData: bool, gracePeriod: int, abortUncordons: bool)

  datatype Config = Config(runID: string, opts: Options)

  // ---------------------------------------------------------------- replies

  datatype Ack = Acked | Refused
  datatype Reply<+T> = Got(value: T) | Lost
  datatype CreateReply = Created | AlreadyExists | CreateFailed
  datatype LeaseReply = Found(uid: nat, version: nat, holder: Option<string>) | NoLease | LeaseFailed
  datatype Status = NotFound | TooManyRequests | OtherStatus
  datatype EvictReply = Accepted | Rejected(status: Status, message: string)

  /** What one VMI lookup returns when its hotplug volumes are verified. */
  datatype HotplugReply = Gone | Unreadable | Read(vmi: VMI, pods: seq<Pod>)

  datatype Input = Input(
    interrupt: bool,   // the operator asked to stop
    deadline: bool,    // the overall timeout has passed
    broken: bool,      // an event could not be written
    ack: Ack, create: CreateReply, lease: LeaseReply, nodeVersion: Reply<nat>,
    snap: Reply<Snapshot>, listed: Reply<seq<MigrationInfo>>, evict: EvictReply,
    limits: Reply<seq<Option<int>>>, hotplug: string -> HotplugReply)

  // ---------------------------------------------------------------- history

  datatype Look = Initial | Revalidated | Looped | Final

  /** What a run did, in order. */
  datatype Event =
    | Acquired
    | Observed(look: Look, snap: Snapshot)
    | Cordon(acked: bool)
    | DryRun(vmi: VMIInfo, reply: EvictReply)
    | Evicted(pod: PodInfo, grace: int, reply: EvictReply)
    | Triggered(vmi: VMIInfo, grace: int, reply: EvictReply)
    | Verified(replies: map<string, HotplugReply>)
    | Restore(acked: bool)
    | Released

  /** A history, newest event last. */
  datatype Trace = Empty | Then(past: Trace, ev: Event)

  datatype Tracked = Tracked(namespace: string, name: string, volumes: set<string>)

  // ---------------------------------------------------------------- control

  /** Why a run undoes its cordon; `ret` is what an aborted run returns. */
  datatype Why = CordonInterrupted | RevalidationFailed | Aborted(ret: Error)

  /** Which pass over the pods: the one after the cordon, or one of the observation loop. */
  datatype Pass = Setup | Loop

  datatype AcquirePc = Start | CreateLease | GetLease
  datatype PreparePc = FirstLook | ConfirmFirst(i: nat, bad: bool) | SendCordon
  datatype RevalidatePc = SecondLook | ConfirmSecond(i: nat, bad: bool)
  datatype PodPc = PodPoll | PodEvict | PodOutput
  datatype ObservePc = DiscoverLimit | LoopTop | LoopLook | Account
  datatype TriggerPc = TriggerPoll | TriggerDryRun | TriggerEvict
  datatype JudgePc = Judge | VerifyHotplug | FinalLook | Sleep

  /** The lease as the release read it. */
  datatype LeaseId = LeaseId(uid: nat, version: nat)

  datatype Pc =
    | Acquiring(acquire: AcquirePc)
    | Preparing(prepare: PreparePc)
    | Revalidating(revalidate: RevalidatePc)
    | Evicting(pass: Pass, pod: nat, evict: PodPc)
    | Observing(observe: ObservePc)
    | Triggering(vmi: nat, trigger: TriggerPc)
    | Judging(judge: JudgePc)
    | Restoring(why: Why, node: Option<nat>)            // `node`: the version that was read
    | Releasing(leaving: Option<Error>, lease: Option<LeaseId>)
    | Done(ret: Option<Error>)

  datatype State = State(
    pc: Pc, trace: Trace,
    snapshot: Snapshot,                    // the latest one, but for the final relist
    nodeUid: string,                       // the node's UID at the first look
    baseline: set<string>,                 // UIDs of the migrations that existed before the drain
    cordonedByUs: bool, interrupted: bool, settledAbort: bool,
    limit: int,                            // how many migrations may be outstanding
    triggered: set<string>,                // VMIs asked to migrate, or migrating when observing started
    failedSeen: map<string, set<string>>,  // failed migrations, by VMI
    tracked: map<string, Tracked>,         // VMIs seen after the cordon, by UID
    empty: nat,                            // quiet snapshots in a row
    outstanding: int, active: set<string>, // of the current trigger pass: its count, and who is migrating
    passStart: int)                        // the count that the pass started with

  const NOTHING := Snapshot("", false, [], [], [])

  function Init(): State {
    State(Acquiring(Start), Empty, NOTHING, "", {}, false, false, false, 0, {}, map[], map[], 0, 0, {}, 0)
  }

  // ---------------------------------------------------------------- reading a snapshot

  function CountActive(ms: seq<MigrationInfo>): nat {
    if ms == [] then 0
    else CountActive(ms[..|ms| - 1]) + (if ms[|ms| - 1].active then 1 else 0)
  }

  /** The VMIs that have an active migration off the node. */
  function ActiveKeys(ms: seq<MigrationInfo>): set<string> {
    set m | m in ms && m.active :: MigrationKey(m)
  }

  function CountIn(vmis: seq<VMIInfo>, keys: set<string>): nat {
    if vmis == [] then 0
    else CountIn(vmis[..|vmis| - 1], keys) + (if VMIKey(vmis[|vmis| - 1]) in keys then 1 else 0)
  }

  /** Active migrations, plus VMIs asked to migrate that show no migration yet. */
  function Outstanding(s: Snapshot, triggered: set<string>): nat {
    CountActive(s.migrations) + CountIn(s.vmis, triggered - ActiveKeys(s.migrations))
  }

  predicate Exempt(p: PodInfo) { p.launcher || p.hotplug || p.ignored }

  predicate PodSafe(p: PodInfo, opts: Options) {
    || Exempt(p)
    || (!p.unverifiedLauncher && (p.managed || opts.force) && (!p.emptyDir || opts.deleteEmptyDirData))
  }

  /** No hard blocker: what `preflight` accepts. */
  predicate Preflighted(s: Snapshot, opts: Options) {
    && (forall v :: v in s.vmis ==> !v.blocked)
    && (forall p :: p in s.pods ==> PodSafe(p, opts))
  }

  predicate NormalEligible(p: PodInfo, opts: Options) {
    && !p.launcher && !p.unverifiedLauncher && !p.hotplug && !p.ignored
    && (p.managed || opts.force) && (!p.emptyDir || opts.deleteEmptyDirData)
  }

  predicate HasEligiblePods(s: Snapshot, opts: Options) {
    exists p :: p in s.pods && (NormalEligible(p, opts) || p.launcher || p.hotplug)
  }

  /** Nothing left to move: what counts as an empty observation. */
  predicate Quiet(s: Snapshot, opts: Options) {
    s.vmis == [] && CountActive(s.migrations) == 0 && !HasEligiblePods(s, opts)
  }

  // ---------------------------------------------------------------- eviction answers

  function EvacuationMessage(v: VMIInfo): string {
    "Eviction triggered evacuation of VMI \"" + VMIKey(v) + "\""
  }

  /** KubeVirt took over the eviction of this VMI's launcher. */
  predicate EvacuationAccepted(reply: EvictReply, v: VMIInfo) {
    reply.Rejected? && reply.status.TooManyRequests? && Contains(reply.message, EvacuationMessage(v))
  }

  predicate RetryablePDB(reply: EvictReply) {
    reply.Rejected? && reply.status.TooManyRequests? && Contains(Lower(reply.message), "disruption budget")
  }

  /** A disruption budget that KubeVirt owns and that allows no disruption. */
  predicate VerifiedPDB(v: VMIInfo) {
    exists i :: 0 <= i < |v.launcherPDBs|
                && v.launcherPDBs[i].kubeVirtOwned && v.launcherPDBs[i].disruptionsAllowed == 0
  }

  /** The dry-run eviction of the launcher can be sent at all. */
  predicate Confirmable(v: VMIInfo) { v.launcher.Some? && VerifiedPDB(v) }

  // ---------------------------------------------------------------- accounts

  function Seen(failed: map<string, set<string>>, key: string): set<string> {
    if key in failed then failed[key] else {}
  }

  predicate Counts(m: MigrationInfo, baseline: set<string>) { m.failed && m.uid !in baseline }

  function FailedKeys(ms: seq<MigrationInfo>, baseline: set<string>): set<string> {
    set m | m in ms && Counts(m, baseline) :: MigrationKey(m)
  }

  function FailedUids(ms: seq<MigrationInfo>, baseline: set<string>, key: string): set<string> {
    set m | m in ms && Counts(m, baseline) && MigrationKey(m) == key :: m.uid
  }

  function MergeFailed(seen: map<string, set<string>>, ms: seq<MigrationInfo>, baseline: set<string>)
    : map<string, set<string>>
  {
    map k | k in seen.Keys + FailedKeys(ms, baseline) :: Seen(seen, k) + FailedUids(ms, baseline, k)
  }

  /** The VMIs with a failed migration that was not accounted for before. */
  function NewlyFailed(seen: map<string, set<string>>, ms: seq<MigrationInfo>, baseline: set<string>): set<string> {
    set m | m in ms && Counts(m, baseline) && m.uid !in Seen(seen, MigrationKey(m)) :: MigrationKey(m)
  }

  predicate WithinBudget(failed: map<string, set<string>>, retries: int) {
    forall k :: k in failed ==> |failed[k]| <= retries
  }

  function TrackOne(tracked: map<string, Tracked>, v: VMIInfo): map<string, Tracked> {
    var item := if v.vmi.uid in tracked then tracked[v.vmi.uid]
                else Tracked(v.vmi.namespace, v.vmi.name, {});
    tracked[v.vmi.uid := item.(volumes := item.volumes + (set n | n in v.hotplugVolumes))]
  }

  function Track(tracked: map<string, Tracked>, vmis: seq<VMIInfo>): map<string, Tracked> {
    if vmis == [] then tracked
    else TrackOne(Track(tracked, vmis[..|vmis| - 1]), vmis[|vmis| - 1])
  }

  /** A tracked VMI whose lookup cannot be used: unreadable, or another object under its name. */
  predicate Unverifiable(uid: string, reply: HotplugReply) {
    reply.Unreadable? || (reply.Read? && reply.vmi.uid != uid)
  }

  /** A VMI that is gone, or whose every expected volume is ready where it runs now. */
  predicate HotplugSettled(item: Tracked, reply: HotplugReply) {
    reply.Gone?
    || (reply.Read?
        && forall n :: n in item.volumes ==> VolumeReady(reply.vmi, reply.pods, reply.vmi.nodeName, n))
  }

  /** The first positive configured limit, or two. */
  function DiscoveredLimit(limits: Reply<seq<Option<int>>>): int {
    if limits.Lost? then 2 else FirstPositive(limits.value)
  }

  function FirstPositive(limits: seq<Option<int>>): int {
    if limits == [] then 2
    else if limits[0].Some? && limits[0].value > 0 then limits[0].value
    else FirstPositive(limits[1..])
  }

  function EffectiveLimit(discovered: int, opts: Options): int {
    if 0 < opts.parallelOutbound < discovered then opts.parallelOutbound else discovered
  }

  // ---------------------------------------------------------------- leaving

  /** How a failed call is reported: past the deadline, else interrupted, else operational. */
  function ContextError(e: Input): Error {
    if e.deadline then Timeout() else if e.interrupt then Interrupt() else Operational()
  }

  /**
   Where a return from the body leads once the lease is held: to the deferred restore
   when an interrupted run settled, else straight to the deferred release.
   */
  function ExitPc(cfg: Config, st: State, ret: Option<Error>): Pc {
    if ret.Some? && st.interrupted && st.settledAbort && cfg.opts.abortUncordons && st.cordonedByUs
    then Restoring(Aborted(ret.value), None)
    else Releasing(ret, None)
  }

  function FailPc(cfg: Config, st: State, err: Error): Pc { ExitPc(cfg, st, Some(err)) }

  // ---------------------------------------------------------------- the steps

  predicate ValidOptions(opts: Options) {
    opts.timeout > 0 && opts.retries >= 0 && opts.parallelOutbound >= 0
  }

  /** Validate the options, check permissions, then take the lease. */
  function StepAcquire(cfg: Config, st: State, at: AcquirePc, e: Input): State {
    match at
    case Start =>
      st.(pc := if !ValidOptions(cfg.opts) then Done(Some(Usage()))
                else if e.ack.Acked? then Acquiring(CreateLease)
                else Done(Some(ContextError(e))))
    case CreateLease =>
      match e.create {
        case Created => st.(trace := Then(st.trace, Acquired), pc := Preparing(FirstLook))
        case AlreadyExists => st.(pc := Acquiring(GetLease))
        case CreateFailed => st.(pc := Done(Some(ContextError(e))))
      }
    case GetLease =>
      if e.lease.Found? && e.lease.holder == Some(cfg.runID)
      then st.(trace := Then(st.trace, Acquired), pc := Preparing(FirstLook))
      else st.(pc := Done(Some(ContextError(e))))
  }

  /** One VMI of the dry-run round: whether it blocks, and the dry run that was sent. */
  function ConfirmOne(s: Snapshot, v: VMIInfo, e: Input): (bool, Option<Event>) {
    if v.blocked || VMIKey(v) in ActiveKeys(s.migrations) then (false, None)
    else if !Confirmable(v) then (true, None)
    else (!EvacuationAccepted(e.evict, v), Some(DryRun(v, e.evict)))
  }

  function AfterConfirm(tr: Trace, sent: Option<Event>): Trace {
    if sent.Some? then Then(tr, sent.value) else tr
  }

  /** The dry runs passed: check output, list the baseline, poll for an interrupt, turn to the cordon. */
  function Baselined(cfg: Config, st: State, e: Input): State {
    if e.broken then st.(pc := FailPc(cfg, st, Operational()))
    else if e.listed.Lost? then st.(pc := FailPc(cfg, st, ContextError(e)))
    else if e.interrupt then st.(pc := FailPc(cfg, st, Interrupt()))
    else st.(baseline := set m | m in e.listed.value :: m.uid,
             cordonedByUs := !st.snapshot.unschedulable,
             pc := if st.snapshot.unschedulable then Revalidating(SecondLook) else Preparing(SendCordon))
  }

  /** First snapshot, preflight, dry runs, baseline, cordon. */
  function StepPrepare(cfg: Config, st: State, at: PreparePc, e: Input): State {
    match at
    case FirstLook =>
      if e.snap.Lost? then st.(pc := FailPc(cfg, st, ContextError(e)))
      else
        var s := e.snap.value;
        st.(trace := Then(st.trace, Observed(Initial, s)), snapshot := s, nodeUid := s.nodeUid,
            pc := if Preflighted(s, cfg.opts) then Preparing(ConfirmFirst(0, false))
                  else FailPc(cfg, st, Operational()))
    case ConfirmFirst(i, bad) =>
      if i < |st.snapshot.vmis| then
        var (worse, sent) := ConfirmOne(st.snapshot, st.snapshot.vmis[i], e);
        st.(trace := AfterConfirm(st.trace, sent), pc := Preparing(ConfirmFirst(i + 1, bad || worse)))
      else if bad then st.(pc := FailPc(cfg, st, ContextError(e)))
      else Baselined(cfg, st, e)
    case SendCordon =>
      st.(trace := Then(st.trace, Cordon(e.ack.Acked?)),
          pc := if e.ack.Refused? then FailPc(cfg, st, ContextError(e))
                else if e.interrupt then Restoring(CordonInterrupted, None)
                else if e.broken then FailPc(cfg, st, Operational())
                else Revalidating(SecondLook))
  }

  /** The checks after the cordon failed: undo our own cordon first. */
  function RecoverPc(cfg: Config, st: State, e: Input): Pc {
    if st.cordonedByUs then Restoring(RevalidationFailed, None) else FailPc(cfg, st, ContextError(e))
  }

  function StepRevalidate(cfg: Config, st: State, at: RevalidatePc, e: Input): State {
    match at
    case SecondLook =>
      if e.snap.Lost? then st.(pc := RecoverPc(cfg, st, e))
      else
        var s := e.snap.value;
        st.(trace := Then(st.trace, Observed(Revalidated, s)), snapshot := s,
            pc := if Preflighted(s, cfg.opts) then Revalidating(ConfirmSecond(0, false))
                  else RecoverPc(cfg, st, e))
    case ConfirmSecond(i, bad) =>
      if i < |st.snapshot.vmis| then
        var (worse, sent) := ConfirmOne(st.snapshot, st.snapshot.vmis[i], e);
        st.(trace := AfterConfirm(st.trace, sent), pc := Revalidating(ConfirmSecond(i + 1, bad || worse)))
      else st.(pc := if bad then RecoverPc(cfg, st, e) else Evicting(Setup, 0, PodPoll))
  }

  function BeginTriggers(st: State): State {
    var n := Outstanding(st.snapshot, st.triggered);
    st.(outstanding := n, passStart := n, active := ActiveKeys(st.snapshot.migrations),
        pc := Triggering(0, TriggerPoll))
  }

  /** An eviction answer after which the pass goes on. */
  predicate Tolerable(reply: EvictReply) {
    reply.Accepted? || reply.status.NotFound? || RetryablePDB(reply)
  }

  function StepPods(cfg: Config, st: State, pass: Pass, i: nat, at: PodPc, e: Input): State {
    if i >= |st.snapshot.pods| then
      if pass.Setup? then st.(pc := Observing(DiscoverLimit)) else BeginTriggers(st)
    else
      var p := st.snapshot.pods[i];
      match at
      case PodPoll =>
        if e.interrupt then
          st.(interrupted := true, pc := if pass.Setup? then Observing(DiscoverLimit) else Judging(Judge))
        else if NormalEligible(p, cfg.opts) then st.(pc := Evicting(pass, i, PodEvict))
        else st.(pc := Evicting(pass, i + 1, PodPoll))
      case PodEvict =>
        st.(trace := Then(st.trace, Evicted(p, cfg.opts.gracePeriod, e.evict)),
            pc := if !Tolerable(e.evict) || e.broken then FailPc(cfg, st, ContextError(e))
                  else if pass.Setup? then Evicting(Setup, i, PodOutput)
                  else Evicting(Loop, i + 1, PodPoll))
      case PodOutput =>
        st.(pc := if e.broken then FailPc(cfg, st, Operational()) else Evicting(pass, i + 1, PodPoll))
  }

  function StepObserve(cfg: Config, st: State, at: ObservePc, e: Input): State {
    match at
    case DiscoverLimit =>
      st.(limit := EffectiveLimit(DiscoveredLimit(e.limits), cfg.opts),
          tracked := Track(map[], st.snapshot.vmis),
          triggered := ActiveKeys(st.snapshot.migrations), empty := 0, pc := Observing(LoopTop))
    case LoopTop =>
      var stopping := st.interrupted || e.interrupt;
      if e.broken then st.(pc := FailPc(cfg, st, Operational()))
      else st.(interrupted := stopping,
               pc := if !e.deadline then Observing(LoopLook)
                     else FailPc(cfg, st.(interrupted := stopping), if stopping then Interrupt() else Timeout()))
    case LoopLook =>
      if e.snap.Lost? then st.(pc := FailPc(cfg, st, ContextError(e)))
      else
        var s := e.snap.value;
        st.(trace := Then(st.trace, Observed(Looped, s)), snapshot := s, tracked := Track(st.tracked, s.vmis),
            pc := if st.interrupted || Preflighted(s, cfg.opts) then Observing(Account)
                  else FailPc(cfg, st, Operational()))
    case Account =>
      var failed := MergeFailed(st.failedSeen, st.snapshot.migrations, st.baseline);
      st.(failedSeen := failed,
          triggered := st.triggered - NewlyFailed(st.failedSeen, st.snapshot.migrations, st.baseline),
          pc := if !WithinBudget(failed, cfg.opts.retries) || e.broken then FailPc(cfg, st, Operational())
                else if st.interrupted then Judging(Judge) else Evicting(Loop, 0, PodPoll))
  }

  /** A VMI the trigger pass leaves alone. */
  predicate Skipped(st: State, v: VMIInfo) {
    st.outstanding >= st.limit || VMIKey(v) in st.triggered || VMIKey(v) in st.active || v.launcher.None?
  }

  function PollVMI(st: State, i: nat, v: VMIInfo, e: Input): State {
    st.(interrupted := st.interrupted || e.interrupt,
        pc := if e.interrupt then Judging(Judge)
              else if Skipped(st, v) then Triggering(i + 1, TriggerPoll)
              else Triggering(i, TriggerDryRun))
  }

  function DryRunVMI(cfg: Config, st: State, i: nat, v: VMIInfo, e: Input): State {
    if v.blocked || !Confirmable(v) then st.(pc := FailPc(cfg, st, ContextError(e)))
    else st.(trace := Then(st.trace, DryRun(v, e.evict)),
             pc := if EvacuationAccepted(e.evict, v) then Triggering(i, TriggerEvict)
                   else FailPc(cfg, st, ContextError(e)))
  }

  function EvictVMI(cfg: Config, st: State, i: nat, v: VMIInfo, e: Input): State {
    var fine := EvacuationAccepted(e.evict, v) && !e.broken;
    st.(trace := Then(st.trace, Triggered(v, -1, e.evict)),
        triggered := if fine then st.triggered + {VMIKey(v)} else st.triggered,
        outstanding := if fine then st.outstanding + 1 else st.outstanding,
        pc := if fine then Triggering(i + 1, TriggerPoll) else FailPc(cfg, st, ContextError(e)))
  }

  function StepTrigger(cfg: Config, st: State, i: nat, at: TriggerPc, e: Input): State {
    if i >= |st.snapshot.vmis| then st.(pc := Judging(Judge))
    else
      match at
      case TriggerPoll => PollVMI(st, i, st.snapshot.vmis[i], e)
      case TriggerDryRun => DryRunVMI(cfg, st, i, st.snapshot.vmis[i], e)
      case TriggerEvict => EvictVMI(cfg, st, i, st.snapshot.vmis[i], e)
  }

  /** The replies of one verification round. */
  function RepliesFor(tracked: map<string, Tracked>, e: Input): map<string, HotplugReply> {
    map u | u in tracked :: e.hotplug(u)
  }

  predicate SomeUnverifiable(tracked: map<string, Tracked>, e: Input) {
    exists u :: u in tracked && Unverifiable(u, e.hotplug(u))
  }

  predicate AllSettled(tracked: map<string, Tracked>, e: Input) {
    forall u :: u in tracked ==> HotplugSettled(tracked[u], e.hotplug(u))
  }

  function StepJudge(cfg: Config, st: State, at: JudgePc, e: Input): State {
    match at
    case Judge =>
      if st.interrupted && CountActive(st.snapshot.migrations) == 0 then
        var settled := st.(settledAbort := st.settledAbort || st.snapshot.vmis == []);
        settled.(pc := FailPc(cfg, settled, Interrupt()))
      else
        var n := if Quiet(st.snapshot, cfg.opts) then st.empty + 1 else 0;
        st.(empty := n, pc := if n >= 3 then Judging(VerifyHotplug) else Judging(Sleep))
    case VerifyHotplug =>
      st.(trace := Then(st.trace, Verified(RepliesFor(st.tracked, e))),
          pc := if SomeUnverifiable(st.tracked, e) then FailPc(cfg, st, Operational())
                else if AllSettled(st.tracked, e) then Judging(FinalLook) else Judging(Sleep))
    case FinalLook =>
      if e.snap.Lost? then st.(pc := FailPc(cfg, st, ContextError(e)))
      else
        var s := e.snap.value;
        var quiet := Quiet(s, cfg.opts);
        st.(trace := Then(st.trace, Observed(Final, s)), tracked := Track(st.tracked, s.vmis),
            empty := if quiet then st.empty else 0,
            pc := if quiet then ExitPc(cfg, st, if e.broken then Some(Operational()) else None)
                  else Observing(LoopTop))
    case Sleep =>
      st.(interrupted := st.interrupted || e.interrupt, pc := Observing(LoopTop))
  }

  /** A rollback ended, one way or the other. */
  function AfterRollback(cfg: Config, st: State, why: Why, restored: bool, e: Input): Pc {
    match why
    case CordonInterrupted => FailPc(cfg, st, Interrupt())
    case RevalidationFailed => FailPc(cfg, st, ContextError(e))
    case Aborted(ret) =>
      Releasing(Some(if restored && !e.broken then ret else Wrap(Some(ret))), None)
  }

  function StepRestore(cfg: Config, st: State, why: Why, node: Option<nat>, e: Input): State {
    if node.Some? then
      st.(trace := Then(st.trace, Restore(e.ack.Acked?)), pc := AfterRollback(cfg, st, why, e.ack.Acked?, e))
    else
      st.(pc := if e.nodeVersion.Lost? then AfterRollback(cfg, st, why, false, e)
                else Restoring(why, Some(e.nodeVersion.value)))
  }

  /** The release failed: it only becomes the run's error when there is none yet. */
  function ReleaseFailed(ret: Option<Error>): Option<Error> {
    if ret.None? then Some(Operational()) else ret
  }

  function StepRelease(cfg: Config, st: State, ret: Option<Error>, lease: Option<LeaseId>, e: Input): State {
    if lease.Some? then
      if e.ack.Acked? then st.(trace := Then(st.trace, Released), pc := Done(ret))
      else st.(pc := Done(ReleaseFailed(ret)))
    else if e.lease.NoLease? then st.(trace := Then(st.trace, Released), pc := Done(ret))
    else if e.lease.Found? && e.lease.holder == Some(cfg.runID)
    then st.(pc := Releasing(ret, Some(LeaseId(e.lease.uid, e.lease.version))))
    else st.(pc := Done(ReleaseFailed(ret)))
  }

  function Step(cfg: Config, st: State, e: Input): State {
    match st.pc
    case Acquiring(at) => StepAcquire(cfg, st, at, e)
    case Preparing(at) => StepPrepare(cfg, st, at, e)
    case Revalidating(at) => StepRevalidate(cfg, st, at, e)
    case Evicting(pass, i, at) => StepPods(cfg, st, pass, i, at, e)
    case Observing(at) => StepObserve(cfg, st, at, e)
    case Triggering(i, at) => StepTrigger(cfg, st, i, at, e)
    case Judging(at) => StepJudge(cfg, st, at, e)
    case Restoring(why, node) => StepRestore(cfg, st, why, node, e)
    case Releasing(ret, lease) => StepRelease(cfg, st, ret, lease, e)
    case Done(_) => st
  }

  /** The state of a run after its first `t` inputs. */
  function StateAt(cfg: Config, inputs: nat -> Input, t: nat): State {
    if t == 0 then Init() else Step(cfg, StateAt(cfg, inputs, t - 1), inputs(t - 1))
  }

  /** One more input is one more step. */
  lemma Tick(cfg: Config, inputs: nat -> Input, t: nat)
    ensures StateAt(cfg, inputs, t + 1) == Step(cfg, StateAt(cfg, inputs, t), inputs(t))
  {
    hide Step;
  }

  lemma Begins(cfg: Config, inputs: nat -> Input)
    ensures StateAt(cfg, inputs, 0) == Init()
  {}
}
