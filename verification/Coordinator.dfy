/**
 The drain as the program runs it: nested loops over mutable fields, early returns, and deferred clean-up.
 Every call to the outside takes the next `Input`. The contract of `Drain` says that, input for input, it goes
 through the states of the machine in module `Machine`, so that every result about the machine's runs is a
 result about this program.
 */
module Coordinator {
  import opened Common
  import opened Errors
  import opened Kube
  import opened Hotplug
  import opened Sorting
  import opened Machine
  import History
  import Meaning
  import Rounds
  import Safety
  import Success
  import Triggers

  // ---------------------------------------------------------------- reading a snapshot

  /** The hard-blocker check; the message texts it collects are reduced to their number. */
  method Preflight(s: Snapshot, opts: Options) returns (ok: bool)
    ensures ok == Preflighted(s, opts)
  {
    var blockers := 0;
    for i := 0 to |s.vmis|
      invariant blockers >= 0
      invariant blockers == 0 <==> forall k :: 0 <= k < i ==> !s.vmis[k].blocked
    {
      if s.vmis[i].blocked { blockers := blockers + 1; }
    }
    for i := 0 to |s.pods|
      invariant blockers >= 0
      invariant blockers == 0 <==>
                (forall v :: v in s.vmis ==> !v.blocked) && forall k :: 0 <= k < i ==> PodSafe(s.pods[k], opts)
    {
      var p := s.pods[i];
      if p.launcher || p.hotplug || p.ignored { continue; }
      if p.unverifiedLauncher {
        blockers := blockers + 1;
        continue;
      }
      if !p.managed && !opts.force { blockers := blockers + 1; }
      if p.emptyDir && !opts.deleteEmptyDirData { blockers := blockers + 1; }
    }
    return blockers == 0;
  }

  method AnyEligiblePods(s: Snapshot, opts: Options) returns (found: bool)
    ensures found == HasEligiblePods(s, opts)
  {
    for i := 0 to |s.pods|
      invariant forall k :: 0 <= k < i ==>
                  !NormalEligible(s.pods[k], opts) && !s.pods[k].launcher && !s.pods[k].hotplug
    {
      var p := s.pods[i];
      if NormalEligible(p, opts) || p.launcher || p.hotplug { return true; }
    }
    return false;
  }

  method Active(ms: seq<MigrationInfo>) returns (count: nat)
    ensures count == CountActive(ms)
  {
    count := 0;
    for i := 0 to |ms|
      invariant count == CountActive(ms[..i])
    {
      assert ms[..i + 1][..i] == ms[..i];
      if ms[i].active { count := count + 1; }
    }
    assert ms[..|ms|] == ms;
  }

  /** No VMI, no active migration, and no pod to evict or wait for. */
  method NothingLeft(s: Snapshot, opts: Options) returns (quiet: bool)
    ensures quiet == Quiet(s, opts)
  {
    var moving := Active(s.migrations);
    var busy := AnyEligiblePods(s, opts);
    return |s.vmis| == 0 && moving == 0 && !busy;
  }

  method ActiveByVMI(ms: seq<MigrationInfo>) returns (active: set<string>)
    ensures active == ActiveKeys(ms)
  {
    active := {};
    for i := 0 to |ms|
      invariant active == ActiveKeys(ms[..i])
    {
      assert ms[..i + 1] == ms[..i] + [ms[i]];
      if ms[i].active { active := active + {MigrationKey(ms[i])}; }
    }
    assert ms[..|ms|] == ms;
  }

  method OutstandingMigrations(s: Snapshot, triggered: set<string>) returns (outstanding: int, active: set<string>)
    ensures outstanding == Outstanding(s, triggered) && active == ActiveKeys(s.migrations)
    ensures outstanding == |Meaning.ActiveEntries(s)| + |Meaning.WaitingEntries(s, triggered)|
  {
    outstanding, active := 0, {};
    for i := 0 to |s.migrations|
      invariant outstanding == CountActive(s.migrations[..i])
      invariant active == ActiveKeys(s.migrations[..i])
    {
      assert s.migrations[..i + 1][..i] == s.migrations[..i];
      assert s.migrations[..i + 1] == s.migrations[..i] + [s.migrations[i]];
      if !s.migrations[i].active { continue; }
      active := active + {MigrationKey(s.migrations[i])};
      outstanding := outstanding + 1;
    }
    assert s.migrations[..|s.migrations|] == s.migrations;
    for i := 0 to |s.vmis|
      invariant outstanding == CountActive(s.migrations) + CountIn(s.vmis[..i], triggered - active)
    {
      assert s.vmis[..i + 1][..i] == s.vmis[..i];
      var key := VMIKey(s.vmis[i]);
      if key in triggered && key !in active { outstanding := outstanding + 1; }
    }
    assert s.vmis[..|s.vmis|] == s.vmis;
    assert outstanding == Outstanding(s, triggered);
    hide CountActive, CountIn, Outstanding, ActiveKeys;
    Meaning.OutstandingIs(s, triggered);
  }

  method HasVerifiedPDB(v: VMIInfo) returns (found: bool)
    ensures found == VerifiedPDB(v)
  {
    for i := 0 to |v.launcherPDBs|
      invariant forall k :: 0 <= k < i ==>
                  !(v.launcherPDBs[k].kubeVirtOwned && v.launcherPDBs[k].disruptionsAllowed == 0)
    {
      if v.launcherPDBs[i].kubeVirtOwned && v.launcherPDBs[i].disruptionsAllowed == 0 { return true; }
    }
    return false;
  }

  method OutboundMigrationLimit(limits: Reply<seq<Option<int>>>) returns (limit: int)
    ensures limit == DiscoveredLimit(limits)
  {
    if limits.Lost? { return 2; }
    for i := 0 to |limits.value|
      invariant FirstPositive(limits.value) == FirstPositive(limits.value[i..])
    {
      if limits.value[i].Some? && limits.value[i].value > 0 { return limits.value[i].value; }
    }
    return 2;
  }

  // ---------------------------------------------------------------- ledgers

  lemma FailedOneMore(front: seq<MigrationInfo>, m: MigrationInfo, baseline: set<string>, key: string)
    ensures FailedKeys(front + [m], baseline)
         == FailedKeys(front, baseline) + (if Counts(m, baseline) then {MigrationKey(m)} else {})
    ensures FailedUids(front + [m], baseline, key)
         == FailedUids(front, baseline, key)
            + (if Counts(m, baseline) && MigrationKey(m) == key then {m.uid} else {})
  {
    hide Counts, MigrationKey;
    forall x ensures x in front + [m] <==> x in front || x == m {}
  }

  /** What one more listed migration adds to the ledger of failures. */
  lemma MergeOneMore(
      seen: map<string, set<string>>, front: seq<MigrationInfo>, m: MigrationInfo, baseline: set<string>)
    ensures var before := MergeFailed(seen, front, baseline);
            MergeFailed(seen, front + [m], baseline) ==
            if Counts(m, baseline) then before[MigrationKey(m) := Seen(before, MigrationKey(m)) + {m.uid}] else before
  {
    hide Counts, MigrationKey, FailedUids, FailedKeys;
    var before, after := MergeFailed(seen, front, baseline), MergeFailed(seen, front + [m], baseline);
    var k := MigrationKey(m);
    FailedOneMore(front, m, baseline, k);
    Unlisted(front, baseline, k);
    var expected := if Counts(m, baseline) then before[k := Seen(before, k) + {m.uid}] else before;
    assert after.Keys == expected.Keys;
    forall q | q in after ensures after[q] == expected[q] { FailedOneMore(front, m, baseline, q); }
  }

  lemma Unlisted(ms: seq<MigrationInfo>, baseline: set<string>, key: string)
    ensures key !in FailedKeys(ms, baseline) ==> FailedUids(ms, baseline, key) == {}
  {}

  predicate IsNew(seen: map<string, set<string>>, m: MigrationInfo, baseline: set<string>) {
    Counts(m, baseline) && m.uid !in Seen(seen, MigrationKey(m))
  }

  function Pair(m: MigrationInfo): (string, string) { (MigrationKey(m), m.uid) }

  /** The failures of a listing that are new, by VMI and UID. */
  function NewPairs(seen: map<string, set<string>>, ms: seq<MigrationInfo>, baseline: set<string>)
    : set<(string, string)>
  {
    set m | m in ms && IsNew(seen, m, baseline) :: Pair(m)
  }

  function Pairs(ms: seq<MigrationInfo>): set<(string, string)> { set m | m in ms :: Pair(m) }

  lemma PairsOneMore(
      seen: map<string, set<string>>, front: seq<MigrationInfo>, m: MigrationInfo, baseline: set<string>)
    ensures NewPairs(seen, front + [m], baseline)
         == NewPairs(seen, front, baseline) + (if IsNew(seen, m, baseline) then {Pair(m)} else {})
    ensures Pairs(front + [m]) == Pairs(front) + {Pair(m)}
  {
    hide IsNew, Pair;
    forall x ensures x in front + [m] <==> x in front || x == m {}
  }

  /** A counted migration is already in the ledger exactly when it is old or was listed before. */
  lemma AlreadySeen(
      seen: map<string, set<string>>, front: seq<MigrationInfo>, m: MigrationInfo, baseline: set<string>)
    requires Counts(m, baseline)
    ensures m.uid in Seen(MergeFailed(seen, front, baseline), MigrationKey(m))
            <==> !IsNew(seen, m, baseline) || Pair(m) in NewPairs(seen, front, baseline)
  {
    var k := MigrationKey(m);
    Unlisted(front, baseline, k);
    assert Seen(MergeFailed(seen, front, baseline), k) == Seen(seen, k) + FailedUids(front, baseline, k);
    if IsNew(seen, m, baseline) && m.uid in FailedUids(front, baseline, k) {
      var n :| n in front && Counts(n, baseline) && MigrationKey(n) == k && n.uid == m.uid;
      assert Pair(n) == Pair(m) && IsNew(seen, n, baseline);
    }
  }

  /**
   Adds the failed migrations of a snapshot to the ledger and returns those that were not in it: each listed
   failure that is new to its VMI, once.
   */
  method ObserveFailed(seen: map<string, set<string>>, ms: seq<MigrationInfo>, baseline: set<string>)
    returns (now: map<string, set<string>>, newly: seq<MigrationInfo>)
    ensures now == MergeFailed(seen, ms, baseline)
    ensures forall m :: m in newly ==> m in ms && IsNew(seen, m, baseline)
    ensures Pairs(newly) == NewPairs(seen, ms, baseline) && |newly| == |Pairs(newly)|
    ensures forall m :: m in newly ==> m.failed && m.uid !in baseline
    ensures forall m :: m in ms && m.failed && m.uid !in baseline ==>
              var key := m.namespace + "/" + m.vmiName; key in now && m.uid in now[key]
  {
    hide MergeFailed, NewPairs, Pairs, IsNew, Pair;
    now, newly := seen, [];
    Empties(seen, baseline);
    for i := 0 to |ms|
      invariant now == MergeFailed(seen, ms[..i], baseline)
      invariant forall m :: m in newly ==> m in ms && IsNew(seen, m, baseline)
      invariant Pairs(newly) == NewPairs(seen, ms[..i], baseline) && |newly| == |Pairs(newly)|
    {
      var m := ms[i];
      assert ms[..i + 1] == ms[..i] + [m];
      MergeOneMore(seen, ms[..i], m, baseline);
      PairsOneMore(seen, ms[..i], m, baseline);
      PairsOneMore(seen, newly, m, baseline);
      if !m.failed || m.uid in baseline {
        assert !IsNew(seen, m, baseline) by { Uncounted(seen, m, baseline); }
        continue;
      }
      AlreadySeen(seen, ms[..i], m, baseline);
      var key := MigrationKey(m);
      if key in now && m.uid in now[key] {
        assert now[key] + {m.uid} == now[key];
        assert now[key := now[key] + {m.uid}] == now;
        continue;
      }
      now := now[key := (if key in now then now[key] else {}) + {m.uid}];
      newly := newly + [m];
    }
    assert ms[..|ms|] == ms;
    NewlyAre(seen, ms, baseline, newly);
    ListedAreBooked(seen, ms, baseline);
  }

  /** Only failures outside the baseline are new. */
  lemma NewlyAre(
      seen: map<string, set<string>>, ms: seq<MigrationInfo>, baseline: set<string>, newly: seq<MigrationInfo>)
    requires forall m :: m in newly ==> m in ms && IsNew(seen, m, baseline)
    ensures forall m :: m in newly ==> m.failed && m.uid !in baseline
  {}

  /** Every listed failure outside the baseline is booked for its VMI. */
  lemma ListedAreBooked(seen: map<string, set<string>>, ms: seq<MigrationInfo>, baseline: set<string>)
    ensures forall m :: m in ms && m.failed && m.uid !in baseline ==>
              var key := m.namespace + "/" + m.vmiName;
              key in MergeFailed(seen, ms, baseline) && m.uid in MergeFailed(seen, ms, baseline)[key]
  {
    forall m | m in ms && m.failed && m.uid !in baseline
      ensures var key := m.namespace + "/" + m.vmiName;
              key in MergeFailed(seen, ms, baseline) && m.uid in MergeFailed(seen, ms, baseline)[key]
    {
      assert Counts(m, baseline) && MigrationKey(m) in FailedKeys(ms, baseline);
      Meaning.FailedUidsAre(ms, baseline, MigrationKey(m), m.uid);
    }
  }

  lemma Uncounted(seen: map<string, set<string>>, m: MigrationInfo, baseline: set<string>)
    ensures !Counts(m, baseline) ==> !IsNew(seen, m, baseline)
  {}

  lemma Empties(seen: map<string, set<string>>, baseline: set<string>)
    ensures MergeFailed(seen, [], baseline) == seen && NewPairs(seen, [], baseline) == {} && Pairs([]) == {}
  {
    assert FailedKeys([], baseline) == {};
    assert MergeFailed(seen, [], baseline).Keys == seen.Keys;
    forall k | k in seen ensures MergeFailed(seen, [], baseline)[k] == seen[k] {
      assert FailedUids([], baseline, k) == {};
    }
  }

  function KeysOf(ms: seq<MigrationInfo>): set<string> { set m | m in ms :: MigrationKey(m) }

  lemma KeysOneMore(front: seq<MigrationInfo>, m: MigrationInfo)
    ensures KeysOf([]) == {} && KeysOf(front + [m]) == KeysOf(front) + {MigrationKey(m)}
  {
    hide MigrationKey;
    forall x ensures x in front + [m] <==> x in front || x == m {}
  }

  /** The keys of the returned failures are the VMIs whose pending request they end. */
  lemma NewlyFailedKeys(
      seen: map<string, set<string>>, ms: seq<MigrationInfo>, baseline: set<string>, newly: seq<MigrationInfo>)
    requires Pairs(newly) == NewPairs(seen, ms, baseline)
    ensures KeysOf(newly) == NewlyFailed(seen, ms, baseline)
  {
    var keys := KeysOf(newly);
    forall m | m in newly ensures MigrationKey(m) in NewlyFailed(seen, ms, baseline) {
      assert Pair(m) in NewPairs(seen, ms, baseline);
    }
    forall m | m in ms && IsNew(seen, m, baseline) ensures MigrationKey(m) in keys {
      assert Pair(m) in Pairs(newly);
    }
    assert forall k :: k in NewlyFailed(seen, ms, baseline) ==> k in keys;
  }

  /** The VMIs to free, by the fields of the listed migrations. */
  lemma Freeing(seen: map<string, set<string>>, ms: seq<MigrationInfo>, baseline: set<string>)
    ensures forall key :: key in NewlyFailed(seen, ms, baseline) <==>
              exists m :: m in ms && m.failed && m.uid !in baseline && m.namespace + "/" + m.vmiName == key
                          && !(key in seen && m.uid in seen[key])
  {
    forall key ensures key in NewlyFailed(seen, ms, baseline) <==>
              exists m :: m in ms && m.failed && m.uid !in baseline && m.namespace + "/" + m.vmiName == key
                          && !(key in seen && m.uid in seen[key])
    {
      Meaning.NewlyFailedAre(seen, ms, baseline, key);
    }
  }

  /** The VMIs still asked to migrate once the new failures are taken off. */
  method TakeOff(triggered: set<string>, newly: seq<MigrationInfo>) returns (now: set<string>)
    ensures now == triggered - KeysOf(newly)
  {
    now := triggered;
    assert newly[..0] == [] && KeysOf([]) == {};
    for i := 0 to |newly|
      invariant now == triggered - KeysOf(newly[..i])
    {
      assert newly[..i + 1] == newly[..i] + [newly[i]];
      KeysOneMore(newly[..i], newly[i]);
      now := now - {MigrationKey(newly[i])};
    }
    assert newly[..|newly|] == newly;
  }

  /** Adds the VMIs of a snapshot to the ledger of tracked VMIs. */
  method TrackVMIs(tracked: map<string, Tracked>, vmis: seq<VMIInfo>) returns (now: map<string, Tracked>)
    ensures now == Track(tracked, vmis)
  {
    now := tracked;
    for i := 0 to |vmis|
      invariant now == Track(tracked, vmis[..i])
    {
      assert vmis[..i + 1][..i] == vmis[..i];
      var v := vmis[i];
      var item := if v.vmi.uid in now then now[v.vmi.uid] else Tracked(v.vmi.namespace, v.vmi.name, {});
      var volumes := item.volumes;
      for j := 0 to |v.hotplugVolumes|
        invariant volumes == item.volumes + set n | n in v.hotplugVolumes[..j]
      {
        assert v.hotplugVolumes[..j + 1] == v.hotplugVolumes[..j] + [v.hotplugVolumes[j]];
        volumes := volumes + {v.hotplugVolumes[j]};
      }
      assert v.hotplugVolumes[..|v.hotplugVolumes|] == v.hotplugVolumes;
      now := now[v.vmi.uid := item.(volumes := volumes)];
    }
    assert vmis[..|vmis|] == vmis;
  }

  /**
   What the observation starts with: the cluster's limit unless the operator asked for less, the VMIs of the
   revalidated snapshot, and the migrations already under way.
   */
  method Ledgers(limits: Reply<seq<Option<int>>>, s: Snapshot, opts: Options)
    returns (limit: int, tracked: map<string, Tracked>, moving: set<string>)
    ensures limit == EffectiveLimit(DiscoveredLimit(limits), opts)
    ensures tracked == Track(map[], s.vmis) && moving == ActiveKeys(s.migrations)
  {
    limit := OutboundMigrationLimit(limits);
    if 0 < opts.parallelOutbound < limit { limit := opts.parallelOutbound; }
    tracked := TrackVMIs(map[], s.vmis);
    moving := ActiveByVMI(s.migrations);
  }

  /** The names of a set, sorted. */
  method SortedNames(names: set<string>) returns (out: seq<string>)
    ensures forall n :: n in out <==> n in names
  {
    var rest, list := names, [];
    while rest != {}
      invariant rest <= names && forall n :: n in list <==> n in names - rest
      decreases rest
    {
      var n :| n in rest;
      rest, list := rest - {n}, list + [n];
    }
    out := Sort(list);
    forall n ensures n in out <==> n in list {
      assert n in out <==> n in multiset(out);
    }
  }

  datatype Verdict = Ready | Pending | Broken

  /**
   Looks every tracked VMI up, in whatever order the map yields them. Some unusable answer ends it; without
   one, it is ready exactly when every VMI is gone or fully attached.
   */
  method VerifyHotplugVolumes(tracked: map<string, Tracked>, e: Input) returns (verdict: Verdict)
    ensures verdict == if SomeUnverifiable(tracked, e) then Broken
                       else if AllSettled(tracked, e) then Ready else Pending
    ensures verdict == Ready ==> forall u :: u in tracked ==> Attached(u, tracked[u].volumes, e.hotplug(u))
  {
    var rest, allReady := tracked.Keys, true;
    while rest != {}
      invariant rest <= tracked.Keys
      invariant forall u :: u in tracked.Keys - rest ==> !Unverifiable(u, e.hotplug(u))
      invariant allReady <==> forall u :: u in tracked.Keys - rest ==> HotplugSettled(tracked[u], e.hotplug(u))
      decreases rest
    {
      var u :| u in rest;
      ghost var before := rest;
      rest := rest - {u};
      assert tracked.Keys - rest == (tracked.Keys - before) + {u};
      match e.hotplug(u) {
        case Gone => continue;
        case Unreadable => return Broken;
        case Read(vmi, pods) =>
          if vmi.uid != u { return Broken; }
          var names := SortedNames(tracked[u].volumes);
          var expected, ready := HotplugState(vmi, pods, "", names);
          assert TargetOf(vmi, "") == vmi.nodeName;
          if ready < expected { allReady := false; }
      }
    }
    if allReady { SettledAreAttached(tracked, e); }
    return if allReady then Ready else Pending;
  }

  /** The VMI is gone, or it is still the same and each volume is attached where it runs. */
  predicate Attached(u: string, names: set<string>, reply: HotplugReply) {
    || reply == Gone
    || (reply.Read? && reply.vmi.uid == u
        && forall n :: n in names ==> AttachedOn(reply.vmi, reply.pods, reply.vmi.nodeName, n))
  }

  lemma SettledAreAttached(tracked: map<string, Tracked>, e: Input)
    requires !SomeUnverifiable(tracked, e) && AllSettled(tracked, e)
    ensures forall u :: u in tracked ==> Attached(u, tracked[u].volumes, e.hotplug(u))
  {
    hide VolumeReady, AttachedOn;
    forall u | u in tracked ensures Attached(u, tracked[u].volumes, e.hotplug(u)) {
      var reply := e.hotplug(u);
      if reply.Read? {
        assert !Unverifiable(u, reply);
        forall n | n in tracked[u].volumes ensures AttachedOn(reply.vmi, reply.pods, reply.vmi.nodeName, n) {
          ReadyNeeds(reply.vmi, reply.pods, reply.vmi.nodeName, n);
        }
      }
    }
  }

  method OverBudget(failed: map<string, set<string>>, retries: int) returns (over: bool)
    ensures over == !WithinBudget(failed, retries)
  {
    var rest := failed.Keys;
    while rest != {}
      invariant rest <= failed.Keys
      invariant forall k :: k in failed.Keys - rest ==> |failed[k]| <= retries
      decreases rest
    {
      var k :| k in rest;
      if |failed[k]| > retries { return true; }
      rest := rest - {k};
    }
    return false;
  }

  // ---------------------------------------------------------------- the run

  /** What a finished run may be relied on for, whatever the cluster did. */
  ghost predicate Warranted(cfg: Config, tr: Trace, ret: Option<Error>) {
    && Safety.Lawful(cfg, tr) && Rounds.AllChecked(cfg, tr)
    && (ret.None? ==> Success.SoundHistory(cfg, tr))
    && (ValidOptions(cfg.opts) ==> forall key :: History.Launches(tr, key) <= cfg.opts.retries + 1)
  }

  lemma RunsAreWarranted(cfg: Config, inputs: nat -> Input, t: nat, ret: Option<Error>)
    requires StateAt(cfg, inputs, t).pc == Done(ret)
    ensures Warranted(cfg, StateAt(cfg, inputs, t).trace, ret)
  {
    hide StateAt, Step, Safety.Lawful, Rounds.AllChecked, Rounds.Stage, Success.SoundHistory, History.Launches;
    Safety.SafeRun(cfg, inputs, t);
    Rounds.CheckedRun(cfg, inputs, t);
    if ret.None? { Success.SuccessIsSound(cfg, inputs, t); }
    forall key | ValidOptions(cfg.opts)
      ensures History.Launches(StateAt(cfg, inputs, t).trace, key) <= cfg.opts.retries + 1
    {
      Triggers.LaunchesBounded(cfg, inputs, t, key);
    }
  }

  class Coordinator {
    const cfg: Config
    const inputs: nat -> Input
    const horizon: nat          // the overall timeout has passed by then

    var clock: nat              // inputs consumed so far
    var trace: Trace            // what the run did
    var snapshot: Snapshot
    var nodeUid: string
    var baseline: set<string>
    var cordonedByUs: bool
    var interrupted: bool
    var settledAbort: bool
    var limit: int
    var triggered: set<string>
    var failedSeen: map<string, set<string>>
    var tracked: map<string, Tracked>
    var empty: nat
    var outstanding: int
    var active: set<string>
    ghost var passStart: int

    constructor (cfg: Config, inputs: nat -> Input, horizon: nat)
      requires forall t: nat :: t >= horizon ==> inputs(t).deadline
      ensures this.cfg == cfg && this.inputs == inputs && clock == 0
      ensures Timed() && At(Acquiring(Start))
    {
      this.cfg, this.inputs, this.horizon := cfg, inputs, horizon;
      clock, trace, snapshot, nodeUid, baseline := 0, Empty, NOTHING, "", {};
      cordonedByUs, interrupted, settledAbort := false, false, false;
      limit, triggered, failedSeen, tracked, empty := 0, {}, map[], map[], 0;
      outstanding, active, passStart := 0, {}, 0;
    }

    /** The deadline of the run does pass. */
    ghost predicate Timed() { forall t: nat :: t >= horizon ==> inputs(t).deadline }

    /** The fields, as a state of the machine at `pc`. */
    ghost function Abs(pc: Pc): State
      reads this
    {
      State(pc, trace, snapshot, nodeUid, baseline, cordonedByUs, interrupted, settledAbort, limit, triggered,
            failedSeen, tracked, empty, outstanding, active, passStart)
    }

    /** The fields are the machine's state after `clock` inputs, and the machine is at `pc`. */
    ghost predicate At(pc: Pc)
      reads this
    {
      StateAt(cfg, inputs, clock) == Abs(pc)
    }

    /** Where the machine goes when the body of the drain returns `ret`. */
    ghost function Leaving(ret: Option<Error>): Pc
      reads this
    {
      ExitPc(cfg, Abs(Done(None)), ret)
    }

    /** Takes the next input. */
    method Next() returns (e: Input)
      modifies this`clock
      ensures clock == old(clock) + 1 && e == inputs(old(clock))
      ensures StateAt(cfg, inputs, clock) == Step(cfg, old(StateAt(cfg, inputs, clock)), e)
    {
      e := inputs(clock);
      clock := clock + 1;
    }

    /** Validate, check permissions, take the lease. */
    method Acquire() returns (failed: Option<Error>)
      requires At(Acquiring(Start))
      modifies this`clock, this`trace
      ensures failed.None? ==> At(Preparing(FirstLook))
      ensures failed.Some? ==> At(Done(failed))
    {
      hide StateAt, StepPrepare, StepRevalidate, StepPods, StepObserve, StepTrigger, StepJudge, StepRestore,
        StepRelease;
      var e := Next();
      if cfg.opts.timeout <= 0 || cfg.opts.retries < 0 || cfg.opts.parallelOutbound < 0 { return Some(Usage()); }
      if e.ack.Refused? { return Some(ContextError(e)); }
      e := Next();
      match e.create {
        case Created =>
          trace := Then(trace, Acquired);
          return None;
        case CreateFailed => return Some(ContextError(e));
        case AlreadyExists =>
      }
      e := Next();
      if e.lease.Found? && e.lease.holder == Some(cfg.runID) {
        trace := Then(trace, Acquired);
        return None;
      }
      return Some(ContextError(e));
    }

    /** Reads the node, then sends the conditional restore for the version it read. */
    method RollbackCordon(why: Why) returns (restored: bool, last: Input)
      requires At(Restoring(why, None))
      modifies this`clock, this`trace
      ensures At(AfterRollback(cfg, Abs(Done(None)), why, restored, last))
    {
      hide StateAt, StepAcquire, StepPrepare, StepRevalidate, StepPods, StepObserve, StepTrigger, StepJudge,
        StepRelease, ContextError;
      last := Next();
      if last.nodeVersion.Lost? { return false, last; }
      last := Next();
      restored := last.ack.Acked?;
      trace := Then(trace, Restore(restored));
    }

    /** The program point of a dry-run round, before and after the cordon. */
    ghost function Round(second: bool, i: nat, bad: bool): Pc {
      if second then Revalidating(ConfirmSecond(i, bad)) else Preparing(ConfirmFirst(i, bad))
    }

    /** Dry-runs the eviction of every launcher that has no active migration. */
    method ConfirmMigrations(second: bool) returns (bad: bool)
      requires At(Round(second, 0, false))
      modifies this`clock, this`trace
      ensures At(Round(second, |snapshot.vmis|, bad))
    {
      hide StateAt, StepAcquire, StepPods, StepObserve, StepTrigger, StepJudge, StepRestore, StepRelease, Baselined,
        FailPc, RecoverPc, Preflighted, EvacuationAccepted, VerifiedPDB, ActiveKeys, VMIKey;
      bad := false;
      var migrating := ActiveByVMI(snapshot.migrations);
      for i := 0 to |snapshot.vmis|
        invariant At(Round(second, i, bad))
      {
        var v := snapshot.vmis[i];
        var e := Next();
        if v.blocked || VMIKey(v) in migrating { continue; }
        var verified := HasVerifiedPDB(v);
        if v.launcher.None? || !verified {
          bad := true;
          continue;
        }
        trace := Then(trace, DryRun(v, e.evict));
        if !EvacuationAccepted(e.evict, v) { bad := true; }
      }
    }

    /** First snapshot and preflight. */
    method LookFirst() returns (failed: Option<Error>)
      requires At(Preparing(FirstLook))
      modifies this`clock, this`trace, this`snapshot, this`nodeUid
      ensures failed.None? ==> At(Preparing(ConfirmFirst(0, false)))
      ensures failed.Some? ==> At(Leaving(failed))
    {
      hide StateAt, StepAcquire, StepRevalidate, StepPods, StepObserve, StepTrigger, StepJudge, StepRestore,
        StepRelease,
        Baselined, ConfirmOne, Preflighted, ContextError;
      var e := Next();
      if e.snap.Lost? { return Some(ContextError(e)); }
      snapshot, nodeUid := e.snap.value, e.snap.value.nodeUid;
      trace := Then(trace, Observed(Initial, snapshot));
      var ok := Preflight(snapshot, cfg.opts);
      if !ok { return Some(Operational()); }
      return None;
    }

    /** Dry runs, then the baseline of migrations that already exist. */
    method TakeBaseline() returns (failed: Option<Error>)
      requires At(Preparing(ConfirmFirst(0, false)))
      modifies this`clock, this`trace, this`baseline, this`cordonedByUs
      ensures failed.None? ==>
                At(if snapshot.unschedulable then Revalidating(SecondLook) else Preparing(SendCordon))
                && cordonedByUs == !snapshot.unschedulable
      ensures failed.Some? ==> At(Leaving(failed))
    {
      hide StateAt, StepAcquire, StepRevalidate, StepPods, StepObserve, StepTrigger, StepJudge, StepRestore,
        StepRelease,
        ConfirmOne, Preflighted, ContextError;
      var bad := ConfirmMigrations(false);
      var e := Next();
      if bad { return Some(ContextError(e)); }
      if e.broken { return Some(Operational()); }
      if e.listed.Lost? { return Some(ContextError(e)); }
      if e.interrupt { return Some(Interrupt()); }
      baseline := set m | m in e.listed.value :: m.uid;
      cordonedByUs := !snapshot.unschedulable;
      return None;
    }

    /** Cordons the node, unless it already was; an interrupt in between is undone at once. */
    method CordonNode() returns (failed: Option<Error>)
      requires At(Preparing(SendCordon))
      modifies this`clock, this`trace
      ensures failed.None? ==> At(Revalidating(SecondLook))
      ensures failed.Some? ==> At(Leaving(failed))
    {
      hide StateAt, StepAcquire, StepRevalidate, StepPods, StepObserve, StepTrigger, StepJudge, StepRestore,
        StepRelease, Baselined, ConfirmOne, Preflighted;
      var e := Next();
      trace := Then(trace, Cordon(e.ack.Acked?));
      if e.ack.Refused? { return Some(ContextError(e)); }
      if e.interrupt {
        var _, _ := RollbackCordon(CordonInterrupted);
        return Some(Interrupt());
      }
      if e.broken { return Some(Operational()); }
      return None;
    }

    /** Second snapshot and preflight, after the cordon. */
    method LookAgain() returns (ok: bool, e: Input)
      requires At(Revalidating(SecondLook))
      modifies this`clock, this`trace, this`snapshot
      ensures ok ==> At(Revalidating(ConfirmSecond(0, false)))
      ensures !ok ==> At(RecoverPc(cfg, Abs(Done(None)), e))
      ensures cordonedByUs == old(cordonedByUs)
    {
      hide StateAt, StepAcquire, StepPrepare, StepPods, StepObserve, StepTrigger, StepJudge, StepRestore, StepRelease,
        Preflighted, ConfirmOne, ContextError;
      e := Next();
      if e.snap.Lost? { return false, e; }
      snapshot := e.snap.value;
      trace := Then(trace, Observed(Revalidated, snapshot));
      ok := Preflight(snapshot, cfg.opts);
    }

    /** Repeats the checks on a snapshot taken after the cordon; a failure undoes our own cordon. */
    method RevalidateNode() returns (failed: Option<Error>)
      requires At(Revalidating(SecondLook))
      modifies this`clock, this`trace, this`snapshot
      ensures failed.None? ==> At(Evicting(Setup, 0, PodPoll))
      ensures failed.Some? ==> At(Leaving(failed))
    {
      hide StateAt, StepAcquire, StepPrepare, StepPods, StepObserve, StepTrigger, StepJudge, StepRestore, StepRelease,
        Preflighted, ConfirmOne, ContextError;
      var ok, e := LookAgain();
      if ok {
        var bad := ConfirmMigrations(true);
        e := Next();
        if !bad { return None; }
      }
      if cordonedByUs {
        var _, last := RollbackCordon(RevalidationFailed);
        e := last;
      }
      return Some(ContextError(e));
    }

    /** Evicts the eligible pods of the snapshot, polling for an interrupt before each. */
    method EvictPods(pass: Pass) returns (failed: Option<Error>, stopped: bool)
      requires At(Evicting(pass, 0, PodPoll))
      modifies this`clock, this`trace, this`interrupted
      ensures clock >= old(clock)
      ensures failed.Some? ==> At(Leaving(failed))
      ensures failed.None? && stopped ==> At(if pass.Setup? then Observing(DiscoverLimit) else Judging(Judge))
      ensures failed.None? && !stopped ==> At(Evicting(pass, |snapshot.pods|, PodPoll))
    {
      hide StateAt, StepAcquire, StepPrepare, StepRevalidate, StepObserve, StepTrigger, StepJudge, StepRestore,
        StepRelease, NormalEligible, Tolerable, FailPc, BeginTriggers;
      for i := 0 to |snapshot.pods|
        invariant clock >= old(clock) && At(Evicting(pass, i, PodPoll))
      {
        var e := Next();
        if e.interrupt {
          interrupted := true;
          return None, true;
        }
        if NormalEligible(snapshot.pods[i], cfg.opts) {
          failed := EvictNormal(pass, i);
          if failed.Some? { return failed, false; }
        }
      }
      return None, false;
    }

    /** One real eviction of a normal pod. */
    method EvictNormal(pass: Pass, i: nat) returns (failed: Option<Error>)
      requires i < |snapshot.pods| && At(Evicting(pass, i, PodEvict))
      modifies this`clock, this`trace
      ensures clock > old(clock)
      ensures failed.None? ==> At(Evicting(pass, i + 1, PodPoll))
      ensures failed.Some? ==> At(Leaving(failed))
    {
      hide StateAt, StepAcquire, StepPrepare, StepRevalidate, StepObserve, StepTrigger, StepJudge, StepRestore,
        StepRelease, NormalEligible, Tolerable, ContextError, BeginTriggers;
      var e := Next();
      trace := Then(trace, Evicted(snapshot.pods[i], cfg.opts.gracePeriod, e.evict));
      if !Tolerable(e.evict) || e.broken { return Some(ContextError(e)); }
      if pass.Setup? {
        e := Next();
        if e.broken { return Some(Operational()); }
      }
      return None;
    }

    /** Fixes the limit and starts the ledgers from the revalidated snapshot. */
    method StartLedgers()
      requires At(Observing(DiscoverLimit))
      modifies this`clock, this`limit, this`tracked, this`triggered, this`empty
      ensures At(Observing(LoopTop))
    {
      hide StateAt, StepAcquire, StepPrepare, StepRevalidate, StepPods, StepTrigger, StepJudge, StepRestore,
        StepRelease, Track, ActiveKeys, MergeFailed, NewlyFailed, WithinBudget, Preflighted,
        FailPc, ExitPc, DiscoveredLimit, EffectiveLimit;
      var e := Next();
      empty := 0;
      limit, tracked, triggered := Ledgers(e.limits, snapshot, cfg.opts);
    }

    /** Top of the loop: output, interrupt, deadline. */
    method PollLoop() returns (failed: Option<Error>)
      requires At(Observing(LoopTop))
      modifies this`clock, this`interrupted
      ensures clock == old(clock) + 1
      ensures failed.None? ==> At(Observing(LoopLook)) && !inputs(old(clock)).deadline
      ensures failed.Some? ==> At(Leaving(failed))
    {
      hide StateAt, StepAcquire, StepPrepare, StepRevalidate, StepPods, StepTrigger, StepJudge, StepRestore,
        StepRelease, Track, ActiveKeys, MergeFailed, NewlyFailed, WithinBudget, Preflighted;
      var e := Next();
      if e.broken { return Some(Operational()); }
      if e.interrupt && !interrupted { interrupted := true; }
      if e.deadline { return Some(if interrupted then Interrupt() else Timeout()); }
      return None;
    }

    /** One observation: snapshot, ledger of VMIs, safety recheck. */
    method Look() returns (failed: Option<Error>)
      requires At(Observing(LoopLook))
      modifies this`clock, this`trace, this`snapshot, this`tracked
      ensures failed.None? ==> At(Observing(Account)) && clock > old(clock)
      ensures failed.Some? ==> At(Leaving(failed))
    {
      hide StateAt, StepAcquire, StepPrepare, StepRevalidate, StepPods, StepTrigger, StepJudge, StepRestore,
        StepRelease, Track, ActiveKeys, MergeFailed, NewlyFailed, WithinBudget, Preflighted, ContextError;
      var e := Next();
      if e.snap.Lost? { return Some(ContextError(e)); }
      snapshot := e.snap.value;
      trace := Then(trace, Observed(Looped, snapshot));
      tracked := TrackVMIs(tracked, snapshot.vmis);
      if !interrupted {
        var ok := Preflight(snapshot, cfg.opts);
        if !ok { return Some(Operational()); }
      }
      return None;
    }

    /** Account for failed migrations and enforce the retry budget. */
    method AccountFailures() returns (failed: Option<Error>)
      requires At(Observing(Account))
      modifies this`clock, this`failedSeen, this`triggered
      ensures failed.None? ==> At(if interrupted then Judging(Judge) else Evicting(Loop, 0, PodPoll))
      ensures forall key :: key in triggered <==>
                key in old(triggered)
                && !exists m :: m in snapshot.migrations && m.failed && m.uid !in baseline
                                && m.namespace + "/" + m.vmiName == key
                                && !(key in old(failedSeen) && m.uid in old(failedSeen)[key])
      ensures failed.None? ==> clock > old(clock)
      ensures failed.Some? ==> At(Leaving(failed))
    {
      hide StateAt, StepAcquire, StepPrepare, StepRevalidate, StepPods, StepTrigger, StepJudge, StepRestore,
        StepRelease, Track, ActiveKeys, MergeFailed, NewlyFailed, WithinBudget, Preflighted,
        ContextError, MigrationKey, Pairs, NewPairs, IsNew;
      var e := Next();
      var now, newly := ObserveFailed(failedSeen, snapshot.migrations, baseline);
      NewlyFailedKeys(failedSeen, snapshot.migrations, baseline, newly);
      Freeing(failedSeen, snapshot.migrations, baseline);
      triggered := TakeOff(triggered, newly);
      failedSeen := now;
      var over := OverBudget(failedSeen, cfg.opts.retries);
      if over || e.broken { return Some(Operational()); }
      return None;
    }

    /** Counts what is in flight before the trigger pass. */
    method StartPass()
      requires At(Evicting(Loop, |snapshot.pods|, PodPoll))
      modifies this`clock, this`outstanding, this`active, this`passStart
      ensures clock > old(clock) && At(Triggering(0, TriggerPoll))
      ensures outstanding == |Meaning.ActiveEntries(snapshot)| + |Meaning.WaitingEntries(snapshot, triggered)|
    {
      hide StateAt, StepAcquire, StepPrepare, StepRevalidate, StepObserve, StepTrigger, StepJudge, StepRestore,
        StepRelease, NormalEligible, Outstanding, ActiveKeys, FailPc;
      var _ := Next();
      outstanding, active := OutstandingMigrations(snapshot, triggered);
      passStart := outstanding;
    }

    /** The trigger pass: request migrations up to the limit. */
    method TriggerVMIs() returns (failed: Option<Error>)
      requires At(Evicting(Loop, |snapshot.pods|, PodPoll))
      modifies this`clock, this`trace, this`interrupted, this`triggered, this`outstanding, this`active, this`passStart
      ensures clock >= old(clock)
      ensures failed.None? ==> At(Judging(Judge))
      ensures failed.Some? ==> At(Leaving(failed))
    {
      hide StateAt, StepAcquire, StepPrepare, StepRevalidate, StepObserve, StepJudge, StepRestore, StepRelease,
        StepPods, DryRunVMI, EvictVMI, VMIKey, FailPc, Leaving,
        EvacuationAccepted, ContextError, ExitPc;
      StartPass();
      for i := 0 to |snapshot.vmis|
        invariant clock >= old(clock) && At(Triggering(i, TriggerPoll))
      {
        var e := Next();
        if e.interrupt {
          interrupted := true;
          return None;
        }
        var v := snapshot.vmis[i];
        var key := VMIKey(v);
        if outstanding >= limit || key in triggered || key in active || v.launcher.None? { continue; }
        failed := TriggerVMI(i);
        if failed.Some? { return failed; }
      }
      var _ := Next();
      return None;
    }

    /** Dry run, then the real eviction. */
    method TriggerVMI(i: nat) returns (failed: Option<Error>)
      requires i < |snapshot.vmis| && At(Triggering(i, TriggerDryRun)) && snapshot.vmis[i].launcher.Some?
      modifies this`clock, this`trace, this`triggered, this`outstanding
      ensures clock > old(clock)
      ensures failed.None? ==> At(Triggering(i + 1, TriggerPoll))
      ensures failed.Some? ==> At(Leaving(failed))
    {
      hide StateAt, Step, At, Leaving;
      failed := ConfirmEvacuation(i);
      if failed.None? { failed := EvictLauncher(i); }
    }

    /** The real eviction, which KubeVirt must intercept; the request is booked. */
    method EvictLauncher(i: nat) returns (failed: Option<Error>)
      requires i < |snapshot.vmis| && At(Triggering(i, TriggerEvict))
      modifies this`clock, this`trace, this`triggered, this`outstanding
      ensures clock > old(clock)
      ensures failed.None? ==> At(Triggering(i + 1, TriggerPoll))
      ensures failed.None? ==>
                exists reply :: trace == Then(old(trace), Triggered(snapshot.vmis[i], -1, reply))
                                && Meaning.Confirms(reply, snapshot.vmis[i])
      ensures failed.Some? ==> At(Leaving(failed))
    {
      hide StateAt, StepAcquire, StepPrepare, StepRevalidate, StepPods, StepObserve, StepJudge, StepRestore,
        StepRelease, PollVMI, DryRunVMI, EvacuationAccepted, VMIKey, ContextError;
      var v := snapshot.vmis[i];
      var e := Next();
      trace := Then(trace, Triggered(v, -1, e.evict));
      if !EvacuationAccepted(e.evict, v) || e.broken { return Some(ContextError(e)); }
      triggered, outstanding := triggered + {VMIKey(v)}, outstanding + 1;
      Meaning.ConfirmsIs(e.evict, v);
      return None;
    }

    /** The dry run of one launcher eviction must draw KubeVirt's answer. */
    method ConfirmEvacuation(i: nat) returns (failed: Option<Error>)
      requires i < |snapshot.vmis| && At(Triggering(i, TriggerDryRun)) && snapshot.vmis[i].launcher.Some?
      modifies this`clock, this`trace
      ensures clock > old(clock)
      ensures failed.None? ==> At(Triggering(i, TriggerEvict))
      ensures failed.None? ==>
                exists reply :: trace == Then(old(trace), DryRun(snapshot.vmis[i], reply))
                                && Meaning.Confirms(reply, snapshot.vmis[i])
      ensures failed.Some? ==> At(Leaving(failed))
    {
      hide StateAt, StepAcquire, StepPrepare, StepRevalidate, StepPods, StepObserve, StepJudge, StepRestore,
        StepRelease, PollVMI, EvictVMI, EvacuationAccepted, VerifiedPDB, VMIKey, ContextError;
      var v := snapshot.vmis[i];
      var e := Next();
      if v.blocked { return Some(ContextError(e)); }
      var verified := HasVerifiedPDB(v);
      if !verified { return Some(ContextError(e)); }
      trace := Then(trace, DryRun(v, e.evict));
      Meaning.ConfirmsIs(e.evict, v);
      return if EvacuationAccepted(e.evict, v) then None else Some(ContextError(e));
    }

    /** Settles an interrupt, or counts a quiet snapshot. */
    method CountQuiet() returns (settled: bool)
      requires At(Judging(Judge))
      modifies this`clock, this`settledAbort, this`empty
      ensures clock > old(clock)
      ensures settled ==> At(Leaving(Some(Interrupt())))
      ensures !settled ==> At(if empty >= 3 then Judging(Machine.VerifyHotplug) else Judging(Sleep))
    {
      hide StateAt, StepAcquire, StepPrepare, StepRevalidate, StepPods, StepObserve, StepTrigger, StepRestore,
        StepRelease, Track, HasEligiblePods, SomeUnverifiable, AllSettled, CountActive, RepliesFor;
      var _ := Next();
      var moving := Active(snapshot.migrations);
      if interrupted && moving == 0 {
        if |snapshot.vmis| == 0 { settledAbort := true; }
        return true;
      }
      var busy := AnyEligiblePods(snapshot, cfg.opts);
      if |snapshot.vmis| == 0 && moving == 0 && !busy { empty := empty + 1; } else { empty := 0; }
      return false;
    }

    /** End of an iteration: settle an interrupt, count quiet snapshots, finish, or sleep. */
    method Settle() returns (done: bool, ret: Option<Error>)
      requires At(Judging(Judge))
      modifies this
      ensures clock > old(clock)
      ensures done ==> At(Leaving(ret))
      ensures !done ==> At(Observing(LoopTop))
    {
      hide StateAt, Step, Leaving, At;
      var settled := CountQuiet();
      if settled { return true, Some(Interrupt()); }
      if empty >= 3 {
        var verdict := VerifyHotplug();
        match verdict {
          case Broken => return true, Some(Operational());
          case Ready =>
            done, ret := Relist();
            return;
          case Pending =>
        }
      }
      Pause();
      return false, None;
    }

    /** The interval between two observations; an interrupt ends it early. */
    method Pause()
      requires At(Judging(Sleep))
      modifies this`clock, this`interrupted
      ensures clock > old(clock) && At(Observing(LoopTop))
    {
      hide StateAt, StepAcquire, StepPrepare, StepRevalidate, StepPods, StepObserve, StepTrigger, StepRestore,
        StepRelease,
        Track, Quiet, SomeUnverifiable, AllSettled, CountActive, RepliesFor, FailPc, ExitPc;
      var e := Next();
      if e.interrupt { interrupted := true; }
    }

    method VerifyHotplug() returns (verdict: Verdict)
      requires At(Judging(Machine.VerifyHotplug))
      modifies this`clock, this`trace
      ensures verdict == Broken ==> At(Leaving(Some(Operational())))
      ensures verdict == Ready ==> At(Judging(FinalLook))
      ensures verdict == Pending ==> At(Judging(Sleep))
      ensures clock > old(clock)
    {
      hide StateAt, StepAcquire, StepPrepare, StepRevalidate, StepPods, StepObserve, StepTrigger, StepRestore,
        StepRelease, Track, Quiet, SomeUnverifiable, AllSettled, CountActive;
      var e := Next();
      verdict := VerifyHotplugVolumes(tracked, e);
      trace := Then(trace, Verified(map u | u in tracked :: e.hotplug(u)));
    }

    /** The final relist: success, or back to observing. */
    method Relist() returns (done: bool, ret: Option<Error>)
      requires At(Judging(FinalLook))
      modifies this`clock, this`trace, this`tracked, this`empty
      ensures clock > old(clock)
      ensures done ==> At(Leaving(ret))
      ensures !done ==> At(Observing(LoopTop))
    {
      hide StateAt, StepAcquire, StepPrepare, StepRevalidate, StepPods, StepObserve, StepTrigger, StepRestore,
        StepRelease, Track, HasEligiblePods, SomeUnverifiable, AllSettled, CountActive, RepliesFor, ContextError, Quiet;
      var e := Next();
      if e.snap.Lost? { return true, Some(ContextError(e)); }
      var final := e.snap.value;
      trace := Then(trace, Observed(Final, final));
      tracked := TrackVMIs(tracked, final.vmis);
      var quiet := NothingLeft(final, cfg.opts);
      if !quiet {
        empty := 0;
        return false, None;
      }
      return true, if e.broken then Some(Operational()) else None;
    }

    /** The observation loop. */
    method ObserveUntilDone() returns (ret: Option<Error>)
      requires Timed() && At(Observing(LoopTop))
      modifies this
      ensures At(Leaving(ret))
    {
      hide StateAt, StepAcquire, StepPrepare, StepRevalidate, StepPods, StepObserve, StepTrigger, StepJudge,
        StepRestore, StepRelease, Step, At, Leaving;
      while true
        invariant At(Observing(LoopTop))
        decreases horizon - clock
      {
        ret := PollLoop();
        if ret.Some? { return; }
        ret := Look();
        if ret.Some? { return; }
        ret := AccountFailures();
        if ret.Some? { return; }
        if !interrupted {
          var stopped;
          ret, stopped := EvictPods(Loop);
          if ret.Some? { return; }
          if !stopped {
            ret := TriggerVMIs();
            if ret.Some? { return; }
          }
        }
        var done;
        done, ret := Settle();
        if done { return; }
      }
    }

    /** The setup pass over the pods; an interrupt only ends it early. */
    method EvictSetup() returns (failed: Option<Error>)
      requires At(Evicting(Setup, 0, PodPoll))
      modifies this`clock, this`trace, this`interrupted
      ensures failed.None? ==> At(Observing(DiscoverLimit))
      ensures failed.Some? ==> At(Leaving(failed))
    {
      hide StateAt, StepAcquire, StepPrepare, StepRevalidate, StepObserve, StepTrigger, StepJudge, StepRestore,
        StepRelease, NormalEligible, Tolerable, FailPc, ExitPc, BeginTriggers;
      var stopped;
      failed, stopped := EvictPods(Setup);
      if failed.None? && !stopped {
        var _ := Next();
      }
    }

    /** Everything between taking the lease and the deferred clean-up. */
    method Body() returns (ret: Option<Error>)
      requires Timed() && At(Preparing(FirstLook))
      modifies this
      ensures At(Leaving(ret))
    {
      hide StateAt, Step, At, Leaving;
      ret := LookFirst();
      if ret.Some? { return; }
      ret := TakeBaseline();
      if ret.Some? { return; }
      if !snapshot.unschedulable {
        ret := CordonNode();
        if ret.Some? { return; }
      }
      ret := RevalidateNode();
      if ret.Some? { return; }
      ret := EvictSetup();
      if ret.Some? { return; }
      StartLedgers();
      ret := ObserveUntilDone();
    }

    /** The first deferred action: an aborted run that settled restores scheduling, if asked to. */
    method RestoreOnAbort(ret: Option<Error>) returns (now: Option<Error>)
      requires At(Leaving(ret))
      modifies this`clock, this`trace
      ensures At(Releasing(now, None))
    {
      hide StateAt, Step;
      now := ret;
      if ret.Some? && interrupted && settledAbort && cfg.opts.abortUncordons && cordonedByUs {
        var restored, last := RollbackCordon(Aborted(ret.value));
        now := Some(if restored && !last.broken then ret.value else Wrap(ret));
      }
    }

    /** The last deferred action: give the lease back; a failure is reported only if nothing else failed. */
    method Release(ret: Option<Error>) returns (now: Option<Error>)
      requires At(Releasing(ret, None))
      modifies this`clock, this`trace
      ensures At(Done(now))
    {
      hide StateAt, StepAcquire, StepPrepare, StepRevalidate, StepPods, StepObserve, StepTrigger, StepJudge,
        StepRestore;
      now := ret;
      var e := Next();
      var done := e.lease.NoLease?;
      if e.lease.Found? && e.lease.holder == Some(cfg.runID) {
        e := Next();
        done := e.ack.Acked?;
      }
      if done { trace := Then(trace, Released); }
      else if ret.None? { now := Some(Operational()); }
    }

    /** The whole drain: it ends, and it ends where the machine ends. */
    method Drain() returns (ret: Option<Error>)
      requires Timed() && At(Acquiring(Start))
      modifies this
      ensures At(Done(ret))
      ensures Warranted(cfg, trace, ret)
    {
      hide StateAt, Step, Leaving, Warranted;
      ret := Acquire();
      if ret.None? {
        ret := Body();
        ret := RestoreOnAbort(ret);
        ret := Release(ret);
      }
      RunsAreWarranted(cfg, inputs, clock, ret);
    }
  }
}
