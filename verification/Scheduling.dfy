/** What becomes of the node: where a run leaves its scheduling, and what exit code 124 says of it. */
module Scheduling {
  import opened Common
  import opened Errors
  import opened Machine
  import opened Moves
  import opened Outcome
  import opened ApiServer
  import opened Cluster
  import opened Endings

  /** In this action a rollback of run `r` takes effect, acknowledged or not. */
  ghost predicate RollbackTakes(opts: map<string, Options>, w: World, a: Action, r: string) {
    && a.Advance? && a.run == r && a.applied && r in w.runs && r in opts
    && w.runs[r].pc.Restoring? && w.runs[r].pc.node.Some?
    && ApplyPatch(w.server.node, RollbackOps(w.runs[r].nodeUid, w.runs[r].pc.node.value, r)).Some?
  }

  /** It is the rollback after failed checks. */
  ghost predicate RecoveryTakes(opts: map<string, Options>, w: World, a: Action, r: string) {
    RollbackTakes(opts, w, a, r) && w.runs[r].pc.why.RevalidationFailed?
  }

  /** During the first `i` actions nobody else changes whether the node is schedulable. */
  ghost predicate Undisputed(ws: seq<World>, acts: seq<Action>, i: nat, r: string)
    requires |ws| == |acts| + 1 && i < |ws|
  {
    forall j :: 0 <= j < i ==>
      (acts[j].Advance? && acts[j].run == r)
      || ws[j + 1].server.node.unschedulable == ws[j].server.node.unschedulable
  }

  ghost predicate CordonTook(opts: map<string, Options>, ws: seq<World>, acts: seq<Action>, i: nat, r: string)
    requires |ws| == |acts| + 1 && i < |ws|
  {
    exists j :: 0 <= j < i && CordonTakes(opts, ws[j], acts[j], r)
  }

  ghost predicate RolledBack(opts: map<string, Options>, ws: seq<World>, acts: seq<Action>, i: nat, r: string)
    requires |ws| == |acts| + 1 && i < |ws|
  {
    exists j :: 0 <= j < i && RollbackTakes(opts, ws[j], acts[j], r)
  }

  ghost predicate Recovered(opts: map<string, Options>, ws: seq<World>, acts: seq<Action>, i: nat, r: string)
    requires |ws| == |acts| + 1 && i < |ws|
  {
    exists j :: 0 <= j < i && RecoveryTakes(opts, ws[j], acts[j], r)
  }

  // ---------------------------------------------------------------- one action

  lemma SchedulingStep(opts: map<string, Options>, w: World, a: Action, w': World, r: string)
    requires Next(opts, w, a, w') && r in w.runs
    requires (a.Advance? && a.run == r) || w'.server.node.unschedulable == w.server.node.unschedulable
    ensures r in w'.runs
    ensures w'.server.node.unschedulable
         == if CordonTakes(opts, w, a, r) then true
            else if RollbackTakes(opts, w, a, r) then false else w.server.node.unschedulable
    ensures CordonTakes(opts, w, a, r) ==> !Leaving(w.runs[r].pc)
    ensures RollbackTakes(opts, w, a, r) ==> Leaving(w.runs[r].pc)
    ensures Leaving(w.runs[r].pc) ==> Leaving(w'.runs[r].pc)
  {
    hide Step, ApplyPatch;
    if a.Advance? && a.run == r {
      var cfg, st := ConfigOf(opts, r), w.runs[r];
      if Leaving(st.pc) { LeavingStep(cfg, st, a.input); }
      if st.pc.Restoring? && st.pc.node.Some? {
        RollbackExact(w.server.node, st.nodeUid, st.pc.node.value, r);
      }
    }
  }

  // ---------------------------------------------------------------- whole executions

  /**
   As long as nobody else changes it, the node is unschedulable exactly if it was so at the start or the run's
   cordon took effect, and no rollback of the run took effect, whatever the run was told about either.
   */
  lemma {:induction false} SchedulingExact(
      opts: map<string, Options>, ws: seq<World>, acts: seq<Action>, i: nat, r: string)
    requires Execution(opts, ws, acts) && i < |ws| && r in ws[0].runs && Undisputed(ws, acts, i, r)
    ensures r in ws[i].runs
    ensures ws[i].server.node.unschedulable
            <==> (ws[0].server.node.unschedulable || CordonTook(opts, ws, acts, i, r))
                 && !RolledBack(opts, ws, acts, i, r)
    ensures RolledBack(opts, ws, acts, i, r) ==> Leaving(ws[i].runs[r].pc)
  {
    hide CordonTakes, RollbackTakes;
    if i > 0 {
      SchedulingExact(opts, ws, acts, i - 1, r);
      assert Next(opts, ws[i - 1], acts[i - 1], ws[i]);
      SchedulingStep(opts, ws[i - 1], acts[i - 1], ws[i], r);
      OneMore(opts, ws, acts, i - 1, r);
    }
  }

  lemma OneMore(opts: map<string, Options>, ws: seq<World>, acts: seq<Action>, i: nat, r: string)
    requires |ws| == |acts| + 1 && i < |acts|
    ensures CordonTook(opts, ws, acts, i + 1, r)
            <==> CordonTook(opts, ws, acts, i, r) || CordonTakes(opts, ws[i], acts[i], r)
    ensures RolledBack(opts, ws, acts, i + 1, r)
            <==> RolledBack(opts, ws, acts, i, r) || RollbackTakes(opts, ws[i], acts[i], r)
  {
    hide CordonTakes, RollbackTakes;
  }

  lemma {:induction false} CodingAlways(
      opts: map<string, Options>, ws: seq<World>, acts: seq<Action>, i: nat, r: string)
    requires Execution(opts, ws, acts) && i < |ws| && r in ws[0].runs && r in opts
    ensures r in ws[i].runs && Coding(ConfigOf(opts, r), ws[i].runs[r])
  {
    hide Coding, Step;
    if i == 0 {
      CodingInit(ConfigOf(opts, r));
    } else {
      CodingAlways(opts, ws, acts, i - 1, r);
      var a := acts[i - 1];
      assert Next(opts, ws[i - 1], a, ws[i]);
      if a.Advance? && a.run == r { CodingStep(ConfigOf(opts, r), ws[i - 1].runs[r], a.input); }
    }
  }

  /** Once a run is leaving with an exit code, it ends with it. */
  lemma {:induction false} LeavesAlways(
      opts: map<string, Options>, ws: seq<World>, acts: seq<Action>, j: nat, i: nat, r: string, code: int)
    requires Execution(opts, ws, acts) && j <= i < |ws| && r in ws[j].runs && LeavesWith(ws[j].runs[r].pc, code)
    ensures r in ws[i].runs && LeavesWith(ws[i].runs[r].pc, code)
    decreases i
  {
    hide LeavesWith, Step;
    if j < i {
      LeavesAlways(opts, ws, acts, j, i - 1, r, code);
      var a := acts[i - 1];
      assert Next(opts, ws[i - 1], a, ws[i]);
      if a.Advance? && a.run == r { LeavesStep(ConfigOf(opts, r), ws[i - 1].runs[r], a.input, code); }
    }
  }

  /** A rollback that is not for failed checks makes the run end with 130. */
  lemma OtherRollbacksInterrupt(
      opts: map<string, Options>, ws: seq<World>, acts: seq<Action>, j: nat, i: nat, r: string)
    requires Execution(opts, ws, acts) && j < i < |ws| && r in ws[0].runs
    requires RollbackTakes(opts, ws[j], acts[j], r) && !ws[j].runs[r].pc.why.RevalidationFailed?
    ensures r in ws[i].runs && LeavesWith(ws[i].runs[r].pc, INTERRUPTED)
  {
    hide Step, Coding, LeavesWith;
    CodingAlways(opts, ws, acts, j, r);
    assert Next(opts, ws[j], acts[j], ws[j + 1]);
    InterruptedRestore(ConfigOf(opts, r), ws[j].runs[r], acts[j].input);
    LeavesAlways(opts, ws, acts, j + 1, i, r, INTERRUPTED);
  }

  /**
   Exit code 124 and the node, as long as nobody else changes its scheduling: it is unschedulable if and only if
   it was so at the start or the run's cordon took effect, and the run did not undo it after failed checks.
   Effects count whether or not their replies arrived.
   */
  lemma TimeoutScheduling(opts: map<string, Options>, ws: seq<World>, acts: seq<Action>, i: nat, r: string)
    requires Execution(opts, ws, acts) && i < |ws| && r in ws[0].runs && Undisputed(ws, acts, i, r)
    requires r in ws[i].runs && ws[i].runs[r].pc.Done? && CodeOf(ws[i].runs[r].pc.ret) == TIMEOUT
    ensures ws[i].server.node.unschedulable
            <==> (ws[0].server.node.unschedulable || CordonTook(opts, ws, acts, i, r))
                 && !Recovered(opts, ws, acts, i, r)
  {
    hide CordonTakes, RollbackTakes, Next, CodeOf;
    SchedulingExact(opts, ws, acts, i, r);
    forall j | 0 <= j < i && RollbackTakes(opts, ws[j], acts[j], r) ensures RecoveryTakes(opts, ws[j], acts[j], r) {
      if !RecoveryTakes(opts, ws[j], acts[j], r) { OtherRollbacksInterrupt(opts, ws, acts, j, i, r); }
    }
  }

  // ---------------------------------------------------------------- a run on its own

  /** The server under a single run, whose requests take effect as `applied` says. */
  function ServerAt(cfg: Config, inputs: nat -> Input, applied: nat -> bool, start: Server, t: nat): Server {
    if t == 0 then start
    else
      var s := ServerAt(cfg, inputs, applied, start, t - 1);
      if applied(t - 1) then Effect(cfg, StateAt(cfg, inputs, t - 1), s) else s
  }

  function WorldAt(cfg: Config, inputs: nat -> Input, applied: nat -> bool, start: Server, t: nat): World {
    World(ServerAt(cfg, inputs, applied, start, t), map[cfg.runID := StateAt(cfg, inputs, t)])
  }

  function Worlds(cfg: Config, inputs: nat -> Input, applied: nat -> bool, start: Server, n: nat): seq<World> {
    seq(n + 1, (t: nat) => WorldAt(cfg, inputs, applied, start, t))
  }

  function Actions(cfg: Config, inputs: nat -> Input, applied: nat -> bool, n: nat): seq<Action> {
    seq(n, (t: nat) => Advance(cfg.runID, inputs(t), applied(t)))
  }

  /** Honest answers make a run on its own an execution. */
  lemma SoloExecution(cfg: Config, inputs: nat -> Input, applied: nat -> bool, start: Server, n: nat)
    requires start.lease.None? && start.log == Origin(start.node.owner)
    requires forall t: nat :: t < n ==>
               Honest(cfg, StateAt(cfg, inputs, t), ServerAt(cfg, inputs, applied, start, t), inputs(t), applied(t))
    ensures Execution(map[cfg.runID := cfg.opts], Worlds(cfg, inputs, applied, start, n),
                      Actions(cfg, inputs, applied, n))
  {
    hide Honest, Next, WorldAt, StateAt, ServerAt, Step, Effect;
    SoloStarts(cfg, inputs, applied, start);
    var opts := map[cfg.runID := cfg.opts];
    var ws, acts := Worlds(cfg, inputs, applied, start, n), Actions(cfg, inputs, applied, n);
    forall t | 0 <= t < n ensures Next(opts, ws[t], acts[t], ws[t + 1]) {
      SoloStep(cfg, inputs, applied, start, t);
    }
  }

  lemma SoloStarts(cfg: Config, inputs: nat -> Input, applied: nat -> bool, start: Server)
    ensures WorldAt(cfg, inputs, applied, start, 0) == World(start, map[cfg.runID := Init()])
  {}

  lemma SoloStep(cfg: Config, inputs: nat -> Input, applied: nat -> bool, start: Server, t: nat)
    requires Honest(cfg, StateAt(cfg, inputs, t), ServerAt(cfg, inputs, applied, start, t), inputs(t), applied(t))
    ensures Next(map[cfg.runID := cfg.opts], WorldAt(cfg, inputs, applied, start, t),
                 Advance(cfg.runID, inputs(t), applied(t)), WorldAt(cfg, inputs, applied, start, t + 1))
  {
    hide Step, Honest, Effect;
    var w, w' := WorldAt(cfg, inputs, applied, start, t), WorldAt(cfg, inputs, applied, start, t + 1);
    assert w'.runs == w.runs[cfg.runID := Step(cfg, StateAt(cfg, inputs, t), inputs(t))];
  }

  // ---------------------------------------------------------------- runs that time out

  /** A schedulable node, unowned, without a lease. */
  const START := Server(None, NodeObject("", 0, false, None), 1, Origin(None))

  const TIMED_OUT: Pc := Done(Some(Timeout()))

  /** The `t`-th step leads from `st` and `s` to `after` and `then_`, honestly. */
  ghost predicate Leads(
      cfg: Config, inputs: nat -> Input, t: nat, st: State, s: Server, after: State, then_: Server)
  {
    Step(cfg, st, inputs(t)) == after && Effect(cfg, st, s) == then_ && Honest(cfg, st, s, inputs(t), true)
  }

  ghost predicate Reaches(cfg: Config, inputs: nat -> Input, t: nat, st: State, s: Server) {
    && StateAt(cfg, inputs, t) == st && ServerAt(cfg, inputs, _ => true, START, t) == s
    && forall u: nat :: u < t ==>
         Honest(cfg, StateAt(cfg, inputs, u), ServerAt(cfg, inputs, _ => true, START, u), inputs(u), true)
  }

  lemma Starts(cfg: Config, inputs: nat -> Input)
    ensures Reaches(cfg, inputs, 0, Init(), START)
  {}

  lemma Follows(
      cfg: Config, inputs: nat -> Input, t: nat, st: State, s: Server, after: State, then_: Server)
    requires Reaches(cfg, inputs, t, st, s) && Leads(cfg, inputs, t, st, s, after, then_)
    ensures Reaches(cfg, inputs, t + 1, after, then_)
  {
    hide Step, Honest, Effect;
  }

  lemma ReachedWorld(cfg: Config, inputs: nat -> Input, t: nat, st: State, s: Server)
    requires Reaches(cfg, inputs, t, st, s)
    ensures WorldAt(cfg, inputs, _ => true, START, t) == World(s, map[cfg.runID := st])
  {}

  /** The execution behind such a run. */
  lemma ReachedWorlds(cfg: Config, inputs: nat -> Input, n: nat, st: State, s: Server)
    returns (ws: seq<World>, acts: seq<Action>)
    requires Reaches(cfg, inputs, n, st, s)
    ensures Execution(map[cfg.runID := cfg.opts], ws, acts) && |ws| == n + 1
    ensures forall t: nat :: t <= n ==> ws[t] == WorldAt(cfg, inputs, _ => true, START, t)
  {
    hide Honest, StateAt, ServerAt, Execution, WorldAt;
    SoloExecution(cfg, inputs, _ => true, START, n);
    ws, acts := Worlds(cfg, inputs, _ => true, START, n), Actions(cfg, inputs, _ => true, n);
  }

  /** The deadline passes after the cordon; `acked` says whether the reply to the rollback arrives. */
  function LateInput(run: string, acked: bool, t: nat): Input {
    Input(false, t >= 5, false, if t == 7 && !acked then Refused else Acked, Created, Found(1, 1, Some(run)), Got(2),
          if t == 5 then Lost else Got(NOTHING), Got([]), Accepted, Lost, _ => Gone)
  }

  function LateInputs(run: string, acked: bool): nat -> Input { (t: nat) => LateInput(run, acked, t) }

  /** That run once its cordon was acknowledged. */
  function LateCordon(): State {
    var seen := Then(Then(Empty, Acquired), Observed(Initial, NOTHING));
    Init().(trace := Then(seen, Cordon(true)), cordonedByUs := true, pc := Revalidating(SecondLook))
  }

  function Leased(run: string): Server { START.(lease := Some(Lease(1, 1, Some(run))), next := 2) }

  function LateServer(run: string): Server {
    Leased(run).(node := NodeObject("", 2, true, Some(run)), next := 3, log := Wrote(Origin(None), CordonedBy(run)))
  }

  lemma ReachesLateCordon(cfg: Config, acked: bool)
    requires ValidOptions(cfg.opts)
    ensures Reaches(cfg, LateInputs(cfg.runID, acked), 5, LateCordon(), LateServer(cfg.runID))
  {
    hide Reaches, StepRevalidate, StepPods, StepObserve, StepTrigger, StepJudge, StepRestore, StepRelease;
    var run := cfg.runID;
    var inputs := LateInputs(run, acked);
    var st1 := Init().(pc := Acquiring(CreateLease));
    var st2 := st1.(trace := Then(Empty, Acquired), pc := Preparing(FirstLook));
    var st3 := st2.(trace := Then(st2.trace, Observed(Initial, NOTHING)), pc := Preparing(ConfirmFirst(0, false)));
    var st4 := st3.(cordonedByUs := true, pc := Preparing(SendCordon));
    Starts(cfg, inputs);
    Follows(cfg, inputs, 0, Init(), START, st1, START);
    Follows(cfg, inputs, 1, st1, START, st2, Leased(run));
    Follows(cfg, inputs, 2, st2, Leased(run), st3, Leased(run));
    Follows(cfg, inputs, 3, st3, Leased(run), st4, Leased(run));
    Follows(cfg, inputs, 4, st4, Leased(run), LateCordon(), LateServer(run));
  }

  /**
   An execution in which a run cordons a schedulable node, times out at its second look, rolls back, and exits with
   124: the node is schedulable, and the run need not even know it.
   */
  lemma TimeoutCanRestore(cfg: Config, acked: bool) returns (ws: seq<World>, acts: seq<Action>)
    requires ValidOptions(cfg.opts)
    ensures Execution(map[cfg.runID := cfg.opts], ws, acts) && |ws| == 11 && cfg.runID in ws[10].runs
    ensures !ws[0].server.node.unschedulable && ws[5].server.node.unschedulable
    ensures !ws[10].server.node.unschedulable && ws[10].runs[cfg.runID].pc == TIMED_OUT
    ensures ws[10].runs[cfg.runID].trace.Then? && ws[10].runs[cfg.runID].trace.past.Then?
    ensures ws[10].runs[cfg.runID].trace.past.ev == Restore(acked)
  {
    hide Reaches, StateAt, ServerAt, StepAcquire, StepPrepare, StepPods, StepObserve, StepTrigger, StepJudge, Execution,
      WorldAt;
    var run := cfg.runID;
    var inputs := LateInputs(run, acked);
    var held := LateServer(run);
    var st6 := LateCordon().(pc := Restoring(RevalidationFailed, None));
    var st7 := st6.(pc := Restoring(RevalidationFailed, Some(2)));
    var st8 := st7.(trace := Then(st7.trace, Restore(acked)), pc := Releasing(Some(Timeout()), None));
    var st9 := st8.(pc := Releasing(Some(Timeout()), Some(LeaseId(1, 1))));
    var freed := held.(node := NodeObject("", 3, false, None), next := 4, log := Wrote(held.log, RestoredBy(run)));
    ReachesLateCordon(cfg, acked);
    Follows(cfg, inputs, 5, LateCordon(), held, st6, held);
    Follows(cfg, inputs, 6, st6, held, st7, held);
    RollbackExact(held.node, "", 2, run);
    Follows(cfg, inputs, 7, st7, held, st8, freed);
    Follows(cfg, inputs, 8, st8, freed, st9, freed);
    var last := st9.(trace := Then(st9.trace, Released), pc := TIMED_OUT);
    Follows(cfg, inputs, 9, st9, freed, last, freed.(lease := None));
    Starts(cfg, inputs);
    ws, acts := ReachedWorlds(cfg, inputs, 10, last, freed.(lease := None));
    ReachedWorld(cfg, inputs, 0, Init(), START);
    ReachedWorld(cfg, inputs, 5, LateCordon(), held);
    ReachedWorld(cfg, inputs, 10, last, freed.(lease := None));
  }

  /** The deadline passes during the first snapshot. */
  function EarlyInputs(run: string): nat -> Input {
    (t: nat) => LateInput(run, true, t).(deadline := t >= 2, snap := if t >= 2 then Lost else Got(NOTHING))
  }

  /** An execution in which a run exits with 124 and the node was never cordoned at all. */
  lemma TimeoutBeforeCordon(cfg: Config) returns (ws: seq<World>, acts: seq<Action>)
    requires ValidOptions(cfg.opts)
    ensures Execution(map[cfg.runID := cfg.opts], ws, acts) && |ws| == 6 && cfg.runID in ws[5].runs
    ensures ws[5].runs[cfg.runID].pc == TIMED_OUT && ws[5].server.node == START.node
    ensures ws[5].runs[cfg.runID].trace == Then(Then(Empty, Acquired), Released)
  {
    hide Reaches, StepRevalidate, StepPods, StepObserve, StepTrigger, StepJudge, StepRestore, Execution, WorldAt;
    var run := cfg.runID;
    var inputs := EarlyInputs(run);
    var st1 := Init().(pc := Acquiring(CreateLease));
    var st2 := st1.(trace := Then(Empty, Acquired), pc := Preparing(FirstLook));
    var st3 := st2.(pc := Releasing(Some(Timeout()), None));
    var st4 := st2.(pc := Releasing(Some(Timeout()), Some(LeaseId(1, 1))));
    var last := st2.(trace := Then(st2.trace, Released), pc := TIMED_OUT);
    Starts(cfg, inputs);
    Follows(cfg, inputs, 0, Init(), START, st1, START);
    Follows(cfg, inputs, 1, st1, START, st2, Leased(run));
    Follows(cfg, inputs, 2, st2, Leased(run), st3, Leased(run));
    Follows(cfg, inputs, 3, st3, Leased(run), st4, Leased(run));
    Follows(cfg, inputs, 4, st4, Leased(run), last, Leased(run).(lease := None));
    ws, acts := ReachedWorlds(cfg, inputs, 5, last, Leased(run).(lease := None));
    ReachedWorld(cfg, inputs, 5, last, Leased(run).(lease := None));
  }
}
