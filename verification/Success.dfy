/** What exit code 0 proves about the node, and where the code promises less than it seems to. */
module Success {
  import opened Common
  import opened Errors
  import opened Kube
  import opened Hotplug
  import opened Machine
  import opened History
  import opened Outcome
  import opened Accounts
  import opened Meaning

  /** Only pods that a drain may ignore are left. */
  predicate OnlyIgnored(s: Snapshot) {
    s.vmis == [] && forall p :: p in s.pods ==> p.ignored && !p.launcher && !p.hotplug
  }

  /** A quiet snapshot that passes preflight holds ignored pods only. */
  lemma QuietLeavesOnlyIgnored(s: Snapshot, opts: Options)
    requires Quiet(s, opts)
    ensures Preflighted(s, opts) <==> OnlyIgnored(s)
  {
    if Preflighted(s, opts) {
      forall p | p in s.pods ensures p.ignored && !p.launcher && !p.hotplug {
        assert !NormalEligible(p, opts);
      }
    }
  }

  /** VMI `u` was gone when last verified, or each of the volumes `names` was ready where it ran. */
  predicate VMISettled(u: string, names: set<string>, reply: HotplugReply) {
    reply.Gone? || (reply.Read? && reply.vmi.uid == u
      && forall n :: n in names ==>
           AttachedOn(reply.vmi, reply.pods, reply.vmi.nodeName, n)
           && VolumeReady(reply.vmi, reply.pods, reply.vmi.nodeName, n))
  }

  lemma SettledBySightings(tracked: map<string, Tracked>, tr: Trace, checked: Trace)
    requires Balanced(tracked, tr) && HotplugProven(tracked, checked)
    ensures forall u :: u in UidsIn(tr) ==>
              u in checked.ev.replies && VMISettled(u, NamesIn(tr, u), checked.ev.replies[u])
  {
    hide VolumeReady, AttachedOn;
    forall u | u in UidsIn(tr)
      ensures u in checked.ev.replies && VMISettled(u, NamesIn(tr, u), checked.ev.replies[u])
    {
      var reply := checked.ev.replies[u];
      if reply.Read? {
        forall n | n in NamesIn(tr, u) ensures AttachedOn(reply.vmi, reply.pods, reply.vmi.nodeName, n) {
          ReadyNeeds(reply.vmi, reply.pods, reply.vmi.nodeName, n);
        }
      }
    }
  }

  /** The three newest of `snaps` were quiet, passed preflight, and held only ignored pods. */
  predicate ThreeQuiet(cfg: Config, snaps: seq<Snapshot>) {
    && |snaps| >= 3
    && forall j :: |snaps| - 3 <= j < |snaps| ==>
         && Quiet(snaps[j], cfg.opts) && Preflighted(snaps[j], cfg.opts)
         && OnlyIgnored(snaps[j]) && NothingMoves(snaps[j])
  }

  /** No migration off the node is active. */
  predicate NothingMoves(s: Snapshot) { forall m :: m in s.migrations ==> !m.active }

  /** No VMI, and no pod that hosts one or attaches a volume. */
  predicate NothingHosted(s: Snapshot) { s.vmis == [] && forall p :: p in s.pods ==> !p.launcher && !p.hotplug }

  /**
   The lease was released or already absent; just before, a final relist was quiet; just before that, every
   VMI seen after the cordon step was verified as gone or fully attached; and the loop ended with three
   quiet snapshots in a row.
   */
  predicate SoundHistory(cfg: Config, tr: Trace) {
    && tr.Then? && tr.ev.Released?
    && tr.past.Then? && tr.past.ev.Observed? && tr.past.ev.look.Final? && Quiet(tr.past.ev.snap, cfg.opts)
    && NothingHosted(tr.past.ev.snap) && NothingMoves(tr.past.ev.snap)
    && tr.past.past.Then? && tr.past.past.ev.Verified?
    && (forall u :: u in UidsIn(tr) ==>
          u in tr.past.past.ev.replies && VMISettled(u, NamesIn(tr, u), tr.past.past.ev.replies[u]))
    && ThreeQuiet(cfg, LoopSnapshots(tr))
  }

  /** A run that returns nil was never interrupted, and its history is sound. */
  lemma SuccessIsSound(cfg: Config, inputs: nat -> Input, t: nat)
    requires StateAt(cfg, inputs, t).pc == Done(None)
    ensures !StateAt(cfg, inputs, t).interrupted
    ensures SoundHistory(cfg, StateAt(cfg, inputs, t).trace)
  {
    hide Step, SoundHistory, Concluding, Tracking;
    ConcludingRun(cfg, inputs, t);
    TrackingRun(cfg, inputs, t);
    SoundEnd(cfg, StateAt(cfg, inputs, t));
  }

  /**
   The final verification covers exactly the VMIs seen after the cordon step, so that every VMI of the first
   snapshot is covered if and only if each of them was seen again.
   */
  lemma VerifiesWhatItSawLater(cfg: Config, inputs: nat -> Input, t: nat)
    requires StateAt(cfg, inputs, t).pc == Done(None)
    ensures var tr := StateAt(cfg, inputs, t).trace;
            && tr.Then? && tr.past.Then? && tr.past.past.Then? && tr.past.past.ev.Verified?
            && tr.past.past.ev.replies.Keys == UidsIn(tr)
  {
    hide StateAt, Step, Concluding, Tracking;
    ConcludingRun(cfg, inputs, t);
    TrackingRun(cfg, inputs, t);
    CoveredEnd(cfg, StateAt(cfg, inputs, t));
  }

  lemma CoveredEnd(cfg: Config, st: State)
    requires st.pc == Done(None) && Concluding(cfg, st) && Tracking(st)
    ensures var tr := st.trace;
            && tr.Then? && tr.past.Then? && tr.past.past.Then? && tr.past.past.ev.Verified?
            && tr.past.past.ev.replies.Keys == UidsIn(tr)
  {
    hide Quiet, Preflighted, NamesIn, UidsIn;
  }

  lemma SoundEnd(cfg: Config, st: State)
    requires st.pc == Done(None) && Concluding(cfg, st) && Tracking(st)
    ensures !st.interrupted && SoundHistory(cfg, st.trace)
  {
    hide Quiet, Preflighted, OnlyIgnored, VMISettled, NamesIn, UidsIn, Balanced;
    var tr := st.trace;
    SettledBySightings(st.tracked, tr, tr.past.past);
    var snaps := LoopSnapshots(tr);
    assert snaps == LoopSnapshots(tr.past) == LoopSnapshots(tr.past.past);
    forall j | |snaps| - 3 <= j < |snaps| ensures OnlyIgnored(snaps[j]) && NothingMoves(snaps[j]) {
      QuietLeavesOnlyIgnored(snaps[j], cfg.opts);
      QuietIs(snaps[j], cfg.opts);
    }
    QuietIs(tr.past.ev.snap, cfg.opts);
  }

  // ---------------------------------------------------------------- exit codes

  /** Exit codes of finished runs: 0 for nil only, 2 for bad options only, else 1, 124 or 130. */
  lemma ExitCodes(cfg: Config, inputs: nat -> Input, t: nat)
    requires StateAt(cfg, inputs, t).pc.Done?
    ensures var code := CodeOf(StateAt(cfg, inputs, t).pc.ret);
            && (code == 0 <==> StateAt(cfg, inputs, t).pc.ret.None?)
            && (code == 2 <==> cfg.opts.timeout < 1 || cfg.opts.retries < 0 || cfg.opts.parallelOutbound < 0)
            && code in {0, 1, 2, 124, 130}
  {
    hide Step;
    CodingRun(cfg, inputs, t);
  }

  /** When the abort restore ran, wrapping it may have needed does not change the exit code. */
  lemma SettledAbortExits130(cfg: Config, inputs: nat -> Input, t: nat)
    requires StateAt(cfg, inputs, t).pc.Done? && StateAt(cfg, inputs, t).settledAbort
    ensures CodeOf(StateAt(cfg, inputs, t).pc.ret) == 130
  {
    hide Step;
    CodingRun(cfg, inputs, t);
  }
}
