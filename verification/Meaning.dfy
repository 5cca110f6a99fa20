/**
 What the drain's tests and counts say of the objects, spelled out: no statement here uses the definition that it is
 about, or another one that the machine shares.
 */
module Meaning {
  import opened Common
  import opened Errors
  import opened Kube
  import opened Machine

  // ---------------------------------------------------------------- counting migrations

  /** Where the snapshot lists an active migration. */
  function ActiveEntries(s: Snapshot): set<nat> { set i: nat | i < |s.migrations| && s.migrations[i].active }

  /** Where it lists a VMI that was asked to migrate and is in none of the active migrations. */
  function WaitingEntries(s: Snapshot, asked: set<string>): set<nat> {
    set i: nat | i < |s.vmis| && s.vmis[i].vmi.namespace + "/" + s.vmis[i].vmi.name in asked && MovesNowhere(s, i)
  }

  predicate MovesNowhere(s: Snapshot, i: nat)
    requires i < |s.vmis|
  {
    forall m :: m in s.migrations && m.active ==>
      m.namespace + "/" + m.vmiName != s.vmis[i].vmi.namespace + "/" + s.vmis[i].vmi.name
  }

  function ActiveIn(ms: seq<MigrationInfo>): set<nat> { set i: nat | i < |ms| && ms[i].active }

  lemma {:induction false} CountActiveIs(ms: seq<MigrationInfo>)
    ensures CountActive(ms) == |ActiveIn(ms)|
  {
    if ms == [] {
      assert ActiveIn(ms) == {};
    } else {
      var n := |ms| - 1;
      CountActiveIs(ms[..n]);
      var front, last := ActiveIn(ms[..n]), if ms[n].active then {n} else {};
      assert ActiveIn(ms) == front + last && front !! last;
      assert |last| == if ms[n].active then 1 else 0;
    }
  }

  lemma {:induction false} NoneActiveIs(ms: seq<MigrationInfo>)
    ensures CountActive(ms) == 0 <==> forall m :: m in ms ==> !m.active
  {
    if ms != [] {
      var n := |ms| - 1;
      NoneActiveIs(ms[..n]);
      assert ms == ms[..n] + [ms[n]];
    }
  }

  function KeysAt(vmis: seq<VMIInfo>, keys: set<string>): set<nat> {
    set i: nat | i < |vmis| && vmis[i].vmi.namespace + "/" + vmis[i].vmi.name in keys
  }

  lemma {:induction false} CountInIs(vmis: seq<VMIInfo>, keys: set<string>)
    ensures CountIn(vmis, keys) == |KeysAt(vmis, keys)|
  {
    if vmis == [] {
      assert KeysAt(vmis, keys) == {};
    } else {
      var n := |vmis| - 1;
      CountInIs(vmis[..n], keys);
      var front, last := KeysAt(vmis[..n], keys), if VMIKey(vmis[n]) in keys then {n} else {};
      assert KeysAt(vmis, keys) == front + last && front !! last;
      assert |last| == if VMIKey(vmis[n]) in keys then 1 else 0;
    }
  }

  /** What is outstanding: the active migrations, and the VMIs asked to migrate that are in none of them. */
  lemma OutstandingIs(s: Snapshot, asked: set<string>)
    ensures Outstanding(s, asked) == |ActiveEntries(s)| + |WaitingEntries(s, asked)|
  {
    CountActiveIs(s.migrations);
    CountInIs(s.vmis, asked - ActiveKeys(s.migrations));
    var at := KeysAt(s.vmis, asked - ActiveKeys(s.migrations));
    forall i: nat | i < |s.vmis| ensures i in at <==> i in WaitingEntries(s, asked) {
      MigratingIs(s.migrations, s.vmis[i].vmi.namespace + "/" + s.vmis[i].vmi.name);
    }
    assert at == WaitingEntries(s, asked) && ActiveEntries(s) == ActiveIn(s.migrations);
  }

  /** A key belongs to a migrating VMI exactly when some active migration names that namespace and VMI. */
  lemma MigratingIs(ms: seq<MigrationInfo>, key: string)
    ensures key in ActiveKeys(ms) <==> exists m :: m in ms && m.active && m.namespace + "/" + m.vmiName == key
  {
    if key in ActiveKeys(ms) {
      var m :| m in ms && m.active && MigrationKey(m) == key;
      assert m.namespace + "/" + m.vmiName == key;
    }
    forall m | m in ms && m.active && m.namespace + "/" + m.vmiName == key ensures key in ActiveKeys(ms) {
      assert MigrationKey(m) == key;
    }
  }

  // ---------------------------------------------------------------- pods

  lemma PreflightIs(s: Snapshot, opts: Options)
    ensures Preflighted(s, opts)
            <==> (forall v :: v in s.vmis ==> !v.blocked)
                 && forall p :: p in s.pods ==>
                      || p.launcher || p.hotplug || p.ignored
                      || (!p.unverifiedLauncher
                          && (p.managed || opts.force) && (!p.emptyDir || opts.deleteEmptyDirData))
  {}

  lemma EligibleIs(p: PodInfo, opts: Options)
    ensures NormalEligible(p, opts)
            <==> && !p.launcher && !p.hotplug && !p.ignored && !p.unverifiedLauncher
                 && (opts.force || p.managed) && (opts.deleteEmptyDirData || !p.emptyDir)
  {}

  /** A quiet snapshot has no VMI, nothing moving, and no pod that hosts or attaches, or that would be evicted. */
  lemma QuietIs(s: Snapshot, opts: Options)
    ensures Quiet(s, opts)
            <==> && s.vmis == [] && (forall m :: m in s.migrations ==> !m.active)
                 && forall p :: p in s.pods ==>
                      && !p.launcher && !p.hotplug
                      && (p.ignored || p.unverifiedLauncher || (!p.managed && !opts.force)
                          || (p.emptyDir && !opts.deleteEmptyDirData))
  {
    NoneActiveIs(s.migrations);
    forall p ensures NormalEligible(p, opts)
            <==> && !p.launcher && !p.hotplug && !p.ignored && !p.unverifiedLauncher
                 && (opts.force || p.managed) && (opts.deleteEmptyDirData || !p.emptyDir) { EligibleIs(p, opts); }
    hide NormalEligible, CountActive;
  }

  // ---------------------------------------------------------------- eviction answers

  /** KubeVirt's answer: status 429, and somewhere in the message the words that name this VMI. */
  lemma EvacuationIs(reply: EvictReply, v: VMIInfo)
    ensures var words := "Eviction triggered evacuation of VMI \"" + v.vmi.namespace + "/" + v.vmi.name + "\"";
            EvacuationAccepted(reply, v)
            <==> reply.Rejected? && reply.status == TooManyRequests
                 && exists before: string, after: string :: reply.message == before + words + after
  {
    var words := "Eviction triggered evacuation of VMI \"" + v.vmi.namespace + "/" + v.vmi.name + "\"";
    assert words == EvacuationMessage(v);
    if reply.Rejected? { ContainsIs(reply.message, words); }
  }

  /** The same, as a name for it: KubeVirt says that it took over the eviction of this VMI's launcher. */
  ghost predicate Confirms(reply: EvictReply, v: VMIInfo) {
    && reply.Rejected? && reply.status == TooManyRequests
    && exists before: string, after: string ::
         reply.message
         == before + ("Eviction triggered evacuation of VMI \"" + v.vmi.namespace + "/" + v.vmi.name + "\"") + after
  }

  lemma ConfirmsIs(reply: EvictReply, v: VMIInfo)
    ensures EvacuationAccepted(reply, v) <==> Confirms(reply, v)
  {
    EvacuationIs(reply, v);
  }

  lemma ContainsIs(s: string, sub: string)
    ensures Contains(s, sub) <==> exists before: string, after: string :: s == before + sub + after
  {
    if Contains(s, sub) {
      var i: nat :| i <= |s| && OccursAt(s, sub, i);
      assert s == s[..i] + sub + s[i + |sub|..];
    }
    forall before: string, after: string | s == before + sub + after ensures Contains(s, sub) {
      assert OccursAt(s, sub, |before|);
    }
  }

  const QUOTE: char := '\"'

  /** KubeVirt's answer contains quotation marks; the API server's answer about a budget does not. */
  lemma AcceptedIsQuoted(reply: EvictReply, v: VMIInfo)
    requires EvacuationAccepted(reply, v)
    ensures QUOTE in reply.message
  {
    EvacuationIs(reply, v);
    var front := "Eviction triggered evacuation of VMI \"" + v.vmi.namespace + "/" + v.vmi.name;
    var before: string, after: string :| reply.message == before + (front + "\"") + after;
    assert reply.message[|before| + |front|] == QUOTE;
  }

  const LEAD := "Eviction triggered evacuation of VMI "

  lemma WordsAre(key: string, namespace: string, name: string)
    requires key == namespace + "/" + name
    ensures "Eviction triggered evacuation of VMI \"" + namespace + "/" + name + "\"" == LEAD + [QUOTE] + key + [QUOTE]
    ensures QUOTE !in LEAD
  {
    assert "Eviction triggered evacuation of VMI \"" == LEAD + [QUOTE];
  }

  /** An answer that quotes one VMI is KubeVirt's answer for that VMI and no other. */
  lemma AcceptedNamesOne(reply: EvictReply, v: VMIInfo, before: string, key: string, after: string)
    requires EvacuationAccepted(reply, v)
    requires reply.message == before + (LEAD + [QUOTE] + key + [QUOTE]) + after
    requires QUOTE !in before && QUOTE !in key && QUOTE !in after
    ensures key == v.vmi.namespace + "/" + v.vmi.name
  {
    EvacuationIs(reply, v);
    hide LEAD, EvacuationAccepted;
    var mine := v.vmi.namespace + "/" + v.vmi.name;
    WordsAre(mine, v.vmi.namespace, v.vmi.name);
    var front: string, rest: string :| reply.message == front + (LEAD + [QUOTE] + mine + [QUOTE]) + rest;
    Regroup(before, LEAD, key, after);
    Regroup(front, LEAD, mine, rest);
    SameQuote(reply.message, before + LEAD, key, after, front + LEAD, mine, rest);
  }

  lemma Regroup(a: string, b: string, c: string, d: string)
    ensures a + (b + [QUOTE] + c + [QUOTE]) + d == (a + b) + [QUOTE] + c + [QUOTE] + d
  {}

  /** A text with just two quotation marks quotes one thing. */
  lemma SameQuote(s: string, a: string, x: string, b: string, c: string, y: string, d: string)
    requires s == a + [QUOTE] + x + [QUOTE] + b && s == c + [QUOTE] + y + [QUOTE] + d
    requires QUOTE !in a && QUOTE !in x && QUOTE !in b
    ensures x == y
  {
    var p, q := |a|, |a| + 1 + |x|;
    assert forall i :: 0 <= i < p ==> s[i] == a[i];
    assert forall i :: p < i < q ==> s[i] == x[i - p - 1];
    assert forall i :: q < i < |s| ==> s[i] == b[i - q - 1];
    assert forall i :: 0 <= i < |s| && s[i] == QUOTE ==> i == p || i == q;
    var t := c + [QUOTE] + y;
    assert s[|c|] == QUOTE;
    assert s == t + [QUOTE] + d && s[|t|] == QUOTE;
    assert s == (a + [QUOTE] + x) + [QUOTE] + b;
    assert x == s[p + 1..q];
    assert s[..|t|] == t && y == t[|c| + 1..];
    assert |c| == p && |t| == q;
    assert y == s[|c| + 1..|t|];
  }

  /** The text, up to the case of its letters. */
  predicate SameLetters(text: string, lower: string) {
    && |text| == |lower|
    && forall k :: 0 <= k < |text| ==>
         text[k] == lower[k] || ('A' <= text[k] <= 'Z' && text[k] as int + 32 == lower[k] as int)
  }

  lemma LowerIs(text: string, lower: string)
    requires forall k :: 0 <= k < |lower| ==> !('A' <= lower[k] <= 'Z')
    ensures Lower(text) == lower <==> SameLetters(text, lower)
  {
    if SameLetters(text, lower) { assert forall k :: 0 <= k < |text| ==> Lower(text)[k] == lower[k]; }
    if Lower(text) == lower {
      forall k | 0 <= k < |text|
        ensures text[k] == lower[k] || ('A' <= text[k] <= 'Z' && text[k] as int + 32 == lower[k] as int)
      {
        assert Lower(text)[k] == lower[k];
      }
    }
  }

  lemma LowerContains(text: string, lower: string)
    requires forall k :: 0 <= k < |lower| ==> !('A' <= lower[k] <= 'Z')
    ensures Contains(Lower(text), lower)
            <==> exists before: string, mid: string, after: string ::
                   text == before + mid + after && SameLetters(mid, lower)
  {
    if Contains(Lower(text), lower) {
      var i: nat :| i <= |Lower(text)| && OccursAt(Lower(text), lower, i);
      var mid := text[i..i + |lower|];
      assert Lower(mid) == Lower(text)[i..i + |lower|];
      LowerIs(mid, lower);
      assert text == text[..i] + mid + text[i + |lower|..];
    }
    forall before: string, mid: string, after: string | text == before + mid + after && SameLetters(mid, lower)
      ensures Contains(Lower(text), lower)
    {
      LowerIs(mid, lower);
      assert Lower(text)[|before|..|before| + |mid|] == Lower(mid);
      assert OccursAt(Lower(text), lower, |before|);
    }
  }

  const BUDGET := "disruption budget"

  lemma BudgetIsLower()
    ensures forall k :: 0 <= k < |BUDGET| ==> !('A' <= BUDGET[k] <= 'Z')
  {}

  /** What a pod eviction may answer: accepted, not found, or 429 with the words "disruption budget" in any case. */
  lemma TolerableIs(reply: EvictReply)
    ensures Tolerable(reply)
            <==> || reply.Accepted? || reply.status == NotFound
                 || (reply.status == TooManyRequests
                     && exists before: string, mid: string, after: string ::
                          reply.message == before + mid + after && SameLetters(mid, "disruption budget"))
  {
    if reply.Rejected? {
      BudgetIsLower();
      LowerContains(reply.message, BUDGET);
    }
  }

  /** What a launcher needs before it is evicted: a budget of KubeVirt's that allows no disruption. */
  lemma ConfirmableIs(v: VMIInfo)
    ensures Confirmable(v)
            <==> v.launcher.Some? && exists b :: b in v.launcherPDBs && b.kubeVirtOwned && b.disruptionsAllowed == 0
  {
    if Confirmable(v) {
      var i :| 0 <= i < |v.launcherPDBs|
               && v.launcherPDBs[i].kubeVirtOwned && v.launcherPDBs[i].disruptionsAllowed == 0;
      assert v.launcherPDBs[i] in v.launcherPDBs;
    }
  }

  // ---------------------------------------------------------------- failures

  /** The failed migrations of VMI `key` outside the baseline that a snapshot lists. */
  lemma FailedUidsAre(ms: seq<MigrationInfo>, baseline: set<string>, key: string, uid: string)
    ensures uid in FailedUids(ms, baseline, key)
            <==> exists m :: m in ms && m.failed && m.uid == uid && uid !in baseline
                             && m.namespace + "/" + m.vmiName == key
  {
    if uid in FailedUids(ms, baseline, key) {
      var m :| m in ms && Counts(m, baseline) && MigrationKey(m) == key && m.uid == uid;
      assert m.failed && m.namespace + "/" + m.vmiName == key;
    }
    forall m | m in ms && m.failed && m.uid == uid && uid !in baseline && m.namespace + "/" + m.vmiName == key
      ensures uid in FailedUids(ms, baseline, key)
    {
      assert Counts(m, baseline) && MigrationKey(m) == key;
    }
  }

  /** The VMIs with a failure that is not in the ledger. */
  lemma NewlyFailedAre(seen: map<string, set<string>>, ms: seq<MigrationInfo>, baseline: set<string>, key: string)
    ensures key in NewlyFailed(seen, ms, baseline)
            <==> exists m :: m in ms && m.failed && m.uid !in baseline && m.namespace + "/" + m.vmiName == key
                             && !(key in seen && m.uid in seen[key])
  {
    if key in NewlyFailed(seen, ms, baseline) {
      var m :| m in ms && Counts(m, baseline) && m.uid !in Seen(seen, MigrationKey(m)) && MigrationKey(m) == key;
      assert m.failed && m.namespace + "/" + m.vmiName == key;
    }
    forall m | m in ms && m.failed && m.uid !in baseline && m.namespace + "/" + m.vmiName == key
               && !(key in seen && m.uid in seen[key])
      ensures key in NewlyFailed(seen, ms, baseline)
    {
      assert Counts(m, baseline) && MigrationKey(m) == key && m.uid !in Seen(seen, MigrationKey(m));
    }
  }

  // ---------------------------------------------------------------- limits, options and codes

  /** The first positive limit that the cluster's configurations set, or else two. */
  lemma DiscoveredIs(limits: Reply<seq<Option<int>>>)
    ensures limits.Lost? ==> DiscoveredLimit(limits) == 2
    ensures limits.Got? && (forall l :: l in limits.value ==> l.None? || l.value <= 0) ==> DiscoveredLimit(limits) == 2
    ensures forall k :: limits.Got? && 0 <= k < |limits.value| && limits.value[k].Some? && limits.value[k].value > 0
                        && (forall j :: 0 <= j < k ==> limits.value[j].None? || limits.value[j].value <= 0)
                        ==> DiscoveredLimit(limits) == limits.value[k].value
  {
    if limits.Got? {
      FirstPositiveNone(limits.value);
      forall k | 0 <= k < |limits.value| && limits.value[k].Some? && limits.value[k].value > 0
                 && (forall j :: 0 <= j < k ==> limits.value[j].None? || limits.value[j].value <= 0)
        ensures FirstPositive(limits.value) == limits.value[k].value
      {
        FirstPositiveAt(limits.value, k);
      }
    }
  }

  lemma {:induction false} FirstPositiveNone(limits: seq<Option<int>>)
    ensures (forall l :: l in limits ==> l.None? || l.value <= 0) ==> FirstPositive(limits) == 2
  {
    if limits != [] { FirstPositiveNone(limits[1..]); }
  }

  lemma {:induction false} FirstPositiveAt(limits: seq<Option<int>>, k: nat)
    requires k < |limits| && limits[k].Some? && limits[k].value > 0
    requires forall j :: 0 <= j < k ==> limits[j].None? || limits[j].value <= 0
    ensures FirstPositive(limits) == limits[k].value
  {
    if k > 0 { FirstPositiveAt(limits[1..], k - 1); }
  }

  /** The operator's limit counts when it is positive and smaller than the cluster's. */
  lemma EffectiveIs(cluster: int, opts: Options)
    ensures opts.parallelOutbound > 0 && opts.parallelOutbound < cluster ==>
              EffectiveLimit(cluster, opts) == opts.parallelOutbound
    ensures opts.parallelOutbound <= 0 || opts.parallelOutbound >= cluster ==> EffectiveLimit(cluster, opts) == cluster
  {}

  lemma OptionsAre(opts: Options)
    ensures ValidOptions(opts) <==> opts.timeout >= 1 && !(opts.retries < 0) && !(opts.parallelOutbound < 0)
  {}

  /** How a failed call is reported: 124 past the deadline, else 130 if interrupted, else 1. */
  lemma ContextCodeIs(e: Input)
    ensures CodeOf(Some(ContextError(e))) == if e.deadline then 124 else if e.interrupt then 130 else 1
  {}
}
