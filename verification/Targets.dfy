/** Which nodes a VMI could move to. */
module Targets {
  import opened Common
  import opened Kube
  import opened Sorting

  /** How a text is read as a number, if it can be. */
  type Numbers = string -> Option<int>

  // ---------------------------------------------------------------- node selectors

  /** The value that a requirement is about: the node's name, or one of its labels. */
  function Subject(n: Node, key: string): Option<string> {
    if key == "metadata.name" then Some(n.name)
    else if key in n.labels then Some(n.labels[key]) else None
  }

  /** The node's value and the only listed one, as numbers. */
  predicate Compares(value: string, values: seq<string>, greater: bool, num: Numbers) {
    |values| == 1 && num(value).Some? && num(values[0]).Some?
    && if greater then num(value).value > num(values[0]).value else num(value).value < num(values[0]).value
  }

  /** An operator that is not known holds of every node. */
  predicate Meets(n: Node, req: Requirement, num: Numbers) {
    var subject := Subject(n, req.key);
    match req.operator
    case "In" => subject.Some? && subject.value in req.values
    case "NotIn" => subject.None? || subject.value !in req.values
    case "Exists" => subject.Some?
    case "DoesNotExist" => subject.None?
    case "Gt" => Compares(if subject.Some? then subject.value else "", req.values, true, num)
    case "Lt" => Compares(if subject.Some? then subject.value else "", req.values, false, num)
    case _ => true
  }

  predicate MeetsTerm(n: Node, term: Term, num: Numbers) {
    (forall r :: r in term.expressions ==> Meets(n, r, num)) && (forall r :: r in term.fields ==> Meets(n, r, num))
  }

  /** Some term holds: an or of ands. */
  predicate MeetsSome(n: Node, terms: seq<Term>, num: Numbers) {
    exists t :: t in terms && MeetsTerm(n, t, num)
  }

  method NodeSelectorMatches(terms: seq<Term>, n: Node, num: Numbers) returns (found: bool)
    ensures found == MeetsSome(n, terms, num)
  {
    for i := 0 to |terms|
      invariant forall k :: 0 <= k < i ==> !MeetsTerm(n, terms[k], num)
    {
      var reqs := terms[i].expressions + terms[i].fields;
      var matches := true;
      for j := 0 to |reqs|
        invariant matches <==> forall k :: 0 <= k < j ==> Meets(n, reqs[k], num)
      {
        if matches { matches := RequirementMatches(reqs[j], n, num); }
      }
      AllRequirements(n, terms[i], reqs, num);
      if matches { return true; }
    }
    return false;
  }

  lemma AllRequirements(n: Node, term: Term, reqs: seq<Requirement>, num: Numbers)
    requires reqs == term.expressions + term.fields
    ensures MeetsTerm(n, term, num) <==> forall k :: 0 <= k < |reqs| ==> Meets(n, reqs[k], num)
  {
    hide Meets;
    assert forall r :: r in reqs <==> r in term.expressions || r in term.fields;
  }

  method RequirementMatches(req: Requirement, n: Node, num: Numbers) returns (matches: bool)
    ensures matches == Meets(n, req, num)
  {
    var value, exists_ := Lookup(n.labels, req.key), req.key in n.labels;
    if req.key == "metadata.name" { value, exists_ := n.name, true; }
    matches := true;
    match req.operator {
      case "In" => matches := exists_ && value in req.values;
      case "NotIn" => matches := !exists_ || value !in req.values;
      case "Exists" => matches := exists_;
      case "DoesNotExist" => matches := !exists_;
      case "Gt" => matches := Compares(value, req.values, true, num);
      case "Lt" => matches := Compares(value, req.values, false, num);
      case _ =>
    }
  }

  // ---------------------------------------------------------------- taints

  predicate Hard(taint: Taint) { taint.effect == "NoSchedule" || taint.effect == "NoExecute" }

  predicate Excuses(tol: Toleration, taint: Taint) {
    && (tol.effect == "" || tol.effect == taint.effect)
    && ((tol.operator == "Exists" && (tol.key == "" || tol.key == taint.key))
        || (tol.key == taint.key && tol.value == taint.value))
  }

  predicate Tolerates(tols: seq<Toleration>, n: Node) {
    forall taint :: taint in n.taints && Hard(taint) ==> exists tol :: tol in tols && Excuses(tol, taint)
  }

  method ToleratesNode(n: Node, tols: seq<Toleration>) returns (ok: bool)
    ensures ok == Tolerates(tols, n)
  {
    for i := 0 to |n.taints|
      invariant forall k :: 0 <= k < i && Hard(n.taints[k]) ==> exists tol :: tol in tols && Excuses(tol, n.taints[k])
    {
      var taint := n.taints[i];
      if taint.effect != "NoSchedule" && taint.effect != "NoExecute" { continue; }
      var matched := false;
      for j := 0 to |tols|
        invariant matched <==> exists k :: 0 <= k < j && Excuses(tols[k], taint)
      {
        var tol := tols[j];
        if matched || (tol.effect != "" && tol.effect != taint.effect) { continue; }
        if tol.operator == "Exists" && (tol.key == "" || tol.key == taint.key) { matched := true; }
        if tol.key == taint.key && tol.value == taint.value { matched := true; }
      }
      if !matched {
        assert taint in n.taints && Hard(taint);
        assert forall tol :: tol in tols ==> !Excuses(tol, taint);
        return false;
      }
    }
    return true;
  }

  // ---------------------------------------------------------------- one node

  /** The status of the first condition of a kind. */
  function StatusOf(conditions: seq<Condition>, kind: string): Option<string> {
    if conditions == [] then None
    else if conditions[0].kind == kind then Some(conditions[0].status)
    else StatusOf(conditions[1..], kind)
  }

  method HasTrueCondition(conditions: seq<Condition>, kind: string) returns (yes: bool)
    ensures yes <==> StatusOf(conditions, kind) == Some("True")
  {
    for i := 0 to |conditions|
      invariant StatusOf(conditions, kind) == StatusOf(conditions[i..], kind)
    {
      if conditions[i].kind == kind { return conditions[i].status == "True"; }
    }
    return false;
  }

  /** A plain selector: every label has the value that is asked for. */
  predicate Labelled(n: Node, selector: map<string, string>) {
    forall k :: k in selector ==> k in n.labels && n.labels[k] == selector[k]
  }

  predicate AffinityAllows(affinity: Option<Affinity>, n: Node, num: Numbers) {
    affinity.Some? && affinity.value.required.Some? ==> MeetsSome(n, affinity.value.required.value, num)
  }

  /** The last object of a listing under a name. */
  function ClaimNamed(pvcs: seq<Claim>, namespace: string, name: string): Option<Claim> {
    if pvcs == [] then None
    else
      var last := pvcs[|pvcs| - 1];
      if last.namespace == namespace && last.name == name then Some(last)
      else ClaimNamed(pvcs[..|pvcs| - 1], namespace, name)
  }

  function VolumeNamed(pvs: seq<PersistentVolume>, name: string): Option<PersistentVolume> {
    if pvs == [] then None
    else if pvs[|pvs| - 1].name == name then Some(pvs[|pvs| - 1])
    else VolumeNamed(pvs[..|pvs| - 1], name)
  }

  /** The persistent volume that a VMI volume is bound to, as far as the listings know it. */
  function BoundVolume(vmi: VMI, vol: Volume, pvcs: seq<Claim>, pvs: seq<PersistentVolume>): Option<PersistentVolume> {
    if vol.claim.None? then None
    else
      var claim := ClaimNamed(pvcs, vmi.namespace, vol.claim.value);
      if claim.None? || claim.value.volumeName == "" then None else VolumeNamed(pvs, claim.value.volumeName)
  }

  predicate VolumeAllows(bound: Option<PersistentVolume>, n: Node, num: Numbers) {
    bound.Some? && bound.value.required.Some? ==> MeetsSome(n, bound.value.required.value, num)
  }

  predicate VolumesAllow(vmi: VMI, pvcs: seq<Claim>, pvs: seq<PersistentVolume>, n: Node, num: Numbers) {
    forall vol :: vol in vmi.volumes ==> VolumeAllows(BoundVolume(vmi, vol, pvcs, pvs), n, num)
  }

  /** The scheduling constraints in force: the launcher's override or extend the VMI's. */
  datatype Needs = Needs(selector: map<string, string>, affinity: Option<Affinity>, tolerations: seq<Toleration>)

  function NeedsOf(vmi: VMI, launcher: Option<Pod>): Needs {
    match launcher
    case None => Needs(vmi.nodeSelector, vmi.affinity, vmi.tolerations)
    case Some(pod) =>
      Needs(vmi.nodeSelector + pod.nodeSelector,
            if pod.affinity.Some? then pod.affinity else vmi.affinity,
            if |pod.tolerations| > 0 then pod.tolerations else vmi.tolerations)
  }

  /** A ready, schedulable node that runs KubeVirt, is not the source, and satisfies every constraint. */
  predicate Eligible(
      vmi: VMI, needs: Needs, pvcs: seq<Claim>, pvs: seq<PersistentVolume>, source: string, n: Node, num: Numbers)
  {
    && n.name != source && !n.unschedulable && StatusOf(n.conditions, "Ready") == Some("True")
    && Lookup(n.labels, "kubevirt.io/schedulable") == "true"
    && Labelled(n, needs.selector) && AffinityAllows(needs.affinity, n, num)
    && Tolerates(needs.tolerations, n) && VolumesAllow(vmi, pvcs, pvs, n, num)
  }

  /** Cordoning the source has no say in it. */
  lemma CordonIrrelevant(
      vmi: VMI, needs: Needs, pvcs: seq<Claim>, pvs: seq<PersistentVolume>, source: string, n: Node, cordoned: bool,
      num: Numbers)
    requires n.name == source
    ensures Eligible(vmi, needs, pvcs, pvs, source, n.(unschedulable := cordoned), num)
         == Eligible(vmi, needs, pvcs, pvs, source, n, num)
  {}

  // ---------------------------------------------------------------- the methods

  method ClaimsByName(pvcs: seq<Claim>, namespace: string) returns (byName: map<string, Claim>)
    ensures forall k :: k in byName <==> ClaimNamed(pvcs, namespace, k).Some?
    ensures forall k :: k in byName ==> Some(byName[k]) == ClaimNamed(pvcs, namespace, k)
  {
    byName := map[];
    for i := 0 to |pvcs|
      invariant forall k :: k in byName <==> ClaimNamed(pvcs[..i], namespace, k).Some?
      invariant forall k :: k in byName ==> Some(byName[k]) == ClaimNamed(pvcs[..i], namespace, k)
    {
      assert pvcs[..i + 1][..i] == pvcs[..i];
      if pvcs[i].namespace == namespace { byName := byName[pvcs[i].name := pvcs[i]]; }
    }
    assert pvcs[..|pvcs|] == pvcs;
  }

  method VolumesByName(pvs: seq<PersistentVolume>) returns (byName: map<string, PersistentVolume>)
    ensures forall k :: k in byName <==> VolumeNamed(pvs, k).Some?
    ensures forall k :: k in byName ==> Some(byName[k]) == VolumeNamed(pvs, k)
  {
    byName := map[];
    for i := 0 to |pvs|
      invariant forall k :: k in byName <==> VolumeNamed(pvs[..i], k).Some?
      invariant forall k :: k in byName ==> Some(byName[k]) == VolumeNamed(pvs[..i], k)
    {
      assert pvs[..i + 1][..i] == pvs[..i];
      byName := byName[pvs[i].name := pvs[i]];
    }
    assert pvs[..|pvs|] == pvs;
  }

  method MergeNeeds(vmi: VMI, launcher: Option<Pod>) returns (needs: Needs)
    ensures needs == NeedsOf(vmi, launcher)
  {
    var selector, affinity, tolerations := vmi.nodeSelector, vmi.affinity, vmi.tolerations;
    if launcher.Some? {
      selector := selector + launcher.value.nodeSelector;
      if launcher.value.affinity.Some? { affinity := launcher.value.affinity; }
      if |launcher.value.tolerations| > 0 { tolerations := launcher.value.tolerations; }
    }
    return Needs(selector, affinity, tolerations);
  }

  method RequiredAffinityMatches(affinity: Option<Affinity>, n: Node, num: Numbers) returns (ok: bool)
    ensures ok == AffinityAllows(affinity, n, num)
  {
    if affinity.None? || affinity.value.required.None? { return true; }
    ok := NodeSelectorMatches(affinity.value.required.value, n, num);
  }

  method PVNodeAffinityMatches(pv: PersistentVolume, n: Node, num: Numbers) returns (ok: bool)
    ensures ok == VolumeAllows(Some(pv), n, num)
  {
    if pv.required.None? { return true; }
    ok := NodeSelectorMatches(pv.required.value, n, num);
  }

  /** The names of the eligible nodes, in list order. */
  function EligibleNames(
      vmi: VMI, needs: Needs, nodes: seq<Node>, pvcs: seq<Claim>, pvs: seq<PersistentVolume>, source: string,
      num: Numbers): seq<string>
  {
    if nodes == [] then []
    else
      var last := nodes[|nodes| - 1];
      EligibleNames(vmi, needs, nodes[..|nodes| - 1], pvcs, pvs, source, num)
      + (if Eligible(vmi, needs, pvcs, pvs, source, last, num) then [last.name] else [])
  }

  method EligibleTargets(
      vmi: VMI, launcher: Option<Pod>, nodes: seq<Node>, pvcs: seq<Claim>, pvs: seq<PersistentVolume>, source: string,
      num: Numbers) returns (out: seq<string>)
    ensures out == TargetsOf(vmi, launcher, nodes, pvcs, pvs, source, num)
  {
    hide Tolerates, AffinityAllows, Labelled, StatusOf;
    var pvByName := VolumesByName(pvs);
    var pvcByName := ClaimsByName(pvcs, vmi.namespace);
    var needs := MergeNeeds(vmi, launcher);
    out := [];
    for i := 0 to |nodes|
      invariant out == EligibleNames(vmi, needs, nodes[..i], pvcs, pvs, source, num)
    {
      assert nodes[..i + 1][..i] == nodes[..i];
      var n := nodes[i];
      var ok := NodeSuits(n, needs, source, num);
      if !ok { continue; }
      ok := VolumesSuit(vmi, pvcs, pvs, pvcByName, pvByName, n, num);
      if ok { out := out + [n.name]; }
    }
    assert nodes[..|nodes|] == nodes;
    out := Sort(out);
  }

  /** Every constraint but the volumes'. */
  method NodeSuits(n: Node, needs: Needs, source: string, num: Numbers) returns (ok: bool)
    ensures ok <==>
              && n.name != source && !n.unschedulable && StatusOf(n.conditions, "Ready") == Some("True")
              && Lookup(n.labels, "kubevirt.io/schedulable") == "true"
              && Labelled(n, needs.selector) && AffinityAllows(needs.affinity, n, num)
              && Tolerates(needs.tolerations, n)
  {
    hide AffinityAllows, Tolerates;
    var ready := HasTrueCondition(n.conditions, "Ready");
    var affine := RequiredAffinityMatches(needs.affinity, n, num);
    var tolerated := ToleratesNode(n, needs.tolerations);
    ok := n.name != source && !n.unschedulable && ready && Lookup(n.labels, "kubevirt.io/schedulable") == "true"
          && (forall k :: k in needs.selector ==> k in n.labels && n.labels[k] == needs.selector[k])
          && affine && tolerated;
  }

  method VolumesSuit(
      vmi: VMI, pvcs: seq<Claim>, pvs: seq<PersistentVolume>, pvcByName: map<string, Claim>,
      pvByName: map<string, PersistentVolume>, n: Node, num: Numbers) returns (ok: bool)
    requires forall k :: k in pvcByName <==> ClaimNamed(pvcs, vmi.namespace, k).Some?
    requires forall k :: k in pvcByName ==> Some(pvcByName[k]) == ClaimNamed(pvcs, vmi.namespace, k)
    requires forall k :: k in pvByName <==> VolumeNamed(pvs, k).Some?
    requires forall k :: k in pvByName ==> Some(pvByName[k]) == VolumeNamed(pvs, k)
    ensures ok == VolumesAllow(vmi, pvcs, pvs, n, num)
  {
    hide MeetsSome, VolumeNamed, ClaimNamed;
    for i := 0 to |vmi.volumes|
      invariant forall k :: 0 <= k < i ==> VolumeAllows(BoundVolume(vmi, vmi.volumes[k], pvcs, pvs), n, num)
    {
      var vol := vmi.volumes[i];
      if vol.claim.None? || vol.claim.value !in pvcByName || pvcByName[vol.claim.value].volumeName == "" { continue; }
      var name := pvcByName[vol.claim.value].volumeName;
      if name in pvByName {
        var fits := PVNodeAffinityMatches(pvByName[name], n, num);
        assert BoundVolume(vmi, vol, pvcs, pvs) == Some(pvByName[name]) && vol in vmi.volumes;
        if !fits { return false; }
      }
    }
    return true;
  }

  // ---------------------------------------------------------------- what the answer depends on

  ghost predicate DistinctNames(nodes: seq<Node>) {
    forall i, j :: 0 <= i < j < |nodes| ==> nodes[i].name != nodes[j].name
  }

  /** A node is named exactly when it is eligible. */
  lemma {:induction false} NamedIfEligible(
      vmi: VMI, needs: Needs, nodes: seq<Node>, pvcs: seq<Claim>, pvs: seq<PersistentVolume>, source: string,
      num: Numbers, name: string)
    ensures name in EligibleNames(vmi, needs, nodes, pvcs, pvs, source, num)
            <==> exists n :: n in nodes && n.name == name && Eligible(vmi, needs, pvcs, pvs, source, n, num)
  {
    hide Eligible;
    if nodes != [] {
      var front, last := nodes[..|nodes| - 1], nodes[|nodes| - 1];
      NamedIfEligible(vmi, needs, front, pvcs, pvs, source, num, name);
      assert nodes == front + [last];
    }
  }

  /** With distinct node names, each name appears at most once. */
  lemma {:induction false} NamedOnce(
      vmi: VMI, needs: Needs, nodes: seq<Node>, pvcs: seq<Claim>, pvs: seq<PersistentVolume>, source: string,
      num: Numbers)
    requires DistinctNames(nodes)
    ensures forall name :: multiset(EligibleNames(vmi, needs, nodes, pvcs, pvs, source, num))[name] <= 1
  {
    hide Eligible;
    if nodes != [] {
      var front, last := nodes[..|nodes| - 1], nodes[|nodes| - 1];
      NamedOnce(vmi, needs, front, pvcs, pvs, source, num);
      NamedIfEligible(vmi, needs, front, pvcs, pvs, source, num, last.name);
    }
  }

  lemma {:induction false} EligibleAppend(
      vmi: VMI, needs: Needs, a: seq<Node>, b: seq<Node>, pvcs: seq<Claim>, pvs: seq<PersistentVolume>,
      source: string, num: Numbers)
    ensures EligibleNames(vmi, needs, a + b, pvcs, pvs, source, num)
         == EligibleNames(vmi, needs, a, pvcs, pvs, source, num) + EligibleNames(vmi, needs, b, pvcs, pvs, source, num)
  {
    hide Eligible;
    if b == [] {
      assert a + b == a;
    } else {
      EligibleAppend(vmi, needs, a, b[..|b| - 1], pvcs, pvs, source, num);
      assert (a + b)[..|a + b| - 1] == a + b[..|b| - 1];
    }
  }

  /** Listing the nodes in another order names the same nodes. */
  lemma {:induction false} EligibleReordered(
      vmi: VMI, needs: Needs, nodes: seq<Node>, other: seq<Node>, pvcs: seq<Claim>, pvs: seq<PersistentVolume>,
      source: string, num: Numbers)
    requires multiset(nodes) == multiset(other)
    ensures multiset(EligibleNames(vmi, needs, nodes, pvcs, pvs, source, num))
         == multiset(EligibleNames(vmi, needs, other, pvcs, pvs, source, num))
    decreases |nodes|
  {
    hide Eligible;
    if nodes == [] {
      assert |multiset(other)| == |other|;
    } else {
      var n := |nodes| - 1;
      var k := RearrangedWithout(nodes, other);
      EligibleReordered(vmi, needs, nodes[..n], Without(other, k), pvcs, pvs, source, num);
      EligibleWithout(vmi, needs, other, k, pvcs, pvs, source, num);
      EligibleWithout(vmi, needs, nodes, n, pvcs, pvs, source, num);
      assert Without(nodes, n) == nodes[..n];
    }
  }

  /** Dropping a node drops its name, if it was eligible. */
  lemma EligibleWithout(
      vmi: VMI, needs: Needs, nodes: seq<Node>, k: nat, pvcs: seq<Claim>, pvs: seq<PersistentVolume>,
      source: string, num: Numbers)
    requires k < |nodes|
    ensures multiset(EligibleNames(vmi, needs, nodes, pvcs, pvs, source, num))
         == multiset(EligibleNames(vmi, needs, Without(nodes, k), pvcs, pvs, source, num))
            + multiset(EligibleNames(vmi, needs, [nodes[k]], pvcs, pvs, source, num))
  {
    hide Eligible, EligibleNames;
    var a, x, b := nodes[..k], [nodes[k]], nodes[k + 1..];
    assert nodes == a + (x + b);
    EligibleAppend(vmi, needs, a, x + b, pvcs, pvs, source, num);
    EligibleAppend(vmi, needs, x, b, pvcs, pvs, source, num);
    EligibleAppend(vmi, needs, a, b, pvcs, pvs, source, num);
  }

  /** The answer that `EligibleTargets` gives. */
  function TargetsOf(
      vmi: VMI, launcher: Option<Pod>, nodes: seq<Node>, pvcs: seq<Claim>, pvs: seq<PersistentVolume>,
      source: string, num: Numbers): seq<string>
  {
    Sort(EligibleNames(vmi, NeedsOf(vmi, launcher), nodes, pvcs, pvs, source, num))
  }

  /** Sorted, without repetition, and exactly the names of the eligible nodes. */
  lemma TargetsExact(
      vmi: VMI, launcher: Option<Pod>, nodes: seq<Node>, pvcs: seq<Claim>, pvs: seq<PersistentVolume>,
      source: string, num: Numbers)
    requires DistinctNames(nodes)
    ensures var out := TargetsOf(vmi, launcher, nodes, pvcs, pvs, source, num);
            && Sorted(out) && (forall name :: multiset(out)[name] <= 1)
            && forall name :: name in out <==>
                 exists n :: n in nodes && n.name == name
                             && Eligible(vmi, NeedsOf(vmi, launcher), pvcs, pvs, source, n, num)
  {
    hide Eligible;
    var needs := NeedsOf(vmi, launcher);
    var out, names := TargetsOf(vmi, launcher, nodes, pvcs, pvs, source, num),
                      EligibleNames(vmi, needs, nodes, pvcs, pvs, source, num);
    NamedOnce(vmi, needs, nodes, pvcs, pvs, source, num);
    forall name
      ensures name in out <==>
                exists n :: n in nodes && n.name == name && Eligible(vmi, needs, pvcs, pvs, source, n, num)
    {
      NamedIfEligible(vmi, needs, nodes, pvcs, pvs, source, num, name);
      assert name in out <==> name in multiset(out);
      assert name in names <==> name in multiset(names);
    }
  }

  /** The order of the node list and the source's own cordon make no difference. */
  lemma TargetsStable(
      vmi: VMI, launcher: Option<Pod>, nodes: seq<Node>, other: seq<Node>, pvcs: seq<Claim>,
      pvs: seq<PersistentVolume>, source: string, cordoned: bool, num: Numbers)
    requires multiset(WithCordon(nodes, source, cordoned)) == multiset(other)
    ensures TargetsOf(vmi, launcher, nodes, pvcs, pvs, source, num)
         == TargetsOf(vmi, launcher, other, pvcs, pvs, source, num)
  {
    var needs, flipped := NeedsOf(vmi, launcher), WithCordon(nodes, source, cordoned);
    EligibleCordoned(vmi, needs, nodes, pvcs, pvs, source, cordoned, num);
    EligibleReordered(vmi, needs, flipped, other, pvcs, pvs, source, num);
    SortedUnique(TargetsOf(vmi, launcher, nodes, pvcs, pvs, source, num),
                 TargetsOf(vmi, launcher, other, pvcs, pvs, source, num));
  }

  /** The nodes with the source's cordon set or cleared. */
  function WithCordon(nodes: seq<Node>, source: string, cordoned: bool): (r: seq<Node>)
    ensures |r| == |nodes|
  {
    if nodes == [] then []
    else
      var last := nodes[|nodes| - 1];
      WithCordon(nodes[..|nodes| - 1], source, cordoned)
      + [if last.name == source then last.(unschedulable := cordoned) else last]
  }

  lemma {:induction false} EligibleCordoned(
      vmi: VMI, needs: Needs, nodes: seq<Node>, pvcs: seq<Claim>, pvs: seq<PersistentVolume>, source: string,
      cordoned: bool, num: Numbers)
    ensures EligibleNames(vmi, needs, WithCordon(nodes, source, cordoned), pvcs, pvs, source, num)
         == EligibleNames(vmi, needs, nodes, pvcs, pvs, source, num)
  {
    if nodes != [] {
      var front, last := nodes[..|nodes| - 1], nodes[|nodes| - 1];
      EligibleCordoned(vmi, needs, front, pvcs, pvs, source, cordoned, num);
      if last.name == source { CordonIrrelevant(vmi, needs, pvcs, pvs, source, last, cordoned, num); }
      hide Eligible;
      var all := WithCordon(nodes, source, cordoned);
      assert all[..|all| - 1] == WithCordon(front, source, cordoned);
    }
  }

  // ---------------------------------------------------------------- eligibility, spelled out

  /** The first condition of the kind is true. */
  predicate IsTrue(conditions: seq<Condition>, kind: string) {
    exists k :: 0 <= k < |conditions| && conditions[k].kind == kind && conditions[k].status == "True"
                && forall j :: 0 <= j < k ==> conditions[j].kind != kind
  }

  lemma {:induction false} ConditionStatusIs(conditions: seq<Condition>, kind: string)
    ensures StatusOf(conditions, kind) == Some("True") <==> IsTrue(conditions, kind)
  {
    if conditions != [] {
      var rest := conditions[1..];
      ConditionStatusIs(rest, kind);
      if IsTrue(rest, kind) && conditions[0].kind != kind {
        var k :| 0 <= k < |rest| && rest[k].kind == kind && rest[k].status == "True"
                 && forall j :: 0 <= j < k ==> rest[j].kind != kind;
        assert conditions[k + 1] == rest[k];
        assert forall j :: 0 < j < k + 1 ==> conditions[j] == rest[j - 1];
      }
      if IsTrue(conditions, kind) && conditions[0].kind != kind {
        var k :| 0 <= k < |conditions| && conditions[k].kind == kind && conditions[k].status == "True"
                 && forall j :: 0 <= j < k ==> conditions[j].kind != kind;
        assert rest[k - 1] == conditions[k];
        assert forall j :: 0 <= j < k - 1 ==> rest[j] == conditions[j + 1];
      }
    }
  }

  /** Some toleration is for the taint's effect and for any key, its key, or its key and value. */
  predicate Excused(taint: Taint, tols: seq<Toleration>) {
    exists t :: t in tols && (t.effect == "" || t.effect == taint.effect)
                && ((t.operator == "Exists" && t.key == "")
                    || (t.key == taint.key && (t.operator == "Exists" || t.value == taint.value)))
  }

  lemma ToleratesIs(tols: seq<Toleration>, n: Node)
    ensures Tolerates(tols, n)
            <==> forall t :: t in n.taints && (t.effect == "NoSchedule" || t.effect == "NoExecute") ==> Excused(t, tols)
  {
    forall t ensures Excused(t, tols) <==> exists tol :: tol in tols && Excuses(tol, t) {
      if exists tol :: tol in tols && Excuses(tol, t) {
        var tol :| tol in tols && Excuses(tol, t);
        assert (tol.effect == "" || tol.effect == t.effect)
               && ((tol.operator == "Exists" && tol.key == "")
                   || (tol.key == t.key && (tol.operator == "Exists" || tol.value == t.value)));
      }
      if Excused(t, tols) {
        var tol :| tol in tols && (tol.effect == "" || tol.effect == t.effect)
                   && ((tol.operator == "Exists" && tol.key == "")
                       || (tol.key == t.key && (tol.operator == "Exists" || tol.value == t.value)));
        assert Excuses(tol, t);
      }
    }
    hide Excuses, Excused;
  }

  /** The listings name each claim of a namespace, and each volume, once. */
  ghost predicate DistinctVolumes(pvcs: seq<Claim>, pvs: seq<PersistentVolume>) {
    && (forall c, d :: c in pvcs && d in pvcs && c.namespace == d.namespace && c.name == d.name ==> c == d)
    && (forall p, q :: p in pvs && q in pvs && p.name == q.name ==> p == q)
  }

  lemma {:induction false} ClaimIs(pvcs: seq<Claim>, namespace: string, name: string)
    ensures ClaimNamed(pvcs, namespace, name).Some?
            <==> exists c :: c in pvcs && c.namespace == namespace && c.name == name
    ensures var c := ClaimNamed(pvcs, namespace, name);
            c.Some? ==> c.value in pvcs && c.value.namespace == namespace && c.value.name == name
  {
    if pvcs != [] {
      ClaimIs(pvcs[..|pvcs| - 1], namespace, name);
      assert pvcs == pvcs[..|pvcs| - 1] + [pvcs[|pvcs| - 1]];
    }
  }

  lemma {:induction false} VolumeIs(pvs: seq<PersistentVolume>, name: string)
    ensures VolumeNamed(pvs, name).Some? <==> exists p :: p in pvs && p.name == name
    ensures var p := VolumeNamed(pvs, name); p.Some? ==> p.value in pvs && p.value.name == name
  {
    if pvs != [] {
      VolumeIs(pvs[..|pvs| - 1], name);
      assert pvs == pvs[..|pvs| - 1] + [pvs[|pvs| - 1]];
    }
  }

  /** Every persistent volume that one of the VMI's claims is bound to allows the node. */
  predicate Reachable(vmi: VMI, pvcs: seq<Claim>, pvs: seq<PersistentVolume>, n: Node, num: Numbers) {
    forall v, c, p :: v in vmi.volumes && c in pvcs && p in pvs && Binds(vmi, v, c, p) && p.required.Some? ==>
      MeetsSome(n, p.required.value, num)
  }

  /** The volume uses the claim, of the VMI's namespace, and the claim is bound to the persistent volume. */
  predicate Binds(vmi: VMI, v: Volume, c: Claim, p: PersistentVolume) {
    v.claim == Some(c.name) && c.namespace == vmi.namespace && c.volumeName != "" && p.name == c.volumeName
  }

  lemma VolumesAllowIs(vmi: VMI, pvcs: seq<Claim>, pvs: seq<PersistentVolume>, n: Node, num: Numbers)
    requires DistinctVolumes(pvcs, pvs)
    ensures VolumesAllow(vmi, pvcs, pvs, n, num) <==> Reachable(vmi, pvcs, pvs, n, num)
  {
    hide MeetsSome, ClaimNamed, VolumeNamed;
    if VolumesAllow(vmi, pvcs, pvs, n, num) {
      forall v, c, p | v in vmi.volumes && c in pvcs && p in pvs && Binds(vmi, v, c, p) && p.required.Some?
        ensures MeetsSome(n, p.required.value, num)
      {
        ClaimIs(pvcs, vmi.namespace, c.name);
        VolumeIs(pvs, c.volumeName);
        assert VolumeAllows(BoundVolume(vmi, v, pvcs, pvs), n, num);
      }
    }
    if Reachable(vmi, pvcs, pvs, n, num) {
      forall v | v in vmi.volumes ensures VolumeAllows(BoundVolume(vmi, v, pvcs, pvs), n, num) {
        if v.claim.Some? {
          ClaimIs(pvcs, vmi.namespace, v.claim.value);
          var c := ClaimNamed(pvcs, vmi.namespace, v.claim.value);
          if c.Some? { VolumeIs(pvs, c.value.volumeName); }
        }
      }
    }
  }

  /** Eligibility on the objects: no constraint is left to another definition but what a node selector selects. */
  lemma NodeEligibleIs(
      vmi: VMI, needs: Needs, pvcs: seq<Claim>, pvs: seq<PersistentVolume>, source: string, n: Node, num: Numbers)
    requires DistinctVolumes(pvcs, pvs)
    ensures Eligible(vmi, needs, pvcs, pvs, source, n, num)
            <==> && n.name != source && !n.unschedulable && IsTrue(n.conditions, "Ready")
                 && "kubevirt.io/schedulable" in n.labels && n.labels["kubevirt.io/schedulable"] == "true"
                 && (forall k :: k in needs.selector ==> k in n.labels && n.labels[k] == needs.selector[k])
                 && (needs.affinity.Some? && needs.affinity.value.required.Some? ==>
                       MeetsSome(n, needs.affinity.value.required.value, num))
                 && (forall t :: t in n.taints && (t.effect == "NoSchedule" || t.effect == "NoExecute") ==>
                       Excused(t, needs.tolerations))
                 && Reachable(vmi, pvcs, pvs, n, num)
  {
    ConditionStatusIs(n.conditions, "Ready");
    ToleratesIs(needs.tolerations, n);
    VolumesAllowIs(vmi, pvcs, pvs, n, num);
    hide MeetsSome, VolumesAllow, Reachable, Tolerates, Excused, IsTrue, StatusOf;
  }

  /** The launcher's constraints come before the VMI's: key by key for labels, as a whole for the others. */
  lemma NeedsAre(vmi: VMI, launcher: Option<Pod>, k: string)
    ensures launcher.None? ==>
              NeedsOf(vmi, launcher) == Needs(vmi.nodeSelector, vmi.affinity, vmi.tolerations)
    ensures launcher.Some? ==>
              var needs, pod := NeedsOf(vmi, launcher), launcher.value;
              && (k in needs.selector <==> k in pod.nodeSelector || k in vmi.nodeSelector)
              && (k in pod.nodeSelector ==> needs.selector[k] == pod.nodeSelector[k])
              && (k in vmi.nodeSelector && k !in pod.nodeSelector ==> needs.selector[k] == vmi.nodeSelector[k])
              && (pod.affinity.Some? ==> needs.affinity == pod.affinity)
              && (pod.affinity.None? ==> needs.affinity == vmi.affinity)
              && (pod.tolerations != [] ==> needs.tolerations == pod.tolerations)
              && (pod.tolerations == [] ==> needs.tolerations == vmi.tolerations)
  {}
}
