/** The code's reading of node selectors against Kubernetes': when a node is selected by both, or by one of them. */
module NodeSelectors {
  import opened Common
  import opened Kube
  import opened Targets

  const NAME := "metadata.name"

  // ---------------------------------------------------------------- Kubernetes

  /** How Kubernetes reads integers, and which keys and values it takes for labels. */
  datatype Rules = Rules(parse: Numbers, legal: Requirement -> bool)

  /**
   What the Kubernetes API documents of a requirement on labels: `In` and `NotIn` have values, `Exists` and
   `DoesNotExist` have none, `Gt` and `Lt` have a single one, read as an integer.
   */
  predicate WellFormed(r: Requirement, k: Rules) {
    k.legal(r)
    && match r.operator
       case "In" => r.values != []
       case "NotIn" => r.values != []
       case "Exists" => r.values == []
       case "DoesNotExist" => r.values == []
       case "Gt" => |r.values| == 1 && k.parse(r.values[0]).Some?
       case "Lt" => |r.values| == 1 && k.parse(r.values[0]).Some?
       case _ => false
  }

  function LabelOf(n: Node, key: string): Option<string> { if key in n.labels then Some(n.labels[key]) else None }

  /** Expressions are about labels and nothing else; a malformed one selects nothing. */
  predicate SelectsByLabel(n: Node, r: Requirement, k: Rules) {
    var found := LabelOf(n, r.key);
    && WellFormed(r, k)
    && match r.operator
       case "In" => found.Some? && found.value in r.values
       case "NotIn" => found.None? || found.value !in r.values
       case "Exists" => found.Some?
       case "DoesNotExist" => found.None?
       case "Gt" => found.Some? && k.parse(found.value).Some? && k.parse(found.value).value > k.parse(r.values[0]).value
       case "Lt" => found.Some? && k.parse(found.value).Some? && k.parse(found.value).value < k.parse(r.values[0]).value
       case _ => false
  }

  /** A requirement on fields that Kubernetes takes: the node's name is, or is not, a single value. */
  predicate OnName(r: Requirement) {
    r.key == NAME && |r.values| == 1 && (r.operator == "In" || r.operator == "NotIn")
  }

  predicate SelectsByField(n: Node, r: Requirement) {
    OnName(r) && ((n.name == r.values[0]) <==> r.operator == "In")
  }

  /** A term without requirements selects nothing. */
  predicate Blank(t: Term) { t.expressions == [] && t.fields == [] }

  predicate SelectsTerm(n: Node, t: Term, k: Rules) {
    && !Blank(t)
    && (forall r :: r in t.expressions ==> SelectsByLabel(n, r, k))
    && (forall r :: r in t.fields ==> SelectsByField(n, r))
  }

  predicate Selects(n: Node, terms: seq<Term>, k: Rules) { exists t :: t in terms && SelectsTerm(n, t, k) }

  // ---------------------------------------------------------------- one requirement

  /** Both readings put the node on the same side of the number: the code's of its subject, Kubernetes' of its label. */
  predicate SameSide(n: Node, r: Requirement, num: Numbers, k: Rules, greater: bool) {
    var subject, found := Subject(n, r.key), LabelOf(n, r.key);
    var text := if subject.Some? then subject.value else "";
    Compares(text, r.values, greater, num) <==> (found.Some? && Compares(found.value, r.values, greater, k.parse))
  }

  /**
   When the code reads a requirement on labels as Kubernetes does: one that Kubernetes rejects, if the code happens
   to reject the node; one about the node's name, if the label of that name says the same; numbers, if both readings
   compare alike; and any other, always.
   */
  predicate Alike(n: Node, r: Requirement, num: Numbers, k: Rules) {
    if !WellFormed(r, k) then !Meets(n, r, num)
    else if r.operator == "Gt" || r.operator == "Lt" then SameSide(n, r, num, k, r.operator == "Gt")
    else if r.key != NAME then true
    else if r.operator == "In" || r.operator == "NotIn" then
      n.name in r.values <==> NAME in n.labels && n.labels[NAME] in r.values
    else NAME in n.labels
  }

  lemma AlikeExactly(n: Node, r: Requirement, num: Numbers, k: Rules)
    ensures Alike(n, r, num, k) <==> Meets(n, r, num) == SelectsByLabel(n, r, k)
  {}

  /** Requirements on fields are read alike if Kubernetes takes them, or else if the code happens to reject the node. */
  predicate AlikeField(n: Node, r: Requirement, num: Numbers) { OnName(r) || !Meets(n, r, num) }

  lemma AlikeFieldExactly(n: Node, r: Requirement, num: Numbers)
    ensures AlikeField(n, r, num) <==> Meets(n, r, num) == SelectsByField(n, r)
  {}

  // ---------------------------------------------------------------- one term

  predicate AllAlike(n: Node, t: Term, num: Numbers, k: Rules) {
    && (forall r :: r in t.expressions ==> Alike(n, r, num, k))
    && (forall r :: r in t.fields ==> AlikeField(n, r, num))
  }

  /** Selected by both: all requirements are met and read alike, and there is one. */
  predicate ByBoth(n: Node, t: Term, num: Numbers, k: Rules) {
    !Blank(t) && MeetsTerm(n, t, num) && AllAlike(n, t, num, k)
  }

  /** Selected by the code alone: all requirements are met, and there is none, or one that is read otherwise. */
  predicate ByCodeOnly(n: Node, t: Term, num: Numbers, k: Rules) {
    MeetsTerm(n, t, num) && (Blank(t) || !AllAlike(n, t, num, k))
  }

  /** Selected by Kubernetes alone: the requirements that are not met, at least one, are those read otherwise. */
  predicate ByKubernetesOnly(n: Node, t: Term, num: Numbers, k: Rules) {
    && !MeetsTerm(n, t, num)
    && (forall r :: r in t.expressions ==> (Meets(n, r, num) <==> Alike(n, r, num, k)))
    && (forall r :: r in t.fields ==> (Meets(n, r, num) <==> AlikeField(n, r, num)))
  }

  lemma TermVerdict(n: Node, t: Term, num: Numbers, k: Rules)
    ensures ByBoth(n, t, num, k) <==> MeetsTerm(n, t, num) && SelectsTerm(n, t, k)
    ensures ByCodeOnly(n, t, num, k) <==> MeetsTerm(n, t, num) && !SelectsTerm(n, t, k)
    ensures ByKubernetesOnly(n, t, num, k) <==> !MeetsTerm(n, t, num) && SelectsTerm(n, t, k)
  {
    forall r ensures Alike(n, r, num, k) <==> Meets(n, r, num) == SelectsByLabel(n, r, k) {
      AlikeExactly(n, r, num, k);
    }
    forall r ensures AlikeField(n, r, num) <==> Meets(n, r, num) == SelectsByField(n, r) {
      AlikeFieldExactly(n, r, num);
    }
    hide Alike, AlikeField, Meets, SelectsByLabel, SelectsByField;
  }

  // ---------------------------------------------------------------- a whole selector

  /**
   The code and Kubernetes agree on a node if and only if some term is met and read alike in all its requirements,
   or there are terms misread in the node's favour and terms misread against it, or none of either.
   */
  lemma AgreesExactly(n: Node, terms: seq<Term>, num: Numbers, k: Rules)
    ensures MeetsSome(n, terms, num) == Selects(n, terms, k)
            <==> (exists t :: t in terms && ByBoth(n, t, num, k))
                 || ((exists t :: t in terms && ByCodeOnly(n, t, num, k))
                     <==> (exists t :: t in terms && ByKubernetesOnly(n, t, num, k)))
  {
    forall t
      ensures ByBoth(n, t, num, k) <==> MeetsTerm(n, t, num) && SelectsTerm(n, t, k)
      ensures ByCodeOnly(n, t, num, k) <==> MeetsTerm(n, t, num) && !SelectsTerm(n, t, k)
      ensures ByKubernetesOnly(n, t, num, k) <==> !MeetsTerm(n, t, num) && SelectsTerm(n, t, k)
    {
      TermVerdict(n, t, num, k);
    }
    hide ByBoth, ByCodeOnly, ByKubernetesOnly, MeetsTerm, SelectsTerm;
  }

  /** Numbers are read alike, and a missing label is no number. */
  ghost predicate SameNumbers(num: Numbers, k: Rules) { num("").None? && forall s :: num(s) == k.parse(s) }

  /** A term that leaves no room for misreading, on any node. */
  predicate Plain(t: Term, k: Rules, numbers: bool) {
    && !Blank(t) && (forall r :: r in t.fields ==> OnName(r))
    && (forall r :: r in t.expressions ==>
          WellFormed(r, k) && r.key != NAME && (numbers || (r.operator != "Gt" && r.operator != "Lt")))
  }

  /** Plain selectors are read as Kubernetes reads them, on every node. */
  lemma PlainAgrees(n: Node, terms: seq<Term>, num: Numbers, k: Rules, numbers: bool)
    requires forall t :: t in terms ==> Plain(t, k, numbers)
    requires numbers ==> SameNumbers(num, k)
    ensures MeetsSome(n, terms, num) == Selects(n, terms, k)
  {
    forall t | t in terms ensures MeetsTerm(n, t, num) == SelectsTerm(n, t, k) {
      forall r | r in t.expressions ensures Alike(n, r, num, k) {
        if r.operator == "Gt" || r.operator == "Lt" { SameSideAlways(n, r, num, k, r.operator == "Gt"); }
      }
      TermVerdict(n, t, num, k);
    }
  }

  lemma SameSideAlways(n: Node, r: Requirement, num: Numbers, k: Rules, greater: bool)
    requires SameNumbers(num, k) && r.key != NAME
    ensures SameSide(n, r, num, k, greater)
  {}

  // ---------------------------------------------------------------- the ways to differ

  /** One requirement on labels makes the whole difference. */
  lemma OneDiffers(n: Node, r: Requirement, num: Numbers, k: Rules)
    requires !Alike(n, r, num, k)
    ensures MeetsSome(n, [Term([r], [])], num) != Selects(n, [Term([r], [])], k)
  {
    AlikeExactly(n, r, num, k);
    hide Alike, Meets, SelectsByLabel;
    var t := Term([r], []);
    assert MeetsTerm(n, t, num) == Meets(n, r, num) && SelectsTerm(n, t, k) == SelectsByLabel(n, r, k);
    assert forall u :: u in [t] <==> u == t;
  }

  /**
   Requirements that are misread, each on the nodes it says: the name taken for a label, both ways; `NotIn` without
   values; `Exists` with values; an unknown operator; and a number that only one side can read.
   */
  lemma WaysToDiffer(n: Node, r: Requirement, num: Numbers, k: Rules)
    ensures r == Requirement(NAME, "In", [n.name]) && NAME !in n.labels ==> !Alike(n, r, num, k)
    ensures k.legal(r) && LabelSaysOtherwise(n, r) ==> !Alike(n, r, num, k)
    ensures r.operator == "NotIn" && r.values == [] ==> !Alike(n, r, num, k)
    ensures r.operator == "Exists" && r.values != [] && r.key in n.labels ==> !Alike(n, r, num, k)
    ensures r.operator !in ["In", "NotIn", "Exists", "DoesNotExist", "Gt", "Lt"] ==> !Alike(n, r, num, k)
    ensures OnlyCodeReads(n, r, num, k) ==> !Alike(n, r, num, k)
  {}

  /** The label of that name is listed, and the node's name is not. */
  predicate LabelSaysOtherwise(n: Node, r: Requirement) {
    r.key == NAME && r.operator == "In" && NAME in n.labels && n.labels[NAME] in r.values && n.name !in r.values
  }

  /** The label is a larger number to the code, and none to Kubernetes. */
  predicate OnlyCodeReads(n: Node, r: Requirement, num: Numbers, k: Rules) {
    && r.operator == "Gt" && r.key != NAME && r.key in n.labels
    && Compares(n.labels[r.key], r.values, true, num) && k.parse(n.labels[r.key]).None?
  }

  /** A term without requirements selects every node in the code, and none in Kubernetes. */
  lemma BlankDiffers(n: Node, num: Numbers, k: Rules)
    ensures MeetsSome(n, [Term([], [])], num) && !Selects(n, [Term([], [])], k)
  {
    assert MeetsTerm(n, [Term([], [])][0], num);
  }
}
