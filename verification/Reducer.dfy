/** The event filter: an event is dropped when it repeats the last one about the same thing. */
module Reducer {
  import opened Common

  datatype ObjectRef = ObjectRef(kind: string, namespace: string, name: string, uid: string)

  /** An event as the filter sees it; `details` is their JSON encoding, which contains no NUL. */
  datatype Event = Event(
    kind: string, node: string, subject: Option<ObjectRef>, state: string, message: string, details: string)

  const NUL: char := 0 as char

  function KeyOf(e: Event): string {
    e.kind + ":" + e.node
    + (if e.subject.Some?
       then ":" + e.subject.value.kind + ":" + e.subject.value.namespace + ":" + e.subject.value.name else "")
  }

  function ValueOf(e: Event): string { e.state + [NUL] + e.message + [NUL] + e.details }

  // ---------------------------------------------------------------- what is compared

  /** Where the first separator is, when what comes before contains none. */
  lemma {:induction false} SplitFirst(sep: char, a: string, rest: string, b: string, rest': string)
    requires sep !in a && sep !in b && a + [sep] + rest == b + [sep] + rest'
    ensures a == b && rest == rest'
  {
    var s, t := a + [sep] + rest, b + [sep] + rest';
    assert s[|a|] == sep && t[|b|] == sep;
    assert forall i :: 0 <= i < |a| ==> s[i] == a[i] != sep;
    assert forall i :: 0 <= i < |b| ==> t[i] == b[i] != sep;
    assert a == s[..|a|] && b == t[..|b|];
    assert rest == s[|a| + 1..] && rest' == t[|b| + 1..];
  }

  lemma {:induction false} SplitLast(front: string, a: string, front': string, b: string)
    requires NUL !in a && NUL !in b && front + [NUL] + a == front' + [NUL] + b
    ensures front == front' && a == b
  {
    var s, t := front + [NUL] + a, front' + [NUL] + b;
    assert s[|front|] == NUL && t[|front'|] == NUL;
    assert forall i :: |front| < i < |s| ==> s[i] == a[i - |front| - 1] != NUL;
    assert forall i :: |front'| < i < |t| ==> t[i] == b[i - |front'| - 1] != NUL;
    assert front == s[..|front|] && front' == t[..|front'|];
    assert a == s[|front| + 1..] && b == t[|front'| + 1..];
  }

  /** Equal values mean equal state, message and details, as long as states contain no NUL. */
  lemma ValueInjective(e: Event, f: Event)
    requires NUL !in e.state && NUL !in f.state && NUL !in e.details && NUL !in f.details
    ensures ValueOf(e) == ValueOf(f) <==> e.state == f.state && e.message == f.message && e.details == f.details
  {
    if ValueOf(e) == ValueOf(f) {
      var m, n := e.message + [NUL] + e.details, f.message + [NUL] + f.details;
      assert ValueOf(e) == e.state + [NUL] + m && ValueOf(f) == f.state + [NUL] + n;
      SplitFirst(NUL, e.state, m, f.state, n);
      SplitLast(e.message, e.details, f.message, f.details);
    }
  }

  // ---------------------------------------------------------------- what counts as the same thing

  const COLON: char := ':'

  /** No part of the event's key contains the separator. */
  predicate Separable(e: Event) {
    && COLON !in e.kind && COLON !in e.node
    && (e.subject.Some? ==>
          COLON !in e.subject.value.kind && COLON !in e.subject.value.namespace && COLON !in e.subject.value.name)
  }

  /** Events of the same type, node, and object by kind, namespace and name; the object's UID does not matter. */
  predicate SameThing(e: Event, f: Event) {
    && e.kind == f.kind && e.node == f.node && (e.subject.Some? <==> f.subject.Some?)
    && (e.subject.Some? ==>
          && e.subject.value.kind == f.subject.value.kind && e.subject.value.namespace == f.subject.value.namespace
          && e.subject.value.name == f.subject.value.name)
  }

  /** What follows the type in a key. */
  function KeyRest(e: Event): string {
    if e.subject.None? then e.node
    else
      e.node + [COLON] + (e.subject.value.kind + [COLON] + (e.subject.value.namespace + [COLON] + e.subject.value.name))
  }

  lemma KeyParts(e: Event)
    ensures KeyOf(e) == e.kind + [COLON] + KeyRest(e)
  {
    if e.subject.Some? {
      var o := e.subject.value;
      assert KeyOf(e) == e.kind + ":" + e.node + (":" + o.kind + ":" + o.namespace + ":" + o.name);
    }
  }

  /** Two events share a stream exactly when they are about the same thing, as long as no part contains a colon. */
  lemma KeySharedExactly(e: Event, f: Event)
    requires Separable(e) && Separable(f)
    ensures KeyOf(e) == KeyOf(f) <==> SameThing(e, f)
  {
    KeyParts(e);
    KeyParts(f);
    if KeyOf(e) == KeyOf(f) {
      SplitFirst(COLON, e.kind, KeyRest(e), f.kind, KeyRest(f));
      RestShared(e, f);
    }
  }

  lemma RestShared(e: Event, f: Event)
    requires Separable(e) && Separable(f) && KeyRest(e) == KeyRest(f)
    ensures e.node == f.node && (e.subject.Some? <==> f.subject.Some?)
    ensures e.subject.Some? ==>
              && e.subject.value.kind == f.subject.value.kind && e.subject.value.namespace == f.subject.value.namespace
              && e.subject.value.name == f.subject.value.name
  {
    if e.subject.Some? { HasColon(e); }
    if f.subject.Some? { HasColon(f); }
    if e.subject.Some? && f.subject.Some? {
      var o, p := e.subject.value, f.subject.value;
      var m, n := o.namespace + [COLON] + o.name, p.namespace + [COLON] + p.name;
      SplitFirst(COLON, e.node, o.kind + [COLON] + m, f.node, p.kind + [COLON] + n);
      SplitFirst(COLON, o.kind, m, p.kind, n);
      SplitFirst(COLON, o.namespace, o.name, p.namespace, p.name);
    }
  }

  lemma HasColon(e: Event)
    requires e.subject.Some?
    ensures COLON in KeyRest(e)
  {
    assert KeyRest(e)[|e.node|] == COLON;
  }

  /** An object that was deleted and created anew under its name goes on in the old stream. */
  lemma RecreatedShares(e: Event, uid: string)
    requires e.subject.Some?
    ensures KeyOf(e.(subject := Some(e.subject.value.(uid := uid)))) == KeyOf(e)
  {}

  // ---------------------------------------------------------------- the reference

  /** The events of `s` about the thing `key`, in order. */
  function About(s: seq<Event>, key: string): seq<Event> {
    if s == [] then []
    else
      var front, last := About(s[..|s| - 1], key), s[|s| - 1];
      if KeyOf(last) == key then front + [last] else front
  }

  /** `s` without the events that repeat the value just before them. */
  function Destutter(s: seq<Event>): seq<Event> {
    if s == [] then []
    else
      var n := |s| - 1;
      if n > 0 && ValueOf(s[n - 1]) == ValueOf(s[n]) then Destutter(s[..n]) else Destutter(s[..n]) + [s[n]]
  }

  /** The first event is kept, the last value survives, and no two neighbours are equal. */
  lemma {:induction false} DestutterShape(s: seq<Event>)
    ensures var d := Destutter(s);
            && (s != [] ==> d != [] && d[0] == s[0] && ValueOf(d[|d| - 1]) == ValueOf(s[|s| - 1]))
            && forall i :: 0 < i < |d| ==> ValueOf(d[i - 1]) != ValueOf(d[i])
  {
    if s != [] { DestutterShape(s[..|s| - 1]); }
  }

  /**
   The kept events are the first ones of the runs of equal values, run by run and in order: event `k` is the one at
   `starts[k]`, and the values from there to the next start are all its own.
   */
  lemma {:induction false} DestutterRuns(s: seq<Event>) returns (starts: seq<nat>)
    ensures StartsOf(s, Destutter(s), starts)
  {
    if s == [] { return []; }
    var n := |s| - 1;
    starts := DestutterRuns(s[..n]);
    OneMoreStart(s, n, starts);
    if n == 0 || ValueOf(s[n - 1]) != ValueOf(s[n]) { starts := starts + [n]; }
  }

  ghost predicate StartsOf(s: seq<Event>, d: seq<Event>, starts: seq<nat>) {
    && |starts| == |d| && (s != [] ==> starts != [] && starts[0] == 0)
    && (forall k :: 0 <= k < |starts| ==> starts[k] < |s| && d[k] == s[starts[k]])
    && (forall k, l :: 0 <= k < l < |starts| ==> starts[k] < starts[l])
    && forall k, i :: 0 <= k < |starts| && InRun(s, starts, k, i) ==> ValueOf(s[i]) == ValueOf(s[starts[k]])
  }

  /** Position `i` is in the run that starts as the `k`-th. */
  predicate InRun(s: seq<Event>, starts: seq<nat>, k: int, i: int)
    requires 0 <= k < |starts|
  {
    starts[k] <= i < |s| && (k + 1 < |starts| ==> i < starts[k + 1])
  }

  lemma OneMoreStart(s: seq<Event>, n: nat, starts: seq<nat>)
    requires |s| == n + 1 && StartsOf(s[..n], Destutter(s[..n]), starts)
    ensures if n > 0 && ValueOf(s[n - 1]) == ValueOf(s[n]) then StartsOf(s, Destutter(s), starts)
            else StartsOf(s, Destutter(s), starts + [n])
  {
    hide ValueOf, StartsOf;
    var front := s[..n];
    assert s == front + [s[n]];
    DestutterOneMore(front, s[n]);
    if n > 0 && ValueOf(s[n - 1]) == ValueOf(s[n]) {
      RunGoesOn(s, n, Destutter(front), starts);
    } else {
      RunBegins(s, n, Destutter(front), starts);
    }
  }

  lemma RunGoesOn(s: seq<Event>, n: nat, d: seq<Event>, starts: seq<nat>)
    requires |s| == n + 1 && n > 0 && StartsOf(s[..n], d, starts) && ValueOf(s[n - 1]) == ValueOf(s[n])
    ensures StartsOf(s, d, starts)
  {
    hide ValueOf;
    var front := s[..n];
    forall k, i | 0 <= k < |starts| && InRun(s, starts, k, i) ensures ValueOf(s[i]) == ValueOf(s[starts[k]]) {
      if i < n {
        assert InRun(front, starts, k, i) && front[i] == s[i];
      } else {
        assert InRun(front, starts, k, n - 1) && front[n - 1] == s[n - 1];
      }
    }
  }

  lemma RunBegins(s: seq<Event>, n: nat, d: seq<Event>, starts: seq<nat>)
    requires |s| == n + 1 && StartsOf(s[..n], d, starts)
    ensures StartsOf(s, d + [s[n]], starts + [n])
  {
    hide ValueOf;
    var front, all := s[..n], starts + [n];
    forall k, i | 0 <= k < |all| && InRun(s, all, k, i) ensures ValueOf(s[i]) == ValueOf(s[all[k]]) {
      if k < |starts| {
        assert all[k + 1] == if k + 1 < |starts| then starts[k + 1] else n;
        assert InRun(front, starts, k, i) && front[i] == s[i];
      }
    }
  }

  /** Filtering what was filtered changes nothing. */
  lemma {:induction false} DestutterTwice(s: seq<Event>)
    ensures Destutter(Destutter(s)) == Destutter(s)
  {
    DestutterShape(s);
    Unchanged(Destutter(s));
  }

  lemma {:induction false} Unchanged(d: seq<Event>)
    requires forall i :: 0 < i < |d| ==> ValueOf(d[i - 1]) != ValueOf(d[i])
    ensures Destutter(d) == d
  {
    if d != [] {
      Unchanged(d[..|d| - 1]);
      assert d == d[..|d| - 1] + [d[|d| - 1]];
    }
  }

  // ---------------------------------------------------------------- the filter

  /** `last` holds the last value about the thing, and `kept` is its destuttered stream. */
  predicate Recalls(last: map<string, string>, seen: seq<Event>, kept: seq<Event>, key: string) {
    var stream := About(seen, key);
    && (key in last <==> stream != [])
    && (key in last ==> last[key] == ValueOf(stream[|stream| - 1]))
    && About(kept, key) == Destutter(stream)
  }

  ghost predicate Remembers(last: map<string, string>, seen: seq<Event>, kept: seq<Event>) {
    forall key :: Recalls(last, seen, kept, key)
  }

  class Reducer {
    var last: map<string, string>
    ghost var seen: seq<Event>
    ghost var kept: seq<Event>

    ghost predicate Valid()
      reads this
    {
      Remembers(last, seen, kept)
    }

    constructor ()
      ensures Valid() && seen == kept == []
    {
      last, seen, kept := map[], [], [];
    }

    /** Keeps the event unless it repeats; thing by thing, what was kept is the destuttered stream. */
    method Accept(e: Event) returns (accepted: bool)
      requires Valid()
      modifies this
      ensures Valid()
      ensures seen == old(seen) + [e] && kept == old(kept) + (if accepted then [e] else [])
      ensures forall key :: About(kept, key) == Destutter(About(seen, key))
    {
      hide KeyOf, ValueOf, Destutter, About, Remembers;
      var key := KeyOf(e);
      var value := ValueOf(e);
      accepted := Lookup(last, key) != value;
      AcceptRemembers(last, seen, kept, e);
      seen := seen + [e];
      if accepted {
        last := last[key := value];
        kept := kept + [e];
      }
      KeptStreams(last, seen, kept);
    }
  }

  lemma AcceptRemembers(last: map<string, string>, seen: seq<Event>, kept: seq<Event>, e: Event)
    requires Remembers(last, seen, kept)
    ensures if Lookup(last, KeyOf(e)) == ValueOf(e) then Remembers(last, seen + [e], kept)
            else Remembers(last[KeyOf(e) := ValueOf(e)], seen + [e], kept + [e])
  {
    hide Recalls, KeyOf, ValueOf;
    if Lookup(last, KeyOf(e)) == ValueOf(e) {
      forall key ensures Recalls(last, seen + [e], kept, key) { AcceptRecalls(last, seen, kept, e, key); }
    } else {
      var now := last[KeyOf(e) := ValueOf(e)];
      forall key ensures Recalls(now, seen + [e], kept + [e], key) { AcceptRecalls(last, seen, kept, e, key); }
    }
  }

  lemma AcceptRecalls(last: map<string, string>, seen: seq<Event>, kept: seq<Event>, e: Event, key: string)
    requires Recalls(last, seen, kept, key)
    ensures if Lookup(last, KeyOf(e)) == ValueOf(e) then Recalls(last, seen + [e], kept, key)
            else Recalls(last[KeyOf(e) := ValueOf(e)], seen + [e], kept + [e], key)
  {
    hide KeyOf, ValueOf, Destutter, About;
    NotEmpty(e);
    AboutOneMore(seen, e, key);
    AboutOneMore(kept, e, key);
    DestutterOneMore(About(seen, key), e);
  }

  lemma KeptStreams(last: map<string, string>, seen: seq<Event>, kept: seq<Event>)
    requires Remembers(last, seen, kept)
    ensures forall key :: About(kept, key) == Destutter(About(seen, key))
  {
    forall key ensures About(kept, key) == Destutter(About(seen, key)) { assert Recalls(last, seen, kept, key); }
  }

  lemma NotEmpty(e: Event)
    ensures ValueOf(e) != ""
  {
    assert |ValueOf(e)| >= 2;
  }

  lemma AboutOneMore(s: seq<Event>, e: Event, key: string)
    ensures About(s + [e], key) == if key == KeyOf(e) then About(s, key) + [e] else About(s, key)
  {
    assert (s + [e])[..|s|] == s;
  }

  lemma DestutterOneMore(s: seq<Event>, e: Event)
    ensures Destutter(s + [e])
         == if s != [] && ValueOf(s[|s| - 1]) == ValueOf(e) then Destutter(s) else Destutter(s) + [e]
  {
    assert (s + [e])[..|s|] == s;
  }
}
