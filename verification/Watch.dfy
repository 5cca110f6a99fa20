/** Watching migrations: a list-and-watch cache of the active ones, and the reports made of them. */
module Watch {
  import opened Common
  import opened Errors

  /** A migration as listed or streamed; `inferred` is the source its annotations suggest. */
  datatype Info = Info(uid: string, source: string, inferred: string, active: bool, state: string, reason: string)

  datatype Report = Report(node: string, info: Info)

  datatype Kind = Changed | Deleted

  /** What the stream delivers; an exhausted stream is a closed channel. */
  datatype Delivery =
    | Change(kind: Kind, info: Info, broken: bool)   // `broken`: the report of it could not be written
    | Skippable                                      // a bookmark, or some other object
    | Failed                                         // an error event
    | Stopped                                        // the operator interrupts

  /** One list and the stream opened at its version; `interrupt` holds when a call fails or the pause ends early. */
  datatype Session = Session(
    listed: Option<seq<Info>>, broken: bool, connected: bool, stream: seq<Delivery>, interrupt: bool)

  // ---------------------------------------------------------------- the server

  /** The entry under `u`, if listed. */
  function Entry(listed: seq<Info>, u: string): Option<Info> {
    if listed == [] then None
    else if listed[|listed| - 1].uid == u then Some(listed[|listed| - 1])
    else Entry(listed[..|listed| - 1], u)
  }

  /** A listing names each object once. */
  ghost predicate DistinctUids(listed: seq<Info>) {
    forall i, j :: 0 <= i < j < |listed| ==> listed[i].uid != listed[j].uid
  }

  function ServerOf(listed: seq<Info>): map<string, Info> {
    if listed == [] then map[]
    else ServerOf(listed[..|listed| - 1])[listed[|listed| - 1].uid := listed[|listed| - 1]]
  }

  /** The server's migrations after a delivery. */
  function Apply(server: map<string, Info>, d: Delivery): map<string, Info> {
    if !d.Change? then server
    else if d.kind.Deleted? then server - {d.info.uid}
    else server[d.info.uid := d.info]
  }

  function Play(server: map<string, Info>, ds: seq<Delivery>): map<string, Info> {
    if ds == [] then server else Apply(Play(server, ds[..|ds| - 1]), ds[|ds| - 1])
  }

  /** The active migrations, as they are. */
  function ActiveOf(server: map<string, Info>): map<string, Info> {
    map u | u in server && server[u].active :: server[u]
  }

  lemma {:induction false} ServerEntry(listed: seq<Info>, u: string)
    ensures u in ServerOf(listed) <==> Entry(listed, u).Some?
    ensures u in ServerOf(listed) ==> ServerOf(listed)[u] == Entry(listed, u).value
  {
    if listed != [] { ServerEntry(listed[..|listed| - 1], u); }
  }

  // ---------------------------------------------------------------- histories

  /** What was said about migration `u`, in order. */
  function About(said: seq<Info>, u: string): seq<Info> {
    if said == [] then []
    else About(said[..|said| - 1], u) + (if said[|said| - 1].uid == u then [said[|said| - 1]] else [])
  }

  /** A prefix of (active+ terminal)*: a terminal report directly follows an active one. */
  predicate WellFormed(h: seq<Info>) {
    forall i :: 0 <= i < |h| && !h[i].active ==> i > 0 && h[i - 1].active
  }

  /** The newest report is an active one. */
  predicate Open(h: seq<Info>) { h != [] && h[|h| - 1].active }

  lemma AboutAppend(said: seq<Info>, m: Info, u: string)
    ensures About(said + [m], u) == About(said, u) + (if m.uid == u then [m] else [])
  {
    assert (said + [m])[..|said|] == said;
  }

  /** The history of `u` is well formed, and it is open exactly while `u` is tracked. */
  predicate Sound(tracked: map<string, Info>, said: seq<Info>, u: string) {
    && WellFormed(About(said, u))
    && (u in tracked <==> Open(About(said, u)))
    && (u in tracked ==> tracked[u].uid == u)
  }

  /** How a migration that disappeared while active is reported. */
  function Vanished(m: Info): Info {
    m.(active := false, state := "Deleted",
       reason := "migration object deleted before a terminal phase was observed")
  }

  /** What a relist says about `u`: an active one, or one that was tracked, gets exactly one report. */
  function SaidByList(tracked: map<string, Info>, listed: seq<Info>, u: string): seq<Info> {
    match Entry(listed, u)
    case Some(m) => if m.active || u in tracked then [m] else []
    case None => if u in tracked then [Vanished(tracked[u])] else []
  }

  /** How a change is understood: an active object that was deleted has vanished. */
  function Understood(d: Delivery): Info
    requires d.Change?
  {
    if d.kind.Deleted? && d.info.active then Vanished(d.info) else d.info
  }

  function SaidByChange(tracked: map<string, Info>, d: Delivery, u: string): seq<Info>
    requires d.Change?
  {
    var m := Understood(d);
    if m.uid == u && (m.active || u in tracked) then [m] else []
  }

  /** The change concerns an active migration, or ends one. */
  predicate Reported(server: map<string, Info>, d: Delivery)
    requires d.Change?
  {
    Understood(d).active || d.info.uid in ActiveOf(server)
  }

  // ---------------------------------------------------------------- the node filter

  function SourceOf(m: Info): string { if m.source == "" then m.inferred else m.source }

  predicate Passes(nodes: set<string>, m: Info) { nodes == {} || SourceOf(m) in nodes }

  /** The reports that the filter lets through. */
  function Passed(nodes: set<string>, said: seq<Info>): seq<Report> {
    if said == [] then []
    else Passed(nodes, said[..|said| - 1])
         + (if Passes(nodes, said[|said| - 1]) then [Report(SourceOf(said[|said| - 1]), said[|said| - 1])] else [])
  }

  function Infos(reports: seq<Report>): seq<Info> { seq(|reports|, i requires 0 <= i < |reports| => reports[i].info) }

  lemma PassedAppend(nodes: set<string>, said: seq<Info>, m: Info)
    ensures Passed(nodes, said + [m])
         == Passed(nodes, said) + (if Passes(nodes, m) then [Report(SourceOf(m), m)] else [])
  {
    assert (said + [m])[..|said|] == said;
  }

  /** A history without the entries that the filter rejects. */
  function Kept(nodes: set<string>, h: seq<Info>): seq<Info> {
    if h == [] then []
    else Kept(nodes, h[..|h| - 1]) + (if Passes(nodes, h[|h| - 1]) then [h[|h| - 1]] else [])
  }

  lemma KeptAppend(nodes: set<string>, h: seq<Info>, m: Info)
    ensures Kept(nodes, h + [m]) == Kept(nodes, h) + (if Passes(nodes, m) then [m] else [])
  {
    assert (h + [m])[..|h|] == h;
  }

  /** The reports of a migration are its history, filtered entry by entry. */
  lemma {:induction false} ReportedHistory(nodes: set<string>, said: seq<Info>, u: string)
    ensures About(Infos(Passed(nodes, said)), u) == Kept(nodes, About(said, u))
  {
    hide Passes;
    if said != [] {
      var n := |said| - 1;
      var m := said[n];
      ReportedHistory(nodes, said[..n], u);
      assert About(said, u) == if m.uid == u then About(said[..n], u) + [m] else About(said[..n], u);
      KeptAppend(nodes, About(said[..n], u), m);
      if Passes(nodes, m) {
        assert Infos(Passed(nodes, said)) == Infos(Passed(nodes, said[..n])) + [m];
        AboutAppend(Infos(Passed(nodes, said[..n])), m, u);
      } else {
        assert Passed(nodes, said) == Passed(nodes, said[..n]);
      }
    }
  }

  /** A history is kept in full exactly when all of it passes, and dropped in full exactly when nothing does. */
  lemma {:induction false} KeptCount(nodes: set<string>, h: seq<Info>)
    ensures |Kept(nodes, h)| <= |h|
    ensures |Kept(nodes, h)| == |h| <==> forall m :: m in h ==> Passes(nodes, m)
    ensures |Kept(nodes, h)| == 0 <==> forall m :: m in h ==> !Passes(nodes, m)
    ensures |Kept(nodes, h)| == |h| ==> Kept(nodes, h) == h
  {
    hide Passes;
    if h != [] {
      KeptCount(nodes, h[..|h| - 1]);
      assert h == h[..|h| - 1] + [h[|h| - 1]];
    }
  }

  /** A migration is reported in full exactly when all that is said of it passes, and not at all when nothing does. */
  lemma FilteredHistory(nodes: set<string>, said: seq<Info>, u: string)
    ensures var reported := About(Infos(Passed(nodes, said)), u);
            && (reported == About(said, u) <==> forall m :: m in About(said, u) ==> Passes(nodes, m))
            && (reported == [] <==> forall m :: m in About(said, u) ==> !Passes(nodes, m))
  {
    hide About, Passes;
    ReportedHistory(nodes, said, u);
    KeptCount(nodes, About(said, u));
  }

  /** Before entry `i` an active one passes, and no terminal one after it does. */
  predicate Begun(nodes: set<string>, h: seq<Info>, i: nat)
    requires i <= |h|
  {
    exists j :: 0 <= j < i && h[j].active && Passes(nodes, h[j])
                && forall k :: j < k < i && !h[k].active ==> !Passes(nodes, h[k])
  }

  /** Each terminal entry that passes follows a passing active one, after the passing terminal one before it. */
  predicate Paired(nodes: set<string>, h: seq<Info>) {
    forall i :: 0 <= i < |h| && !h[i].active && Passes(nodes, h[i]) ==> Begun(nodes, h, i)
  }

  lemma {:induction false} KeptOpen(nodes: set<string>, h: seq<Info>)
    ensures Open(Kept(nodes, h)) <==> Begun(nodes, h, |h|)
  {
    hide Passes;
    if h != [] {
      var n := |h| - 1;
      KeptOpen(nodes, h[..n]);
      BegunOneMore(nodes, h, n);
    }
  }

  lemma BegunOneMore(nodes: set<string>, h: seq<Info>, n: nat)
    requires n < |h|
    ensures Begun(nodes, h, n) <==> Begun(nodes, h[..n], n)
    ensures Begun(nodes, h, n + 1)
            <==> if Passes(nodes, h[n]) then h[n].active else Begun(nodes, h, n)
  {
    hide Passes;
    var p := h[..n];
    if Begun(nodes, p, n) {
      var j :| 0 <= j < n && p[j].active && Passes(nodes, p[j])
               && forall k :: j < k < n && !p[k].active ==> !Passes(nodes, p[k]);
      assert h[j].active && Passes(nodes, h[j]);
      forall k | j < k < n && !h[k].active ensures !Passes(nodes, h[k]) { assert !p[k].active; }
    }
    if Begun(nodes, h, n) {
      var j :| 0 <= j < n && h[j].active && Passes(nodes, h[j])
               && forall k :: j < k < n && !h[k].active ==> !Passes(nodes, h[k]);
      assert p[j].active && Passes(nodes, p[j]);
      forall k | j < k < n && !p[k].active ensures !Passes(nodes, p[k]) { assert !h[k].active; }
    }
  }

  lemma {:induction false} KeptWellFormed(nodes: set<string>, h: seq<Info>)
    ensures WellFormed(Kept(nodes, h)) <==> Paired(nodes, h)
  {
    if h != [] {
      var n := |h| - 1;
      KeptWellFormed(nodes, h[..n]);
      KeptOpen(nodes, h[..n]);
      PairedOneMore(nodes, h, n);
      hide Passes, Paired, Begun;
      WellFormedOneMore(Kept(nodes, h[..n]), h[n]);
      assert Kept(nodes, h) == if Passes(nodes, h[n]) then Kept(nodes, h[..n]) + [h[n]] else Kept(nodes, h[..n]);
    }
  }

  lemma PairedOneMore(nodes: set<string>, h: seq<Info>, n: nat)
    requires |h| == n + 1
    ensures Paired(nodes, h)
            <==> Paired(nodes, h[..n]) && (!h[n].active && Passes(nodes, h[n]) ==> Begun(nodes, h[..n], n))
  {
    hide Passes, Begun;
    forall i | 0 <= i <= n ensures Begun(nodes, h, i) <==> Begun(nodes, h[..n], i) {
      BegunOneMore(nodes, h, i);
      assert h[..n][..i] == h[..i];
      if i < n { BegunOneMore(nodes, h[..n], i); }
    }
    assert forall i :: 0 <= i < n ==> h[..n][i] == h[i];
  }

  lemma WellFormedOneMore(s: seq<Info>, m: Info)
    ensures WellFormed(s + [m]) <==> WellFormed(s) && (m.active || Open(s))
  {
    var all := s + [m];
    assert forall i :: 0 <= i < |s| ==> all[i] == s[i];
    assert all[|s|] == m;
    if WellFormed(all) {
      forall i | 0 <= i < |s| && !s[i].active ensures i > 0 && s[i - 1].active { assert !all[i].active; }
    }
  }

  /** The reports of a migration are well formed exactly when each reported end has a reported beginning of its own. */
  lemma ReportsWellFormedExactly(nodes: set<string>, said: seq<Info>, u: string)
    ensures WellFormed(About(Infos(Passed(nodes, said)), u)) <==> Paired(nodes, About(said, u))
  {
    hide About, WellFormed, Paired;
    ReportedHistory(nodes, said, u);
    KeptWellFormed(nodes, About(said, u));
  }

  /** With a filter, a migration that leaves it while active is reported as active and never as ended. */
  lemma FilterCanHideTheEnd(nodes: set<string>, went: Info, ended: Info)
    requires went.uid == ended.uid && went.active && !ended.active
    requires Passes(nodes, went) && !Passes(nodes, ended)
    ensures WellFormed(About([went, ended], went.uid))
    ensures About(Infos(Passed(nodes, [went, ended])), went.uid) == [went]
  {
    PairHistory(nodes, went, ended);
  }

  /** With a filter, a migration whose source is known only when it ends is reported as ended and never as active. */
  lemma FilterCanHideTheBeginning(nodes: set<string>, went: Info, ended: Info)
    requires went.uid == ended.uid && went.active && !ended.active
    requires !Passes(nodes, went) && Passes(nodes, ended)
    ensures WellFormed(About([went, ended], went.uid))
    ensures About(Infos(Passed(nodes, [went, ended])), went.uid) == [ended]
    ensures !WellFormed(About(Infos(Passed(nodes, [went, ended])), went.uid))
  {
    PairHistory(nodes, went, ended);
  }

  /** Such a migration: first without any source, then with one. */
  lemma LateSource(u: string, node: string)
    requires node != ""
    ensures !Passes({node}, Info(u, "", "", true, "Pending", ""))
    ensures Passes({node}, Info(u, node, "", false, "Failed", ""))
  {}

  lemma PairHistory(nodes: set<string>, went: Info, ended: Info)
    requires went.uid == ended.uid
    ensures About([went, ended], went.uid) == [went, ended]
    ensures About(Infos(Passed(nodes, [went, ended])), went.uid)
         == (if Passes(nodes, went) then [went] else []) + (if Passes(nodes, ended) then [ended] else [])
  {
    var u := went.uid;
    assert [] + [went] == [went] && [went] + [ended] == [went, ended];
    AboutAppend([], went, u);
    AboutAppend([went], ended, u);
    ReportedHistory(nodes, [went, ended], u);
    KeptAppend(nodes, [], went);
    KeptAppend(nodes, [went], ended);
  }

  // ---------------------------------------------------------------- keeping histories sound

  /** A history stays well formed under an active report, or under any report while it is open. */
  lemma KeepsWellFormed(h: seq<Info>, more: seq<Info>)
    requires WellFormed(h) && |more| <= 1 && (|more| == 1 ==> more[0].active || Open(h))
    ensures WellFormed(h + more) && (Open(h + more) <==> if more == [] then Open(h) else more[0].active)
  {
    var all := h + more;
    assert forall i :: 0 <= i < |h| ==> all[i] == h[i];
  }

  lemma ListKeepsSound(tracked: map<string, Info>, said: seq<Info>, listed: seq<Info>,
                       now: map<string, Info>, after: seq<Info>, u: string)
    requires Sound(tracked, said, u)
    requires About(after, u) == About(said, u) + SaidByList(tracked, listed, u)
    requires u in now <==> (Entry(listed, u).Some? && Entry(listed, u).value.active)
    requires u in now ==> now[u].uid == u
    ensures Sound(now, after, u)
  {
    hide About, WellFormed, Open;
    KeepsWellFormed(About(said, u), SaidByList(tracked, listed, u));
    EntryUid(listed, u);
  }

  lemma ChangeKeepsSound(tracked: map<string, Info>, said: seq<Info>, d: Delivery,
                         now: map<string, Info>, after: seq<Info>, u: string)
    requires d.Change? && Sound(tracked, said, u)
    requires About(after, u) == About(said, u) + SaidByChange(tracked, d, u)
    requires u in now <==> if d.info.uid == u then Understood(d).active else u in tracked
    requires u in now ==> now[u].uid == u
    ensures Sound(now, after, u)
  {
    hide About, WellFormed, Open;
    KeepsWellFormed(About(said, u), SaidByChange(tracked, d, u));
  }

  // ---------------------------------------------------------------- one list, loop by loop

  /** What the first loop of a relist has said about `u` after the entries `front`. */
  function SaidByEntries(tracked: map<string, Info>, front: seq<Info>, u: string): seq<Info> {
    match Entry(front, u)
    case Some(m) => if m.active || u in tracked then [m] else []
    case None => []
  }

  /** The cache after the entries `front`, at `u`. */
  ghost predicate Merged(tracked: map<string, Info>, front: seq<Info>, now: map<string, Info>, u: string) {
    match Entry(front, u)
    case Some(m) => (u in now <==> m.active) && (u in now ==> now[u] == m)
    case None => (u in now <==> u in tracked) && (u in now ==> now[u] == tracked[u])
  }

  lemma {:induction false} EntryUid(listed: seq<Info>, u: string)
    ensures Entry(listed, u).Some? ==> Entry(listed, u).value.uid == u && Entry(listed, u).value in listed
    ensures Entry(listed, u).None? ==> forall m :: m in listed ==> m.uid != u
  {
    if listed != [] {
      EntryUid(listed[..|listed| - 1], u);
      assert listed == listed[..|listed| - 1] + [listed[|listed| - 1]];
    }
  }

  /** Another entry is new to the ones before it. */
  lemma EntryOneMore(listed: seq<Info>, i: nat, u: string)
    requires DistinctUids(listed) && i < |listed|
    ensures Entry(listed[..i + 1], u) == if listed[i].uid == u then Some(listed[i]) else Entry(listed[..i], u)
    ensures Entry(listed[..i], listed[i].uid).None?
  {
    assert listed[..i + 1][..i] == listed[..i];
    EntryUid(listed[..i], listed[i].uid);
  }

  /** What the second loop says about `u`. */
  function Lost(tracked: map<string, Info>, found: set<string>, u: string): seq<Info> {
    if u in tracked && u !in found then [Vanished(tracked[u])] else []
  }

  /** The second loop while `rest` is still to be looked at: the cache `now` and the reports `said`, at `u`. */
  predicate SweptAt(tracked: map<string, Info>, old_: seq<Info>, found: set<string>, rest: set<string>,
                    now: map<string, Info>, said: seq<Info>, u: string)
  {
    && (u in now <==> u in tracked && (u in rest || u in found)) && (u in now ==> now[u] == tracked[u])
    && About(said, u) == About(old_, u) + (if u in rest then [] else Lost(tracked, found, u))
  }

  lemma SweepStarts(tracked: map<string, Info>, said: seq<Info>, found: set<string>)
    ensures forall u :: SweptAt(tracked, said, found, tracked.Keys, tracked, said, u)
  {
    hide About;
  }

  lemma SweptEntry(tracked: map<string, Info>, old_: seq<Info>, found: set<string>, rest: set<string>,
                   now: map<string, Info>, said: seq<Info>, u: string)
    requires SweptAt(tracked, old_, found, rest, now, said, u) && u in rest && u in now
    ensures u in tracked && now[u] == tracked[u]
  {}

  /** One turn: `v` is left alone if it was found, else reported and forgotten. */
  lemma SweepOne(tracked: map<string, Info>, old_: seq<Info>, found: set<string>, rest: set<string>,
                 now: map<string, Info>, told: seq<Info>, said: seq<Info>, v: string, u: string)
    requires v in rest && v in tracked && SweptAt(tracked, old_, found, rest, now, told, u)
    requires About(said, u) == About(told, u) + (if v !in found && u == v then [Vanished(tracked[v])] else [])
    ensures SweptAt(tracked, old_, found, rest - {v}, if v in found then now else now - {v}, said, u)
  {
    hide About;
  }

  lemma SweepEnds(tracked: map<string, Info>, old_: seq<Info>, found: set<string>, now: map<string, Info>,
                  said: seq<Info>)
    requires forall u :: SweptAt(tracked, old_, found, {}, now, said, u)
    ensures forall u :: u in now <==> u in tracked && u in found
    ensures forall u :: u in now ==> now[u] == tracked[u]
    ensures forall u :: About(said, u) == About(old_, u) + Lost(tracked, found, u)
  {
    hide About, Lost;
    forall u ensures u in now <==> u in tracked && u in found {
      assert SweptAt(tracked, old_, found, {}, now, said, u);
    }
    forall u | u in now ensures now[u] == tracked[u] { assert SweptAt(tracked, old_, found, {}, now, said, u); }
    forall u ensures About(said, u) == About(old_, u) + Lost(tracked, found, u) {
      assert SweptAt(tracked, old_, found, {}, now, said, u);
    }
  }

  function TakeIn(tracked: map<string, Info>, m: Info): map<string, Info> {
    if m.active then tracked[m.uid := m] else tracked - {m.uid}
  }

  /** The first loop after the entries `front`: the cache `now` and the reports `said`, at `u`. */
  ghost predicate MergedAt(tracked: map<string, Info>, old_: seq<Info>, front: seq<Info>,
                           now: map<string, Info>, said: seq<Info>, u: string)
  {
    Merged(tracked, front, now, u) && About(said, u) == About(old_, u) + SaidByEntries(tracked, front, u)
  }

  lemma MergedNothing(tracked: map<string, Info>, said: seq<Info>)
    ensures forall u :: MergedAt(tracked, said, [], tracked, said, u)
  {}

  /** Taking in the next entry. */
  lemma TakeInOneMore(tracked: map<string, Info>, old_: seq<Info>, listed: seq<Info>, i: nat,
                     now: map<string, Info>, told: seq<Info>, said: seq<Info>, u: string)
    requires DistinctUids(listed) && i < |listed| && MergedAt(tracked, old_, listed[..i], now, told, u)
    requires var m := listed[i];
             About(said, u) == About(told, u) + (if m.uid == u && (m.active || u in now) then [m] else [])
    ensures MergedAt(tracked, old_, listed[..i + 1], TakeIn(now, listed[i]), said, u)
  {
    hide About;
    EntryOneMore(listed, i, u);
  }

  lemma MergedUid(before: map<string, Info>, told: seq<Info>, listed: seq<Info>, merged: map<string, Info>,
                  mid: seq<Info>, u: string)
    requires MergedAt(before, told, listed, merged, mid, u) && Sound(before, told, u) && u in merged
    ensures merged[u].uid == u
  {
    EntryUid(listed, u);
  }

  /** The two loops of a relist together, at `u`. */
  lemma RelistAt(before: map<string, Info>, told: seq<Info>, listed: seq<Info>, merged: map<string, Info>,
                 mid: seq<Info>, found: set<string>, now: map<string, Info>, said: seq<Info>, u: string)
    requires MergedAt(before, told, listed, merged, mid, u) && Sound(before, told, u)
    requires u in found <==> Entry(listed, u).Some?
    requires u in now <==> u in merged && u in found
    requires u in now ==> now[u] == merged[u]
    requires About(said, u) == About(mid, u) + Lost(merged, found, u)
    ensures Sound(now, said, u)
    ensures u in now <==> u in ActiveOf(ServerOf(listed))
    ensures u in now ==> now[u] == ActiveOf(ServerOf(listed))[u]
    ensures About(said, u) == About(told, u) + SaidByList(before, listed, u)
  {
    ServerEntry(listed, u);
    EntryUid(listed, u);
    assert About(said, u) == About(told, u) + SaidByList(before, listed, u) by { hide About; }
    ListKeepsSound(before, told, listed, now, said, u);
  }

  // ---------------------------------------------------------------- the watcher

  class Watcher {
    const nodes: set<string>
    var tracked: map<string, Info>
    var reports: seq<Report>
    ghost var said: seq<Info>        // everything offered to the node filter

    ghost predicate Valid()
      reads this
    {
      (forall u :: Sound(tracked, said, u)) && reports == Passed(nodes, said)
    }

    /** Histories stay well formed even when the watcher stops in the middle of a change. */
    ghost predicate Orderly()
      reads this
    {
      (forall u :: WellFormed(About(said, u))) && reports == Passed(nodes, said)
    }

    constructor (nodes: set<string>)
      ensures Valid() && this.nodes == nodes && tracked == map[] && said == []
    {
      this.nodes, tracked, reports, said := nodes, map[], [], [];
    }

    /** Reports the migration unless the node filter rejects its source. */
    method Emit(m: Info)
      requires reports == Passed(nodes, said)
      modifies this`reports, this`said
      ensures said == old(said) + [m] && reports == Passed(nodes, said)
      ensures var source := if m.source != "" then m.source else m.inferred;
              reports == old(reports) + (if nodes == {} || source in nodes then [Report(source, m)] else [])
      ensures forall u :: About(said, u) == About(old(said), u) + (if m.uid == u then [m] else [])
    {
      PassedAppend(nodes, said, m);
      forall u { AboutAppend(said, m, u); }
      said := said + [m];
      var source := m.source;
      if source == "" { source := m.inferred; }
      if |nodes| > 0 && source !in nodes { return; }
      reports := reports + [Report(source, m)];
    }

    /** One list: afterwards exactly the active migrations are tracked, and each has been reported as it should. */
    method Relist(listed: seq<Info>)
      requires Valid() && DistinctUids(listed)
      modifies this
      ensures Valid()
      ensures tracked == ActiveOf(ServerOf(listed))
      ensures forall u :: About(said, u) == About(old(said), u) + SaidByList(old(tracked), listed, u)
    {
      hide About, Sound, SaidByList, MergedAt, ActiveOf, Lost, Passed, Entry, ServerOf;
      ghost var before, told := tracked, said;
      var found := MergeListed(listed);
      ghost var merged, mid := tracked, said;
      forall u | u in tracked ensures tracked[u].uid == u {
        assert MergedAt(before, told, listed, merged, mid, u) && Sound(before, told, u);
        MergedUid(before, told, listed, merged, mid, u);
      }
      ReportVanished(found);
      ghost var active := ActiveOf(ServerOf(listed));
      forall u
        ensures Sound(tracked, said, u)
        ensures u in tracked <==> u in active
        ensures u in tracked ==> tracked[u] == active[u]
        ensures About(said, u) == About(told, u) + SaidByList(before, listed, u)
      {
        assert MergedAt(before, told, listed, merged, mid, u) && Sound(before, told, u);
        RelistAt(before, told, listed, merged, mid, found, tracked, said, u);
      }
    }

    /** The first loop: take in every entry that is active or tracked. */
    method MergeListed(listed: seq<Info>) returns (found: set<string>)
      requires Valid() && DistinctUids(listed)
      modifies this`tracked, this`reports, this`said
      ensures reports == Passed(nodes, said)
      ensures forall u :: u in found <==> Entry(listed, u).Some?
      ensures forall u :: MergedAt(old(tracked), old(said), listed, tracked, said, u)
    {
      hide MergedAt, Sound, About, Passed;
      MergedNothing(tracked, said);
      found := {};
      for i := 0 to |listed|
        invariant reports == Passed(nodes, said)
        invariant forall u :: u in found <==> Entry(listed[..i], u).Some?
        invariant forall u :: MergedAt(old(tracked), old(said), listed[..i], tracked, said, u)
      {
        var m := listed[i];
        ghost var prev, told := tracked, said;
        found := found + {m.uid};
        if m.active { tracked := tracked[m.uid := m]; }
        if m.uid in tracked {
          Emit(m);
          if !m.active { tracked := tracked - {m.uid}; }
        }
        assert tracked == TakeIn(prev, m);
        ghost var front := listed[..i + 1];
        forall u ensures u in found <==> Entry(front, u).Some? { EntryOneMore(listed, i, u); }
        forall u ensures MergedAt(old(tracked), old(said), front, tracked, said, u) {
          TakeInOneMore(old(tracked), old(said), listed, i, prev, told, said, u);
        }
      }
      assert listed[..|listed|] == listed;
    }

    /** The second loop: what is tracked but not listed has vanished. */
    method ReportVanished(found: set<string>)
      requires reports == Passed(nodes, said)
      requires forall u :: u in tracked ==> tracked[u].uid == u
      modifies this
      ensures reports == Passed(nodes, said)
      ensures forall u :: u in tracked <==> u in old(tracked) && u in found
      ensures forall u :: u in tracked ==> tracked[u] == old(tracked)[u]
      ensures forall u :: About(said, u) == About(old(said), u) + Lost(old(tracked), found, u)
    {
      hide SweptAt, About, Passed, Lost;
      var rest := tracked.Keys;
      SweepStarts(tracked, said, found);
      while rest != {}
        invariant rest <= tracked.Keys <= old(tracked).Keys && reports == Passed(nodes, said)
        invariant forall u :: SweptAt(old(tracked), old(said), found, rest, tracked, said, u)
        decreases rest
      {
        var u :| u in rest;
        ghost var now, told, left := tracked, said, rest;
        SweptEntry(old(tracked), old(said), found, rest, tracked, said, u);
        rest := rest - {u};
        if u !in found {
          Emit(Vanished(tracked[u]));
          tracked := tracked - {u};
        }
        forall v ensures SweptAt(old(tracked), old(said), found, rest, tracked, said, v) {
          SweepOne(old(tracked), old(said), found, left, now, told, said, u, v);
        }
      }
      SweepEnds(old(tracked), old(said), found, tracked, said);
    }

    /** One change: an active migration is tracked and reported, a tracked one that ended is reported once. */
    method Handle(d: Delivery, ghost server: map<string, Info>) returns (broken: bool)
      requires Valid() && d.Change? && tracked == ActiveOf(server)
      modifies this
      ensures broken ==> d.broken && Orderly()
      ensures !broken ==> Valid()
      ensures broken <==> d.broken && Reported(server, d)
      ensures !broken ==> tracked == ActiveOf(Apply(server, d))
      ensures forall u :: About(said, u) == About(old(said), u) + SaidByChange(old(tracked), d, u)
    {
      hide Sound, About, Passed, WellFormed, Open, ActiveOf, Apply;
      ActiveAfter(server, d);
      ghost var before, told := tracked, said;
      var m := d.info;
      if d.kind.Deleted? && m.active {
        m := m.(active := false, state := "Deleted",
                reason := "migration object deleted before a terminal phase was observed");
      }
      if m.active { tracked := tracked[m.uid := m]; }
      if m.uid in tracked {
        Emit(m);
        if d.broken {
          StoppedOrderly(before, told, d, said);
          return true;
        }
        if !m.active { tracked := tracked - {m.uid}; }
      }
      assert tracked == TakeIn(before, Understood(d));
      ChangeKeepsAllSound(before, told, d, said);
      return false;
    }

    /**
     The whole watch: lists and streams, over and over, until a call fails or the operator stops it. It returns
     when and as `Returned` says, which is never nil; it has said of each migration what `Told` says; and every
     history is well formed.
     */
    method Watch(script: seq<Session>) returns (ret: Error)
      requires Valid() && Listings(script)
      modifies this
      ensures ret == Returned(script) && Stops(ret)
      ensures forall u :: About(said, u) == About(old(said), u) + Told(old(tracked), script, u)
      ensures Orderly()
      ensures forall u :: WellFormed(About(Infos(reports), u)) <==> Paired(nodes, About(said, u))
      ensures nodes == {} ==> forall u :: About(Infos(reports), u) == About(said, u)
    {
      hide Sound, SaidInSession, SessionEnd, CacheAfter, WellFormed, Paired, About, Passed, Told, Telling;
      TellingStarts(tracked, said, script);
      for k := 0 to |script|
        invariant Valid() && Returned(script) == Returned(script[k..])
        invariant Telling(old(tracked), old(said), script, tracked, said, script[k..])
      {
        ghost var cache, heard := tracked, said;
        var end := OneSession(script[k]);
        KeepsTelling(old(tracked), old(said), script, k, cache, heard, tracked, said);
        assert script[k..][0] == script[k] && script[k..][1..] == script[k + 1..];
        if end.Some? {
          ReportsFiltered();
          TellingEnds(old(tracked), old(said), script, map[], said);
          return end.value;
        }
      }
      ValidIsOrderly();
      ReportsFiltered();
      assert script[|script|..] == [];
      TellingEnds(old(tracked), old(said), script, tracked, said);
      return Interrupt();
    }

    /** One list and its stream. */
    method OneSession(session: Session) returns (end: Option<Error>)
      requires Valid() && (session.listed.Some? ==> DistinctUids(session.listed.value))
      modifies this
      ensures end == SessionEnd(session)
      ensures end.None? ==> Valid() && tracked == CacheAfter(session)
      ensures Orderly()
      ensures forall u :: About(said, u) == About(old(said), u) + SaidInSession(old(tracked), session, u)
    {
      hide Sound, SaidByList, SaidInStream, WellFormed, About, StreamEnd, ActiveOf;
      ValidIsOrderly();
      if session.listed.None? { return Some(if session.interrupt then Interrupt() else Operational()); }
      Relist(session.listed.value);
      ValidIsOrderly();
      if session.broken { return Some(Operational()); }
      if !session.connected { return Some(if session.interrupt then Interrupt() else Operational()); }
      end := Follow(session);
      if end.None? && session.interrupt { return Some(Interrupt()); }
    }

    /** One stream, until it ends: after every delivery the cache is exactly the server's active migrations. */
    method Follow(session: Session) returns (end: Option<Error>)
      requires Valid() && session.listed.Some? && tracked == ActiveOf(ServerAt(session, 0))
      modifies this
      ensures end == StreamEnd(session, 0).stopped
      ensures end.None? ==> Valid() && tracked == ActiveOf(ServerAt(session, StreamEnd(session, 0).heard))
      ensures Orderly()
      ensures forall u :: About(said, u) == About(old(said), u) + SaidInStream(session, StreamEnd(session, 0).heard, u)
    {
      hide Sound, ServerAt, ActiveOf, About, SaidByChange, WellFormed;
      for k := 0 to |session.stream|
        invariant Valid() && tracked == ActiveOf(ServerAt(session, k)) && StreamEnd(session, 0) == StreamEnd(session, k)
        invariant forall u :: About(said, u) == About(old(said), u) + SaidInStream(session, k, u)
      {
        ValidIsOrderly();
        ServerNext(session, k);
        match session.stream[k] {
          case Stopped => return Some(Interrupt());
          case Failed => return None;
          case Skippable => continue;
          case Change(_, _, _) =>
            var broken := Handle(session.stream[k], ServerAt(session, k));
            if broken { return Some(Operational()); }
        }
      }
      ValidIsOrderly();
      return None;
    }

    lemma ValidIsOrderly()
      requires Valid()
      ensures Orderly()
    {
      forall u ensures WellFormed(About(said, u)) { assert Sound(tracked, said, u); }
    }

    /** What the filter made of the histories. */
    lemma ReportsFiltered()
      requires Orderly()
      ensures forall u :: WellFormed(About(Infos(reports), u)) <==> Paired(nodes, About(said, u))
      ensures nodes == {} ==> forall u :: About(Infos(reports), u) == About(said, u)
    {
      hide WellFormed, Paired, About, Passed;
      forall u ensures WellFormed(About(Infos(reports), u)) <==> Paired(nodes, About(said, u)) {
        ReportsWellFormedExactly(nodes, said, u);
      }
      if nodes == {} {
        forall u ensures About(Infos(reports), u) == About(said, u) { FilteredHistory(nodes, said, u); }
      }
    }
  }

  /** The server's migrations once `j` deliveries of a session have been made. */
  function ServerAt(session: Session, j: nat): map<string, Info>
    requires session.listed.Some? && j <= |session.stream|
  {
    Play(ServerOf(session.listed.value), session.stream[..j])
  }

  ghost predicate Listings(script: seq<Session>) {
    forall k :: 0 <= k < |script| && script[k].listed.Some? ==> DistinctUids(script[k].listed.value)
  }

  /** How a stream ends: whether the watch stops with it, and how many deliveries were taken in. */
  datatype End = End(stopped: Option<Error>, heard: nat)

  /** The errors a watch can end with. */
  predicate Stops(e: Error) { e == Interrupt() || e == Operational() }

  /** The end of the stream, seen from delivery `k`: a failed report, an interrupt or an error event, or its close. */
  function StreamEnd(session: Session, k: nat): (r: End)
    requires session.listed.Some? && k <= |session.stream|
    ensures k <= r.heard <= |session.stream| && (r.stopped.Some? ==> Stops(r.stopped.value))
    decreases |session.stream| - k
  {
    if k == |session.stream| then End(None, k)
    else
      match session.stream[k]
      case Stopped => End(Some(Interrupt()), k)
      case Failed => End(None, k)
      case Skippable => StreamEnd(session, k + 1)
      case Change(_, _, broken) =>
        if broken && Reported(ServerAt(session, k), session.stream[k]) then End(Some(Operational()), k + 1)
        else StreamEnd(session, k + 1)
  }

  /** What the first `k` deliveries make the watcher say about `u`, given the server's state at each of them. */
  function SaidInStream(session: Session, k: nat, u: string): seq<Info>
    requires session.listed.Some? && k <= |session.stream|
  {
    if k == 0 then []
    else
      SaidInStream(session, k - 1, u)
      + (if session.stream[k - 1].Change?
         then SaidByChange(ActiveOf(ServerAt(session, k - 1)), session.stream[k - 1], u) else [])
  }

  /** The error that ends the watch with this session, if one does. */
  function SessionEnd(s: Session): (r: Option<Error>)
    ensures if r.Some? then Stops(r.value) else s.listed.Some?
  {
    var failed := Some(if s.interrupt then Interrupt() else Operational());
    if s.listed.None? then failed
    else if s.broken then Some(Operational())
    else if !s.connected then failed
    else if StreamEnd(s, 0).stopped.Some? then StreamEnd(s, 0).stopped
    else if s.interrupt then Some(Interrupt()) else None
  }

  /** What a session makes a watcher that tracks `cache` say about `u`. */
  function SaidInSession(cache: map<string, Info>, s: Session, u: string): seq<Info> {
    if s.listed.None? then []
    else if s.broken || !s.connected then SaidByList(cache, s.listed.value, u)
    else SaidByList(cache, s.listed.value, u) + SaidInStream(s, StreamEnd(s, 0).heard, u)
  }

  /** What is tracked after a session: the server's active migrations when its stream ended. */
  function CacheAfter(s: Session): map<string, Info>
    requires s.listed.Some?
  {
    ActiveOf(ServerAt(s, StreamEnd(s, 0).heard))
  }

  /** What a watch returns; an exhausted script is an interrupt. */
  function Returned(script: seq<Session>): (r: Error)
    ensures Stops(r)
  {
    if script == [] then Interrupt()
    else if SessionEnd(script[0]).Some? then SessionEnd(script[0]).value
    else Returned(script[1..])
  }

  /** What a watch that tracks `cache` says about `u`, session after session. */
  function Told(cache: map<string, Info>, script: seq<Session>, u: string): seq<Info>
    decreases |script|
  {
    if script == [] then []
    else
      SaidInSession(cache, script[0], u)
      + (if SessionEnd(script[0]).Some? then [] else Told(CacheAfter(script[0]), script[1..], u))
  }

  /** All that will be said was said so far, or is told by the sessions `rest`. */
  ghost predicate Telling(before: map<string, Info>, first: seq<Info>, script: seq<Session>,
                          now: map<string, Info>, said: seq<Info>, rest: seq<Session>)
  {
    forall u :: About(said, u) + Told(now, rest, u) == About(first, u) + Told(before, script, u)
  }

  lemma TellingStarts(before: map<string, Info>, first: seq<Info>, script: seq<Session>)
    ensures Telling(before, first, script, before, first, script[0..])
  {
    assert script[0..] == script;
  }

  lemma TellingEnds(before: map<string, Info>, first: seq<Info>, script: seq<Session>,
                    now: map<string, Info>, said: seq<Info>)
    requires Telling(before, first, script, now, said, [])
    ensures forall u :: About(said, u) == About(first, u) + Told(before, script, u)
  {
    forall u ensures About(said, u) == About(first, u) + Told(before, script, u) {
      assert About(said, u) + Told(now, [], u) == About(first, u) + Told(before, script, u);
    }
  }

  lemma KeepsTelling(before: map<string, Info>, first: seq<Info>, script: seq<Session>, k: nat,
                     cache: map<string, Info>, heard: seq<Info>, now: map<string, Info>, said: seq<Info>)
    requires k < |script| && Telling(before, first, script, cache, heard, script[k..])
    requires forall u :: About(said, u) == About(heard, u) + SaidInSession(cache, script[k], u)
    requires SessionEnd(script[k]).None? ==> now == CacheAfter(script[k])
    ensures if SessionEnd(script[k]).Some? then Telling(before, first, script, map[], said, [])
            else Telling(before, first, script, now, said, script[k + 1..])
  {
    hide SaidInSession, SessionEnd, CacheAfter, About, Told;
    assert script[k..] == [script[k]] + script[k + 1..];
    var ended := SessionEnd(script[k]).Some?;
    var rest, after := if ended then [] else script[k + 1..], if ended then map[] else now;
    forall u ensures About(said, u) + Told(after, rest, u) == About(first, u) + Told(before, script, u) {
      assert About(heard, u) + Told(cache, script[k..], u) == About(first, u) + Told(before, script, u);
      ToldFirst(cache, script[k], script[k + 1..], u);
      ToldNothing(after, u);
    }
  }

  lemma ToldNothing(cache: map<string, Info>, u: string)
    ensures Told(cache, [], u) == []
  {}

  lemma ToldFirst(cache: map<string, Info>, s: Session, rest: seq<Session>, u: string)
    ensures Told(cache, [s] + rest, u)
         == SaidInSession(cache, s, u) + (if SessionEnd(s).Some? then [] else Told(CacheAfter(s), rest, u))
  {
    hide SaidInSession, CacheAfter;
    assert ([s] + rest)[1..] == rest;
  }

  lemma ServerNext(session: Session, j: nat)
    requires session.listed.Some? && j < |session.stream|
    ensures ServerAt(session, j + 1) == Apply(ServerAt(session, j), session.stream[j])
  {
    assert session.stream[..j + 1][..j] == session.stream[..j];
  }

  /** One change to the server, seen from its active migrations. */
  lemma ActiveAfter(server: map<string, Info>, d: Delivery)
    requires d.Change?
    ensures ActiveOf(Apply(server, d)) == TakeIn(ActiveOf(server), Understood(d))
  {
    var after, expected := ActiveOf(Apply(server, d)), TakeIn(ActiveOf(server), Understood(d));
    forall u ensures u in after <==> u in expected { ActiveAt(server, d, u); }
    forall u | u in after ensures after[u] == expected[u] { ActiveAt(server, d, u); }
  }

  lemma ActiveAt(server: map<string, Info>, d: Delivery, u: string)
    requires d.Change?
    ensures var after, expected := ActiveOf(Apply(server, d)), TakeIn(ActiveOf(server), Understood(d));
            (u in after <==> u in expected) && (u in after ==> after[u] == expected[u])
  {
    if d.info.uid == u {
    } else {
      assert u in Apply(server, d) <==> u in server;
    }
  }

  lemma ChangeKeepsAllSound(tracked: map<string, Info>, told: seq<Info>, d: Delivery, said: seq<Info>)
    requires d.Change? && forall u :: Sound(tracked, told, u)
    requires forall u :: About(said, u) == About(told, u) + SaidByChange(tracked, d, u)
    ensures forall u :: Sound(TakeIn(tracked, Understood(d)), said, u)
  {
    hide About;
    var now := TakeIn(tracked, Understood(d));
    forall u ensures Sound(now, said, u) {
      assert Sound(tracked, told, u);
      ChangeKeepsSound(tracked, told, d, now, said, u);
    }
  }

  /** Histories are well formed even if the cache is not updated after the last report. */
  lemma StoppedOrderly(tracked: map<string, Info>, told: seq<Info>, d: Delivery, said: seq<Info>)
    requires d.Change? && forall u :: Sound(tracked, told, u)
    requires forall u :: About(said, u) == About(told, u) + SaidByChange(tracked, d, u)
    ensures forall u :: WellFormed(About(said, u))
  {
    ChangeKeepsAllSound(tracked, told, d, said);
    forall u ensures WellFormed(About(said, u)) { assert Sound(TakeIn(tracked, Understood(d)), said, u); }
  }

  // ---------------------------------------------------------------- spelled out

  /** What a list makes the watcher say: the entry if active or tracked; a tracked one that is gone, as deleted. */
  lemma SaidByListIs(tracked: map<string, Info>, listed: seq<Info>, u: string)
    requires DistinctUids(listed)
    ensures forall m :: m in listed && m.uid == u ==>
              SaidByList(tracked, listed, u) == if m.active || u in tracked then [m] else []
    ensures (forall m :: m in listed ==> m.uid != u) ==>
              if u in tracked then
                |SaidByList(tracked, listed, u)| == 1
                && var said := SaidByList(tracked, listed, u)[0];
                   && !said.active && said.state == "Deleted"
                   && said.uid == tracked[u].uid && said.source == tracked[u].source
              else SaidByList(tracked, listed, u) == []
  {
    EntryUid(listed, u);
    forall m | m in listed && m.uid == u ensures Entry(listed, u) == Some(m) { OnlyEntry(listed, m); }
  }

  lemma {:induction false} OnlyEntry(listed: seq<Info>, m: Info)
    requires DistinctUids(listed) && m in listed
    ensures Entry(listed, m.uid) == Some(m)
  {
    var n := |listed| - 1;
    if listed[n].uid != m.uid {
      assert listed == listed[..n] + [listed[n]];
      OnlyEntry(listed[..n], m);
    } else {
      var i :| 0 <= i <= n && listed[i] == m;
    }
  }

  /** What a change makes it say: an active migration, or the end of a tracked one; a deleted one has ended. */
  lemma SaidByChangeIs(tracked: map<string, Info>, d: Delivery, u: string)
    requires d.Change?
    ensures d.info.uid != u ==> SaidByChange(tracked, d, u) == []
    ensures d.info.uid == u && d.kind.Changed? && d.info.active ==> SaidByChange(tracked, d, u) == [d.info]
    ensures d.info.uid == u && !d.info.active ==>
              SaidByChange(tracked, d, u) == if u in tracked then [d.info] else []
    ensures d.info.uid == u && d.kind.Deleted? && d.info.active ==>
              if u in tracked then
                |SaidByChange(tracked, d, u)| == 1 && !SaidByChange(tracked, d, u)[0].active
                && SaidByChange(tracked, d, u)[0].state == "Deleted"
              else SaidByChange(tracked, d, u) == []
  {}

  /** The delivery leaves the stream open and the watch running. */
  predicate StreamGoesOn(session: Session, j: nat)
    requires session.listed.Some? && j < |session.stream|
  {
    match session.stream[j]
    case Skippable => true
    case Change(kind, info, broken) =>
      var server := ServerAt(session, j);
      !broken || !((kind.Changed? && info.active) || (info.uid in server && server[info.uid].active))
    case _ => false
  }

  /**
   A stream is followed up to the first delivery that does not let it go on: an interrupt stops the watch with 130, a
   report that cannot be written with 1, and an error event only ends the stream, as its close does.
   */
  lemma {:induction false} StreamEndIs(session: Session, k: nat)
    requires session.listed.Some? && k <= |session.stream|
    requires forall j :: 0 <= j < k ==> StreamGoesOn(session, j)
    ensures var end := StreamEnd(session, 0);
            if exists j :: k <= j < |session.stream| && !StreamGoesOn(session, j) then
              exists j :: k <= j < |session.stream| && !StreamGoesOn(session, j)
                && (forall i :: 0 <= i < j ==> StreamGoesOn(session, i))
                && match session.stream[j]
                   case Stopped => end.stopped.Some? && CodeOf(end.stopped) == 130 && end.heard == j
                   case Failed => end.stopped.None? && end.heard == j
                   case _ => end.stopped.Some? && CodeOf(end.stopped) == 1 && end.heard == j + 1
            else end == End(None, |session.stream|)
    decreases |session.stream| - k
  {
    hide ServerAt, Reported;
    StreamPasses(session, k);
    if k < |session.stream| && session.stream[k].Change? {
      ReportedIs(ServerAt(session, k), session.stream[k]);
    }
    if k < |session.stream| && StreamGoesOn(session, k) {
      StreamEndIs(session, k + 1);
    }
  }

  /** Deliveries that let the stream go on do not end it. */
  lemma {:induction false} StreamPasses(session: Session, k: nat)
    requires session.listed.Some? && k <= |session.stream|
    requires forall j :: 0 <= j < k ==> StreamGoesOn(session, j)
    ensures StreamEnd(session, 0) == StreamEnd(session, k)
  {
    hide ServerAt, Reported;
    if k > 0 {
      StreamPasses(session, k - 1);
      assert StreamGoesOn(session, k - 1);
      match session.stream[k - 1] {
        case Skippable =>
        case Change(kind, info, broken) => ReportedIs(ServerAt(session, k - 1), session.stream[k - 1]);
      }
    }
  }

  lemma ReportedIs(server: map<string, Info>, d: Delivery)
    requires d.Change?
    ensures Reported(server, d)
            <==> (d.kind.Changed? && d.info.active) || (d.info.uid in server && server[d.info.uid].active)
  {}

  /** How a session ends the watch: 130 if a call fails or the pause ends by an interrupt, 1 if it fails otherwise. */
  lemma SessionEndIs(s: Session)
    ensures s.listed.None? ==> CodeOf(SessionEnd(s)) == if s.interrupt then 130 else 1
    ensures s.listed.Some? && s.broken ==> CodeOf(SessionEnd(s)) == 1
    ensures s.listed.Some? && !s.broken && !s.connected ==> CodeOf(SessionEnd(s)) == if s.interrupt then 130 else 1
    ensures s.listed.Some? && !s.broken && s.connected && StreamEnd(s, 0).stopped.Some? ==>
              SessionEnd(s) == StreamEnd(s, 0).stopped
    ensures s.listed.Some? && !s.broken && s.connected && StreamEnd(s, 0).stopped.None? ==>
              CodeOf(SessionEnd(s)) == if s.interrupt then 130 else 0
  {
    hide StreamEnd;
  }
}
