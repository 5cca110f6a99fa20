/** Reading a run's history: what was seen last, what was sent, what was done. */
module History {
  import opened Common
  import opened Kube
  import opened Machine

  predicate Has(tr: Trace, ev: Event) {
    tr.Then? && (tr.ev == ev || Has(tr.past, ev))
  }

  /** The most recent snapshot. */
  function LastSeen(tr: Trace): Option<Snapshot> {
    if tr.Empty? then None
    else if tr.ev.Observed? then Some(tr.ev.snap)
    else LastSeen(tr.past)
  }

  /** The snapshot taken before anything was changed. */
  function FirstSnapshot(tr: Trace): Option<Snapshot> {
    if tr.Empty? then None
    else if tr.ev.Observed? && tr.ev.look.Initial? then Some(tr.ev.snap)
    else FirstSnapshot(tr.past)
  }

  /** The snapshots of the observation loop, in order. */
  function LoopSnapshots(tr: Trace): seq<Snapshot> {
    if tr.Empty? then []
    else if tr.ev.Observed? && tr.ev.look.Looped? then LoopSnapshots(tr.past) + [tr.ev.snap]
    else LoopSnapshots(tr.past)
  }

  /** Some snapshot was taken after the cordon step. */
  predicate SeenAgain(tr: Trace) {
    tr.Then? && ((tr.ev.Observed? && !tr.ev.look.Initial?) || SeenAgain(tr.past))
  }

  /** Real launcher evictions attempted for a VMI. */
  function Launches(tr: Trace, key: string): nat {
    if tr.Empty? then 0
    else Launches(tr.past, key) + (if tr.ev.Triggered? && VMIKey(tr.ev.vmi) == key then 1 else 0)
  }

  predicate RealEviction(ev: Event) { ev.Evicted? || ev.Triggered? }

  /** The number of real evictions of both kinds. */
  function Evictions(tr: Trace): nat {
    if tr.Empty? then 0
    else Evictions(tr.past) + (if RealEviction(tr.ev) then 1 else 0)
  }
}
