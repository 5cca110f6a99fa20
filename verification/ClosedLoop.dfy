/** Runs against a cluster that answers by what the run does: every rule for answering has its run. */
module ClosedLoop {
  import opened Machine

  /** The states of a run whose every input is the answer of `respond` to the state before it. */
  function ClosedRun(cfg: Config, respond: State -> Input, t: nat): State {
    if t == 0 then Init()
    else var st := ClosedRun(cfg, respond, t - 1); Step(cfg, st, respond(st))
  }

  function Responses(cfg: Config, respond: State -> Input): nat -> Input {
    (t: nat) => respond(ClosedRun(cfg, respond, t))
  }

  lemma {:induction false} ClosedRunIsRun(cfg: Config, respond: State -> Input, t: nat)
    ensures StateAt(cfg, Responses(cfg, respond), t) == ClosedRun(cfg, respond, t)
  {
    hide Step;
    if t > 0 { ClosedRunIsRun(cfg, respond, t - 1); }
  }
}
