/** The update decision both sources make (internal/decide/decide.go), reasons left out. */
module Decide {

  /** Consecutive swap-step failures on one target that pin it out. */
  const MAX_SWAP_FAILURES: nat := 3

  datatype Kind = Keep | Update | Defer | Pinned

  datatype Inputs = Inputs(idleSamples: nat, current: string, desired: string, inUse: bool, idleStreak: nat)

  function Decide(inputs: Inputs, pinned: string): Kind {
    if pinned != "" && pinned == inputs.desired then Pinned
    else if inputs.desired == inputs.current then Keep
    else if inputs.inUse then Defer
    else if inputs.idleStreak < inputs.idleSamples then Defer
    else Update
  }

  /** An update is decided exactly for an unpinned, idle-long-enough workload that is elsewhere than desired. */
  lemma UpdateExactlyWhen(inputs: Inputs, pinned: string)
    ensures Decide(inputs, pinned) == Update <==>
              && inputs.current != inputs.desired
              && !inputs.inUse
              && inputs.idleSamples <= inputs.idleStreak
              && (pinned == "" || pinned != inputs.desired)
  {
  }
}
