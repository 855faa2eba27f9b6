/** What the systemd source remembers of one unit (internal/statestore/statestore.go), and the pure
    changes the source makes to it. */
module Memory {
  import opened Wrappers
  import opened Profiles
  import Decide

  /** Where a swap started from (0: a profile it created), that generation's target, where it was
      going, and the invocation it was replacing. */
  datatype SwapRecord = SwapRecord(from: nat, fromTarget: Path, to: Path, invocation: nat)

  /** good is a generation, 0 for none; pinned and failing are desired paths, "" for none. */
  datatype UnitMemory = UnitMemory(pinned: Path, failing: Path, swapFailures: nat, good: nat, swapping: Option<SwapRecord>)
  {
    /** Nothing is pinned out while a swap is under way. */
    ghost predicate IsConsistent() {
      swapping.Some? ==> pinned == ""
    }
  }

  /** A pin, and a run of swap failures, only hold until desired moves on. */
  function Holding(memory: UnitMemory, desired: Path): UnitMemory {
    var unpinned := if memory.pinned != "" && memory.pinned != desired then memory.(pinned := "") else memory;
    if unpinned.failing != "" && unpinned.failing != desired then unpinned.(failing := "", swapFailures := 0) else unpinned
  }

  /** A swap step failed on the way to desired. */
  function CountFailure(memory: UnitMemory, desired: Path): UnitMemory {
    var failures := if memory.failing == desired then memory.swapFailures + 1 else 1;
    var counted := memory.(failing := desired, swapFailures := failures);
    if failures >= Decide.MAX_SWAP_FAILURES then counted.(pinned := desired) else counted
  }

  /** How many failures on the way to desired are remembered. */
  function FailuresOf(memory: UnitMemory, desired: Path): nat {
    if memory.failing == desired then memory.swapFailures else 0
  }

  /** At least n failures on the way to desired are remembered, which is pinned out once they are enough. */
  ghost predicate HasFailed(memory: UnitMemory, desired: Path, n: nat) {
    && memory.failing == desired && memory.swapFailures >= n
    && (memory.swapFailures >= Decide.MAX_SWAP_FAILURES ==> memory.pinned == desired)
  }

  /** A memory is what is still held against desired of another, whatever is good. */
  ghost predicate IsStillHeld(memory: UnitMemory, before: UnitMemory, desired: Path) {
    memory.(good := before.good) == Holding(before, desired)
  }

  /** The memory after n passes in a row that swapped to desired and failed at a step. */
  function AfterFailures(memory: UnitMemory, desired: Path, n: nat): UnitMemory {
    if n == 0 then Holding(memory, desired)
    else Holding(CountFailure(AfterFailures(memory, desired, n - 1), desired), desired)
  }

  /** Step failures add up, whatever was remembered before, and pin the target at the third in a row. */
  lemma {:induction false} FailuresAddUp(memory: UnitMemory, desired: Path, n: nat)
    requires desired != ""
    requires memory.failing != desired && memory.pinned != desired
    ensures var after := AfterFailures(memory, desired, n);
            && (n > 0 ==> after.failing == desired && after.swapFailures == n)
            && (n == 0 ==> after.failing == "")
            && (after.pinned == desired <==> n >= Decide.MAX_SWAP_FAILURES)
            && after.good == memory.good
  {
    if n == 0 {
    } else {
      FailuresAddUp(memory, desired, n - 1);
    }
  }

  /** What n failures in some passes that all want desired make of first: never too many, nor together with those
      already remembered, if any more at all; and just that, if the passes did nothing else. */
  ghost predicate Tallied(fromFirst: bool, first: UnitMemory, memory: UnitMemory, desired: Path, n: nat) {
    && n <= Decide.MAX_SWAP_FAILURES
    && (n > 0 ==> HasFailed(memory, desired, n))
    && (fromFirst ==>
          && Holding(memory, desired).(good := first.good) == AfterFailures(first, desired, n)
          && (n > 0 ==> memory.swapFailures == FailuresOf(first, desired) + n)
          && (n > 1 ==> FailuresOf(first, desired) + n <= Decide.MAX_SWAP_FAILURES))
  }

  /** One more pass that no gate ruled on, which either tried a swap that failed, of a version not pinned out,
      or left what was still held against it. */
  lemma TalliedOnceMore(fromFirst: bool, first: UnitMemory, before: UnitMemory, looked: UnitMemory, after: UnitMemory,
                        desired: Path, n: nat, tried: bool)
    requires desired != "" && Tallied(fromFirst, first, before, desired, n)
    requires fromFirst || n > 0 ==> IsStillHeld(looked, before, desired) || (looked == before && !tried)
    requires after == if tried then CountFailure(looked, desired) else looked
    requires tried ==> before.pinned != desired
    ensures Tallied(fromFirst, first, after, desired, if tried then n + 1 else n)
  {
  }

  /** It is all the same to what is only held against another version. */
  lemma TalliedWhenHeld(fromFirst: bool, first: UnitMemory, memory: UnitMemory, desired: Path, n: nat)
    requires desired != "" && Tallied(fromFirst, first, memory, desired, n)
    ensures Tallied(fromFirst, first, Holding(memory, desired), desired, n)
  {
  }
}
