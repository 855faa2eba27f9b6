/** The systemd source's work on one unit (internal/systemd/source.go): sampling, the recorded swap, its
    undo and rollback, and the recovery of a swap Tidewaiter died in the middle of. */
module UnitSources {
  import opened Wrappers
  import opened Profiles
  import opened Memory
  import opened Machines
  import Decide

  /** What the units file asks of the unit, this pass; it always names a desired path. */
  datatype Policy = Policy(desired: Path, idleSamples: nat, bindClosure: bool, keepGenerations: nat) {
    /** keep: what every pruning keeps. */
    ghost predicate Fits(keep: nat) {
      desired != "" && keepGenerations >= keep
    }
  }

  /** What a pass says of the unit; busy is absent when it was not sampled. */
  datatype Outcome = Outcome(kind: Decide.Kind, busy: Option<bool>, settled: bool)

  /** How a swap ended. */
  datatype Swapped = Deferred | Undone | Committed | RolledBack

  /** How far a swap got before its gate, and how its restart job ended if it did. */
  datatype Progress = Progress(bound: bool, moved: bool, job: Option<JobResult>)

  /** What became of an interrupted swap. */
  datatype Resumed = LeftAlone | NotYetUndone | PutBack | Confirmed | Reverted

  /** What the first look at a unit comes to with an interrupted swap, if it ends there. */
  function EndOf(how: Resumed): Option<Decide.Kind> {
    match how
    case LeftAlone => Some(Decide.Keep)
    case NotYetUndone => Some(Decide.Keep)
    case PutBack => None
    case Confirmed => None
    case Reverted => Some(Decide.Pinned)
  }

  /** An interrupted swap picked up: what was read of the unit and the profile first, and what became of it. */
  datatype Pickup = Pickup(how: Resumed, read: UnitState, generation: nat) {
    predicate IsEnd() {
      how.PutBack? || how.Confirmed? || how.Reverted?
    }
  }

  /** How things are at one moment. */
  datatype State = State(memory: UnitMemory, profile: Profile, ungated: set<nat>, dropIn: Path, loaded: Path, running: Path,
                         stranded: bool, restarts: seq<Cause>, verdicts: seq<bool>, undeleted: nat, refusals: nat)

  ghost function StateOf(machine: Machine, memory: UnitMemory): State
    reads machine`profile, machine`ungated, machine`dropIn, machine`loaded, machine`running, machine`stranded
    reads machine`restarts, machine`verdicts, machine`undeleted, machine`refusals
  {
    State(memory, machine.profile, machine.ungated, machine.dropIn, machine.loaded, machine.running, machine.stranded,
          machine.restarts, machine.verdicts, machine.undeleted, machine.refusals)
  }

  /** The profile is on generation, which was there before, and whatever it was on is deleted or, littered,
      was refused to be. */
  ghost predicate WentBack(before: Profile, after: Profile, generation: nat, littered: bool) {
    && after.current == generation
    && (before.current == generation || generation in before.generations)
    && var left := before.(current := generation);
       after == left.Without(before.current) || (littered && after == left)
  }

  /** How far a swap got, and how that leaves things. */
  ghost predicate Went(progress: Progress, policy: Policy, before: State, after: State) {
    && before.refusals <= after.refusals && (progress.job.None? ==> before.refusals < after.refusals)
    && (progress.job.Some? ==> progress.moved)
    && (progress.bound ==> policy.bindClosure)
    && (progress.moved ==> progress.bound == policy.bindClosure)
    && (!progress.bound ==> after.dropIn == before.dropIn && after.loaded == before.loaded)
    && after.verdicts == before.verdicts && after.undeleted == before.undeleted
    && (!progress.moved ==> after.profile == before.profile && after.restarts == before.restarts)
    && (progress.moved ==>
          && before.profile.IsNext(after.profile.current)
          && after.profile == before.profile.With(after.profile.current, policy.desired)
          && (before.profile.current == 0 ==> after.profile.current !in after.ungated)
          && (policy.bindClosure ==> after.dropIn == after.loaded == policy.desired)
          && after.restarts == before.restarts + [Cause.Swap(policy.idleSamples)])
    && (progress.job == Some(Done) ==> after.running == policy.desired)
  }

  /** It got so far from where the closure was bound, and nothing else done. */
  lemma WentOnceBound(progress: Progress, policy: Policy, before: State, bound: State, after: State)
    requires before.refusals <= bound.refusals <= after.refusals && progress.bound == policy.bindClosure
    requires bound == before.(dropIn := bound.dropIn, loaded := bound.loaded, refusals := bound.refusals)
    requires if policy.bindClosure then bound.dropIn == bound.loaded == policy.desired
             else bound.dropIn == before.dropIn && bound.loaded == before.loaded
    requires after == bound.(profile := after.profile, ungated := after.ungated, running := after.running,
                             restarts := after.restarts, refusals := after.refusals)
    requires progress.job.None? ==> bound.refusals < after.refusals
    requires !progress.moved ==> progress.job.None? && after.profile == bound.profile && after.restarts == bound.restarts
    requires progress.moved ==>
               && bound.profile.IsNext(after.profile.current)
               && after.profile == bound.profile.With(after.profile.current, policy.desired)
               && (bound.profile.current == 0 ==> after.profile.current !in after.ungated)
               && after.restarts == bound.restarts + [Cause.Swap(policy.idleSamples)]
               && (progress.job == Some(Done) ==> after.running == policy.desired)
    ensures Went(progress, policy, before, after)
  {
  }

  /** The restarts of a swap, as far as it got: one forward, and one back if a gate rejected it or the unit
      restarted all the same. */
  ghost predicate SwapRestarts(before: seq<Cause>, after: seq<Cause>, idleSamples: nat) {
    || after == before
    || after == before + [Cause.Swap(idleSamples)]
    || after == before + [Cause.Swap(idleSamples)] + [Rejected]
    || after == before + [Cause.Swap(idleSamples)] + [MovedOn]
  }

  /** The restarts of a first look: one at most, for a swap the unit had restarted in the middle of, or for
      a failed unit. */
  ghost predicate RecoveryRestarts(before: seq<Cause>, after: seq<Cause>, interrupted: bool) {
    after == before || after == before + [if interrupted then MovedOn else FailedOn]
  }

  /** The restarts of a pass: a first look's one, or a swap's. */
  ghost predicate PassRestarts(before: seq<Cause>, after: seq<Cause>, idleSamples: nat) {
    || RecoveryRestarts(before, after, true)
    || RecoveryRestarts(before, after, false)
    || SwapRestarts(before, after, idleSamples)
  }

  /** Restarts were only added, those for swaps each after as many idle samples as a policy asked for. */
  ghost predicate RestartedFor(before: seq<Cause>, after: seq<Cause>, samples: set<nat>) {
    && |before| <= |after| && after[..|before|] == before
    && forall i :: |before| <= i < |after| && after[i].Swap? ==> after[i].idleSamples in samples
  }

  lemma RestartedForOnceMore(start: seq<Cause>, before: seq<Cause>, after: seq<Cause>, idleSamples: nat, samples: set<nat>)
    requires RestartedFor(start, before, samples) && PassRestarts(before, after, idleSamples) && idleSamples in samples
    ensures RestartedFor(start, after, samples)
  {
    assert after[..|before|] == before;
  }

  /** How a swap leaves things, by how it ended and what was before it. */
  ghost predicate SwapEnded(how: Swapped, policy: Policy, before: State, after: State) {
    var start := before.profile;
    var littered := after.undeleted > before.undeleted;
    match how
    case Deferred => after.(refusals := before.refusals) == before
    // On the desired version, running it, gated, with everything else forgotten.
    case Committed =>
      && after.verdicts == before.verdicts + [true] && after.running == policy.desired
      && after.profile.current !in after.ungated
      && after.memory == UnitMemory("", "", 0, after.profile.current, None)
      && start.IsNext(after.profile.current)
      && (var moved := start.With(after.profile.current, policy.desired);
          || after.profile == moved.Pruned(policy.keepGenerations)
          || (after.profile == moved && after.refusals > before.refusals))
      && (policy.bindClosure ==> after.dropIn == after.loaded == policy.desired)
      && after.restarts == before.restarts + [Cause.Swap(policy.idleSamples)]
    // Where it was, one failure counted.
    case Undone =>
      && after.refusals > before.refusals && after.verdicts == before.verdicts
      && after.memory == CountFailure(before.memory, policy.desired)
      && SwapRestarts(before.restarts, after.restarts, policy.idleSamples)
      && (!after.stranded && start.current != 0 ==>
            && start.IsBack(after.profile, policy.desired, littered)
            && ((after.dropIn == before.dropIn && after.loaded == before.loaded)
                || after.dropIn == after.loaded == start.Target(start.current)))
    // Where it was, the version pinned out, for a gate that said no.
    case RolledBack =>
      && after.memory == before.memory.(pinned := policy.desired, failing := "", swapFailures := 0)
      && (after.verdicts == before.verdicts + [false] || IsGatedAgain(before.verdicts + [false], after.verdicts))
      && SwapRestarts(before.restarts, after.restarts, policy.idleSamples)
      && (!after.stranded ==>
            && start.current != 0
            && start.IsBack(after.profile, policy.desired, littered)
            && (policy.bindClosure ==> after.dropIn == after.loaded == start.Target(start.current))
            && after.restarts == before.restarts + [Cause.Swap(policy.idleSamples)] + [Rejected]
            && IsGatedAgain(before.verdicts + [false], after.verdicts))
  }

  ghost predicate IsGatedAgain(before: seq<bool>, after: seq<bool>) {
    after == before + [true] || after == before + [false]
  }

  /** How a unit with nothing to recover is left by a pass: as it was; or stopped and its profile moved, with no
      restart; or swapped. */
  ghost predicate Tended(swapped: Option<Swapped>, policy: Policy, before: State, after: State) {
    match swapped
    case Some(how) => SwapEnded(how, policy, before, after)
    case None =>
      && after.(profile := before.profile, dropIn := before.dropIn, loaded := before.loaded,
                refusals := before.refusals) == before
      && (|| after.profile == before.profile
          || (&& before.profile.IsNext(after.profile.current)
              && after.profile == before.profile.With(after.profile.current, policy.desired)
              && before.memory.pinned != policy.desired))
  }

  /** A committed swap that was refused nothing keeps the generation it left exactly if fewer generations were
      newer than that one before it than the policy keeps. */
  lemma CommitKeepsTheGenerationLeft(policy: Policy, before: State, after: State)
    requires SwapEnded(Committed, policy, before, after) && after.refusals == before.refusals
    requires policy.desired != "" && before.profile.Valid() && before.profile.current != 0
    ensures before.profile.current in after.profile.generations <==>
              before.profile.Newer(before.profile.current) < policy.keepGenerations
  {
    PruneKeepsTheGenerationLeft(before.profile, after.profile.current, policy.desired, policy.keepGenerations);
  }

  /** A save afterwards changes nothing of how a unit was tended. */
  lemma SavedAfterwards(swapped: Option<Swapped>, policy: Policy, before: State, after: State, saved: State)
    requires Tended(swapped, policy, before, after)
    requires saved == after.(refusals := saved.refusals) && after.refusals <= saved.refusals
    ensures Tended(swapped, policy, before, saved)
  {
  }

  /** How an interrupted swap that was picked up leaves things. stale: it was over already, and saying so
      was refused. */
  ghost predicate PickedUp(pickup: Pickup, policy: Policy, record: SwapRecord, stale: bool, before: State, after: State) {
    var (read, generation) := (pickup.read, pickup.generation);
    var moved := read.invocation != record.invocation && !read.active.Inactive?;
    && generation == before.profile.current
    && match pickup.how
       case LeftAlone => after.(running := before.running) == before
       // Tried again next pass.
       case NotYetUndone =>
         && !moved
         && (after.refusals > before.refusals || (record.from != 0 && record.from !in before.profile.generations))
         && after.memory == before.memory && after.verdicts == before.verdicts
         && after.restarts == before.restarts && after.stranded == before.stranded
       // Put back, with no restart, if the unit never restarted or nothing of it runs.
       case PutBack =>
         && !moved
         && after.memory == before.memory.(swapping := None) && after.verdicts == before.verdicts
         && after.restarts == before.restarts && after.stranded == before.stranded
         && (!after.stranded && record.from != 0 ==>
               && WentBack(before.profile, after.profile, record.from, after.undeleted > before.undeleted)
               && after.profile.Target(record.from) == record.fromTarget)
         && (policy.bindClosure && record.fromTarget != "" ==> after.dropIn == after.loaded == record.fromTarget)
       // Committed only on a healthy gate, with no restart either.
       case Confirmed =>
         && moved && !read.active.Failed? && after.verdicts == before.verdicts + [true]
         && after.profile.current == generation && generation !in after.ungated
         && (|| after.profile == before.profile.Pruned(policy.keepGenerations)
             || (after.profile == before.profile && after.refusals > before.refusals))
         && after.memory == UnitMemory("", "", 0, generation, None)
         && after.restarts == before.restarts && after.stranded == before.stranded
         && (!after.stranded && record.from != 0 ==>
               generation != record.from && (stale || after.profile.Target(generation) == record.to))
       // Rolled back and pinned out if it failed, is on the generation it left, or a gate said no.
       case Reverted =>
         && moved
         && after.memory == before.memory.(swapping := None, pinned := record.to, failing := "", swapFailures := 0)
         && (var judged :=
               if read.active.Failed? || generation == record.from != 0 then before.verdicts else before.verdicts + [false];
             && (after.verdicts == judged || IsGatedAgain(judged, after.verdicts))
             && (!after.stranded ==> IsGatedAgain(judged, after.verdicts)))
         && RecoveryRestarts(before.restarts, after.restarts, true)
         && (!after.stranded ==>
               && record.from != 0
               && WentBack(before.profile, after.profile, record.from, after.undeleted > before.undeleted)
               && after.profile.Target(record.from) == record.fromTarget
               && (policy.bindClosure ==> after.dropIn == after.loaded == record.fromTarget)
               && after.restarts == before.restarts + [MovedOn])
  }

  /** Nor does it matter what the unit ran before. */
  lemma PickedUpWhateverRan(pickup: Pickup, policy: Policy, record: SwapRecord, stale: bool, before: State, after: State,
                            start: State)
    requires PickedUp(pickup, policy, record, stale, before, after) && start == before.(running := "")
    ensures PickedUp(pickup, policy, record, stale, start, after)
  {
  }

  lemma PickupSavedAfterwards(pickup: Pickup, policy: Policy, record: SwapRecord, stale: bool, before: State, after: State,
                              saved: State)
    requires PickedUp(pickup, policy, record, stale, before, after)
    requires saved == after.(refusals := saved.refusals) && !pickup.how.LeftAlone? && after.refusals <= saved.refusals
    ensures PickedUp(pickup, policy, record, stale, before, saved)
  {
  }

  /** The generation a swap on record left, if it left one, is still there. */
  ghost predicate HasWhatItLeft(memory: UnitMemory, profile: Profile) {
    memory.swapping.Some? && memory.swapping.value.from != 0 ==> memory.swapping.value.from in profile.generations
  }

  /** Cut short or not, one swap at most was recorded. If it had fewer generations newer than the good one than every
      pruning keeps, keep, the past stays safe where nothing was refused. */
  ghost predicate IsOneMoreAtMost(before: Past, after: Past, current: nat, keep: nat, refused: bool) {
    || after.begun == before.begun
    || (&& after.begun == before.begun + 1
        && (before.safe && !refused && current != 0 && after.behind < keep ==> after.safe))
  }

  /** It was from where the profile was to desired, with how many generations were newer than the one it left and,
      unless that was adopted as such, than the good one. */
  ghost predicate IsFromHere(before: Past, after: Past, profile: Profile, good: nat, disk: UnitMemory, desired: Path) {
    after.begun != before.begun ==>
      && after.newer == profile.Newer(profile.current)
      && (after.behind == after.newer || (good != 0 && after.behind == profile.Newer(good)))
      && (disk.swapping.Some? ==>
            var record := disk.swapping.value;
            record.from == profile.current && record.fromTarget == profile.Target(record.from) && record.to == desired)
  }

  /** How things stand for a pass that wants a version: only what is held against that is remembered, and what the
      unit runs is none of the pass's doing. */
  datatype Footing = Footing(state: State, disk: UnitMemory, past: Past, seen: bool, attempts: nat, journal: seq<Entry>,
                             readings: nat, keep: nat)
  {
    ghost function Marked(): Marks {
      Marks(disk, past, state.profile.current, state.stranded, |state.verdicts|, state.refusals)
    }

    ghost function Sees(read: UnitState): Sight {
      SightOf(read, disk, state.profile)
    }

    /** The entry for a first read from here. */
    ghost function Saw(read: UnitState): Entry {
      Entry.Saw(Sees(read), readings + 1)
    }

    ghost predicate CanFinish() {
      HasWhatItLeft(state.memory, state.profile)
    }

    /** The profile, the good generation and a swap on record are as before. */
    ghost predicate StandsAs(before: Footing) {
      state.profile == before.state.profile && disk.good == before.disk.good && disk.swapping == before.disk.swapping
    }

    /** What is left of it while Tidewaiter is not at work. */
    ghost function Outside(): Footing {
      this.(state := state.(memory := disk, running := ""), seen := false, attempts := 0, readings := 0)
    }
  }

  /** Neither what the unit runs next nor what it runs now has been changed. */
  ghost predicate IsSameProgram(before: State, after: State) {
    && after.profile == before.profile && after.ungated == before.ungated
    && after.dropIn == before.dropIn && after.loaded == before.loaded
    && after.restarts == before.restarts && after.stranded == before.stranded
  }

  /** What a pass may do to things, cut short or not: one restart forward at most and one back; a person is asked for
      only because something was refused, unless what a first look goes back to does not exist; one swap at most is
      recorded; a dry run touches nothing; nothing new is tried of a version pinned out, no generation made and nothing
      restarted but a failed unit, and nothing at all is done once the first look is past. */
  ghost predicate IsCareful(policy: Policy, dryRun: bool, before: Footing, after: Footing) {
    var (was, now) := (before.state, after.state);
    && before.Marked().LeadTo(after.Marked())
    && PassRestarts(was.restarts, now.restarts, policy.idleSamples)
    && (before.seen || HasWayBack(was.memory, was.profile) || after.past.begun > before.past.begun ==>
          IsAskedForReason(was.stranded, now.stranded, was.refusals, now.refusals, was.profile.current))
    && IsOneMoreAtMost(before.past, after.past, was.profile.current, before.keep, was.refusals < now.refusals)
    && (before.seen || was.memory.swapping.None? ==>
          IsFromHere(before.past, after.past, was.profile, was.memory.good, after.disk, policy.desired))
    && (dryRun ==> IsSameProgram(was, now) && after.disk == before.disk)
    && (was.memory.pinned == policy.desired ==>
          && after.past.begun == before.past.begun && after.attempts == before.attempts
          && now.profile.generations.Keys <= was.profile.generations.Keys
          && RecoveryRestarts(was.restarts, now.restarts, false)
          && (before.seen ==> IsSameProgram(was, now)))
    && before.attempts <= after.attempts <= before.attempts + 1
  }

  /** A pin on the desired version stays on disk unless it is lost. */
  ghost predicate IsPinKept(before: Footing, disk: UnitMemory, desired: Path, lost: bool) {
    before.state.memory.pinned == desired && before.disk.pinned == desired && !lost ==> disk.pinned == desired
  }

  /** What a pass did: read is what it first read of the unit; sight is what a first look that may act on it saw;
      first is how things were once whatever there was to recover, an interrupted swap that was picked up included,
      was seen to; swapped, how a swap ended if one was tried after that. */
  datatype Account = Account(read: UnitState, sight: Option<Sight>, first: State, picked: Option<Pickup>,
                             swapped: Option<Swapped>)
  {
    predicate HasTried() {
      swapped.Some? && !swapped.value.Deferred?
    }

    predicate SawFailure() {
      sight.Some? && sight.value.HasFailedOnNewer()
    }

    predicate LosesPin(desired: Path) {
      sight.Some? && sight.value.LosesPin(desired)
    }

    /** A pin on the desired version outlives the look exactly unless the unit was seen failed on another version
        in a newer generation than the good one. */
    ghost predicate Recovers(policy: Policy, before: Footing) {
      var was := before.state;
      && |was.verdicts| <= |first.verdicts| && first.profile.generations.Keys <= was.profile.generations.Keys
      && (sight.Some? ==> !before.seen && sight.value == before.Sees(sight.value.read))
      && (picked.Some? ==>
            && was.memory.swapping.Some? && !before.seen
            && PickedUp(picked.value, policy, was.memory.swapping.value, before.past.stale, was, first))
      && (picked.None? && !SawFailure() ==>
            && first == was.(memory := first.memory, running := first.running, refusals := first.refusals)
            && (|| IsStillHeld(first.memory, was.memory, policy.desired)
                || Holding(first.memory, policy.desired) == was.memory))
      && (was.memory.pinned == policy.desired ==> (first.memory.pinned == policy.desired <==> !LosesPin(policy.desired)))
    }

    /** What it first read, and nothing did before, is what it went by: a first look that may act on it saw that, and
        an interrupted swap was picked up by it. */
    ghost predicate GoesByRead(before: Footing, journal: seq<Entry>, dryRun: bool) {
      && journal == before.journal + [before.Saw(read)]
      && sight == (if dryRun || before.seen || !read.found then None else Some(before.Sees(read)))
      && (picked.Some? ==> read.found && picked.value.read == read && (dryRun || !picked.value.how.LeftAlone?))
    }

    ghost predicate IsOf(policy: Policy, before: Footing, after: State) {
      var was := before.state;
      && Recovers(policy, before)
      && (picked.Some? && !picked.value.how.PutBack? && !picked.value.how.Confirmed? ==>
            swapped.None? && after == first.(refusals := after.refusals))
      && (picked.None? && was.memory.swapping.Some? && !before.seen ==>
            && after == was.(memory := after.memory, running := after.running, refusals := after.refusals)
            && after.memory.swapping == was.memory.swapping && swapped.None?)
      && (HasTried() && picked.None? ==> !SawFailure() && IsStillHeld(first.memory, was.memory, policy.desired))
      && Tended(swapped, policy, first, after)
    }
  }

  /** A first look that was not the end of it, and then what is done of a unit looked at before. */
  lemma CarefulTwice(policy: Policy, dryRun: bool, start: Footing, middle: Footing, end: Footing, looked: Account)
    requires IsCareful(policy, dryRun, start, middle) && IsCareful(policy, dryRun, middle, end) && middle.seen && !start.seen
    requires middle.past.begun == start.past.begun && middle.attempts == start.attempts
    requires middle.state.restarts == start.state.restarts && middle.state.stranded == start.state.stranded
    requires looked.picked.Some? == start.state.memory.swapping.Some?
    requires middle.keep == start.keep
    requires looked.picked.None? ==>
               && middle.state.profile == start.state.profile
               && middle.state.memory.good in {start.state.memory.good, start.state.profile.current}
    requires start.state.memory.pinned == policy.desired ==> middle.state.memory.pinned == policy.desired
    ensures IsCareful(policy, dryRun, start, end)
  {
  }

  /** And the save that ends it. */
  lemma CarefulAndSaved(policy: Policy, dryRun: bool, start: Footing, done: Footing, saved: Footing)
    requires IsCareful(policy, dryRun, start, done)
    requires saved == done.(disk := saved.disk, past := saved.past, state := done.state.(refusals := saved.state.refusals))
    requires done.Marked().LeadTo(saved.Marked())
    requires saved.past.begun == done.past.begun && (dryRun ==> saved.disk == done.disk)
    ensures IsCareful(policy, dryRun, start, saved)
  {
  }

  /** What the unit did after the look is none of the look's doing. */
  lemma LookedAgain(did: Account, policy: Policy, before: Footing, first: State)
    requires did.Recovers(policy, before) && first == did.first.(running := first.running)
    requires did.picked.Some? ==> !did.picked.value.how.LeftAlone?
    ensures did.(first := first).Recovers(policy, before)
  {
  }

  /** Where no swap was tried, what is remembered is what was after the look. */
  lemma NotTried(swapped: Option<Swapped>, policy: Policy, before: State, after: State)
    requires Tended(swapped, policy, before, after) && (swapped.None? || swapped.value.Deferred?)
    ensures after.memory == before.memory
  {
  }

  /** A pin on the desired version is what it was after the look. */
  lemma PinAfter(did: Account, policy: Policy, before: Footing, after: State)
    requires did.IsOf(policy, before, after) && before.state.memory.pinned == policy.desired && !did.HasTried()
    ensures after.memory.pinned == policy.desired <==> !did.LosesPin(policy.desired)
  {
    NotTried(did.swapped, policy, did.first, after);
  }

  /** A unit looked at before is only tended. */
  lemma OnlyTended(did: Account, policy: Policy, before: Footing, after: State)
    requires before.seen && did.sight.None? && did.picked.None? && Tended(did.swapped, policy, did.first, after)
    requires before.state == did.first.(running := "") && before.state.memory == Holding(before.state.memory, policy.desired)
    ensures did.IsOf(policy, before, after)
  {
  }

  /** A refusal to save what a pass did changes nothing of it. */
  lemma SavedOrNot(did: Account, policy: Policy, before: Footing, after: State, saved: State)
    requires did.IsOf(policy, before, after)
    requires saved == after.(refusals := saved.refusals) && after.refusals <= saved.refusals
    ensures did.IsOf(policy, before, saved)
  {
    SavedAfterwards(did.swapped, policy, did.first, after, saved);
  }

  /** A swap that was tried and that no gate ruled on failed at a step. */
  lemma TriedUngated(did: Account, policy: Policy, before: Footing, after: State)
    requires did.IsOf(policy, before, after) && |after.verdicts| == |before.state.verdicts|
    ensures after.memory == if did.HasTried() then CountFailure(did.first.memory, policy.desired) else did.first.memory
  {
  }

  class Source {
    const machine: Machine
    const dryRun: bool
    var memory: UnitMemory
    // The memory as last saved.
    var saved: UnitMemory
    var streak: nat
    // The unit was looked at since this daemon started.
    var seen: bool

    // How many swaps this source went through with, past recording them.
    ghost var attempts: nat

    ghost function Now(): State
      reads this`memory
      reads machine`profile, machine`ungated, machine`dropIn, machine`loaded, machine`running, machine`stranded
      reads machine`restarts, machine`verdicts, machine`undeleted, machine`refusals
    {
      StateOf(machine, memory)
    }

    ghost function FootingFor(desired: Path): Footing
      reads this`memory, this`seen, this`attempts
      reads machine`profile, machine`ungated, machine`dropIn, machine`loaded, machine`running, machine`stranded
      reads machine`restarts, machine`verdicts, machine`undeleted, machine`refusals
      reads machine`disk, machine`past, machine`journal, machine`readings
    {
      Footing(Now().(memory := Holding(memory, desired), running := ""), machine.disk, machine.past, seen, attempts,
              machine.journal, machine.readings, machine.keep)
    }

    /** What the source knows agrees with the machine. */
    ghost predicate Agrees()
      reads this`memory, this`saved, this`streak
      reads machine`looks, machine`profile, machine`ungated, machine`past, machine`stranded, machine`disk
    {
      && saved == machine.disk
      && streak == TrailingIdle(machine.looks)
      && memory.IsConsistent()
      && (memory.swapping.Some? ==> memory.swapping == machine.disk.swapping)
      && (machine.stranded || machine.Keeps(memory))
      && (memory.swapping.None? && machine.disk.swapping.Some? ==> machine.past.stale || machine.stranded)
      && (dryRun || machine.stranded || !machine.past.safe || memory.good == machine.disk.good)
    }

    /** Holds throughout. */
    ghost predicate Core()
      reads this`memory, this`saved, this`streak
      reads machine`looks, machine`profile, machine`ungated, machine`past, machine`stranded, machine`disk
      reads machine`restarts, machine`evidence
    {
      machine.Sound() && Agrees()
    }

    /** The memory may be saved: a record in it is the one on disk, or a new one. */
    ghost predicate Saveable()
      reads this`memory, this`saved, this`streak
      reads machine`looks, machine`profile, machine`ungated, machine`past, machine`stranded, machine`disk
    {
      && saved == machine.disk
      && streak == TrailingIdle(machine.looks)
      && memory.IsConsistent()
      && (machine.stranded || machine.Keeps(memory))
      && (!machine.stranded && machine.IsNew(memory) ==>
            var record := memory.swapping.value;
            && machine.profile.current == record.from
            && (record.from != 0 ==> record.from in machine.profile.generations))
      && (|| dryRun || machine.stranded || !machine.past.safe
          || memory.good == 0 || memory.good == machine.disk.good || memory.good == machine.profile.current)
    }

    /** Holds between passes: a swap record is only ever left for a first look to find, and before that
        first look the source knows just what the disk does. */
    ghost predicate Valid()
      reads this`memory, this`saved, this`streak, this`seen
      reads machine`looks, machine`profile, machine`ungated, machine`past, machine`stranded, machine`disk
      reads machine`restarts, machine`evidence
    {
      Core() && IsAtRest()
    }

    ghost predicate IsAtRest()
      reads this`memory, this`seen, machine`disk
    {
      && (memory.swapping.Some? && !dryRun ==> !seen)
      && (!seen ==> memory.swapping == machine.disk.swapping && memory.good == machine.disk.good)
    }

    /** Nothing that outlives Tidewaiter has changed, but for what the unit did of its own accord. */
    twostate predicate Untouched()
      reads this, machine
    {
      && machine.disk == old(machine.disk)
      && machine.past.begun == old(machine.past).begun
      && ProgramUntouched()
    }

    /** Neither what the unit runs next nor what it runs now has been changed. */
    twostate predicate ProgramUntouched()
      reads machine
    {
      && machine.profile == old(machine.profile)
      && machine.ungated == old(machine.ungated)
      && machine.dropIn == old(machine.dropIn)
      && machine.loaded == old(machine.loaded)
      && machine.restarts == old(machine.restarts)
      && machine.stranded == old(machine.stranded)
    }

    twostate predicate RecordsOneAtMost(desired: Path)
      reads this`memory, machine
    {
      && IsOneMoreAtMost(old(machine.past), machine.past, old(machine.profile).current, machine.keep,
                         old(machine.refusals) < machine.refusals)
      && IsFromHere(old(machine.past), machine.past, old(machine.profile), old(memory).good, machine.disk, desired)
    }

    /** What a first look at a unit may do to the machine, cut short or not: it makes no generation, records no
        swap and looks at nobody, restarts once at most, and asks for a person only because something was
        refused, unless what it goes back to does not exist; it takes no second look. */
    twostate predicate OnlyRecovers(interrupted: bool, there: bool)
      reads machine
    {
      && machine.Onward()
      && machine.past.begun == old(machine.past).begun
      && machine.looks == old(machine.looks) && machine.journal == old(machine.journal)
      && machine.profile.generations.Keys <= old(machine.profile).generations.Keys
      && RecoveryRestarts(old(machine.restarts), machine.restarts, interrupted)
      && machine.AskedForReason(if there then 1 else 0)
    }

    /** Tidewaiter starts, on a machine as its last life left it. */
    constructor (machine: Machine, dryRun: bool)
      requires machine.Sound()
      modifies machine`looks, machine`held, machine`found, machine`journal
      ensures this.machine == machine && this.dryRun == dryRun && machine.journal == old(machine.journal) + [Started]
      ensures Valid() && !seen && attempts == 0
      ensures memory == machine.disk
    {
      this.machine, this.dryRun := machine, dryRun;
      memory, saved := machine.disk, machine.disk;
      streak, seen, attempts := 0, false, 0;
      new;
      machine.Start();
    }

    /** Saves the memory if it changed; a dry run never does. */
    method Save() returns (r: Ran<bool>)
      requires machine.Sound() && Saveable() && (dryRun ==> Agrees())
      modifies this`saved, machine`disk, machine`past, machine`refusals
      ensures machine.Sound() && machine.Onward()
      ensures r.Ran? && (r.value || memory.swapping.None? || memory.swapping == old(machine.disk).swapping) ==> Agrees()
      ensures r.Ran? && !r.value ==>
                && saved == machine.disk
                && (memory.swapping == machine.disk.swapping || machine.disk.swapping.None? || machine.past.stale)
                && (old(machine.past.stale) ==> machine.past.stale)
      ensures dryRun ==> r == Ran(true) && unchanged(machine) && saved == old(saved)
      ensures r.Ran? && r.value && !dryRun ==>
                && machine.disk == memory && machine.past == old(machine.PastWith(memory))
                && machine.refusals == old(machine.refusals)
      ensures r.Ran? && !r.value ==> machine.disk == old(machine.disk) && machine.refusals > old(machine.refusals)
      // A crash leaves the disk as it was or with the memory, too.
      ensures machine.disk == old(machine.disk) || machine.disk == memory
      ensures || machine.past.begun == old(machine.past.begun)
              || (machine.disk == memory && old(machine.IsNew(memory)) && machine.past == old(machine.PastWith(memory)))
    {
      if memory == saved || dryRun {
        return Ran(true);
      }
      var ok :- machine.Save(memory);
      if ok {
        saved := memory;
      }
      return Ran(ok);
    }

    /** Saves that a swap is over. */
    method SaveEnd() returns (r: Ran<bool>)
      requires machine.Sound() && Saveable() && memory.swapping.None? && !dryRun
      modifies this`saved, machine`disk, machine`past, machine`refusals
      ensures machine.Sound() && machine.Onward() && machine.past.begun == old(machine.past).begun
      ensures r.Ran? ==> Agrees() && (machine.disk == memory || machine.refusals > old(machine.refusals))
      ensures machine.disk == old(machine.disk) || machine.disk == memory
      ensures Now() == old(Now()).(refusals := machine.refusals)
    {
      r := Save();
    }

    /** The look right before anything changes; someone there ends the streak. */
    method LastLook(ghost samples: nat) returns (busy: bool)
      requires Core()
      modifies this`streak, machine`looks
      ensures Core()
      ensures machine.looks == Then(old(machine.looks), Look(Last, !busy))
      ensures streak == if busy then 0 else old(streak)
      ensures !busy && samples <= streak ==> IdleFor(machine.looks, samples)
    {
      busy := machine.Busy(Last);
      if busy {
        streak := 0;
      }
    }

    /** A sample by the pass, which moves the streak. A unit on its way up or down is not idle. */
    method SamplePass(state: UnitState) returns (busy: bool)
      requires Core() && state == machine.found.read
      modifies this`streak, machine`looks
      ensures Core()
      ensures machine.looks == Then(old(machine.looks), Look(Pass, !busy && state.IsUp()))
      ensures busy || !state.IsUp() ==> streak == 0
      ensures streak <= old(streak) + 1
    {
      busy := machine.Busy(Pass);
      var idle := !busy && state.IsUp();
      streak := if idle then streak + 1 else 0;
    }

    /** A sample by an activity tick, which does not. */
    method SampleTick() returns (busy: bool)
      requires Core()
      modifies machine`looks
      ensures Core()
      ensures machine.looks == Then(old(machine.looks), Look(Tick, !busy))
    {
      busy := machine.Busy(Tick);
    }

    /** An activity tick: it moves no streak and changes nothing. */
    method Activity() returns (busy: bool)
      requires Valid()
      modifies machine`looks, machine`unit, machine`running, machine`found, machine`readings
      ensures Valid() && machine.GoesOn()
      ensures machine.looks == old(machine.looks) || machine.looks == Then(old(machine.looks), Look(Tick, !busy))
    {
      var state := machine.Unit();
      if !state.found || state.IsStopped() {
        return false;
      }
      busy := SampleTick();
    }

    /** No more generations are newer than the current one, nor than the good one, than when the swap on disk was
        recorded. */
    ghost predicate IsAsRecorded()
      reads machine`disk, machine`profile, machine`past, machine`stranded
    {
      || machine.stranded
      || (&& (machine.past.stale || machine.profile.Newer(machine.profile.current) <= machine.past.newer)
          && (!machine.past.safe || machine.disk.good == 0 || machine.profile.Newer(machine.disk.good) <= machine.past.behind))
    }

    /** The profile set to a path, by a recorded swap or for a stopped unit. */
    method SetProfile(target: Path, ghost recorded: bool) returns (r: Ran<bool>)
      requires Core() && target != "" && memory.swapping.Some? == recorded
      requires recorded ==>
                 && memory.swapping.value.to == target && memory.swapping.value.from == machine.profile.current
                 && IsAsRecorded()
      modifies machine`profile, machine`ungated, machine`refusals
      ensures machine.Sound() && machine.GoesOn()
      ensures r.Ran? ==> Agrees()
      ensures r.Ran? && r.value ==>
                && old(machine.profile).IsNext(machine.profile.current)
                && machine.profile == old(machine.profile).With(machine.profile.current, target)
                && (recorded && old(machine.profile).current == 0 ==> machine.profile.current !in machine.ungated)
                && (!recorded ==> machine.ungated == old(machine.ungated))
      ensures r.Ran? && !r.value ==> machine.ProfileUnchanged() && machine.refusals > old(machine.refusals)
    {
      ghost var current := machine.profile.current;
      assert machine.stranded || memory.good <= current;
      var moved :- machine.Set(target, recorded);
      assert moved ==> current < machine.profile.current;
      return Ran(moved);
    }

    /** Moves the profile of a stopped unit, its closure with it; false if a step of that was refused. */
    method MoveStopped(policy: Policy) returns (r: Ran<bool>)
      requires Core() && policy.Fits(machine.keep) && memory.swapping.None?
      modifies machine`profile, machine`dropIn, machine`loaded, machine`ungated, machine`refusals
      ensures machine.Sound() && machine.GoesOn()
      ensures r.Ran? ==> Agrees() && machine.ungated == old(machine.ungated)
      ensures r.Ran? ==>
                || machine.profile == old(machine.profile)
                || (&& old(machine.profile).IsNext(machine.profile.current)
                    && machine.profile == old(machine.profile).With(machine.profile.current, policy.desired))
      ensures r.Ran? && r.value ==>
                && machine.profile.Target(machine.profile.current) == policy.desired
                && (policy.bindClosure ==> machine.dropIn == machine.loaded == policy.desired)
      ensures r.Ran? && !r.value ==> machine.refusals > old(machine.refusals)
    {
      if policy.bindClosure {
        var bound :- machine.Bind(policy.desired);
        if !bound { return Ran(false); }
      }
      var moved :- SetProfile(policy.desired, false);
      if !moved { return Ran(false); }
      if policy.bindClosure {
        r := machine.DaemonReload();
        return r;
      }
      return Ran(true);
    }

    /** Moves the profile of a stopped unit, for whoever starts it next. */
    method UpdateStopped(policy: Policy, current: Path) returns (r: Ran<Decide.Kind>)
      requires Core() && policy.Fits(machine.keep) && (dryRun || memory.swapping.None?)
      requires current == machine.profile.Target(machine.profile.current)
      modifies machine`profile, machine`dropIn, machine`loaded, machine`ungated, machine`refusals
      ensures machine.Sound() && machine.GoesOn()
      ensures r.Ran? ==> Agrees() && Tended(None, policy, old(Now()), Now())
      ensures dryRun || memory.pinned == policy.desired ==> ProgramUntouched()
      ensures r.Ran? && r.value.Pinned? <==> current != policy.desired && memory.pinned == policy.desired
      ensures r.Ran? && machine.refusals == old(machine.refusals) && current != policy.desired
              && memory.pinned != policy.desired ==>
                r.value.Update?
      ensures r.Ran? && r.value.Update? && !dryRun ==>
                && machine.profile.Target(machine.profile.current) == policy.desired
                && (policy.bindClosure ==> machine.dropIn == machine.loaded == policy.desired)
    {
      if current == policy.desired {
        return Ran(Decide.Keep);
      }
      if memory.pinned == policy.desired {
        return Ran(Decide.Pinned);
      }
      if dryRun {
        return Ran(Decide.Update);
      }
      var moved :- MoveStopped(policy);
      return Ran(if moved then Decide.Update else Decide.Keep);
    }

    /** Switches the profile to generation and deletes the one it leaves. */
    method SwitchBack(generation: nat) returns (r: Ran<bool>)
      requires Core() && generation != 0 && machine.MaySwitchTo(generation)
      requires machine.stranded || MayStandOn(memory, generation, machine.ungated)
      modifies machine`profile, machine`ungated, machine`undeleted, machine`refusals
      ensures machine.Sound() && machine.GoesOn()
      ensures r.Ran? ==> Agrees()
      ensures machine.profile.generations.Keys <= old(machine.profile).generations.Keys
      ensures r.Ran? && r.value ==>
                && WentBack(old(machine.profile), machine.profile, generation, machine.undeleted > old(machine.undeleted))
                && machine.profile.Target(generation) == old(machine.profile).Target(generation)
      ensures r.Ran? && !r.value ==>
                && machine.profile == old(machine.profile)
                && (machine.refusals > old(machine.refusals) || generation !in old(machine.profile).generations)
    {
      var failed := machine.profile.current;
      if failed == generation {
        return Ran(true);
      }
      var switched :- machine.Switch(generation);
      if !switched { return Ran(false); }
      if failed != 0 {
        var _ :- machine.Delete(failed);
      }
      return Ran(true);
    }

    /** The closure bound to the desired path and in force, for a policy that binds it. */
    method BindForward(policy: Policy) returns (r: Ran<(bool, bool)>)
      requires Core()
      modifies machine`dropIn, machine`loaded, machine`refusals
      ensures Core() && machine.GoesOn()
      ensures r.Ran? ==>
                var (bound, done) := r.value;
                && (!done ==> machine.refusals > old(machine.refusals))
                && (done ==> bound == policy.bindClosure)
                && (bound && done ==> machine.dropIn == machine.loaded == policy.desired)
                && (bound ==> policy.bindClosure)
                && (!bound ==> machine.dropIn == old(machine.dropIn) && machine.loaded == old(machine.loaded))
    {
      if !policy.bindClosure {
        return Ran((false, true));
      }
      var bound :- machine.Bind(policy.desired);
      if !bound { return Ran((false, false)); }
      var reloaded :- machine.DaemonReload();
      return Ran((true, reloaded));
    }

    /** A swap to policy's desired path is on record, and nothing of it is done. */
    ghost predicate IsAtStart(policy: Policy)
      reads this`memory, machine`disk, machine`profile, machine`past, machine`stranded
    {
      && memory.swapping.Some? && machine.disk.swapping == memory.swapping
      && memory.swapping.value.to == policy.desired && memory.swapping.value.from == machine.profile.current
      && IsAsRecorded()
    }

    /** The steps of a swap, each only once the one before it went through. */
    method Forward(policy: Policy) returns (r: Ran<Progress>)
      requires Core() && policy.Fits(machine.keep) && IsAtStart(policy)
      requires Justified(Cause.Swap(policy.idleSamples), machine.Known())
      modifies machine`profile, machine`dropIn, machine`loaded, machine`unit, machine`running, machine`ungated,
               machine`restarts, machine`evidence, machine`found, machine`refusals
      ensures machine.Sound() && machine.GoesOn()
      ensures r.Ran? ==> Agrees() && Went(r.value, policy, old(Now()), Now())
      ensures r.Ran? && r.value.job.Some? ==> machine.found.job == r.value.job
      ensures SwapRestarts(old(machine.restarts), machine.restarts, policy.idleSamples)
    {
      ghost var start := Now();
      var closure := BindForward(policy);
      if closure.Ran? && closure.value.1 {
        r := ForwardOnceBound(policy, start);
      } else {
        r := if closure.Crashed? then Crashed else Ran(Progress(closure.value.0, false, None));
      }
    }

    /** Those once the closure is bound, since start. */
    method ForwardOnceBound(policy: Policy, ghost start: State) returns (r: Ran<Progress>)
      requires Core() && policy.Fits(machine.keep) && IsAtStart(policy)
      requires Justified(Cause.Swap(policy.idleSamples), machine.Known())
      requires Now() == start.(dropIn := machine.dropIn, loaded := machine.loaded, refusals := machine.refusals)
      requires start.refusals <= machine.refusals
      requires if policy.bindClosure then machine.dropIn == machine.loaded == policy.desired
               else machine.dropIn == start.dropIn && machine.loaded == start.loaded
      modifies machine`profile, machine`unit, machine`running, machine`ungated, machine`restarts, machine`evidence,
               machine`found, machine`refusals
      ensures machine.Sound() && machine.GoesOn()
      ensures r.Ran? ==> Agrees() && Went(r.value, policy, start, Now())
      ensures r.Ran? && r.value.job.Some? ==> machine.found.job == r.value.job
      ensures SwapRestarts(start.restarts, machine.restarts, policy.idleSamples)
    {
      ghost var bound := Now();
      r := SetAndRestart(policy);
      if r.Ran? {
        WentOnceBound(r.value, policy, start, bound, Now());
      }
    }

    /** A restart, which leaves what the source knows as it was. */
    method Restart(ghost cause: Cause, ghost bound: bool) returns (r: Ran<Restarted>)
      requires Core() && Justified(cause, machine.Known())
      requires bound && !machine.stranded ==> machine.loaded == machine.profile.Target(machine.profile.current)
      modifies machine`unit, machine`running, machine`restarts, machine`evidence, machine`found, machine`refusals
      ensures Core() && machine.GoesOn() && machine.found.read == old(machine.found.read)
      ensures machine.restarts == old(machine.restarts) || machine.restarts == old(machine.restarts) + [cause]
      ensures r.Ran? ==>
                && machine.restarts == old(machine.restarts) + [cause]
                && machine.refusals == old(machine.refusals) + (if r.value.Lost? then 1 else 0)
                && machine.found.job == (if r.value.Lost? then None else Some(r.value.job))
      ensures r.Ran? && r.value == Ended(Done) ==> machine.running == machine.profile.Target(machine.profile.current)
    {
      r := machine.Restart(cause, bound);
    }

    /** The gate, which leaves what the source knows as it was. */
    method Gate(job: JobResult) returns (r: Ran<bool>)
      requires Core()
      modifies machine`unit, machine`running, machine`ungated, machine`verdicts, machine`found
      ensures Core() && machine.GoesOn() && machine.found.read == old(machine.found.read)
      ensures machine.running == old(machine.running) || machine.running == machine.profile.Target(machine.profile.current)
      ensures r.Ran? ==>
                && machine.verdicts == old(machine.verdicts) + [r.value]
                && machine.found == old(machine.found).(judged := Some(r.value))
      ensures r.Ran? && r.value ==> job.Done? && machine.profile.current !in machine.ungated
      ensures r.Ran? && !r.value ==> machine.ungated == old(machine.ungated)
    {
      r := machine.Gate(job);
    }

    /** The profile set and the unit restarted; how the job ended, if both went through. */
    method SetAndRestart(policy: Policy) returns (r: Ran<Progress>)
      requires Core() && policy.Fits(machine.keep) && IsAtStart(policy)
      requires Justified(Cause.Swap(policy.idleSamples), machine.Known())
      requires policy.bindClosure ==> machine.dropIn == machine.loaded == policy.desired
      modifies machine`profile, machine`unit, machine`running, machine`ungated, machine`restarts, machine`evidence,
               machine`found, machine`refusals
      ensures machine.Sound() && machine.GoesOn()
      ensures r.Ran? ==>
                && Agrees() && r.value.bound == policy.bindClosure
                && (r.value.job.Some? ==> machine.found.job == r.value.job)
      ensures r.Ran? && !r.value.moved ==>
                && r.value.job.None? && machine.refusals > old(machine.refusals)
                && machine.profile == old(machine.profile) && machine.restarts == old(machine.restarts)
      ensures r.Ran? && r.value.moved ==>
                && old(machine.profile).IsNext(machine.profile.current)
                && machine.profile == old(machine.profile).With(machine.profile.current, policy.desired)
                && (old(machine.profile).current == 0 ==> machine.profile.current !in machine.ungated)
                && machine.restarts == old(machine.restarts) + [Cause.Swap(policy.idleSamples)]
                && (r.value.job.None? ==> machine.refusals > old(machine.refusals))
                && (r.value.job == Some(Done) ==> machine.running == policy.desired)
      ensures || machine.restarts == old(machine.restarts)
              || machine.restarts == old(machine.restarts) + [Cause.Swap(policy.idleSamples)]
    {
      var moved :- SetProfile(policy.desired, true);
      if !moved { return Ran(Progress(policy.bindClosure, false, None)); }
      var restarted :- Restart(Cause.Swap(policy.idleSamples), policy.bindClosure);
      return Ran(Progress(policy.bindClosure, true, if restarted.Lost? then None else Some(restarted.job)));
    }

    /** The closure bound to target again, and that in force. */
    method Rebind(target: Path) returns (r: Ran<bool>)
      requires Core()
      modifies machine`dropIn, machine`loaded, machine`refusals
      ensures Core() && machine.GoesOn()
      ensures r.Ran? && r.value ==> machine.dropIn == machine.loaded == target
      ensures r.Ran? && !r.value ==> machine.refusals > old(machine.refusals)
    {
      var bound :- machine.Bind(target);
      if !bound { return Ran(false); }
      r := machine.DaemonReload();
    }

    /** Back to what ran before: the profile to generation, if it is to be switched, and the closure to
        target, if it is to be bound again. */
    method GoBack(switching: bool, generation: nat, rebind: bool, target: Path) returns (r: Ran<bool>)
      requires Core()
      requires switching ==>
                 && generation != 0 && machine.MaySwitchTo(generation)
                 && (machine.stranded || MayStandOn(memory, generation, machine.ungated))
      modifies machine`profile, machine`dropIn, machine`loaded, machine`undeleted, machine`ungated, machine`refusals
      ensures machine.Sound() && machine.GoesOn()
      ensures r.Ran? ==> Agrees()
      ensures machine.profile.generations.Keys <= old(machine.profile).generations.Keys
      ensures !switching ==> machine.ProfileUnchanged()
      ensures !rebind ==> machine.dropIn == old(machine.dropIn) && machine.loaded == old(machine.loaded)
      ensures r.Ran? && !r.value ==>
                machine.refusals > old(machine.refusals) || (switching && generation !in old(machine.profile).generations)
      ensures r.Ran? && r.value && rebind ==> machine.dropIn == machine.loaded == target
      ensures r.Ran? && r.value && switching ==>
                && WentBack(old(machine.profile), machine.profile, generation, machine.undeleted > old(machine.undeleted))
                && machine.profile.Target(generation) == old(machine.profile).Target(generation)
    {
      if switching {
        var switched :- SwitchBack(generation);
        if !switched { return Ran(false); }
      }
      if rebind {
        r := Rebind(target);
      } else {
        r := Ran(true);
      }
    }

    /** A swap of before, from previous, on current, is on record and got as far as progress says, from start. */
    ghost predicate IsUnderWay(policy: Policy, before: UnitState, current: Path, previous: nat, progress: Progress, start: State)
      reads this`memory, machine
    {
      && memory.swapping == Some(SwapRecord(previous, current, policy.desired, before.invocation))
      && machine.disk.swapping == memory.swapping && machine.held
      && start.profile.Valid() && start.profile.current == previous && start.profile.Target(previous) == current
      && start.memory == memory.(swapping := None)
      && Went(progress, policy, start, Now())
    }

    /** The profile and the closure back to what they were. */
    method UndoProgram(policy: Policy, before: UnitState, current: Path, previous: nat, progress: Progress, ghost start: State)
      returns (r: Ran<bool>)
      requires Core() && IsUnderWay(policy, before, current, previous, progress, start)
      modifies machine`profile, machine`dropIn, machine`loaded, machine`undeleted, machine`ungated, machine`refusals
      ensures machine.Sound() && machine.GoesOn()
      ensures r.Ran? ==> Agrees()
      ensures r.Ran? && !r.value ==> machine.refusals > old(machine.refusals)
      ensures r.Ran? && r.value && !machine.stranded ==>
                MayStandOn(memory.(swapping := None), machine.profile.current, machine.ungated)
      ensures r.Ran? && r.value ==>
                && (previous != 0 ==> machine.profile.current == previous && machine.profile.Target(previous) == current)
                && (previous != 0 ==> start.profile.IsBack(machine.profile, policy.desired, machine.undeleted > start.undeleted))
                && (previous == 0 ==> machine.profile == old(machine.profile))
                && (progress.bound && previous != 0 ==> machine.dropIn == machine.loaded == current)
                && (!progress.bound || previous == 0 ==>
                      machine.dropIn == old(machine.dropIn) && machine.loaded == old(machine.loaded))
                && (progress.bound && progress.moved ==> machine.loaded == machine.profile.Target(machine.profile.current))
    {
      if progress.moved && previous != 0 {
        SetSwitchDeleteIsIdentity(start.profile, machine.profile.current, policy.desired);
      }
      r := GoBack(progress.moved && previous != 0, previous, progress.bound && current != "", current);
    }

    /** A restart back, only if the unit did restart. */
    method RestartIfRestarted(before: UnitState, ghost bound: bool) returns (r: Ran<bool>)
      requires Core() && machine.held
      requires machine.disk.swapping.Some? && machine.disk.swapping.value.invocation == before.invocation
      requires bound && !machine.stranded ==> machine.loaded == machine.profile.Target(machine.profile.current)
      modifies machine`unit, machine`running, machine`restarts, machine`evidence, machine`found, machine`readings,
               machine`refusals
      ensures Core() && machine.GoesOn()
      ensures r.Ran? && !r.value ==> machine.refusals > old(machine.refusals)
      ensures machine.restarts != old(machine.restarts) ==>
                machine.restarts == old(machine.restarts) + [MovedOn] && machine.found.read.invocation != before.invocation
    {
      var after := machine.Unit();
      if after.invocation == before.invocation {
        return Ran(true);
      }
      var restarted :- Restart(MovedOn, bound);
      return Ran(restarted.Ended?);
    }

    /** Takes back a swap that failed before its gate, given how far it got; false when that failed itself. */
    method UndoSteps(policy: Policy, before: UnitState, current: Path, previous: nat, progress: Progress, ghost start: State)
      returns (r: Ran<bool>)
      requires Core() && IsUnderWay(policy, before, current, previous, progress, start)
      modifies machine`profile, machine`dropIn, machine`loaded, machine`unit, machine`running, machine`found, machine`readings,
               machine`undeleted, machine`ungated, machine`restarts, machine`evidence, machine`refusals
      ensures machine.Sound() && machine.GoesOn()
      ensures r.Ran? ==> Agrees()
      ensures r.Ran? && !r.value ==> machine.refusals > old(machine.refusals)
      ensures r.Ran? && r.value && !machine.stranded ==>
                && MayStandOn(memory.(swapping := None), machine.profile.current, machine.ungated)
                && (previous != 0 ==> start.profile.IsBack(machine.profile, policy.desired, machine.undeleted > start.undeleted))
                && (previous == 0 ==> machine.profile == old(machine.profile))
                && (progress.bound && previous != 0 ==> machine.dropIn == machine.loaded == current)
                && (!progress.bound ==> machine.dropIn == old(machine.dropIn) && machine.loaded == old(machine.loaded))
      // Restarted again only if the profile was moved and the unit's invocation moved on.
      ensures machine.restarts != old(machine.restarts) ==>
                && progress.moved && machine.restarts == old(machine.restarts) + [MovedOn]
                && machine.found.read.invocation != before.invocation
    {
      r := UndoProgram(policy, before, current, previous, progress, start);
      if r == Ran(true) && progress.moved {
        r := RestartIfRestarted(before, progress.bound);
      }
    }

    /** None when the restart's end was lost, else what the gate said. */
    method RestartAndGate(ghost cause: Cause, ghost bound: bool) returns (r: Ran<Option<bool>>)
      requires Core() && Justified(cause, machine.Known())
      requires bound && !machine.stranded ==> machine.loaded == machine.profile.Target(machine.profile.current)
      modifies machine`unit, machine`running, machine`ungated, machine`verdicts, machine`restarts, machine`evidence,
               machine`found, machine`refusals
      ensures machine.Sound() && machine.GoesOn()
      ensures r.Ran? ==> Agrees()
      ensures machine.restarts == old(machine.restarts) || machine.restarts == old(machine.restarts) + [cause]
      ensures r.Ran? ==> machine.restarts == old(machine.restarts) + [cause]
      ensures r.Ran? && r.value.None? ==> machine.refusals > old(machine.refusals) && machine.verdicts == old(machine.verdicts)
      ensures r.Ran? && r.value.Some? ==> machine.verdicts == old(machine.verdicts) + [r.value.value]
    {
      var restarted :- Restart(cause, bound);
      if restarted.Lost? {
        return Ran(None);
      }
      var healthy :- Gate(restarted.job);
      return Ran(Some(healthy));
    }

    /** Back on generation, and restarted and gated there: what the gate said, or None if it did not come
        to that. */
    method BackAndGated(policy: Policy, previous: nat, previousTarget: Path, ghost cause: Cause) returns (r: Ran<Option<bool>>)
      requires Core() && Justified(cause, machine.Known()) && previous != 0
      requires machine.stranded || (machine.MaySwitchTo(previous) && MayStandOn(memory, previous, machine.ungated))
      requires !machine.stranded && previous in machine.profile.generations ==> machine.profile.Target(previous) == previousTarget
      modifies machine`profile, machine`dropIn, machine`loaded, machine`unit, machine`running, machine`undeleted,
               machine`verdicts, machine`ungated, machine`restarts, machine`evidence, machine`found, machine`refusals
      ensures machine.Sound() && machine.GoesOn()
      ensures r.Ran? ==> Agrees()
      ensures machine.profile.generations.Keys <= old(machine.profile).generations.Keys
      ensures machine.restarts == old(machine.restarts) || machine.restarts == old(machine.restarts) + [cause]
      ensures r.Ran? && r.value.None? ==>
                && (machine.refusals > old(machine.refusals) || previous !in old(machine.profile).generations)
                && machine.verdicts == old(machine.verdicts)
      ensures r.Ran? && r.value.Some? ==>
                && machine.restarts == old(machine.restarts) + [cause]
                && machine.verdicts == old(machine.verdicts) + [r.value.value]
                && WentBack(old(machine.profile), machine.profile, previous, machine.undeleted > old(machine.undeleted))
                && (policy.bindClosure ==> machine.dropIn == machine.loaded == previousTarget)
    {
      var back := GoBack(true, previous, policy.bindClosure, previousTarget);
      if back == Ran(true) {
        r := RestartAndGate(cause, policy.bindClosure);
      } else {
        r := if back.Crashed? then Crashed else Ran(None);
      }
    }

    /** Puts the unit back on the generation it ran before, restarts it and gates it again. Never retried. */
    method RollBack(policy: Policy, previous: nat, previousTarget: Path, ghost cause: Cause) returns (r: Ran<bool>)
      requires Core() && Justified(cause, machine.Known())
      requires machine.stranded || previous == 0 ||
                 (machine.MaySwitchTo(previous) && MayStandOn(memory, previous, machine.ungated))
      requires !machine.stranded && previous in machine.profile.generations ==> machine.profile.Target(previous) == previousTarget
      modifies machine`profile, machine`dropIn, machine`loaded, machine`unit, machine`running, machine`stranded,
               machine`undeleted, machine`verdicts, machine`ungated, machine`restarts, machine`evidence, machine`found,
               machine`refusals
      ensures machine.Sound() && machine.GoesOn()
      ensures r.Ran? ==> Agrees()
      ensures machine.profile.generations.Keys <= old(machine.profile).generations.Keys
      ensures machine.AskedForReason(
                if previousTarget == "" || previous !in old(machine.profile).generations then 0 else previous)
      ensures machine.restarts == old(machine.restarts) || machine.restarts == old(machine.restarts) + [cause]
      ensures r.Ran? ==>
                machine.verdicts == old(machine.verdicts) || machine.verdicts == old(machine.verdicts) + [r.value]
      ensures r.Ran? && !machine.stranded ==>
                && previous != 0
                && WentBack(old(machine.profile), machine.profile, previous, machine.undeleted > old(machine.undeleted))
                && (policy.bindClosure ==> machine.dropIn == machine.loaded == previousTarget)
                && machine.restarts == old(machine.restarts) + [cause]
                && machine.verdicts == old(machine.verdicts) + [r.value]
    {
      if previous == 0 || previousTarget == "" {
        machine.stranded := true;
        return Ran(false);
      }
      var healthy :- BackAndGated(policy, previous, previousTarget, cause);
      if healthy.None? {
        machine.stranded := true;
        return Ran(false);
      }
      return Ran(healthy.value);
    }

    /** Takes back a swap that failed before its gate; what cannot be taken back is left to a person. */
    method Undo(policy: Policy, before: UnitState, current: Path, previous: nat, progress: Progress, ghost start: State)
      returns (r: Ran<bool>)
      requires Core() && progress.job.None? && IsUnderWay(policy, before, current, previous, progress, start)
      modifies machine`profile, machine`dropIn, machine`loaded, machine`unit, machine`running, machine`found, machine`readings,
               machine`stranded, machine`undeleted, machine`ungated, machine`restarts, machine`evidence, machine`refusals
      ensures machine.Sound() && machine.GoesOn() && machine.AskedForReason(1)
      ensures r.Ran? ==>
                && Agrees() && machine.refusals > start.refusals
                && (machine.stranded || MayStandOn(memory.(swapping := None), machine.profile.current, machine.ungated))
      ensures r.Ran? && !machine.stranded && previous != 0 ==>
                && start.profile.IsBack(machine.profile, policy.desired, machine.undeleted > start.undeleted)
                && ((machine.dropIn == start.dropIn && machine.loaded == start.loaded)
                    || machine.dropIn == machine.loaded == current)
      ensures SwapRestarts(start.restarts, machine.restarts, policy.idleSamples)
    {
      var undone :- UndoSteps(policy, before, current, previous, progress, start);
      if !undone {
        machine.stranded := true;
      }
      return Ran(undone);
    }

    /** The end of a swap that failed at a step: undone, as far as that goes, and counted. */
    method Fail(policy: Policy, before: UnitState, current: Path, previous: nat, progress: Progress, ghost start: State)
      returns (r: Ran<Swapped>)
      requires Core() && progress.job.None? && IsUnderWay(policy, before, current, previous, progress, start)
      modifies this`memory, machine`profile, machine`dropIn, machine`loaded, machine`unit, machine`running,
               machine`found, machine`readings,
               machine`stranded, machine`undeleted, machine`ungated, machine`restarts, machine`evidence, machine`refusals
      ensures machine.Sound() && machine.GoesOn() && machine.AskedForReason(1)
      ensures r.Ran? ==> r.value.Undone? && Saveable() && memory.swapping.None? && SwapEnded(Undone, policy, start, Now())
      ensures SwapRestarts(start.restarts, machine.restarts, policy.idleSamples)
    {
      var _ :- Undo(policy, before, current, previous, progress, start);
      memory := CountFailure(memory.(swapping := None), policy.desired);
      return Ran(Undone);
    }

    /** The end of a swap whose gate was healthy: old generations pruned, and everything but the good one
        forgotten. */
    method Commit(policy: Policy) returns (r: Ran<bool>)
      requires Core() && machine.profile.current !in machine.ungated && policy.Fits(machine.keep)
      requires machine.MayPrune()
      modifies this`memory, machine`profile, machine`ungated, machine`past, machine`refusals
      ensures machine.Sound() && machine.Onward() && machine.past.begun == old(machine.past.begun)
      ensures machine.profile.generations.Keys <= old(machine.profile).generations.Keys
      ensures r.Ran? ==> Saveable() && memory == UnitMemory("", "", 0, machine.profile.current, None)
      ensures r.Ran? ==>
                && machine.profile.current == old(machine.profile.current) && machine.profile.current !in machine.ungated
                && (machine.profile == old(machine.profile).Pruned(policy.keepGenerations)
                    || (machine.profile == old(machine.profile) && machine.refusals > old(machine.refusals)))
    {
      var pruned :- machine.Prune(policy.keepGenerations);
      memory := UnitMemory("", "", 0, machine.profile.current, None);
      return Ran(pruned);
    }

    /** The end of a swap whose gate was not: rolled back, as far as that goes, and pinned out. */
    method Reject(policy: Policy, previous: nat, previousTarget: Path, to: Path, ghost cause: Cause) returns (r: Ran<bool>)
      requires Core() && Justified(cause, machine.Known())
      requires && memory.swapping.Some? && memory.swapping.value.from == previous
               && memory.swapping.value.fromTarget == previousTarget
      modifies this`memory, machine`profile, machine`dropIn, machine`loaded, machine`unit, machine`running,
               machine`stranded, machine`undeleted, machine`verdicts, machine`ungated, machine`restarts, machine`evidence,
               machine`found, machine`refusals
      ensures machine.Sound() && machine.GoesOn()
      ensures machine.AskedForReason(
                if previousTarget == "" || previous !in old(machine.profile).generations then 0 else previous)
      ensures machine.profile.generations.Keys <= old(machine.profile).generations.Keys
      ensures machine.restarts == old(machine.restarts) || machine.restarts == old(machine.restarts) + [cause]
      ensures r.Ran? ==>
                && Saveable()
                && memory == old(memory).(pinned := to, failing := "", swapFailures := 0, swapping := None)
                && (machine.verdicts == old(machine.verdicts) || IsGatedAgain(old(machine.verdicts), machine.verdicts))
      ensures r.Ran? && !machine.stranded ==>
                && previous != 0
                && WentBack(old(machine.profile), machine.profile, previous, machine.undeleted > old(machine.undeleted))
                && (policy.bindClosure ==> machine.dropIn == machine.loaded == previousTarget)
                && machine.restarts == old(machine.restarts) + [cause]
                && IsGatedAgain(old(machine.verdicts), machine.verdicts)
    {
      var healthy :- RollBack(policy, previous, previousTarget, cause);
      memory := memory.(pinned := to, failing := "", swapFailures := 0, swapping := None);
      return Ran(healthy);
    }

    /** The end of a swap just gated, whose gate said no. */
    method RejectSwap(policy: Policy, before: UnitState, current: Path, previous: nat, progress: Progress, ghost start: State)
      returns (r: Ran<Swapped>)
      requires Core() && IsUnderWay(policy, before, current, previous, progress, start.(verdicts := machine.verdicts))
      requires progress.moved && machine.verdicts == start.verdicts + [false] && Justified(Rejected, machine.Known())
      modifies this`memory, machine`profile, machine`dropIn, machine`loaded, machine`unit, machine`running,
               machine`stranded, machine`undeleted, machine`verdicts, machine`ungated, machine`restarts, machine`evidence,
               machine`found, machine`refusals
      ensures machine.Sound() && machine.GoesOn() && machine.AskedForReason(previous)
      ensures r.Ran? ==> r.value.RolledBack? && Saveable() && memory.swapping.None? && SwapEnded(RolledBack, policy, start, Now())
      ensures SwapRestarts(start.restarts, machine.restarts, policy.idleSamples)
    {
      ghost var failed := machine.profile.current;
      var _ :- Reject(policy, previous, current, policy.desired, Rejected);
      if !machine.stranded {
        BackFromNewest(start.profile, failed, policy.desired, machine.profile, machine.undeleted > start.undeleted);
      }
      return Ran(RolledBack);
    }

    /** The end of a swap just gated, whose gate said yes. */
    method CommitSwap(policy: Policy, before: UnitState, current: Path, previous: nat, progress: Progress, ghost start: State)
      returns (r: Ran<Swapped>)
      requires Core() && policy.Fits(machine.keep)
      requires IsUnderWay(policy, before, current, previous, progress, start.(verdicts := machine.verdicts))
      requires progress.job == Some(Done) && machine.verdicts == start.verdicts + [true]
      requires machine.profile.current !in machine.ungated
      modifies this`memory, machine`profile, machine`ungated, machine`past, machine`refusals
      ensures machine.Sound() && machine.Onward() && machine.past.begun == old(machine.past.begun)
      ensures r.Ran? ==> r.value.Committed? && Saveable() && memory.swapping.None? && SwapEnded(Committed, policy, start, Now())
    {
      var _ :- Commit(policy);
      return Ran(Committed);
    }

    /** Whichever end of a swap its gate leads to. */
    method JudgedAs(policy: Policy, before: UnitState, current: Path, previous: nat, progress: Progress, healthy: bool,
                    ghost start: State)
      returns (r: Ran<Swapped>)
      requires Core() && policy.Fits(machine.keep)
      requires IsUnderWay(policy, before, current, previous, progress, start.(verdicts := machine.verdicts))
      requires progress.job.Some? && machine.verdicts == start.verdicts + [healthy]
      requires if healthy then progress.job == Some(Done) && machine.profile.current !in machine.ungated
               else Justified(Rejected, machine.Known())
      modifies this`memory, machine`profile, machine`dropIn, machine`loaded, machine`unit, machine`running,
               machine`stranded, machine`undeleted, machine`verdicts, machine`ungated, machine`restarts, machine`evidence,
               machine`found, machine`past, machine`refusals
      ensures machine.Sound() && machine.Onward() && machine.AskedForReason(previous)
      ensures machine.past.begun == old(machine.past.begun)
      ensures r.Ran? ==>
                && (r.value.Committed? || r.value.RolledBack?)
                && Saveable() && memory.swapping.None? && SwapEnded(r.value, policy, start, Now())
      ensures SwapRestarts(start.restarts, machine.restarts, policy.idleSamples)
    {
      if healthy {
        r := CommitSwap(policy, before, current, previous, progress, start);
      } else {
        r := RejectSwap(policy, before, current, previous, progress, start);
      }
    }

    /** The gate on a swap whose restart job ended, and whichever end that leads to. */
    method Judged(policy: Policy, before: UnitState, current: Path, previous: nat, progress: Progress, ghost start: State)
      returns (r: Ran<Swapped>)
      requires Core() && policy.Fits(machine.keep) && IsUnderWay(policy, before, current, previous, progress, start)
      requires progress.job.Some? && machine.found.job == progress.job
      modifies this`memory, machine`profile, machine`dropIn, machine`loaded, machine`unit, machine`running,
               machine`stranded, machine`undeleted, machine`verdicts, machine`ungated, machine`restarts, machine`evidence,
               machine`found, machine`past, machine`refusals
      ensures machine.Sound() && machine.Onward() && machine.AskedForReason(previous)
      ensures machine.past.begun == old(machine.past.begun)
      ensures r.Ran? ==>
                && (r.value.Committed? || r.value.RolledBack?)
                && Saveable() && memory.swapping.None? && SwapEnded(r.value, policy, start, Now())
      ensures SwapRestarts(start.restarts, machine.restarts, policy.idleSamples)
    {
      var healthy :- Gate(progress.job.value);
      r := JudgedAs(policy, before, current, previous, progress, healthy, start);
    }

    /** The swap once it is recorded: the steps, the gate, and whichever end they lead to. */
    method SwapRecorded(policy: Policy, before: UnitState, current: Path, previous: nat) returns (r: Ran<Swapped>)
      requires Core() && policy.Fits(machine.keep) && IsAtStart(policy) && machine.unit == before
      requires memory.swapping == Some(SwapRecord(previous, current, policy.desired, before.invocation))
      requires current == machine.profile.Target(previous)
      requires Justified(Cause.Swap(policy.idleSamples), machine.Known())
      modifies this`memory, machine`profile, machine`dropIn, machine`loaded, machine`unit, machine`running,
               machine`stranded, machine`undeleted, machine`verdicts, machine`ungated, machine`restarts, machine`evidence,
               machine`found, machine`readings, machine`past, machine`refusals
      ensures machine.Sound() && machine.Onward() && machine.AskedForReason(previous)
      ensures machine.past.begun == old(machine.past.begun)
      ensures r.Ran? ==>
                && !r.value.Deferred? && Saveable() && memory.swapping.None?
                && SwapEnded(r.value, policy, old(Now()).(memory := old(memory).(swapping := None)), Now())
      ensures SwapRestarts(old(machine.restarts), machine.restarts, policy.idleSamples)
    {
      ghost var start := Now().(memory := memory.(swapping := None));
      var progress :- Forward(policy);
      if progress.job.None? {
        r := Fail(policy, before, current, previous, progress, start);
      } else {
        r := Judged(policy, before, current, previous, progress, start);
      }
    }

    /** Writes down, durably, a swap about to start; false, and nothing written down, when that is refused. */
    method RecordSwap(record: SwapRecord) returns (r: Ran<bool>)
      requires Core() && !dryRun && memory.swapping.None? && memory.pinned == ""
      requires record.from == machine.profile.current && record.fromTarget == machine.profile.Target(record.from)
      modifies this`memory, this`saved, machine`disk, machine`past, machine`refusals
      ensures machine.Sound() && machine.Onward()
      ensures r.Ran? ==> Agrees() && memory == if r.value then old(memory).(swapping := Some(record)) else old(memory)
      ensures r.Ran? && r.value ==>
                && machine.disk == memory && machine.refusals == old(machine.refusals)
                && IsAsRecorded()
      ensures r.Ran? && !r.value ==> machine.disk == old(machine.disk) && machine.refusals > old(machine.refusals)
      ensures RecordsOneAtMost(record.to)
    {
      memory := memory.(swapping := Some(record));
      var saved :- Save();
      if !saved {
        memory := memory.(swapping := None);
      }
      return Ran(saved);
    }

    /** The swap once it is recorded, and the save that ends it. */
    method SwapAndSave(policy: Policy, before: UnitState, current: Path, previous: nat,
                       ghost start: State) returns (r: Ran<Swapped>)
      requires Core() && policy.Fits(machine.keep) && !dryRun && IsAtStart(policy) && machine.unit == before
      requires memory.swapping == Some(SwapRecord(previous, current, policy.desired, before.invocation))
      requires start == Now().(memory := memory.(swapping := None))
      requires current == machine.profile.Target(previous)
      requires Justified(Cause.Swap(policy.idleSamples), machine.Known())
      modifies this`memory, this`saved, machine
      ensures machine.Sound() && machine.Onward() && machine.AskedForReason(previous)
      ensures r.Ran? ==>
                && !r.value.Deferred? && Agrees() && memory.swapping.None?
                && SwapEnded(r.value, policy, start, Now())
      ensures SwapRestarts(old(machine.restarts), machine.restarts, policy.idleSamples)
      ensures machine.journal == old(machine.journal)
      ensures machine.looks == old(machine.looks) && machine.past.begun == old(machine.past.begun)
    {
      var how :- SwapRecorded(policy, before, current, previous);
      ghost var ended := Now();
      var _ :- SaveEnd();
      SavedAfterwards(Some(how), policy, start, ended, Now());
      return Ran(how);
    }

    /** The swap of a unit that was just found idle at its last look. */
    method SwapIdle(policy: Policy, before: UnitState, current: Path, previous: nat, ghost start: State)
      returns (r: Ran<Swapped>)
      requires start == Now()
      requires Core() && policy.Fits(machine.keep) && !dryRun && memory.swapping.None? && memory.pinned == ""
      requires machine.held && before.IsUp() && before == machine.unit == machine.found.read
      requires previous == machine.profile.current && current == machine.profile.Target(previous)
      requires IdleFor(machine.looks, policy.idleSamples)
      modifies this`memory, this`saved, this`attempts, machine
      ensures RecordsOneAtMost(policy.desired)
      ensures machine.Sound() && machine.Onward() && machine.AskedForReason(previous)
      ensures r.Ran? ==> Agrees() && memory.swapping.None? && SwapEnded(r.value, policy, start, Now())
      ensures SwapRestarts(old(machine.restarts), machine.restarts, policy.idleSamples)
      ensures machine.looks == old(machine.looks) && machine.journal == old(machine.journal)
      ensures r.Ran? && r.value.Deferred? ==> machine.refusals > old(machine.refusals)
      ensures r.Ran? ==> attempts == old(attempts) + if r.value.Deferred? then 0 else 1
      ensures old(attempts) <= attempts <= old(attempts) + 1
    {
      var record := SwapRecord(previous, current, policy.desired, before.invocation);
      var recorded := RecordSwap(record);
      if recorded == Ran(true) {
        attempts := attempts + 1;
        r := SwapAndSave(policy, before, current, previous, start);
      } else {
        r := if recorded.Crashed? then Crashed else Ran(Deferred);
      }
    }

    /** The swap of a unit that has been idle for long enough. */
    method Swap(policy: Policy, before: UnitState, current: Path, previous: nat, ghost start: State) returns (r: Ran<Swapped>)
      requires start == Now()
      requires Core() && policy.Fits(machine.keep) && !dryRun && memory.swapping.None? && memory.pinned == ""
      requires machine.held && before.IsUp() && before == machine.unit == machine.found.read
      requires previous == machine.profile.current && current == machine.profile.Target(previous)
      requires streak >= policy.idleSamples
      modifies this`memory, this`saved, this`streak, this`attempts, machine
      ensures machine.Sound() && machine.Onward() && machine.AskedForReason(previous)
      ensures r.Ran? ==> Agrees() && memory.swapping.None? && SwapEnded(r.value, policy, start, Now())
      ensures SwapRestarts(old(machine.restarts), machine.restarts, policy.idleSamples)
      ensures machine.looks.Then? && machine.looks.earlier == old(machine.looks) && machine.looks.last.occasion.Last?
      // Deferred only for someone there at the last look, or a record refused.
      ensures r.Ran? && r.value.Deferred? ==>
                !machine.looks.last.idle || machine.refusals > old(machine.refusals)
      ensures r.Ran? ==> attempts == old(attempts) + if r.value.Deferred? then 0 else 1
      ensures old(attempts) <= attempts <= old(attempts) + 1
      ensures machine.journal == old(machine.journal)
      ensures RecordsOneAtMost(policy.desired)
    {
      var busy := LastLook(policy.idleSamples);
      if busy {
        r := Ran(Deferred);
      } else {
        r := SwapIdle(policy, before, current, previous, start);
      }
    }

    /** The profile, and the closure with it, back on what an interrupted swap left. */
    method BackOnRecord(policy: Policy, record: SwapRecord) returns (r: Ran<bool>)
      requires Core() && memory.swapping == Some(record)
      modifies machine`profile, machine`dropIn, machine`loaded, machine`undeleted, machine`ungated, machine`refusals
      ensures machine.Sound() && machine.GoesOn()
      ensures machine.profile.generations.Keys <= old(machine.profile).generations.Keys
      ensures r.Ran? ==>
                && Agrees()
                && (r.value ==>
                      machine.stranded || MayStandOn(memory.(swapping := None), machine.profile.current, machine.ungated))
      ensures r.Ran? && !r.value ==>
                machine.refusals > old(machine.refusals) || (record.from != 0 && record.from !in old(machine.profile).generations)
      ensures r.Ran? && r.value ==>
                && (!machine.stranded && record.from != 0 ==>
                      && WentBack(old(machine.profile), machine.profile, record.from, machine.undeleted > old(machine.undeleted))
                      && record.from in old(machine.profile.generations)
                      && machine.profile.Target(record.from) == record.fromTarget)
                && (policy.bindClosure && record.fromTarget != "" ==> machine.dropIn == machine.loaded == record.fromTarget)
    {
      var generation := machine.profile.current;
      r := GoBack(record.from != 0 && generation != 0 && generation != record.from, record.from,
                  policy.bindClosure && record.fromTarget != "", record.fromTarget);
    }

    /** An interrupted swap put back; tried again next pass, if that was refused. */
    method PutBackRecord(policy: Policy, record: SwapRecord, ghost state: UnitState) returns (r: Ran<Resumed>)
      requires Core() && memory.swapping == Some(record)
      requires state.invocation == record.invocation || state.active.Inactive?
      modifies this`memory, machine`profile, machine`dropIn, machine`loaded, machine`undeleted, machine`ungated,
               machine`refusals
      ensures machine.Sound() && machine.GoesOn()
      ensures machine.profile.generations.Keys <= old(machine.profile).generations.Keys
      ensures r.Ran? ==>
                && (if r.value.PutBack? then memory.swapping.None? else r.value.NotYetUndone? && Agrees())
                && Saveable()
                && PickedUp(Pickup(r.value, state, old(machine.profile.current)), policy, record, machine.past.stale,
                            old(Now()), Now())
      ensures r.Ran? && !machine.stranded && record.from != 0 && record.from !in old(machine.profile.generations) ==>
                r.value.NotYetUndone?
    {
      var undone := BackOnRecord(policy, record);
      if undone == Ran(true) {
        memory := memory.(swapping := None);
      }
      r := if undone.Crashed? then Crashed else Ran(if undone.value then PutBack else NotYetUndone);
    }

    /** The end of an interrupted swap of a unit that restarted, just gated and healthy. */
    method ConfirmInterrupted(policy: Policy, record: SwapRecord, ghost state: UnitState, ghost stale: bool, ghost before: State)
      returns (r: Ran<bool>)
      requires Core() && policy.Fits(machine.keep) && memory.swapping == Some(record)
      requires machine.profile.current !in machine.ungated
      requires state.invocation != record.invocation && !state.active.Inactive? && !state.active.Failed?
      requires record.from == 0 || machine.profile.current != record.from
      requires stale == machine.past.stale && before.stranded == machine.stranded && before.restarts == machine.restarts
      requires before.profile == machine.profile && before.verdicts + [true] == machine.verdicts
      requires before.refusals == machine.refusals
      modifies this`memory, machine`profile, machine`ungated, machine`past, machine`refusals
      ensures machine.Sound() && machine.Onward() && machine.past.begun == old(machine.past.begun)
      ensures machine.profile.generations.Keys <= old(machine.profile).generations.Keys
      ensures r.Ran? ==>
                && Saveable() && memory.swapping.None?
                && PickedUp(Pickup(Confirmed, state, before.profile.current), policy, record, stale, before, Now())
    {
      r := Commit(policy);
    }

    /** The gate an interrupted swap never got to, and the commit if it is healthy. */
    method GateInterrupted(policy: Policy, record: SwapRecord, ghost state: UnitState) returns (r: Ran<bool>)
      requires Core() && policy.Fits(machine.keep) && memory.swapping == Some(record)
      requires state.invocation != record.invocation && !state.active.Inactive? && !state.active.Failed?
      requires record.from == 0 || machine.profile.current != record.from
      modifies this`memory, machine`unit, machine`running, machine`found, machine`verdicts, machine`profile,
               machine`ungated, machine`past, machine`refusals
      ensures machine.Sound() && machine.Onward() && machine.past.begun == old(machine.past.begun)
      ensures machine.found.read == old(machine.found.read)
      ensures machine.profile.generations.Keys <= old(machine.profile).generations.Keys
      ensures r.Ran? ==> machine.verdicts == old(machine.verdicts) + [r.value]
      ensures r.Ran? && r.value ==>
                && Saveable() && memory.swapping.None?
                && PickedUp(Pickup(Confirmed, state, old(machine.profile.current)), policy, record, old(machine.past.stale),
                            old(Now()), Now())
      ensures r.Ran? && !r.value ==>
                && Agrees() && memory == old(memory) && machine.ProfileUnchanged()
                && machine.past == old(machine.past) && machine.refusals == old(machine.refusals)
    {
      r := Gate(Done);
      if r == Ran(true) {
        var confirmed := ConfirmInterrupted(policy, record, state, old(machine.past.stale), old(Now()));
        assert machine.Onward();
        r := if confirmed.Crashed? then Crashed else r;
      }
    }

    /** The same, but for a unit that failed, or is on the generation the swap left. */
    method GateUnlessOver(policy: Policy, record: SwapRecord, state: UnitState) returns (r: Ran<bool>)
      requires Core() && policy.Fits(machine.keep) && memory.swapping == Some(record)
      requires state.invocation != record.invocation && !state.active.Inactive?
      modifies this`memory, machine`unit, machine`running, machine`found, machine`verdicts, machine`profile,
               machine`ungated, machine`past, machine`refusals
      ensures machine.Sound() && machine.Onward() && machine.past.begun == old(machine.past.begun)
      ensures machine.found.read == old(machine.found.read)
      ensures machine.profile.generations.Keys <= old(machine.profile).generations.Keys
      ensures r.Ran? && r.value ==>
                && Saveable() && memory.swapping.None?
                && PickedUp(Pickup(Confirmed, state, old(machine.profile.current)), policy, record, old(machine.past.stale),
                            old(Now()), Now())
      ensures r.Ran? && !r.value ==>
                && Agrees() && memory == old(memory) && machine.ProfileUnchanged()
                && machine.past == old(machine.past) && machine.refusals == old(machine.refusals)
                && machine.verdicts ==
                   if state.active.Failed? || machine.profile.current == record.from != 0 then old(machine.verdicts)
                   else old(machine.verdicts) + [false]
    {
      if state.active.Failed? || machine.profile.current == record.from != 0 {
        r := Ran(false);
      } else {
        r := GateInterrupted(policy, record, state);
      }
    }

    /** The end of an interrupted swap of a unit that restarted, without a healthy gate. */
    method RejectInterrupted(policy: Policy, record: SwapRecord, state: UnitState, generation: nat, ghost before: State)
      returns (r: Ran<Resumed>)
      requires Core() && memory.swapping == Some(record) && machine.held
      requires state == machine.found.read && state.invocation != record.invocation && !state.active.Inactive?
      requires var judged :=
                 if state.active.Failed? || generation == record.from != 0 then before.verdicts else before.verdicts + [false];
               && before.profile == machine.profile && before.restarts == machine.restarts && before.memory == memory
               && before.undeleted == machine.undeleted
               && judged == machine.verdicts && generation == machine.profile.current
      modifies this`memory, machine`profile, machine`dropIn, machine`loaded, machine`unit, machine`running,
               machine`stranded, machine`undeleted, machine`verdicts, machine`ungated, machine`restarts, machine`evidence,
               machine`found, machine`refusals
      ensures machine.Sound() && OnlyRecovers(true, record.from in old(machine.profile).generations)
      ensures r.Ran? ==>
                && r.value.Reverted? && Saveable() && memory.swapping.None?
                && PickedUp(Pickup(Reverted, state, generation), policy, record, old(machine.past.stale), before, Now())
    {
      var _ :- Reject(policy, record.from, record.fromTarget, record.to, MovedOn);
      return Ran(Reverted);
    }

    /** What becomes of an interrupted swap of a unit that restarted, and was not simply stopped since. */
    method ResumeRestarted(policy: Policy, record: SwapRecord, state: UnitState) returns (r: Ran<Resumed>)
      requires Core() && policy.Fits(machine.keep) && memory.swapping == Some(record)
      requires state == machine.found.read && state.invocation != record.invocation && !state.active.Inactive? && machine.held
      modifies this`memory, machine`profile, machine`dropIn, machine`loaded, machine`unit, machine`running,
               machine`stranded, machine`undeleted, machine`verdicts, machine`ungated, machine`restarts, machine`evidence,
               machine`found, machine`past, machine`refusals
      ensures machine.Sound() && OnlyRecovers(true, record.from in old(machine.profile).generations)
      ensures r.Ran? ==>
                && (r.value.Confirmed? || r.value.Reverted?) && Saveable() && memory.swapping.None?
                && PickedUp(Pickup(r.value, state, old(machine.profile.current)), policy, record, old(machine.past.stale),
                            old(Now()), Now())
    {
      ghost var before := Now();
      var generation := machine.profile.current;
      var healthy :- GateUnlessOver(policy, record, state);
      if healthy {
        return Ran(Confirmed);
      }
      r := RejectInterrupted(policy, record, state, generation, before);
    }

    /** The same, the unit held first. */
    method HoldAndResume(policy: Policy, record: SwapRecord, state: UnitState) returns (r: Ran<Resumed>)
      requires Core() && policy.Fits(machine.keep) && memory.swapping == Some(record)
      requires state == machine.found.read && state.invocation != record.invocation && !state.active.Inactive?
      modifies this`memory, machine`profile, machine`dropIn, machine`loaded, machine`unit, machine`running, machine`held,
               machine`stranded, machine`undeleted, machine`verdicts, machine`ungated, machine`restarts, machine`evidence,
               machine`found, machine`past, machine`refusals
      ensures machine.Sound() && OnlyRecovers(true, record.from in old(machine.profile).generations)
      ensures r.Ran? ==>
                && (r.value.Confirmed? || r.value.Reverted?) && Saveable() && memory.swapping.None?
                && PickedUp(Pickup(r.value, state, old(machine.profile.current)), policy, record, old(machine.past.stale),
                            old(Now()), Now())
    {
      machine.Hold();
      r := ResumeRestarted(policy, record, state);
    }

    /** Brings an interrupted swap to its end, but for saving that. */
    method Resume(policy: Policy, record: SwapRecord, state: UnitState) returns (r: Ran<Resumed>)
      requires Core() && policy.Fits(machine.keep) && memory.swapping == Some(record)
      requires state == machine.found.read
      modifies this`memory, machine`profile, machine`dropIn, machine`loaded, machine`unit, machine`running, machine`held,
               machine`stranded, machine`undeleted, machine`verdicts, machine`ungated, machine`restarts, machine`evidence,
               machine`found, machine`past, machine`refusals
      ensures machine.Sound() && OnlyRecovers(true, record.from in old(machine.profile).generations)
      ensures r.Ran? ==>
                && !r.value.LeftAlone? && Saveable()
                && (if r.value.NotYetUndone? then Agrees() else memory.swapping.None?)
                && PickedUp(Pickup(r.value, state, old(machine.profile.current)), policy, record, old(machine.past.stale),
                            old(Now()), Now())
      ensures r.Ran? && !old(machine.stranded) && record.from != 0 && record.from !in old(machine.profile.generations)
              && (state.invocation == record.invocation || state.active.Inactive?) ==>
                r.value.NotYetUndone?
    {
      var notRestarted := state.invocation == record.invocation;
      if notRestarted || (state.IsStopped() && !state.active.Failed?) {
        r := PutBackRecord(policy, record, state);
      } else {
        r := HoldAndResume(policy, record, state);
      }
    }

    /** Brings an interrupted swap to its end, and saves that. */
    method Finish(policy: Policy, record: SwapRecord, state: UnitState) returns (r: Ran<Resumed>)
      requires Core() && policy.Fits(machine.keep) && memory.swapping == Some(record) && !dryRun
      requires state == machine.found.read
      modifies this`memory, this`saved, machine
      ensures machine.Sound() && OnlyRecovers(true, record.from in old(machine.profile).generations)
      ensures r.Ran? ==>
                && Agrees() && !r.value.LeftAlone?
                && PickedUp(Pickup(r.value, state, old(machine.profile.current)), policy, record, old(machine.past.stale),
                            old(Now()), Now())
                && (if r.value.NotYetUndone? then machine.disk == old(machine.disk)
                    else machine.refusals == old(machine.refusals) ==> machine.disk == memory)
      ensures r.Ran? && !old(machine.stranded) && record.from != 0 && record.from !in old(machine.profile.generations)
              && (state.invocation == record.invocation || state.active.Inactive?) ==>
                r.value.NotYetUndone?
    {
      ghost var before := Now();
      ghost var stale := machine.past.stale;
      var how :- Resume(policy, record, state);
      if !how.NotYetUndone? {
        ghost var ended := Now();
        var saved := SaveEnd();
        assert machine.Onward();
        if saved.Crashed? { return Crashed; }
        PickupSavedAfterwards(Pickup(how, state, before.profile.current), policy, record, stale, before, ended, Now());
      }
      return Ran(how);
    }

    ghost predicate CanFinish()
      reads this`memory, machine`profile
    {
      HasWhatItLeft(memory, machine.profile)
    }

    /** Picks up a swap Tidewaiter died in the middle of, by whether the unit restarted since it began. */
    method ResumeSwap(policy: Policy, record: SwapRecord, state: UnitState) returns (r: Ran<Resumed>)
      requires Core() && policy.Fits(machine.keep) && seen && memory.swapping == Some(record)
      requires state == machine.found.read
      modifies this`memory, this`saved, this`seen, machine
      ensures machine.Sound() && OnlyRecovers(true, record.from in old(machine.profile).generations)
      ensures r.Ran? ==>
                && Agrees() && seen == !r.value.NotYetUndone?
                && PickedUp(Pickup(r.value, state, old(machine.profile.current)), policy, record, old(machine.past.stale),
                            old(Now()), Now())
      ensures dryRun ==> r.Ran? && r.value.LeftAlone? && Untouched()
      ensures !dryRun && r.Ran? ==> !r.value.LeftAlone?
      ensures r.Ran? && r.value.NotYetUndone? ==> machine.disk == old(machine.disk)
      // With nothing refused the swap is done with, and the disk says so, if the generation it left is there.
      ensures r.Ran? && !dryRun && machine.refusals == old(machine.refusals) && old(CanFinish()) ==>
                memory.swapping.None? && machine.disk == memory
      // Once the generation it left is gone, a swap of a unit that never restarted, or was stopped, cannot be undone.
      ensures r.Ran? && !dryRun && !old(machine.stranded) && record.from != 0 && record.from !in old(machine.profile.generations)
              && (state.invocation == record.invocation || state.active.Inactive?) ==>
                r.value.NotYetUndone?
    {
      if dryRun {
        return Ran(LeftAlone);
      }
      r := Finish(policy, record, state);
      if r.Ran? && r.value.NotYetUndone? {
        seen := false;
      }
    }

    /** What a first look may have to go back to is still there. */
    ghost predicate CanGoBack()
      reads this`memory, machine`profile
    {
      HasWayBack(memory, machine.profile)
    }

    /** Pins out what a unit was found failed on. */
    method PinOut(current: Path) returns (r: Ran<bool>)
      requires Core() && !dryRun && memory.swapping.None? && current != ""
      modifies this`memory, this`saved, machine`disk, machine`past, machine`refusals
      ensures machine.Sound() && machine.Onward() && machine.past.begun == old(machine.past).begun
      ensures r.Ran? ==> Agrees() && memory == old(memory).(pinned := current)
      ensures machine.disk == old(machine.disk) || machine.disk.pinned == current
    {
      memory := memory.(pinned := current);
      r := SaveEnd();
    }

    /** Rolls back a unit found failed on a generation newer than the good one. */
    method RollBackNewer(policy: Policy, state: UnitState, current: Path, generation: nat) returns (r: Ran<bool>)
      requires Core() && policy.Fits(machine.keep) && !dryRun && memory.swapping.None? && machine.disk.swapping.None?
      requires memory.good == machine.disk.good
      requires generation == machine.profile.current == machine.found.generation && state == machine.found.read
      requires current == machine.profile.Target(generation)
      requires state.active.Failed? && memory.good != 0 && memory.good < generation
      modifies this`memory, this`saved, machine
      ensures machine.Sound() && OnlyRecovers(false, old(CanGoBack()))
      ensures r.Ran? ==> Agrees() && memory == old(memory).(pinned := current)
      ensures machine.disk == old(machine.disk) || machine.disk.pinned == current
      ensures r.Ran? && !machine.stranded ==>
                machine.profile.current == memory.good && machine.restarts == old(machine.restarts) + [FailedOn]
      // Without the good generation, a person is asked for.
      ensures r.Ran? && old(!CanGoBack()) ==> machine.stranded
    {
      machine.Hold();
      var _ :- RollBack(policy, memory.good, machine.profile.Target(memory.good), FailedOn);
      r := PinOut(current);
    }

    /** A unit that is up, with no swap interrupted, is adopted as it is: its generation is good. */
    method Adopt(generation: nat) returns (r: Ran<bool>)
      requires Core() && memory.swapping.None? && machine.disk.swapping.None? && generation == machine.profile.current
      modifies this`memory, this`saved, machine`disk, machine`past, machine`refusals
      ensures machine.Sound() && OnlyRecovers(false, true)
      ensures r.Ran? ==> Agrees() && memory == old(memory).(good := generation)
      ensures machine.disk == old(machine.disk) || machine.disk.pinned == old(memory).pinned
      ensures Now() == old(Now()).(memory := memory, refusals := machine.refusals)
      ensures dryRun ==> r.Ran? && unchanged(machine)
    {
      if memory.good != generation {
        memory := memory.(good := generation);
        r := Save();
      } else {
        r := Ran(true);
      }
    }

    /** The first look at a unit with no swap interrupted: it is adopted if it is up, rolled back if it failed on a
        generation newer than the good one, and otherwise left as it is. */
    method FirstSightOf(policy: Policy, state: UnitState, current: Path, generation: nat) returns (r: Ran<Option<Decide.Kind>>)
      requires Core() && policy.Fits(machine.keep) && seen && memory.swapping.None? && machine.disk.swapping.None?
      requires memory.good == machine.disk.good
      requires generation == machine.profile.current == machine.found.generation && state == machine.found.read
      requires current == machine.profile.Target(generation)
      modifies this`memory, this`saved, machine
      ensures machine.Sound() && OnlyRecovers(false, old(CanGoBack()))
      ensures r.Ran? ==> Agrees() && memory.swapping.None?
      ensures dryRun ==> Untouched() && r.Ran?
      ensures r.Ran? && r.value.None? ==>
                && (state.IsUp() && generation != 0 ==> memory == old(memory).(good := generation))
                && memory == old(memory).(good := memory.good)
                && (memory.good == old(memory).good || memory.good == generation)
                && Now() == old(Now()).(memory := memory, refusals := machine.refusals)
      ensures r.Ran? && r.value.Some? ==>
                && FailedOnNewer(state, old(memory.good), generation) && !dryRun
                && r.value == Some(Decide.Pinned) && memory == old(memory).(pinned := current)
                && (!machine.stranded ==> machine.profile.current == memory.good)
                && (old(!CanGoBack()) ==> machine.stranded)
      ensures || machine.disk == old(machine.disk)
              || machine.disk.pinned == old(memory).pinned
              || (!dryRun && machine.disk.pinned == current && FailedOnNewer(state, old(memory.good), generation))
      ensures machine.restarts != old(machine.restarts) ==> !dryRun && FailedOnNewer(state, old(memory.good), generation)
      ensures r.Ran? && !dryRun && FailedOnNewer(state, old(memory.good), generation) ==> r.value == Some(Decide.Pinned)
    {
      r := Ran(None);
      if generation != 0 && state.IsUp() {
        var adopted := Adopt(generation);
        r := if adopted.Crashed? then Crashed else r;
      } else if state.active.Failed? && memory.good != 0 && generation > memory.good && !dryRun {
        var back := RollBackNewer(policy, state, current, generation);
        r := if back.Crashed? then Crashed else Ran(Some(Decide.Pinned));
      }
    }

    /** The first look at a unit since this daemon started: what it calls for, if it came to an end there. */
    method FirstSight(policy: Policy, state: UnitState, current: Path, generation: nat)
      returns (r: Ran<Option<Decide.Kind>>, ghost resumed: Option<Resumed>)
      requires Core() && policy.Fits(machine.keep) && seen
      requires memory.swapping == machine.disk.swapping && memory.good == machine.disk.good
      requires generation == machine.profile.current == machine.found.generation && state == machine.found.read
      requires current == machine.profile.Target(generation)
      modifies this`memory, this`saved, this`seen, machine
      ensures machine.Sound() && OnlyRecovers(old(memory.swapping).Some?, old(CanGoBack()))
      ensures r.Ran? ==>
                && Agrees()
                && (memory.swapping.Some? && !dryRun ==>
                      !seen && (machine.refusals > old(machine.refusals) || !old(CanFinish())))
      ensures r.Ran? && r.value.None? ==> seen && memory.swapping.None?
      ensures r.Ran? && !seen ==>
                memory.swapping.Some? && memory.swapping == machine.disk.swapping && memory.good == machine.disk.good
      ensures dryRun ==> Untouched() && seen && memory.swapping == old(memory).swapping
      // A swap is picked up, and only a swap.
      ensures r.Ran? ==> resumed.Some? == old(memory.swapping).Some?
      ensures r.Ran? && resumed.Some? ==>
                && PickedUp(Pickup(resumed.value, state, generation), policy, old(memory).swapping.value,
                            old(machine.past.stale), old(Now()), Now())
                && (r.value.None? ==> resumed.value.PutBack? || resumed.value.Confirmed?)
                && (!dryRun ==> !resumed.value.LeftAlone?)
      // Without one, a unit that is up has its generation adopted as good, and one failed on a generation newer
      // than the good one is rolled back and pinned out; nothing else is done.
      ensures r.Ran? && resumed.None? && r.value.None? ==>
                && (state.IsUp() && generation != 0 ==> memory == old(memory).(good := generation))
                && memory == old(memory).(good := memory.good)
                && (memory.good == old(memory).good || memory.good == generation)
                && Now() == old(Now()).(memory := memory, refusals := machine.refusals)
      ensures r.Ran? && resumed.None? && r.value.Some? ==>
                && FailedOnNewer(state, old(memory.good), generation) && !dryRun
                && r.value == Some(Decide.Pinned) && memory == old(memory).(pinned := current)
                && (!machine.stranded ==> machine.profile.current == memory.good)
                && (old(!CanGoBack()) ==> machine.stranded)
      ensures r.Ran? && r.value.None? ==> machine.stranded == old(machine.stranded)
      // What is pinned out on disk is what was, or was remembered to be, but for such a rollback.
      ensures old(memory.swapping).None? ==>
                || machine.disk == old(machine.disk)
                || machine.disk.pinned == old(memory).pinned
                || (&& !dryRun && machine.disk.pinned == current
                    && FailedOnNewer(state, old(memory.good), generation))
      ensures old(memory.swapping).None? && machine.restarts != old(machine.restarts) ==>
                !dryRun && FailedOnNewer(state, old(memory.good), generation)
      ensures r.Ran? && !dryRun && old(memory.swapping).None? && FailedOnNewer(state, old(memory.good), generation) ==>
                r.value == Some(Decide.Pinned)
    {
      if memory.swapping.Some? {
        var how := ResumeSwap(policy, memory.swapping.value, state);
        r := if how.Crashed? then Crashed else Ran(EndOf(how.value));
        resumed := if how.Crashed? then None else Some(how.value);
      } else {
        resumed := None;
        r := FirstSightOf(policy, state, current, generation);
      }
    }

    /** A swap is due: of a unit that is up and elsewhere than desired, not pinned out of it, and idle, with one
        more idle sample, for long enough. */
    ghost predicate IsDue(policy: Policy, state: UnitState)
      reads this`memory, machine`profile, machine`looks
    {
      && !dryRun && state.IsUp()
      && machine.profile.Target(machine.profile.current) != policy.desired
      && memory.pinned != policy.desired
      && TrailingIdle(machine.looks) + 1 >= policy.idleSamples
    }

    /** The swap of a unit just decided to be updated. */
    method SwapDue(policy: Policy, state: UnitState) returns (r: Ran<Outcome>, ghost swapped: Option<Swapped>)
      requires Core() && policy.Fits(machine.keep) && !dryRun && memory.swapping.None? && memory.pinned == ""
      requires state.IsUp() && state == machine.unit == machine.found.read && streak >= policy.idleSamples
      modifies this`memory, this`saved, this`streak, this`attempts, machine
      ensures machine.Sound() && machine.Onward() && machine.AskedForReason(old(machine.profile).current)
      ensures machine.journal == old(machine.journal)
      ensures RecordsOneAtMost(policy.desired)
      ensures r.Ran? ==>
                && Agrees() && memory.swapping.None? && !r.value.settled
                && swapped.Some? && SwapEnded(swapped.value, policy, old(Now()), Now())
                && attempts == if swapped.value.Deferred? then old(attempts) else old(attempts) + 1
      ensures old(attempts) <= attempts <= old(attempts) + 1
      ensures SwapRestarts(old(machine.restarts), machine.restarts, policy.idleSamples)
      ensures machine.looks.Then? && machine.looks.earlier == old(machine.looks) && machine.looks.last.occasion.Last?
    {
      swapped := None;
      machine.Hold();
      var how :- Swap(policy, state, machine.profile.Target(machine.profile.current), machine.profile.current, Now());
      return Ran(Outcome(if how.Deferred? then Decide.Defer else Decide.Update, Some(false), false)), Some(how);
    }

    /** A unit that is not stopped: sampled, judged, and swapped if that is the verdict. */
    method Judge(policy: Policy, state: UnitState) returns (r: Ran<Outcome>, ghost swapped: Option<Swapped>)
      requires Core() && policy.Fits(machine.keep) && (dryRun || memory.swapping.None?)
      requires memory.pinned == "" || memory.pinned == policy.desired
      requires state == machine.unit == machine.found.read
      modifies this`memory, this`saved, this`streak, this`attempts, machine
      ensures machine.Sound() && machine.Onward() && machine.AskedForReason(old(machine.profile).current)
      ensures machine.journal == old(machine.journal)
      ensures RecordsOneAtMost(policy.desired)
      ensures r.Ran? ==> Agrees() && (dryRun || memory.swapping.None?) && Tended(swapped, policy, old(Now()), Now())
      ensures r.Ran? ==> attempts == old(attempts) + if swapped.Some? && !swapped.value.Deferred? then 1 else 0
      ensures old(attempts) <= attempts <= old(attempts) + 1
      ensures SwapRestarts(old(machine.restarts), machine.restarts, policy.idleSamples)
      // Cut short or not, a unit for which no swap is due is not touched.
      ensures old(IsDue(policy, state)) || (Untouched() && memory == old(memory) && attempts == old(attempts))
      // One for which it is, and that is still idle, has its last look.
      ensures old(IsDue(policy, state)) && r.Ran? ==>
                || machine.looks == Then(old(machine.looks), Look(Pass, false))
                || (machine.looks.Then? && machine.looks.last.occasion.Last?
                    && machine.looks.earlier == Then(old(machine.looks), Look(Pass, true)))
      ensures r.Ran? && r.value.settled ==> r.value.busy == Some(false) && streak >= policy.idleSamples
    {
      var current := machine.profile.Target(machine.profile.current);
      var busy := SamplePass(state);
      var settled := !busy && streak >= policy.idleSamples;
      var kind := Decide.Decide(Decide.Inputs(policy.idleSamples, current, policy.desired, busy, streak), memory.pinned);
      if !state.IsUp() && current != policy.desired && memory.pinned != policy.desired {
        kind, settled := Decide.Defer, false;
      }
      assert kind == Decide.Update && !dryRun ==> IsDue(policy, state);
      if kind == Decide.Update && !dryRun {
        r, swapped := SwapDue(policy, state);
      } else {
        r, swapped := Ran(Outcome(kind, Some(busy), settled)), None;
      }
    }

    /** A unit with nothing left to recover, since start. */
    method Tend(policy: Policy, state: UnitState, ghost start: Footing)
      returns (r: Ran<Outcome>, ghost swapped: Option<Swapped>)
      requires Core() && policy.Fits(machine.keep) && seen && (dryRun || memory.swapping.None?)
      requires memory == Holding(memory, policy.desired)
      requires start == FootingFor(policy.desired).(journal := start.journal, readings := start.readings)
      requires state == machine.unit == machine.found.read
      modifies this`memory, this`saved, this`streak, this`attempts, machine
      ensures machine.Sound() && machine.journal == old(machine.journal)
      ensures IsCareful(policy, dryRun, start, FootingFor(policy.desired))
      ensures IsPinKept(start, machine.disk, policy.desired, false)
      ensures r.Ran? ==> Agrees() && (dryRun || memory.swapping.None?) && Tended(swapped, policy, old(Now()), Now())
      ensures r.Ran? ==> attempts == old(attempts) + if swapped.Some? && !swapped.value.Deferred? then 1 else 0
      ensures r.Ran? && r.value.settled ==> r.value.busy == Some(false)
    {
      if state.IsStopped() {
        swapped := None;
        var kind := UpdateStopped(policy, machine.profile.Target(machine.profile.current));
        r := if kind.Crashed? then Crashed else Ran(Outcome(kind.value, Some(false), true));
      } else {
        r, swapped := Judge(policy, state);
      }
    }

    /** A pass, since start, just read the unit, for the first or another time. */
    ghost predicate HasRead(policy: Policy, start: Footing, read: UnitState)
      reads this, machine
    {
      && start == FootingFor(policy.desired).(journal := start.journal, readings := start.readings)
      && read == machine.found.read && machine.found.generation == machine.profile.current
    }

    /** The same, for the first time. */
    ghost predicate HasFirstRead(policy: Policy, start: Footing, read: UnitState)
      reads this, machine
    {
      HasRead(policy, start, read) && machine.journal == start.journal + [start.Saw(read)]
    }

    /** A unit looked at for the first time: what its first look calls for, if it came to an end there. */
    method LookOnce(policy: Policy, read: UnitState, ghost start: Footing)
      returns (r: Ran<Option<Decide.Kind>>, ghost did: Account)
      requires Core() && policy.Fits(machine.keep) && seen && !start.seen && read.found
      requires HasFirstRead(policy, start.(seen := true), read)
      requires memory.swapping == machine.disk.swapping && memory.good == machine.disk.good
      requires memory == Holding(memory, policy.desired)
      modifies this`memory, this`saved, this`seen, machine
      ensures r.Ran? ==> Agrees() && did.first == Now() && did.Recovers(policy, start)
      ensures machine.Sound() && IsCareful(policy, dryRun, start, FootingFor(policy.desired))
      ensures did.swapped.None? && IsPinKept(start, machine.disk, policy.desired, did.LosesPin(policy.desired))
      ensures machine.past.begun == start.past.begun
      ensures did.GoesByRead(start, machine.journal, dryRun) && did.read == read && machine.journal == old(machine.journal)
      ensures r.Ran? && r.value.None? ==> IsRecovered(policy, start, did)
      ensures r.Ran? ==>
                && did.picked.Some? == start.state.memory.swapping.Some?
                && (memory.swapping.Some? && !dryRun ==>
                      !seen && (machine.refusals > start.state.refusals || !start.CanFinish()))
                && (start.state.memory.swapping.None? ==> memory.swapping.None? && seen)
      ensures r.Ran? && !seen ==>
                memory.swapping.Some? && memory.swapping == machine.disk.swapping && memory.good == machine.disk.good
      ensures dryRun ==> seen && memory.swapping == start.state.memory.swapping
    {
      ghost var sight := if dryRun then None else Some(start.Sees(read));
      ghost var generation, resumed := machine.profile.current, None;
      r, resumed := FirstSight(policy, read, machine.profile.Target(machine.profile.current), machine.profile.current);
      if r.Ran? && resumed.Some? {
        PickedUpWhateverRan(Pickup(resumed.value, read, generation), policy, start.state.memory.swapping.value,
                            start.past.stale, old(Now()), Now(), start.state);
      }
      did := Account(read, sight, Now(),
                     if r.Ran? && resumed.Some? then Some(Pickup(resumed.value, read, generation)) else None, None);
    }

    /** After a first look that was not the end of it, there is nothing left to recover, and nothing was restarted
        nor anyone asked for. */
    ghost predicate IsRecovered(policy: Policy, start: Footing, did: Account)
      reads this, machine
    {
      && seen && memory.swapping.None?
      && machine.restarts == start.state.restarts && machine.stranded == start.state.stranded
      && (start.state.profile.current != 0 ==> machine.profile.current != 0)
      && (did.picked.None? ==>
            && machine.profile == start.state.profile && !did.SawFailure()
            && IsStillHeld(memory, start.state.memory, policy.desired)
            && memory.good in {start.state.memory.good, start.state.profile.current})
      && (did.picked.Some? ==> did.picked.value.how.PutBack? || did.picked.value.how.Confirmed?)
      && memory == Holding(memory, policy.desired)
      && (start.state.memory.pinned == policy.desired ==> memory.pinned == policy.desired)
    }

    /** All that is promised of a pass since start, cut short or not. */
    ghost predicate IsPass(policy: Policy, start: Footing, r: Ran<Outcome>, did: Account)
      reads this`memory, this`saved, this`streak, this`seen, this`attempts
      reads machine`disk, machine`profile, machine`dropIn, machine`loaded, machine`unit, machine`running, machine`stranded
      reads machine`ungated, machine`past, machine`looks, machine`journal, machine`readings
      reads machine`restarts, machine`evidence, machine`verdicts, machine`undeleted, machine`refusals
    {
      && machine.Sound() && IsCareful(policy, dryRun, start, FootingFor(policy.desired))
      // A pin on the desired version stays on disk, unless a first look saw the unit failed on another.
      && IsPinKept(start, machine.disk, policy.desired, did.LosesPin(policy.desired))
      // Until there is a unit to look at, nothing changes.
      && (!start.seen && !did.read.found ==> FootingFor(policy.desired).StandsAs(start))
      && (r.Ran? ==>
            && Agrees() && IsAtRest() && did.IsOf(policy, start, Now())
            && (start.state.memory.swapping.None? ==>
                  memory.swapping.None? && seen == (start.seen || did.read.found))
            && attempts == (if did.HasTried() then start.attempts + 1 else start.attempts)
            && (start.seen || did.HasTried() ==> seen) && (seen ==> start.seen || did.read.found)
            // An interrupted swap is picked up, and cleared by an unrefused pass if what it left is there.
            && (did.sight.Some? && start.state.memory.swapping.Some? ==> did.picked.Some?)
            && (!dryRun && machine.unit.found && machine.refusals == start.state.refusals && start.CanFinish() ==>
                  memory.swapping.None? && (start.state.memory.swapping.Some? ==> did.picked.Some?))
            && (r.value.settled ==> r.value.busy == Some(false)))
    }

    /** A pass over a unit looked at before. */
    method ReconcileSeen(policy: Policy, read: UnitState, ghost start: Footing) returns (r: Ran<Outcome>, ghost did: Account)
      requires Core() && policy.Fits(machine.keep) && seen && (dryRun || memory.swapping.None?)
      requires memory == Holding(memory, policy.desired) && HasRead(policy, start, read) && read == machine.unit
      modifies this`memory, this`saved, this`streak, this`attempts, machine
      ensures IsPass(policy, start, r, did) && did.read == read && did.sight.None? && did.picked.None?
      ensures machine.journal == old(machine.journal)
      ensures r.Ran? ==> did.first == old(Now())
    {
      did := Account(read, None, Now(), None, None);
      ghost var swapped;
      r, swapped := Tend(policy, read, start);
      did := did.(swapped := swapped);
      if r.Ran? {
        OnlyTended(did, policy, start, Now());
      }
    }

    /** A unit with nothing left to recover after its first look, looked, since start. */
    ghost predicate IsLooked(policy: Policy, start: Footing, looked: Account)
      reads this, machine
    {
      && Core() && !start.seen && IsRecovered(policy, start, looked)
      && looked.GoesByRead(start, machine.journal, dryRun) && looked.read.found
      && looked.Recovers(policy, start) && looked.first == Now() && looked.swapped.None?
      && looked.picked.Some? == start.state.memory.swapping.Some?
      && IsCareful(policy, dryRun, start, FootingFor(policy.desired)) && machine.past.begun == start.past.begun
      && IsPinKept(start, machine.disk, policy.desired, looked.LosesPin(policy.desired)) && attempts == start.attempts
      && machine.keep == start.keep
    }

    /** Such a unit is looked at once more. */
    method LookAgain(policy: Policy, ghost start: Footing, ghost looked: Account) returns (again: UnitState, ghost did: Account)
      requires IsLooked(policy, start, looked)
      modifies machine`unit, machine`running, machine`found, machine`readings
      ensures IsLooked(policy, start, did) && again == machine.unit
      ensures HasRead(policy, old(FootingFor(policy.desired)), again)
    {
      ghost var footing := FootingFor(policy.desired);
      again := machine.Unit();
      assert FootingFor(policy.desired) == footing.(readings := machine.readings);
      did := looked.(first := Now());
      LookedAgain(looked, policy, start, did.first);
    }

    /** And tended like any other. */
    method TendFirst(policy: Policy, ghost start: Footing, ghost looked: Account) returns (r: Ran<Outcome>, ghost did: Account)
      requires policy.Fits(machine.keep) && IsLooked(policy, start, looked)
      modifies this`memory, this`saved, this`streak, this`attempts, machine
      ensures IsPass(policy, start, r, did) && did.GoesByRead(start, machine.journal, dryRun)
    {
      ghost var middle := FootingFor(policy.desired);
      var again;
      again, did := LookAgain(policy, start, looked);
      ghost var seen;
      r, seen := ReconcileSeen(policy, again, middle);
      did := did.(swapped := seen.swapped);
      CarefulTwice(policy, dryRun, start, middle, FootingFor(policy.desired), looked);
    }

    /** A pass over a unit looked at for the first time. */
    method ReconcileFirst(policy: Policy, read: UnitState, ghost start: Footing) returns (r: Ran<Outcome>, ghost did: Account)
      requires Core() && policy.Fits(machine.keep) && seen && !start.seen && read.found
      requires HasFirstRead(policy, start.(seen := true), read)
      requires memory.swapping == machine.disk.swapping && memory.good == machine.disk.good
      requires memory == Holding(memory, policy.desired)
      modifies this`memory, this`saved, this`streak, this`seen, this`attempts, machine
      ensures IsPass(policy, start, r, did) && did.GoesByRead(start, machine.journal, dryRun)
    {
      var recovered;
      recovered, did := LookOnce(policy, read, start);
      if recovered.Ran? && recovered.value.None? {
        r, did := TendFirst(policy, start, did);
      } else {
        r := if recovered.Crashed? then Crashed else Ran(Outcome(recovered.value.value, Some(false), false));
      }
    }

    /** A pass over a unit that systemd knows, as just read. */
    method ReconcileFound(policy: Policy, read: UnitState, ghost start: Footing) returns (r: Ran<Outcome>, ghost did: Account)
      requires Valid() && policy.Fits(machine.keep) && HasFirstRead(policy, start, read) && read.found && read == machine.unit
      modifies this, machine
      ensures IsPass(policy, start, r, did) && did.GoesByRead(start, machine.journal, dryRun)
    {
      memory := Holding(memory, policy.desired);
      assert HasFirstRead(policy, start, read);
      if seen {
        r, did := ReconcileSeen(policy, read, start);
      } else {
        seen := true;
        r, did := ReconcileFirst(policy, read, start);
      }
    }

    /** A pass over a unit that systemd does not know: settled, as nobody is on it. */
    method LeaveAlone(policy: Policy, ghost read: UnitState, ghost start: Footing)
      returns (r: Ran<Outcome>, ghost did: Account)
      requires Valid() && policy.Fits(machine.keep) && HasFirstRead(policy, start, read) && !read.found && read == machine.unit
      ensures IsPass(policy, start, r, did) && did.GoesByRead(start, machine.journal, dryRun)
      ensures r == Ran(Outcome(Decide.Keep, Some(false), true))
    {
      return Ran(Outcome(Decide.Keep, Some(false), true)), Account(read, None, Now(), None, None);
    }

    /** One look at the unit, and whatever it calls for. */
    method Reconcile(policy: Policy) returns (r: Ran<Outcome>, ghost did: Account)
      requires Valid() && policy.Fits(machine.keep)
      modifies this, machine
      ensures IsPass(policy, old(FootingFor(policy.desired)), r, did)
      ensures did.GoesByRead(old(FootingFor(policy.desired)), machine.journal, dryRun)
    {
      ghost var start := FootingFor(policy.desired);
      var state := machine.FirstRead();
      assert HasFirstRead(policy, start, state);
      if state.found {
        r, did := ReconcileFound(policy, state, start);
      } else {
        r, did := LeaveAlone(policy, state, start);
      }
    }

    /** Saves what is left to be saved at the end of a pass. */
    method SavePass() returns (r: Ran<bool>)
      requires Core()
      modifies this`saved, machine`disk, machine`past, machine`refusals
      ensures machine.Sound() && machine.Onward()
      ensures machine.past.begun == old(machine.past).begun && machine.past.newer == old(machine.past).newer
      ensures r.Ran? ==> Agrees() && (dryRun || machine.disk == memory || machine.refusals > old(machine.refusals))
      ensures machine.disk == memory || machine.disk == old(machine.disk)
      ensures dryRun ==> r.Ran? && unchanged(machine)
      ensures Now() == old(Now()).(refusals := machine.refusals)
    {
      r := Save();
    }

    /** The save that ends a pass. */
    method EndPass(policy: Policy, outcome: Outcome, ghost start: Footing, ghost did: Account) returns (r: Ran<Outcome>)
      requires IsPass(policy, start, Ran(outcome), did) && policy.Fits(machine.keep)
      modifies this`saved, machine`disk, machine`past, machine`refusals
      ensures IsPass(policy, start, r, did)
      ensures r.Ran? && !dryRun && machine.refusals == start.state.refusals ==> machine.disk == memory
    {
      ghost var ended, done := Now(), FootingFor(policy.desired);
      if start.state.memory.pinned == policy.desired {
        PinAfter(did, policy, start, ended);
      }
      var saved := SavePass();
      CarefulAndSaved(policy, dryRun, start, done, FootingFor(policy.desired));
      SavedOrNot(did, policy, start, ended, Now());
      r := if saved.Ran? then Ran(outcome) else Crashed;
    }

    /** A pass over the unit, and the save that ends it. */
    method Once(policy: Policy) returns (r: Ran<Outcome>, ghost did: Account)
      requires Valid() && policy.Fits(machine.keep)
      modifies this, machine
      ensures IsPass(policy, old(FootingFor(policy.desired)), r, did)
      ensures did.GoesByRead(old(FootingFor(policy.desired)), machine.journal, dryRun)
      ensures r.Ran? && !dryRun && machine.refusals == old(machine.refusals) ==> machine.disk == memory
    {
      ghost var start := FootingFor(policy.desired);
      r, did := Reconcile(policy);
      if r.Ran? {
        r := EndPass(policy, r.value, start, did);
      }
    }
  }

  // ----- What can go wrong with nothing refused

  /** With nothing ever refused, a swap can still lose the generation it left, 1 here. The profile was moved twice
      while the unit was stopped; it failed on the second, which was rolled back and deleted; the first is lying
      about, and the swap's pruning, which keeps one more than its own, keeps that one. Cut short before its end
      is saved, it has nothing to be put back to. */
  lemma LeftGenerationPruned()
    ensures var idle := State(UnitMemory("", "", 0, 1, None), Profile(map[1 := "a"], 1), {}, "", "", "a", false, [], [], 0, 0);
            var moved := idle.(profile := idle.profile.With(2, "b"));
            var again := moved.(profile := moved.profile.With(3, "c"));
            var sight := SightOf(UnitState(true, Failed, 1), again.memory, again.profile);
            var back := again.(profile := Profile(map[1 := "a", 2 := "b"], 1), restarts := [FailedOn], verdicts := [true]);
            var swap := Policy("d", 0, false, 1);
            var swapped := back.(profile := Profile(map[2 := "b", 3 := "d"], 3), memory := UnitMemory("", "", 0, 3, None),
                                 running := "d", verdicts := [true, true], restarts := [FailedOn, Cause.Swap(0)]);
            && Tended(None, Policy("b", 0, false, 1), idle, moved) && Tended(None, Policy("c", 0, false, 1), moved, again)
            && sight.HasFailedOnNewer() && WentBack(again.profile, back.profile, 1, false)
            && SwapEnded(Committed, swap, back, swapped)
            && 1 !in swapped.profile.generations
            && Trustworthy(back.memory.(swapping := Some(SwapRecord(1, "a", "d", 0))), swapped.profile, {},
                           Past(1, 1, 1, true, false, false), 1)
  {
    var first := Profile(map[1 := "a"], 1);
    var back := Profile(map[1 := "a", 2 := "b"], 1);
    assert first.With(2, "b").With(3, "c").(current := 1).Without(3) == back;
    PrunedToTwo(back, "d");
  }

  /** A profile with a generation 1 and a 2, set to a third and pruned to the newest two. */
  lemma PrunedToTwo(profile: Profile, target: Path)
    requires profile.generations.Keys == {1, 2}
    ensures profile.With(3, target).Pruned(1) == Profile(map[2 := profile.generations[2], 3 := target], 3)
    ensures profile.Newer(1) == 1 && profile.IsNext(3)
    ensures Profile(map[2 := profile.generations[2], 3 := target], 3).Newer(1) == 2
    ensures Profile(map[2 := profile.generations[2], 3 := target], 3).Newer(2) == 1
  {
    var set3 := profile.With(3, target);
    assert (set g | g in profile.generations && g > 1) == {2};
    assert (set g | g in set3.generations && g > 1) == {2, 3};
    assert (set g | g in set3.generations && g > 2) == {3};
    assert (set g | g in set3.generations && g > 3) == {};
    var pruned := Profile(map[2 := profile.generations[2], 3 := target], 3);
    assert (set g | g in pruned.generations && g > 1) == {2, 3};
    assert (set g | g in pruned.generations && g > 2) == {3};
  }

  /** Nor need the good generation be there to roll back to. The profile was moved from 1, the good one, to 2
      while the unit was stopped, and the unit started by hand. A swap of it prunes 1, and cut short before its end
      is saved, with the unit stopped by hand, is put back to 2. Failed there, the unit is newer than the good
      generation, which is gone; see FirstSight. */
  lemma GoodGenerationPruned()
    ensures var state := State(UnitMemory("", "", 0, 1, None), Profile(map[1 := "a", 2 := "b"], 2), {}, "", "", "b", false, [],
                               [], 0, 0);
            var swap := Policy("c", 0, false, 1);
            var swapped := state.(profile := Profile(map[2 := "b", 3 := "c"], 3), memory := UnitMemory("", "", 0, 3, None),
                                  running := "c", verdicts := [true], restarts := [Cause.Swap(0)]);
            var record := SwapRecord(2, "b", "c", 0);
            var cut := swapped.(memory := state.memory.(swapping := Some(record)));
            var back := cut.(profile := Profile(map[2 := "b"], 2), memory := state.memory);
            && SwapEnded(Committed, swap, state, swapped)
            && PickedUp(Pickup(PutBack, UnitState(true, Inactive, 1), 3), swap, record, false, cut, back)
            && Trustworthy(back.memory, back.profile, {}, Past(1, 0, 1, false, false, false), 1)
            && (var sight := SightOf(UnitState(true, Failed, 2), back.memory, back.profile);
                sight.HasFailedOnNewer() && !sight.wayBack)
  {
    PrunedToTwo(Profile(map[1 := "a", 2 := "b"], 2), "c");
    assert Profile(map[2 := "b", 3 := "c"], 3).(current := 2).Without(3) == Profile(map[2 := "b"], 2);
  }

  /** And a pin need not outlive a first look. As before, the profile is on 2 with 1 still good; a swap to d was
      rolled back to 2 and d pinned out. Tidewaiter starts again with the unit failed on 2: it is rolled back to
      1, and what it failed on pinned out in place of d, to which the next idle pass swaps again. */
  lemma PinLost(samples: nat)
    ensures var state := State(UnitMemory("d", "", 0, 1, None), Profile(map[1 := "a", 2 := "b"], 2), {}, "", "", "b", false,
                               [], [], 0, 0);
            var sight := SightOf(UnitState(true, Failed, 2), state.memory, state.profile);
            var after := Holding(state.memory.(pinned := "b"), "d");
            && Trustworthy(state.memory, state.profile, {}, Past(1, 0, 1, false, false, false), 1)
            && sight.LosesPin("d")
            && Decide.Decide(Decide.Inputs(samples, "a", "d", false, samples), state.memory.pinned) == Decide.Pinned
            && Decide.Decide(Decide.Inputs(samples, "a", "d", false, samples), after.pinned) == Decide.Update
  {
  }

  // ----- Recovery, over any number of lives

  /** A pass since somewhere in a journal first read the unit so, with things as at a moment. */
  ghost predicate WasReadAs(journal: seq<Entry>, from: nat, read: UnitState, before: State) {
    exists i :: from <= i < |journal| && journal[i].Saw? && journal[i].sight == SightOf(read, before.memory, before.profile)
  }

  /** Tidewaiter starts on a machine that it, or any number of lives before it, left in the middle of a swap.
      The machine is Sound again wherever this life is cut short; and a pass that is not, and is refused
      nothing, finishes the swap, so long as the generation the swap left still exists. */
  method StartAgain(machine: Machine, policy: Policy)
    returns (source: Source, r: Ran<Outcome>, ghost did: Account)
    requires machine.Sound() && policy.Fits(machine.keep)
    modifies machine
    ensures machine.Sound() && machine.Onward() && fresh(source) && source.machine == machine
    ensures old(machine.journal) <= machine.journal
    ensures old(machine.disk).swapping.Some? && old(machine.disk).swapping.value.from in old(machine.profile).generations ==>
              machine.AskedForReason(old(machine.profile).current)
    ensures r.Ran? && machine.unit.found && machine.refusals == old(machine.refusals) && old(machine.disk).swapping.Some?
            && (|| old(machine.disk).swapping.value.from == 0
                || old(machine.disk).swapping.value.from in old(machine.profile).generations) ==>
              var before := old(StateOf(machine, Holding(machine.disk, policy.desired)).(running := ""));
              && machine.disk.swapping.None?
              && did.picked.Some?
              && WasReadAs(machine.journal, |old(machine.journal)|, did.picked.value.read, before)
              && PickedUp(did.picked.value, policy, old(machine.disk).swapping.value, old(machine.past).stale, before, did.first)
              && did.picked.value.IsEnd()
              && Tended(did.swapped, policy, did.first, source.Now())
  {
    ghost var before := StateOf(machine, Holding(machine.disk, policy.desired)).(running := "");
    source := new Source(machine, false);
    assert source.FootingFor(policy.desired).state == before;
    r, did := source.Once(policy);
    assert machine.journal[|old(machine.journal)| + 1].sight == SightOf(did.read, old(machine.disk), old(machine.profile));
  }

  /** A swap on record, that is not over nor stale, left a generation that fewer were newer than than every
      pruning keeps. */
  ghost predicate IsRecoverable(machine: Machine)
    reads machine
  {
    && !machine.stranded && !machine.past.stale
    && machine.disk.swapping.Some? && machine.disk.swapping.value.from != 0
    && machine.past.newer < machine.keep
  }

  /** Unless another was begun or something was refused, a swap is still on record, as it was, or it is over. */
  ghost predicate Unfinished(machine: Machine, record: Option<SwapRecord>, past: Past, refusals: nat)
    reads machine
  {
    machine.past.begun == past.begun && machine.refusals == refusals ==>
      machine.disk.swapping.None? || (machine.disk.swapping == record && IsRecoverable(machine))
  }

  /** A swap cut short, from whatever moment it was, and then any number of lives cut short: so long as nothing
      is refused, one that is not cut short brings the swap to its end, committed or put back or rolled back,
      if an earlier one has not. That the generation the swap left is still there by then follows from what
      could be seen before the swap: fewer were newer than it than every pruning keeps. */
  method Recover(machine: Machine, lives: seq<Policy>, last: Policy)
    returns (source: Source, r: Ran<Outcome>, ghost earlier: bool, ghost before: State, ghost did: Account)
    requires machine.Sound()
    requires last.Fits(machine.keep) && forall i :: 0 <= i < |lives| ==> lives[i].Fits(machine.keep)
    modifies machine
    ensures machine.Sound() && machine.Onward() && fresh(source) && source.machine == machine
    ensures earlier ==> machine.disk.swapping.None? || machine.past.begun > old(machine.past).begun
    ensures old(machine.journal) <= machine.journal
    ensures old(IsRecoverable(machine)) && !earlier && r.Ran? && machine.unit.found
            && machine.refusals == old(machine.refusals) ==>
              && machine.disk.swapping.None? && !machine.stranded
              && machine.profile.current !in machine.ungated && machine.disk.good !in machine.ungated
              && before.memory.swapping == old(machine.disk).swapping && did.picked.Some?
              && WasReadAs(machine.journal, |old(machine.journal)|, did.picked.value.read, before)
              && PickedUp(did.picked.value, last, before.memory.swapping.value, false, before, did.first)
              && did.picked.value.IsEnd()
              && Tended(did.swapped, last, did.first, source.Now())
  {
    for i := 0 to |lives|
      invariant machine.Sound() && machine.Onward() && old(machine.journal) <= machine.journal
      invariant old(IsRecoverable(machine)) ==>
                  Unfinished(machine, old(machine.disk).swapping, old(machine.past), old(machine.refusals))
    {
      var _, _, _ := StartAgain(machine, lives[i]);
    }
    earlier := machine.disk.swapping.None? || machine.past.begun > old(machine.past).begun;
    before := StateOf(machine, Holding(machine.disk, last.desired)).(running := "");
    source, r, did := StartAgain(machine, last);
  }

  /** The swap that any pass over a unit with no swap on record tries, cut short, and what comes of it: see
      Recover. */
  method SwapAndRecover(source: Source, policy: Policy, lives: seq<Policy>, last: Policy)
    returns (interrupted: bool, again: Source, r: Ran<Outcome>, ghost earlier: bool, ghost before: State, ghost did: Account)
    requires var machine := source.machine;
             && source.Valid() && !source.dryRun && policy.Fits(machine.keep) && last.Fits(machine.keep)
             && (forall i :: 0 <= i < |lives| ==> lives[i].Fits(machine.keep))
             && !machine.stranded && machine.disk.swapping.None? && machine.profile.current != 0
             && machine.profile.Newer(machine.profile.current) < machine.keep
    modifies source, source.machine
    ensures source.machine.Sound()
    // Not interrupted, the pass left no swap on record; and another one is, if an earlier life ended this one.
    ensures !interrupted ==> r.Ran? || source.machine.disk.swapping.None?
    ensures interrupted && earlier ==>
              source.machine.disk.swapping.None? || source.machine.past.begun > old(source.machine.past).begun + 1
    ensures interrupted && !earlier && r.Ran? && source.machine.unit.found
            && source.machine.refusals == old(source.machine.refusals) ==>
              var machine := source.machine;
              && machine.disk.swapping.None? && !machine.stranded
              && machine.profile.current !in machine.ungated && machine.disk.good !in machine.ungated
              && before.memory.swapping.Some? && did.picked.Some?
              && WasReadAs(machine.journal, |old(machine.journal)|, did.picked.value.read, before)
              && (var record := before.memory.swapping.value;
                  && record.from == old(machine.profile).current
                  && record.fromTarget == old(machine.profile).Target(record.from) && record.to == policy.desired
                  && PickedUp(did.picked.value, last, record, false, before, did.first))
              && did.picked.value.IsEnd()
  {
    var machine := source.machine;
    again := source;
    var outcome, tried := source.Once(policy);
    r, earlier, before, did := outcome, true, source.Now(), tried;
    interrupted := outcome.Crashed? && machine.disk.swapping.Some?;
    if interrupted {
      again, r, earlier, before, did := Recover(machine, lives, last);
    }
  }

  /** A swap is on record, and the generation it left is gone. */
  ghost predicate IsStuck(source: Source, record: SwapRecord)
    reads source, source.machine
  {
    && source.memory.swapping == Some(record) && record.from != 0 && record.from !in source.machine.profile.generations
    && !source.machine.stranded && source.machine.profile.current in source.machine.profile.generations
  }

  /** The unit restarted after a swap began, and was not stopped since. */
  predicate HasMovedOn(entry: Entry, record: SwapRecord) {
    && entry.HasFound()
    && entry.sight.read.invocation != record.invocation && !entry.sight.read.active.Inactive?
  }

  ghost predicate MovedOnSince(journal: seq<Entry>, from: nat, record: SwapRecord) {
    exists i :: from <= i < |journal| && HasMovedOn(journal[i], record)
  }

  /** A pass over a unit with a swap on record whose generation left is gone. */
  lemma StuckOnceMore(did: Account, policy: Policy, before: Footing, after: State, record: SwapRecord)
    requires did.IsOf(policy, before, after) && !before.seen
    requires before.state.memory.swapping == Some(record)
    requires record.from != 0 && record.from !in before.state.profile.generations
    requires !before.state.stranded && before.state.profile.current in before.state.profile.generations
    requires did.picked.Some? ==> !did.picked.value.how.LeftAlone?
    ensures if did.picked.Some? && did.picked.value.read.invocation != record.invocation
               && !did.picked.value.read.active.Inactive?
            then after.memory.swapping.None?
            else && after.memory.swapping == Some(record) && record.from !in after.profile.generations
                 && after.restarts == before.state.restarts && !after.stranded && !did.HasTried()
  {
  }

  /** A pass while the generation left is gone and no read so far found that the unit had moved on, or once one
      has. */
  method PassWhenStuck(source: Source, policy: Policy, ghost record: SwapRecord, ghost moved: bool)
    returns (crashed: bool, ghost entry: Entry)
    requires source.Valid() && !source.dryRun && policy.Fits(source.machine.keep)
    requires if moved then source.memory.swapping.None? else IsStuck(source, record)
    modifies source, source.machine
    ensures source.machine.journal == old(source.machine.journal) + [entry]
    ensures !crashed ==> source.Valid()
    ensures !crashed && moved ==> source.memory.swapping.None?
    ensures !crashed && !moved ==>
              if HasMovedOn(entry, record) then source.memory.swapping.None?
              else && IsStuck(source, record) && source.machine.restarts == old(source.machine.restarts)
                   && source.attempts == old(source.attempts)
  {
    ghost var before := source.FootingFor(policy.desired);
    var outcome, did := source.Once(policy);
    crashed, entry := outcome.Crashed?, before.Saw(did.read);
    if !crashed && !moved {
      StuckOnceMore(did, policy, before, source.Now(), record);
    }
  }

  /** Once the generation it left is gone, a swap on record stays there, with nothing restarted, through any passes,
      exactly until one reads the unit restarted since it began and not stopped. */
  method NeverPutBack(source: Source, policies: seq<Policy>) returns (crashed: bool)
    requires source.Valid() && !source.dryRun && source.memory.swapping.Some? && IsStuck(source, source.memory.swapping.value)
    requires forall i :: 0 <= i < |policies| ==> policies[i].Fits(source.machine.keep)
    modifies source, source.machine
    ensures old(source.machine.journal) <= source.machine.journal
    ensures !crashed ==>
              if MovedOnSince(source.machine.journal, |old(source.machine.journal)|, old(source.memory).swapping.value)
              then source.memory.swapping.None?
              else && source.memory.swapping == old(source.memory).swapping == source.machine.disk.swapping
                   && source.machine.restarts == old(source.machine.restarts) && source.attempts == old(source.attempts)
  {
    var machine := source.machine;
    ghost var record, from := source.memory.swapping.value, |machine.journal|;
    var i := 0;
    crashed := false;
    while i < |policies| && !crashed
      invariant 0 <= i <= |policies| && source.machine == machine && old(machine.journal) <= machine.journal
      invariant !crashed ==>
                  && source.Valid()
                  && if MovedOnSince(machine.journal, from, record) then source.memory.swapping.None?
                     else && IsStuck(source, record) && machine.restarts == old(machine.restarts)
                          && source.attempts == old(source.attempts)
    {
      ghost var before := machine.journal;
      ghost var entry;
      crashed, entry := PassWhenStuck(source, policies[i], record, MovedOnSince(before, from, record));
      MovedOnMore(before, entry, from, record);
      i := i + 1;
    }
  }

  lemma MovedOnMore(journal: seq<Entry>, entry: Entry, from: nat, record: SwapRecord)
    requires from <= |journal|
    ensures MovedOnSince(journal + [entry], from, record) <==> MovedOnSince(journal, from, record) || HasMovedOn(entry, record)
  {
    assert (journal + [entry])[|journal|] == entry;
    if MovedOnSince(journal, from, record) {
      var i :| from <= i < |journal| && HasMovedOn(journal[i], record);
      assert (journal + [entry])[i] == journal[i];
    }
  }

  // ----- Lives

  /** Since somewhere in a journal, the unit was read with no way back. */
  ghost predicate SawNoWayBack(journal: seq<Entry>, from: nat) {
    exists i :: from <= i < |journal| && journal[i].Saw? && !journal[i].sight.wayBack
  }

  lemma NoWayBackStays(journal: seq<Entry>, from: nat, entry: Entry)
    ensures SawNoWayBack(journal, from) ==> SawNoWayBack(journal + [entry], from)
    ensures from <= |journal| && entry.Saw? && !entry.sight.wayBack ==> SawNoWayBack(journal + [entry], from)
  {
    assert (journal + [entry])[|journal|] == entry;
    if SawNoWayBack(journal, from) {
      var i :| from <= i < |journal| && journal[i].Saw? && !journal[i].sight.wayBack;
      assert (journal + [entry])[i] == journal[i];
    }
  }

  /** How things stand on a machine while Tidewaiter is not at work. */
  ghost function FootingOf(machine: Machine): Footing
    reads machine`profile, machine`ungated, machine`dropIn, machine`loaded, machine`running, machine`stranded
    reads machine`restarts, machine`verdicts, machine`undeleted, machine`refusals
    reads machine`disk, machine`past, machine`journal
  {
    Footing(StateOf(machine, machine.disk).(running := ""), machine.disk, machine.past, false, 0, machine.journal, 0,
            machine.keep)
  }

  /** Since start, things went as they ever do, swaps asked for as many idle samples as some policy does, and nobody
      was asked for without reason: something was refused, or the unit was read with no way back, in a past that is
      not safe. */
  ghost predicate IsAccountedFor(start: Footing, now: Footing, samples: set<nat>) {
    var (before, after) := (start.state, now.state);
    && start.Marked().LeadTo(now.Marked())
    && RestartedFor(before.restarts, after.restarts, samples)
    && |start.journal| <= |now.journal|
    && (after.stranded && !before.stranded && before.profile.current != 0 ==>
          after.refusals > before.refusals || (SawNoWayBack(now.journal, |start.journal|) && !now.past.safe))
  }

  /** A pass more. In a safe past there is a way back. */
  lemma PassIsAccountedFor(start: Footing, samples: set<nat>, policy: Policy, dryRun: bool, before: Footing, did: Account,
                           after: Footing)
    requires IsAccountedFor(start, before.Outside(), samples) && policy.idleSamples in samples
    requires IsCareful(policy, dryRun, before, after) && did.GoesByRead(before, after.journal, dryRun)
    requires !before.seen ==>
               HasWayBack(before.disk, before.state.profile) == HasWayBack(before.state.memory, before.state.profile)
    requires !before.state.stranded && before.past.safe ==> HasWayBack(before.disk, before.state.profile)
    ensures IsAccountedFor(start, after.Outside(), samples)
  {
    RestartedForOnceMore(start.state.restarts, before.state.restarts, after.state.restarts, policy.idleSamples, samples);
    NoWayBackStays(before.journal, |start.journal|, before.Saw(did.read));
  }

  /** A pass in a life. */
  method PassInLife(source: Source, policy: Policy, ghost start: Footing, ghost samples: set<nat>) returns (crashed: bool)
    requires source.Valid() && policy.Fits(source.machine.keep) && policy.idleSamples in samples
    requires IsAccountedFor(start, FootingOf(source.machine), samples)
    modifies source, source.machine
    ensures source.machine.Sound() && (crashed || source.Valid())
    ensures IsAccountedFor(start, FootingOf(source.machine), samples)
  {
    ghost var before := source.FootingFor(policy.desired);
    var outcome, did := source.Once(policy);
    crashed := outcome.Crashed?;
    ghost var after := source.FootingFor(policy.desired);
    PassIsAccountedFor(start, samples, policy, source.dryRun, before, did, after);
    assert FootingOf(source.machine) == after.Outside();
  }

  /** An activity tick in one. */
  method TickInLife(source: Source, ghost start: Footing, ghost samples: set<nat>)
    requires source.Valid() && IsAccountedFor(start, FootingOf(source.machine), samples)
    modifies source.machine
    ensures source.Valid() && IsAccountedFor(start, FootingOf(source.machine), samples)
  {
    ghost var before := FootingOf(source.machine);
    var _ := source.Activity();
    assert FootingOf(source.machine) == before;
  }

  /** A life of one pass after another, on the same machine. */
  method Life(machine: Machine, policies: seq<Policy>, ghost start: Footing, ghost samples: set<nat>)
    requires machine.Sound() && IsAccountedFor(start, FootingOf(machine), samples)
    requires forall i :: 0 <= i < |policies| ==> policies[i].Fits(machine.keep) && policies[i].idleSamples in samples
    modifies machine
    ensures machine.Sound() && IsAccountedFor(start, FootingOf(machine), samples)
  {
    NoWayBackStays(machine.journal, |start.journal|, Started);
    var source := new Source(machine, false);
    var i, crashed := 0, false;
    while i < |policies| && !crashed
      invariant 0 <= i <= |policies| && source.machine == machine && fresh(source)
      invariant machine.Sound() && (crashed || source.Valid())
      invariant IsAccountedFor(start, FootingOf(machine), samples)
    {
      crashed := PassInLife(source, policies[i], start, samples);
      if !crashed {
        TickInLife(source, start, samples);
      }
      i := i + 1;
    }
  }

  ghost function SamplesAsked(lives: seq<seq<Policy>>): set<nat> {
    set n, i | 0 <= n < |lives| && 0 <= i < |lives[n]| :: lives[n][i].idleSamples
  }

  /** Any number of Tidewaiter's lives on one machine, each a sequence of passes (none of them a dry run)
      that a crash may cut short at any outside call. Whatever it does, at every such moment the machine
      is Sound: no generation is good on disk, or left without a swap record, that a recorded swap made
      and no gate found healthy, the generation a recorded swap left is there to go back to, and every
      restart so far had its reason in what was known at the time. A person is asked for only because
      something was refused, for a profile Tidewaiter created, or with the unit read while there was
      nothing to go back to; and that never is so in a safe past, which it stays until a save is refused
      or a swap recorded that left no generation, or has as many newer than the good one as every pruning
      keeps. */
  method Lives(machine: Machine, lives: seq<seq<Policy>>)
    requires machine.Sound()
    requires forall n, i :: 0 <= n < |lives| && 0 <= i < |lives[n]| ==> lives[n][i].Fits(machine.keep)
    modifies machine
    ensures machine.Sound() && IsAccountedFor(old(FootingOf(machine)), FootingOf(machine), SamplesAsked(lives))
  {
    ghost var start := FootingOf(machine);
    for n := 0 to |lives|
      invariant machine.Sound() && IsAccountedFor(start, FootingOf(machine), SamplesAsked(lives))
    {
      Life(machine, lives[n], start, SamplesAsked(lives));
    }
  }

  // ----- The first look of a life

  /** What the first look since start saw; blind: it was before, or may not be acted on. */
  ghost function LookSince(start: Footing, now: Footing, blind: bool): Option<Sight>
    requires |start.journal| <= |now.journal|
  {
    if blind then None else FirstLook(now.journal, |start.journal|)
  }

  /** It saw what there was at start. */
  ghost predicate IsSightAt(start: Footing, look: Option<Sight>) {
    look.Some? ==> look.value == start.Sees(look.value.read)
  }

  /** There was one, of a source that has seen the unit, and none of one that has not, with nothing changed. */
  ghost predicate KnowsLook(start: Footing, now: Footing, blind: bool) {
    && |start.journal| <= |now.journal|
    && (start.seen ==> now.seen)
    && IsSightAt(start, LookSince(start, now, blind))
    && if now.seen then blind || FirstLook(now.journal, |start.journal|).Some?
       else NoLookYet(now.journal, |start.journal|) && now.StandsAs(start)
  }

  /** A pass adds what its first look sees, if that is in it. */
  lemma LookGoesOn(start: Footing, before: Footing, did: Account, dryRun: bool, after: Footing)
    requires var blind := start.seen || dryRun; KnowsLook(start, before, blind) && did.GoesByRead(before, after.journal, dryRun)
    ensures var blind := start.seen || dryRun;
            var (look, next) := (LookSince(start, before, blind), LookSince(start, after, blind));
            && next == (if look.Some? then look else did.sight) && IsSightAt(start, next)
            && (look.Some? ==> before.seen)
            && (after.seen == (before.seen || did.read.found) && (!after.seen ==> after.StandsAs(before)) ==>
                  KnowsLook(start, after, blind))
  {
    if !start.seen && !dryRun {
      FirstLookOnceMore(before.journal, |start.journal|, before.Saw(did.read));
    }
  }

  // ----- One version

  ghost predicate HasFailedOnNewer(look: Option<Sight>) {
    look.Some? && look.value.HasFailedOnNewer()
  }

  /** Of passes since start with no swap to pick up, fromFirst says whether none rolled back a failed unit at a first
      look. */
  ghost predicate IsFromFirst(start: Footing, now: Footing, dryRun: bool, fromFirst: bool) {
    && (start.seen ==> now.seen && fromFirst)
    && (start.state.memory.swapping.None? ==>
          && now.state.memory.swapping.None? && KnowsLook(start, now, start.seen || dryRun)
          && (fromFirst || HasFailedOnNewer(LookSince(start, now, start.seen || dryRun))))
  }

  /** What holds after some passes since start that all want desired, so long as no gate ruled in them: those that
      swapped to it are counted, cut short or not, and, if they are all that was done to it, remembered. */
  ghost predicate IsCounted(start: Footing, now: Footing, desired: Path, fromFirst: bool, crashed: bool) {
    && start.attempts <= now.attempts && |start.state.verdicts| <= |now.state.verdicts| && |start.journal| <= |now.journal|
    && (!crashed && now.attempts > start.attempts ==> now.seen)
    && (|now.state.verdicts| == |start.state.verdicts| ==>
          if crashed then now.attempts - start.attempts <= Decide.MAX_SWAP_FAILURES
          else Tallied(fromFirst, start.state.memory, now.state.memory, desired, now.attempts - start.attempts))
  }

  /** One pass more, if no gate ruled in it. */
  lemma TalliedByPass(did: Account, policy: Policy, before: Footing, after: State, fromFirst: bool, first: UnitMemory, n: nat)
    requires did.IsOf(policy, before, after) && |after.verdicts| == |before.state.verdicts| && (n > 0 ==> before.seen)
    requires policy.desired != "" && before.state.memory == Holding(before.state.memory, policy.desired)
    requires Tallied(fromFirst, first, before.state.memory, policy.desired, n)
    requires did.HasTried() ==> before.state.memory.pinned != policy.desired
    ensures Tallied(fromFirst && did.picked.None? && !did.SawFailure(), first, after.memory, policy.desired,
                    if did.HasTried() then n + 1 else n)
  {
    TriedUngated(did, policy, before, after);
    var still := fromFirst && did.picked.None? && !did.SawFailure();
    if IsStillHeld(did.first.memory, before.state.memory, policy.desired) {
      TalliedOnceMore(still, first, before.state.memory, did.first.memory, after.memory, policy.desired, n, did.HasTried());
    }
  }

  /** A pass more of those. */
  method OnePassOnVersion(source: Source, policy: Policy, ghost start: Footing, ghost fromFirst: bool)
    returns (crashed: bool, ghost still: bool)
    requires source.Valid() && policy.Fits(source.machine.keep)
    requires IsCounted(start, source.FootingFor(policy.desired), policy.desired, fromFirst, false)
    requires IsFromFirst(start, source.FootingFor(policy.desired), source.dryRun, fromFirst)
    modifies source, source.machine
    ensures source.machine.Sound() && (crashed || source.Valid())
    ensures IsCounted(start, source.FootingFor(policy.desired), policy.desired, still, crashed)
    ensures crashed || IsFromFirst(start, source.FootingFor(policy.desired), source.dryRun, still)
  {
    ghost var before := source.FootingFor(policy.desired);
    var outcome, did := source.Once(policy);
    ghost var ended, after := source.Now(), source.FootingFor(policy.desired);
    crashed, still := outcome.Crashed?, fromFirst && did.picked.None? && !did.SawFailure();
    CountedOnceMore(start, before, did, policy, ended, after, fromFirst, crashed);
    if !crashed {
      FromFirstOnceMore(start, before, did, source.dryRun, after, fromFirst);
    }
  }

  lemma FromFirstOnceMore(start: Footing, before: Footing, did: Account, dryRun: bool, after: Footing, fromFirst: bool)
    requires IsFromFirst(start, before, dryRun, fromFirst) && did.GoesByRead(before, after.journal, dryRun)
    requires did.picked.Some? ==> before.state.memory.swapping.Some? && !before.seen
    requires before.seen ==> after.seen
    requires before.state.memory.swapping.None? ==>
               && after.state.memory.swapping.None? && after.seen == (before.seen || did.read.found)
               && (!after.seen ==> after.StandsAs(before))
    ensures IsFromFirst(start, after, dryRun, fromFirst && did.picked.None? && !did.SawFailure())
  {
    if start.state.memory.swapping.None? {
      LookGoesOn(start, before, did, dryRun, after);
    }
  }

  lemma CountedOnceMore(start: Footing, before: Footing, did: Account, policy: Policy, ended: State, after: Footing,
                        fromFirst: bool, crashed: bool)
    requires IsCounted(start, before, policy.desired, fromFirst, false) && policy.desired != ""
    requires before.state.memory == Holding(before.state.memory, policy.desired)
    requires after.state == ended.(memory := Holding(ended.memory, policy.desired), running := "")
    requires |before.journal| <= |after.journal| && |before.state.verdicts| <= |ended.verdicts|
    requires before.attempts <= after.attempts <= before.attempts + 1
    requires before.state.memory.pinned == policy.desired ==> after.attempts == before.attempts
    requires !crashed ==>
               && did.IsOf(policy, before, ended)
               && after.attempts == (if did.HasTried() then before.attempts + 1 else before.attempts)
               && (before.seen || did.HasTried() ==> after.seen)
    ensures IsCounted(start, after, policy.desired, fromFirst && did.picked.None? && !did.SawFailure(), crashed)
  {
    if !crashed && |ended.verdicts| == |start.state.verdicts| {
      var n := before.attempts - start.attempts;
      TalliedByPass(did, policy, before, ended, fromFirst, start.state.memory, n);
      TalliedWhenHeld(fromFirst && did.picked.None? && !did.SawFailure(), start.state.memory, ended.memory, policy.desired,
                      if did.HasTried() then n + 1 else n);
    }
  }

  /** A life of passes that all want the same version, from whatever memory: so long as no gate rules on it, it
      is swapped to MAX_SWAP_FAILURES times at most, and is pinned out by then. With no swap to pick up and no
      failed unit to roll back at a first look, what is remembered in the end is just what that many failures make
      of what was remembered at first, those remembered then counting towards the maximum. */
  method PassesOnOneVersion(source: Source, policies: seq<Policy>, desired: Path) returns (crashed: bool)
    requires source.Valid() && desired != ""
    requires forall i :: 0 <= i < |policies| ==> policies[i].Fits(source.machine.keep) && policies[i].desired == desired
    modifies source, source.machine
    ensures source.machine.Sound() && source.attempts >= old(source.attempts)
    ensures |old(source.machine.journal)| <= |source.machine.journal|
    ensures |source.machine.verdicts| == |old(source.machine.verdicts)| ==>
              var (start, now) := (old(source.FootingFor(desired)), source.FootingFor(desired));
              var n := source.attempts - old(source.attempts);
              var look := LookSince(start, now, start.seen || source.dryRun);
              && n <= Decide.MAX_SWAP_FAILURES
              && (!crashed && n == Decide.MAX_SWAP_FAILURES ==> source.memory.pinned == desired)
              && (!crashed && start.state.memory.swapping.None? ==> IsSightAt(start, look))
              && (!crashed && (start.seen || start.state.memory.swapping.None?)
                  && !HasFailedOnNewer(look) ==>
                    Tallied(true, start.state.memory, now.state.memory, desired, n))
  {
    var machine := source.machine;
    ghost var start := source.FootingFor(desired);
    var i := 0;
    crashed := false;
    ghost var fromFirst := true;
    while i < |policies| && !crashed
      invariant 0 <= i <= |policies| && source.machine == machine
      invariant machine.Sound() && (crashed || source.Valid())
      invariant IsCounted(start, source.FootingFor(desired), desired, fromFirst, crashed)
      invariant crashed || IsFromFirst(start, source.FootingFor(desired), source.dryRun, fromFirst)
    {
      crashed, fromFirst := OnePassOnVersion(source, policies[i], start, fromFirst);
      i := i + 1;
    }
  }

  // ----- A version pinned out

  /** No swap recorded or tried, no generation made, and nothing restarted but failed units, between two moments. */
  ghost predicate NothingTried(start: Footing, now: Footing) {
    var (before, after) := (start.state.restarts, now.state.restarts);
    && now.past.begun == start.past.begun
    && now.state.profile.generations.Keys <= start.state.profile.generations.Keys
    && |before| <= |after| && after[..|before|] == before
    && forall i :: |before| <= i < |after| ==> after[i].FailedOn?
  }

  /** A first look that takes a pin: at a unit failed on another version than desired, in a newer generation than the
      good one. */
  ghost predicate LosesPin(look: Option<Sight>, desired: Path) {
    look.Some? && look.value.LosesPin(desired)
  }

  /** What holds after some passes since start, when desired was pinned out, that all want it: it is exactly unless a
      first look took the pin. */
  ghost predicate IsPinned(start: Footing, now: Footing, dryRun: bool, desired: Path, crashed: bool) {
    && NothingTried(start, now) && now.attempts == start.attempts && start.journal <= now.journal
    && var look := LookSince(start, now, start.seen || dryRun);
    && IsSightAt(start, look)
    && (!crashed ==>
          && KnowsLook(start, now, start.seen || dryRun)
          && (now.state.memory.pinned == desired <==> !LosesPin(look, desired)))
    && (start.disk.pinned == desired && !LosesPin(look, desired) ==> now.disk.pinned == desired)
  }

  /** A pass more of those. */
  method PassWhilePinned(source: Source, policy: Policy, ghost start: Footing) returns (crashed: bool)
    requires source.Valid() && policy.Fits(source.machine.keep) && source.memory.pinned == policy.desired
    requires IsPinned(start, source.FootingFor(policy.desired), source.dryRun, policy.desired, false)
    modifies source, source.machine
    ensures source.machine.Sound() && (crashed || source.Valid())
    ensures IsPinned(start, source.FootingFor(policy.desired), source.dryRun, policy.desired, crashed)
  {
    ghost var before := source.FootingFor(policy.desired);
    var outcome, did := source.Once(policy);
    crashed := outcome.Crashed?;
    ghost var after := source.FootingFor(policy.desired);
    if !crashed {
      PinAfter(did, policy, before, source.Now());
    }
    PinnedOnceMore(start, before, did, policy, source.dryRun, after, crashed);
  }

  lemma PinnedOnceMore(start: Footing, before: Footing, did: Account, policy: Policy, dryRun: bool, after: Footing,
                       crashed: bool)
    requires IsPinned(start, before, dryRun, policy.desired, false) && before.state.memory.pinned == policy.desired
    requires IsCareful(policy, dryRun, before, after)
    requires IsPinKept(before, after.disk, policy.desired, did.LosesPin(policy.desired))
    requires did.GoesByRead(before, after.journal, dryRun)
    requires !crashed ==>
               && (after.state.memory.pinned == policy.desired <==> !did.LosesPin(policy.desired))
               && after.seen == (before.seen || did.read.found) && (!after.seen ==> after.StandsAs(before))
    ensures IsPinned(start, after, dryRun, policy.desired, crashed)
  {
    LookGoesOn(start, before, did, dryRun, after);
  }

  /** A life of passes that all want a version that is pinned out, until it is not: nothing new is tried, and it stays
      pinned out exactly unless the first look of that life takes the pin. */
  method PinnedLife(source: Source, policies: seq<Policy>, desired: Path) returns (crashed: bool)
    requires source.Valid() && desired != "" && source.memory.pinned == desired
    requires forall i :: 0 <= i < |policies| ==> policies[i].Fits(source.machine.keep) && policies[i].desired == desired
    modifies source, source.machine
    ensures source.machine.Sound() && source.attempts == old(source.attempts)
    ensures old(source.machine.journal) <= source.machine.journal
    ensures var (start, now) := (old(source.FootingFor(desired)), source.FootingFor(desired));
            var look := LookSince(start, now, start.seen || source.dryRun);
            var lost := LosesPin(look, desired);
            && NothingTried(start, now) && IsSightAt(start, look)
            && (!crashed ==> (source.memory.pinned == desired <==> !lost))
            && (old(source.machine.disk.pinned) == desired && !lost ==> source.machine.disk.pinned == desired)
  {
    var machine := source.machine;
    ghost var start := source.FootingFor(desired);
    var i := 0;
    crashed := false;
    while i < |policies| && !crashed && source.memory.pinned == desired
      invariant 0 <= i <= |policies| && source.machine == machine
      invariant machine.Sound() && (crashed || source.Valid())
      invariant IsPinned(start, source.FootingFor(desired), source.dryRun, desired, crashed)
    {
      crashed := PassWhilePinned(source, policies[i], start);
      i := i + 1;
    }
  }

  /** The first look of a life that started since somewhere in a journal took the pin. */
  ghost predicate TookPin(journal: seq<Entry>, from: nat, desired: Path) {
    exists i :: from <= i < |journal| && journal[i].Started? && LosesPin(FirstLook(journal, i + 1), desired)
  }

  /** What holds after some lives since start, when desired was pinned out, that all want it, each up to a first look
      that takes the pin. */
  ghost predicate IsPinnedOut(start: Footing, machine: Machine, desired: Path)
    reads machine
  {
    && NothingTried(start, FootingOf(machine)) && start.journal <= machine.journal
    && (machine.disk.pinned == desired || TookPin(machine.journal, |start.journal|, desired))
  }

  /** A life more of those. */
  method LifeWhilePinned(machine: Machine, policies: seq<Policy>, desired: Path, ghost start: Footing)
    requires machine.Sound() && desired != "" && machine.disk.pinned == desired && IsPinnedOut(start, machine, desired)
    requires forall i :: 0 <= i < |policies| ==> policies[i].Fits(machine.keep) && policies[i].desired == desired
    modifies machine
    ensures machine.Sound() && IsPinnedOut(start, machine, desired)
  {
    ghost var before := FootingOf(machine);
    var source := new Source(machine, false);
    ghost var born := source.FootingFor(desired);
    var _ := PinnedLife(source, policies, desired);
    assert machine.journal[|before.journal|] == Started;
    NothingTriedTwice(start, born, FootingOf(machine));
  }

  /** And so over any number of lives and crashes: nothing new is tried until the first look of some life takes the
      pin, and the version is still pinned out on disk if none did. */
  method PinnedLives(machine: Machine, lives: seq<seq<Policy>>, desired: Path)
    requires machine.Sound() && desired != "" && machine.disk.pinned == desired
    requires forall n, i :: 0 <= n < |lives| && 0 <= i < |lives[n]| ==>
                              lives[n][i].Fits(machine.keep) && lives[n][i].desired == desired
    modifies machine
    ensures machine.Sound() && NothingTried(old(FootingOf(machine)), FootingOf(machine))
    ensures old(machine.journal) <= machine.journal
    ensures machine.disk.pinned == desired || TookPin(machine.journal, |old(machine.journal)|, desired)
  {
    ghost var start := FootingOf(machine);
    var n := 0;
    while n < |lives| && machine.disk.pinned == desired
      invariant 0 <= n <= |lives| && machine.Sound() && IsPinnedOut(start, machine, desired)
    {
      LifeWhilePinned(machine, lives[n], desired, start);
      n := n + 1;
    }
  }

  lemma NothingTriedTwice(start: Footing, middle: Footing, end: Footing)
    requires NothingTried(start, middle) && NothingTried(middle, end)
    ensures NothingTried(start, end)
  {
    var restarts := end.state.restarts;
    assert restarts[..|middle.state.restarts|][..|start.state.restarts|] == restarts[..|start.state.restarts|];
  }
}
