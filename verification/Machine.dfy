/** The machine the systemd source works on: the state file, the Nix profile, the closure drop-in and
    the unit. Everything here outlives Tidewaiter.

    Each method is one outside call. Tidewaiter may die with any of them, before or after the call took
    effect, and any of them but a read may be refused. What the machine promises at every such moment is
    Sound. */
module Machines {
  import opened Wrappers
  import opened Profiles
  import opened Memory

  datatype Active = Active | Reloading | Activating | Deactivating | Inactive | Failed

  /** What is read of a unit. Every start, automatic ones included, has a newer invocation. */
  datatype UnitState = UnitState(found: bool, active: Active, invocation: nat) {
    predicate IsUp() {
      active.Active? || active.Reloading?
    }

    predicate IsStopped() {
      active.Inactive? || active.Failed?
    }
  }

  datatype JobResult = Done | Canceled | Timeout | JobFailed | Dependency | Skipped

  /** A restart ended as its job did, or its end (perhaps even its queueing) was never heard of. */
  datatype Restarted = Ended(job: JobResult) | Lost

  /** One look at who is on the unit: by a pass, by an activity tick, or the last one before a swap. A
      pass's look is idle only at a unit that is up. */
  datatype Occasion = Pass | Tick | Last

  datatype Look = Look(occasion: Occasion, idle: bool)

  /** Some looks, the last of them on top. */
  datatype Looks = NoneYet | Then(earlier: Looks, last: Look)

  /** The length of the run of idle pass samples that ends some looks. Ticks do not count either way; a busy
      last look ends the run. */
  ghost function TrailingIdle(looks: Looks): nat {
    match looks
    case NoneYet => 0
    case Then(earlier, look) =>
      match look.occasion
      case Pass => if look.idle then TrailingIdle(earlier) + 1 else 0
      case Tick => TrailingIdle(earlier)
      case Last => if look.idle then TrailingIdle(earlier) else 0
  }

  /** Nobody was on the unit for so many passes running, nor at the last look, which was the last one. */
  ghost predicate IdleFor(looks: Looks, samples: nat) {
    looks.Then? && looks.last == Look(Last, true) && TrailingIdle(looks) >= samples
  }

  /** Why a unit was restarted: for a swap that wants so many idle samples, to take back a swap its gate
      rejected, to take back one after which the unit had restarted, or for having failed. */
  datatype Cause = Swap(idleSamples: nat) | Rejected | MovedOn | FailedOn

  /** What this life of Tidewaiter knows besides its looks: the last read of the unit, the generation the
      profile was on then, and how the last restart ended, if that was heard, and was judged. */
  datatype Findings = Findings(read: UnitState, generation: nat, job: Option<JobResult>, judged: Option<bool>)

  /** What was known when a unit was restarted, what the disk said, and whether the unit was held. */
  datatype Evidence = Evidence(looks: Looks, found: Findings, disk: UnitMemory, held: bool)

  /** A unit failed on a generation newer than the good one. */
  predicate FailedOnNewer(read: UnitState, good: nat, generation: nat) {
    read.active.Failed? && 0 < good < generation
  }

  /** A restart has a reason, and the unit is held. For a swap, which is on record, nobody was on the unit,
      which was up, for so many passes running, nor at a last look. A restart that takes a swap back comes
      after one whose job ended, at a gate that said no, or with the unit's invocation moved on from the one
      the swap on record began with. Otherwise no swap is on record, and the unit was found failed on a
      generation newer than the good one. */
  ghost predicate Justified(cause: Cause, known: Evidence) {
    known.held &&
    match cause
    case Swap(idleSamples) =>
      && IdleFor(known.looks, idleSamples)
      && known.found.read.IsUp()
      && known.disk.swapping.Some? && known.disk.swapping.value.invocation == known.found.read.invocation
    case Rejected => known.found.job.Some? && known.found.judged == Some(false) && known.disk.swapping.Some?
    case MovedOn => known.disk.swapping.Some? && known.disk.swapping.value.invocation != known.found.read.invocation
    case FailedOn =>
      known.disk.swapping.None? && FailedOnNewer(known.found.read, known.disk.good, known.found.generation)
  }

  /** What a first look may have to go back to is there: the generation a swap on record left or, without one, the
      good one, if there is one. */
  ghost predicate HasWayBack(memory: UnitMemory, profile: Profile) {
    match memory.swapping
    case Some(record) => record.from in profile.generations
    case None => memory.good == 0 || memory.good in profile.generations
  }

  /** What there was at a read of the unit: its state, the good generation on disk, the generation the profile was
      on and its target, and whether there was a way back. */
  datatype Sight = Sight(read: UnitState, good: nat, generation: nat, target: Path, wayBack: bool) {
    /** Something went wrong and nobody cleaned up: a first look that finds no swap on record rolls the unit back,
        and pins out the version it failed on. */
    predicate HasFailedOnNewer() {
      FailedOnNewer(read, good, generation)
    }

    /** A pin on another version than the one it failed on is overwritten then. */
    predicate LosesPin(desired: Path) {
      HasFailedOnNewer() && target != desired
    }
  }

  ghost function SightOf(read: UnitState, disk: UnitMemory, profile: Profile): Sight {
    Sight(read, disk.good, profile.current, profile.Target(profile.current), HasWayBack(disk, profile))
  }

  /** Tidewaiter started, or a pass of it first read the unit, which was the nth read of it in all. */
  datatype Entry = Started | Saw(sight: Sight, nth: nat) {
    predicate HasFound() {
      Saw? && sight.read.found
    }
  }

  /** What the first look at the unit saw, in the life of Tidewaiter that goes on from somewhere in a journal: the
      first that a pass found the unit with. */
  ghost function FirstLook(journal: seq<Entry>, from: nat): Option<Sight>
    requires from <= |journal|
    decreases |journal| - from
  {
    if from == |journal| then None
    else match journal[from]
         case Started => None
         case Saw(sight, _) => if sight.read.found then Some(sight) else FirstLook(journal, from + 1)
  }

  /** There was no such look in that life, which goes on. */
  ghost predicate NoLookYet(journal: seq<Entry>, from: nat) {
    from <= |journal| && forall i :: from <= i < |journal| ==> journal[i].Saw? && !journal[i].HasFound()
  }

  /** A read by one more pass. */
  lemma {:induction false} FirstLookOnceMore(journal: seq<Entry>, from: nat, entry: Entry)
    requires from <= |journal| && entry.Saw?
    requires FirstLook(journal, from).Some? || NoLookYet(journal, from)
    ensures FirstLook(journal + [entry], from) ==
            if FirstLook(journal, from).Some? then FirstLook(journal, from)
            else if entry.HasFound() then Some(entry.sight) else None
    ensures NoLookYet(journal, from) ==> FirstLook(journal, from).None?
    decreases |journal| - from
  {
    if from < |journal| && !journal[from].HasFound() {
      FirstLookOnceMore(journal, from + 1, entry);
    }
  }

  ghost predicate AllJustified(restarts: seq<Cause>, evidence: seq<Evidence>) {
    && |restarts| == |evidence|
    && forall i :: 0 <= i < |restarts| ==> Justified(restarts[i], evidence[i])
  }

  lemma OneMoreJustified(restarts: seq<Cause>, evidence: seq<Evidence>, cause: Cause, known: Evidence)
    requires AllJustified(restarts, evidence) && Justified(cause, known)
    ensures AllJustified(restarts + [cause], evidence + [known])
  {
  }

  /** What became of things since a swap was last recorded: how many ever were, how many generations were
      newer than the one it left, and how many newer than the good one, whether old generations were pruned
      since, and whether it is over but saying so was refused. safe: no save was ever refused, and every swap
      ever recorded left a generation and had fewer newer than the good one than every pruning keeps. */
  datatype Past = Past(begun: nat, newer: nat, behind: nat, pruned: bool, stale: bool, safe: bool)

  /** What a memory may say, whatever the moment: its good generation is not an ungated one, nor newer than
      the one that is, or was before the swap on record, the profile's. */
  ghost predicate Trustworthy(memory: UnitMemory, profile: Profile, ungated: set<nat>, past: Past, keep: nat) {
    && memory.good !in ungated
    && memory.good <= (if memory.swapping.Some? then memory.swapping.value.from else profile.current)
    && OnRecord(memory.swapping, profile, ungated, past, keep)
  }

  /** Without a swap record the profile is not on an ungated generation. With one, the generation the swap
      left leads to its target, and the profile is on that generation or on the target the swap was going
      to. The generation the swap left is still there, to be put back to, until old ones are pruned; and
      after that too if what every pruning keeps, keep, is more than was newer when the swap began. */
  ghost predicate OnRecord(swapping: Option<SwapRecord>, profile: Profile, ungated: set<nat>, past: Past, keep: nat) {
    match swapping
    case None => profile.current !in ungated
    case Some(record) =>
      && record.from <= profile.current
      && record.from !in ungated
      && (record.from == 0 ==> record.fromTarget == "" && profile.current !in ungated)
      && (record.from in profile.generations ==> profile.Target(record.from) == record.fromTarget)
      && (record.from != 0 && (!past.pruned || (past.newer < keep && !past.stale)) ==> record.from in profile.generations)
      && (|| past.stale
          || profile.current == record.from
          || (profile.Target(profile.current) == record.to && profile.Newer(record.from) <= past.newer + 1))
  }

  /** In a safe past, the good generation is there. It is not pruned when a swap, after it set the profile,
      comes to that: what is newer than it then is one more than was when the swap began. */
  ghost predicate IsSafe(disk: UnitMemory, profile: Profile, past: Past, keep: nat) {
    past.safe ==>
      && !past.stale
      && (disk.good == 0 || disk.good in profile.generations)
      && (disk.swapping.Some? ==>
            && disk.swapping.value.from != 0 && past.newer < keep && past.behind < keep
            && (|| profile.current == disk.swapping.value.from
                || disk.good == 0 || profile.Newer(disk.good) <= past.behind + 1))
  }

  /** A swap, which began with this profile, sets it; or a stopped unit's is set with no swap on record. */
  lemma SetIsSafe(disk: UnitMemory, profile: Profile, past: Past, keep: nat, next: nat, target: Path)
    requires IsSafe(disk, profile, past, keep) && profile.IsNext(next) && disk.good < next
    requires past.safe && disk.swapping.Some? && disk.good != 0 ==> profile.Newer(disk.good) <= past.behind
    ensures IsSafe(disk, profile.With(next, target), past, keep)
  {
    NewerOnceSet(profile, next, target, disk.good);
  }

  /** A profile may be switched to generation while a memory says what it does. */
  ghost predicate MayStandOn(memory: UnitMemory, generation: nat, ungated: set<nat>) {
    match memory.swapping
    case None => generation !in ungated && memory.good <= generation
    case Some(record) => generation == record.from
  }

  /** A person was asked for only because something was refused, or for a profile the swap itself created. */
  ghost predicate IsAskedForReason(before: bool, after: bool, refusalsBefore: nat, refusalsAfter: nat, previous: nat) {
    after && !before ==> refusalsAfter > refusalsBefore || previous == 0
  }

  /** What a machine only ever changes in some ways: its disk, past, current generation and whether it is stranded, and
      how many verdicts and refusals there were. */
  datatype Marks = Marks(disk: UnitMemory, past: Past, current: nat, stranded: bool, verdicts: nat, refusals: nat) {
    /** What is counted only grows, a person who was asked for is not called off, and a profile stays one. */
    ghost predicate GoOnTo(next: Marks) {
      && refusals <= next.refusals && verdicts <= next.verdicts
      && (stranded ==> next.stranded)
      && (current != 0 ==> next.current != 0)
    }

    /** And a record on disk stays until it is over or another takes its place, and is stale only where a save was
        refused; and until another does, a past stays safe where nothing was refused. */
    ghost predicate LeadTo(next: Marks) {
      && GoOnTo(next)
      && (next.past.stale ==> past.stale || refusals < next.refusals)
      && (next.past.safe ==> past.safe)
      && (past.safe ==> next.past.safe || refusals < next.refusals || past.begun < next.past.begun)
      && past.begun <= next.past.begun
      && (next.past.begun == past.begun ==>
            && next.past.newer == past.newer && next.past.behind == past.behind
            && (next.disk.swapping.None? || next.disk.swapping == disk.swapping))
    }
  }

  class Machine {
    // The unit's entry in the state file.
    var disk: UnitMemory
    var profile: Profile
    // Where the closure drop-in leads, and where the one systemd last loaded did.
    var dropIn: Path
    var loaded: Path
    var unit: UnitState
    // What the unit's present invocation was started on: where the profile led at the time.
    var running: Path
    // The unit is held against an automatic reboot for the rest of the pass.
    var held: bool
    // A rollback or an undo could not be carried through, and a person was asked for.
    var stranded: bool

    // No pruning ever keeps fewer generations than this; nothing is said of it by 0.
    ghost const keep: nat
    // The generations a recorded swap of an existing profile made that no gate has found healthy.
    ghost var ungated: set<nat>
    ghost var past: Past
    // Every look of this life of Tidewaiter, and what else it found.
    ghost var looks: Looks
    ghost var found: Findings
    // Every start of Tidewaiter there ever was, and what every pass first read of the unit.
    ghost var journal: seq<Entry>
    // How often the unit was read at all.
    ghost var readings: nat
    // Every restart there ever was, and what was known at each.
    ghost var restarts: seq<Cause>
    ghost var evidence: seq<Evidence>
    // What every gate said.
    ghost var verdicts: seq<bool>
    // How many deletions of a generation, and how many calls in all, were refused.
    ghost var undeleted: nat
    ghost var refusals: nat

    ghost function Known(): Evidence
      reads this`looks, this`found, this`disk, this`held
    {
      Evidence(looks, found, disk, held)
    }

    ghost predicate Keeps(memory: UnitMemory)
      reads this`profile, this`ungated, this`past
    {
      Trustworthy(memory, profile, ungated, past, keep)
    }

    ghost predicate Sound()
      reads this`profile, this`ungated, this`past, this`restarts, this`evidence, this`stranded, this`disk
    {
      && profile.Valid()
      && ungated <= profile.generations.Keys
      && AllJustified(restarts, evidence)
      && disk.IsConsistent()
      && (past.stale ==> disk.swapping.Some?)
      && (stranded || (Keeps(disk) && IsSafe(disk, profile, past, keep)))
    }

    /** To the generation a swap on record left or, without one, to the good one. */
    ghost predicate MaySwitchTo(generation: nat)
      reads this`ungated, this`stranded, this`disk
    {
      stranded || (MayStandOn(disk, generation, ungated) && (disk.swapping.None? ==> generation == disk.good))
    }

    ghost function MarksNow(): Marks
      reads this`disk, this`past, this`profile, this`stranded, this`verdicts, this`refusals
    {
      Marks(disk, past, profile.current, stranded, |verdicts|, refusals)
    }

    /** Enough for whatever leaves the disk and the past alone. */
    twostate predicate GoesOn()
      reads this`disk, this`past, this`profile, this`stranded, this`verdicts, this`refusals
    {
      old(MarksNow()).GoOnTo(MarksNow())
    }

    twostate predicate Onward()
      reads this`disk, this`past, this`profile, this`stranded, this`verdicts, this`refusals
    {
      old(MarksNow()).LeadTo(MarksNow())
    }

    /** What there is to be seen. */
    ghost function SightNow(): Sight
      reads this`unit, this`disk, this`profile
    {
      SightOf(unit, disk, profile)
    }

    twostate predicate AskedForReason(previous: nat)
      reads this
    {
      IsAskedForReason(old(stranded), stranded, old(refusals), refusals, previous)
    }

    /** Nothing of the profile changed since an earlier state. */
    twostate predicate ProfileUnchanged()
      reads this
    {
      profile == old(profile) && ungated == old(ungated)
    }

    constructor (profile: Profile, unit: UnitState, ghost keep: nat)
      requires profile.Valid()
      ensures Sound() && this.profile == profile && this.keep == keep && !stranded
    {
      disk := UnitMemory("", "", 0, 0, None);
      this.profile := profile;
      dropIn, loaded := "", "";
      this.unit, running := unit, "";
      held, stranded := false, false;
      this.keep := keep;
      ungated, past := {}, Past(0, 0, 0, false, false, true);
      looks, found, journal, readings := NoneYet, Findings(unit, profile.current, None, None), [], 0;
      restarts, evidence, verdicts, undeleted, refusals := [], [], [], 0, 0;
    }

    /** Tidewaiter starts: it has seen nothing yet, and holds nothing. */
    method Start()
      modifies this`looks, this`held, this`found, this`journal
      ensures looks.NoneYet? && !held && journal == old(journal) + [Started]
    {
      looks, held, found, journal := NoneYet, false, found.(job := None, judged := None), journal + [Started];
    }

    method Hold()
      modifies this`held
      ensures held
    {
      held := true;
    }

    /** A swap that is not the one on disk. */
    ghost predicate IsNew(memory: UnitMemory)
      reads this`disk
    {
      memory.swapping.Some? && memory.swapping != disk.swapping
    }

    /** The past once a memory is on disk. */
    ghost function PastWith(memory: UnitMemory): Past
      reads this`disk, this`past, this`profile
    {
      if IsNew(memory) then
        var behind := profile.Newer(if memory.good == 0 then profile.current else memory.good);
        Past(past.begun + 1, profile.Newer(profile.current), behind, false, false,
             past.safe && memory.swapping.value.from != 0 && behind < keep)
      else if memory.swapping == disk.swapping then past
      else past.(pruned := false, stale := false)
    }

    /** The state file replaced. */
    method Replace(memory: UnitMemory)
      requires Sound() && memory.IsConsistent() && (stranded || Keeps(memory))
      requires !stranded && IsNew(memory) ==>
                 var record := memory.swapping.value;
                 && profile.current == record.from
                 && (record.from != 0 ==> record.from in profile.generations)
      requires stranded || !past.safe || memory.good == 0 || memory.good == disk.good || memory.good == profile.current
      modifies this`disk, this`past
      ensures Sound() && Onward()
      ensures disk == memory && past == old(PastWith(memory))
    {
      if memory.good != 0 {
        NewerThanOlder(profile, memory.good, profile.current);
      }
      past := PastWith(memory);
      disk := memory;
    }

    /** The state file is replaced whole, or not at all. */
    method Save(memory: UnitMemory) returns (r: Ran<bool>)
      requires Sound() && memory.IsConsistent() && (stranded || Keeps(memory))
      requires !stranded && IsNew(memory) ==>
                 var record := memory.swapping.value;
                 && profile.current == record.from
                 && (record.from != 0 ==> record.from in profile.generations)
      requires stranded || !past.safe || memory.good == 0 || memory.good == disk.good || memory.good == profile.current
      modifies this`disk, this`past, this`refusals
      ensures Sound() && Onward()
      ensures r.Ran? && r.value ==> disk == memory && past == old(PastWith(memory)) && refusals == old(refusals)
      ensures r.Ran? && !r.value ==>
                && disk == old(disk) && refusals == old(refusals) + 1
                && past == old(past).(stale := old(past).stale || (disk.swapping.Some? && memory.swapping != disk.swapping),
                                      safe := false)
      ensures r.Crashed? ==>
                && refusals == old(refusals)
                && ((disk == old(disk) && past == old(past)) || (disk == memory && past == old(PastWith(memory))))
    {
      if * { return Crashed; }
      if * {
        refusals := refusals + 1;
        past := past.(stale := past.stale || (disk.swapping.Some? && memory.swapping != disk.swapping), safe := false);
        return Ran(false);
      }
      Replace(memory);
      if * { return Crashed; }
      return Ran(true);
    }

    /** What the unit may have done since it was last looked at: stopped, failed, come back up. */
    method Poll()
      modifies this`unit, this`running
      ensures old(unit).invocation <= unit.invocation
      ensures running == if unit.invocation == old(unit).invocation then old(running) else profile.Target(profile.current)
    {
      var passed: nat :| passed >= 0;
      var found: bool := *;
      var active: Active := *;
      unit := UnitState(found, active, unit.invocation + passed);
      running := if passed == 0 then running else profile.Target(profile.current);
    }

    /** A read of the unit. */
    method Unit() returns (state: UnitState)
      modifies this`unit, this`running, this`found, this`readings
      ensures GoesOn()
      ensures state == unit && found == old(found).(read := unit, generation := profile.current)
      ensures readings == old(readings) + 1
      ensures old(unit).invocation <= unit.invocation
      ensures running == if unit.invocation == old(unit).invocation then old(running) else profile.Target(profile.current)
    {
      Poll();
      state, found, readings := unit, found.(read := unit, generation := profile.current), readings + 1;
    }

    /** The first read of the unit in a pass, which holds nothing yet. */
    method FirstRead() returns (state: UnitState)
      modifies this`unit, this`running, this`held, this`found, this`readings, this`journal
      ensures GoesOn()
      ensures !held && state == unit && found == old(found).(read := unit, generation := profile.current)
      ensures readings == old(readings) + 1 && journal == old(journal) + [Saw(SightNow(), readings)]
    {
      state := Unit();
      held, journal := false, journal + [Saw(SightNow(), readings)];
    }

    /** A sample of the unit's activity; one that cannot tell is busy. */
    method Busy(ghost occasion: Occasion) returns (busy: bool)
      modifies this`looks
      ensures looks == Then(old(looks), Look(occasion, !busy && (occasion.Pass? ==> found.read.IsUp())))
    {
      busy := *;
      looks := Then(looks, Look(occasion, !busy && (occasion.Pass? ==> found.read.IsUp())));
    }

    method Bind(target: Path) returns (r: Ran<bool>)
      requires Sound()
      modifies this`dropIn, this`refusals
      ensures Sound() && GoesOn()
      ensures r.Ran? && r.value ==> dropIn == target && refusals == old(refusals)
      ensures r.Ran? && !r.value ==> dropIn == old(dropIn) && refusals == old(refusals) + 1
    {
      if * { return Crashed; }
      if * {
        refusals := refusals + 1;
        return Ran(false);
      }
      dropIn := target;
      if * { return Crashed; }
      return Ran(true);
    }

    method DaemonReload() returns (r: Ran<bool>)
      requires Sound()
      modifies this`loaded, this`refusals
      ensures Sound() && GoesOn()
      ensures r.Ran? && r.value ==> loaded == dropIn && refusals == old(refusals)
      ensures r.Ran? && !r.value ==> loaded == old(loaded) && refusals == old(refusals) + 1
    {
      if * { return Crashed; }
      if * {
        refusals := refusals + 1;
        return Ran(false);
      }
      loaded := dropIn;
      if * { return Crashed; }
      return Ran(true);
    }

    /** `nix-env --set`. recorded: by a swap, as against the move of a stopped unit's profile. */
    method Set(target: Path, ghost recorded: bool) returns (r: Ran<bool>)
      requires Sound() && target != ""
      requires stranded || past.stale || disk.swapping.Some? == recorded
      requires recorded && !stranded ==>
                 && disk.swapping.Some? && disk.swapping.value.to == target && disk.swapping.value.from == profile.current
                 && (past.stale || profile.Newer(profile.current) <= past.newer)
                 && (!past.safe || disk.good == 0 || profile.Newer(disk.good) <= past.behind)
      modifies this`profile, this`ungated, this`refusals
      ensures Sound() && GoesOn()
      ensures r.Ran? && r.value ==>
                && old(profile).IsNext(profile.current)
                && profile == old(profile).With(profile.current, target)
                && profile.Valid()
                && ungated == (if recorded && old(profile).current != 0 then old(ungated) + {profile.current} else old(ungated))
                && (profile.current in ungated <==> recorded && old(profile).current != 0)
                && refusals == old(refusals)
      ensures r.Ran? && !r.value ==> ProfileUnchanged() && refusals == old(refusals) + 1
    {
      if * { return Crashed; }
      if * {
        refusals := refusals + 1;
        return Ran(false);
      }
      var next := NextGeneration(profile);
      if disk.swapping.Some? && disk.swapping.value.from < next {
        NewerOnceSet(profile, next, target, disk.swapping.value.from);
      }
      if !stranded {
        SetIsSafe(disk, profile, past, keep, next, target);
      }
      ungated := if recorded && profile.current != 0 then ungated + {next} else ungated;
      profile := profile.With(next, target);
      if * { return Crashed; }
      return Ran(true);
    }

    /** It cannot be done for a generation that does not exist, whatever is refused. */
    method Switch(generation: nat) returns (r: Ran<bool>)
      requires Sound() && generation != 0 && MaySwitchTo(generation)
      modifies this`profile, this`refusals
      ensures Sound() && GoesOn() && profile.generations == old(profile).generations
      ensures r.Ran? && r.value ==>
                && generation in profile.generations
                && profile == old(profile).(current := generation)
                && refusals == old(refusals)
      ensures r.Ran? && !r.value ==>
                && profile == old(profile)
                && refusals == old(refusals) + (if generation in profile.generations then 1 else 0)
    {
      if * { return Crashed; }
      if generation !in profile.generations {
        return Ran(false);
      }
      if * {
        refusals := refusals + 1;
        return Ran(false);
      }
      profile := profile.(current := generation);
      if * { return Crashed; }
      return Ran(true);
    }

    method Delete(generation: nat) returns (r: Ran<bool>)
      requires Sound()
      requires stranded || disk.swapping.None? || disk.swapping.value.from != generation
      requires stranded || disk.good != generation
      modifies this`profile, this`ungated, this`undeleted, this`refusals
      ensures Sound() && GoesOn()
      ensures ungated <= old(ungated) && profile.generations.Keys <= old(profile).generations.Keys
      ensures r.Ran? && r.value ==>
                && profile == old(profile).Without(generation)
                && ungated == (if generation == profile.current then old(ungated) else old(ungated) - {generation})
                && undeleted == old(undeleted) && refusals == old(refusals)
      ensures r.Ran? && !r.value ==> ProfileUnchanged() && undeleted == old(undeleted) + 1 && refusals == old(refusals) + 1
    {
      if * { return Crashed; }
      if * {
        undeleted, refusals := undeleted + 1, refusals + 1;
        return Ran(false);
      }
      if disk.swapping.Some? {
        NewerOnceSmaller(profile, profile.Without(generation), disk.swapping.value.from);
      }
      NewerOnceSmaller(profile, profile.Without(generation), disk.good);
      ungated := if generation == profile.current then ungated else ungated - {generation};
      profile := profile.Without(generation);
      if * { return Crashed; }
      return Ran(true);
    }

    /** Old generations are only pruned once a swap on record has set the profile. */
    ghost predicate MayPrune()
      reads this`profile, this`past, this`stranded, this`disk
    {
      stranded || !past.safe || (disk.swapping.Some? && profile.current != disk.swapping.value.from)
    }

    method Prune(keeping: nat) returns (r: Ran<bool>)
      requires Sound() && keeping >= keep
      requires MayPrune()
      modifies this`profile, this`ungated, this`past, this`refusals
      ensures Sound() && Onward()
      ensures past == old(past) || past == old(past).(pruned := true)
      ensures profile.generations.Keys <= old(profile).generations.Keys
      ensures r.Ran? && r.value ==>
                && profile == old(profile).Pruned(keeping)
                && ungated == old(ungated) * profile.generations.Keys
                && refusals == old(refusals)
      ensures r.Ran? && !r.value ==> ProfileUnchanged() && refusals == old(refusals) + 1
    {
      if * { return Crashed; }
      if * {
        refusals := refusals + 1;
        return Ran(false);
      }
      if disk.swapping.Some? {
        NewerOnceSmaller(profile, profile.Pruned(keeping), disk.swapping.value.from);
      }
      NewerOnceSmaller(profile, profile.Pruned(keeping), disk.good);
      past := past.(pruned := true);
      profile := profile.Pruned(keeping);
      ungated := ungated * profile.generations.Keys;
      if * { return Crashed; }
      return Ran(true);
    }

    /** What a restart does to the unit: one whose job ended done has happened, any other may have. */
    method Restarts() returns (restarted: Restarted)
      modifies this`unit, this`running
      ensures old(unit).invocation <= unit.invocation
      ensures running == if unit.invocation == old(unit).invocation then old(running) else profile.Target(profile.current)
      ensures restarted == Ended(Done) ==> old(unit).invocation < unit.invocation
    {
      var passed: nat :| passed >= 0;
      var active: Active := *;
      restarted := *;
      passed := if restarted == Ended(Done) then passed + 1 else passed;
      unit := UnitState(unit.found, active, unit.invocation + passed);
      running := if passed == 0 then running else profile.Target(profile.current);
    }

    /** A restart is made, for a reason in what is known. */
    ghost method Note(cause: Cause)
      requires Sound() && Justified(cause, Known())
      modifies this`restarts, this`evidence, this`found
      ensures Sound() && restarts == old(restarts) + [cause] && evidence == old(evidence) + [old(Known())]
      ensures found == old(found).(job := None, judged := None)
    {
      OneMoreJustified(restarts, evidence, cause, Known());
      restarts, evidence := restarts + [cause], evidence + [Known()];
      found := found.(job := None, judged := None);
    }

    /** RestartUnit and the wait for its job. It needs a reason, in what is known, and, for a unit with its
        closure bound, the drop-in in force to be the one of the version it is restarted onto. A restart
        that is lost may have happened all the same; a job that ended done has. */
    method Restart(ghost cause: Cause, ghost bound: bool) returns (r: Ran<Restarted>)
      requires Sound() && Justified(cause, Known())
      requires bound && !stranded ==> loaded == profile.Target(profile.current)
      modifies this`unit, this`running, this`restarts, this`evidence, this`found, this`refusals
      ensures Sound() && GoesOn()
      ensures found.read == old(found).read && found.generation == old(found).generation
      ensures || (restarts == old(restarts) && evidence == old(evidence))
              || (restarts == old(restarts) + [cause] && evidence == old(evidence) + [old(Known())])
      ensures r.Ran? ==>
                && restarts == old(restarts) + [cause]
                && refusals == old(refusals) + (if r.value.Lost? then 1 else 0)
                && found == old(found).(job := if r.value.Lost? then None else Some(r.value.job), judged := None)
      ensures r.Ran? && r.value == Ended(Done) ==>
                old(unit).invocation < unit.invocation && running == profile.Target(profile.current)
    {
      if * { return Crashed; }
      Note(cause);
      var restarted := Restarts();
      if restarted.Lost? {
        refusals := refusals + 1;
        return Ran(restarted);
      }
      if * { return Crashed; }
      found := found.(job := Some(restarted.job));
      return Ran(restarted);
    }

    /** The health gate on whatever the profile is on: it says healthy or not, and a job that did not end
        done is unhealthy at once. */
    method Gate(result: JobResult) returns (r: Ran<bool>)
      requires Sound()
      modifies this`unit, this`running, this`ungated, this`verdicts, this`found
      ensures Sound() && GoesOn() && ungated <= old(ungated) && found.read == old(found).read
      ensures running == old(running) || running == profile.Target(profile.current)
      ensures r.Ran? ==> verdicts == old(verdicts) + [r.value] && found == old(found).(judged := Some(r.value))
      ensures r.Ran? && r.value ==> result.Done? && ungated == old(ungated) - {profile.current}
      ensures r.Ran? && !r.value ==> ungated == old(ungated)
    {
      if result.Done? {
        Poll();
        if * { return Crashed; }
        var healthy: bool := *;
        if healthy {
          ungated, verdicts, found := ungated - {profile.current}, verdicts + [true], found.(judged := Some(true));
          if * { return Crashed; }
          return Ran(true);
        }
      }
      verdicts, found := verdicts + [false], found.(judged := Some(false));
      if * { return Crashed; }
      return Ran(false);
    }
  }
}
