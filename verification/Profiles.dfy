/** A Nix profile: numbered generations, one of them current (internal/nix/profile.go, with
    nix-env's numbering as internal/systemd/fake_systemd_test.go has it). */
module Profiles {

  type Path = string

  /** current is 0 for a profile that does not exist. */
  datatype Profile = Profile(generations: map<nat, Path>, current: nat) {

    ghost predicate Valid() {
      && 0 !in generations
      && (forall g :: g in generations ==> generations[g] != "")
      && (current == 0 ==> generations == map[])
      && (current != 0 ==> current in generations)
    }

    /** The store path a generation leads to, "" for one that does not exist. */
    function Target(generation: nat): Path {
      if generation in generations then generations[generation] else ""
    }

    /** next is one past the highest generation there is. */
    ghost predicate IsNext(next: nat) {
      && next > 0
      && (forall g :: g in generations ==> g < next)
      && (next == 1 || next - 1 in generations)
    }

    function With(next: nat, target: Path): Profile {
      Profile(generations[next := target], next)
    }

    function Without(generation: nat): Profile {
      if generation == current then this else Profile(generations - {generation}, current)
    }

    /** after is this profile again; or, littered, it still has the one newer generation it was moved to. */
    ghost predicate IsBack(after: Profile, target: Path, littered: bool) {
      || after == this
      || (littered && exists next :: IsNext(next) && after == With(next, target).(current := current))
    }

    /** How many generations are newer than one. */
    function Newer(generation: nat): nat {
      |set g | g in generations && g > generation|
    }

    /** `nix-env --delete-generations +N` with N = keep + 1: the N newest by number stay, and the current one. */
    function Pruned(keep: nat): Profile {
      Profile(map g | g in generations && (g == current || Newer(g) <= keep) :: generations[g], current)
    }
  }

  method NextGeneration(profile: Profile) returns (next: nat)
    requires profile.Valid()
    ensures profile.IsNext(next)
  {
    next := 1;
    var left := profile.generations.Keys;
    while left != {}
      invariant left <= profile.generations.Keys
      invariant forall g :: g in profile.generations && g !in left ==> g < next
      invariant next > 0 && (next == 1 || next - 1 in profile.generations)
      decreases left
    {
      var g :| g in left;
      next := if g + 1 > next then g + 1 else next;
      left := left - {g};
    }
  }

  /** Setting a path, going back to where the profile was and deleting what was left is the identity. */
  lemma SetSwitchDeleteIsIdentity(before: Profile, next: nat, target: Path)
    requires before.Valid() && before.current != 0 && before.IsNext(next)
    ensures before.With(next, target).(current := before.current).Without(next) == before
  {
    assert before.generations[next := target] - {next} == before.generations;
  }

  /** Gone back from a new generation, deleted or left lying, a profile is back. */
  lemma BackFromNewest(before: Profile, next: nat, target: Path, after: Profile, littered: bool)
    requires before.Valid() && before.current != 0 && before.IsNext(next)
    requires var left := before.With(next, target).(current := before.current);
             after == left.Without(next) || (littered && after == left)
    ensures before.IsBack(after, target, littered)
  {
    SetSwitchDeleteIsIdentity(before, next, target);
  }

  lemma {:induction false} FewerInSubset(part: set<nat>, whole: set<nat>)
    requires part <= whole
    ensures |part| <= |whole|
  {
    if part == {} {
    } else {
      var g :| g in part;
      FewerInSubset(part - {g}, whole - {g});
    }
  }

  lemma NewerOnceSet(before: Profile, next: nat, target: Path, generation: nat)
    requires before.IsNext(next) && generation < next
    ensures before.With(next, target).Newer(generation) == before.Newer(generation) + 1
  {
    var newer := set g | g in before.generations && g > generation;
    assert (set g | g in before.With(next, target).generations && g > generation) == newer + {next};
  }

  lemma NewerOnceSmaller(before: Profile, after: Profile, generation: nat)
    requires after.generations.Keys <= before.generations.Keys
    ensures after.Newer(generation) <= before.Newer(generation)
  {
    var was := set g | g in before.generations && g > generation;
    var now := set g | g in after.generations && g > generation;
    FewerInSubset(now, was);
  }

  lemma NewerThanOlder(profile: Profile, older: nat, generation: nat)
    ensures older <= generation ==> profile.Newer(generation) <= profile.Newer(older)
  {
    if older <= generation {
      FewerInSubset(set g | g in profile.generations && g > generation, set g | g in profile.generations && g > older);
    }
  }

  /** With at least one kept, pruning right after a Set keeps the generation the Set left, so long as
      nothing newer than it was lying about. */
  lemma PruneKeepsTheGenerationLeft(before: Profile, next: nat, target: Path, keep: nat)
    requires before.Valid() && before.current != 0 && before.IsNext(next) && target != ""
    ensures var after := before.With(next, target).Pruned(keep);
            && after.current == next && after.Target(next) == target
            && after.Valid()
            && (keep >= 1 && next == before.current + 1 ==> after.Target(before.current) == before.Target(before.current))
            && (before.current in after.generations <==> before.Newer(before.current) < keep)
  {
    NewerOnceSet(before, next, target, before.current);
    if next == before.current + 1 {
      assert (set g | g in before.generations && g > before.current) == {};
    }
  }
}
