/** Standing a container up again in its own place, and taking that back (internal/docker/source.go and
    PlanSwap in internal/docker/recreate.go). */
module ContainerSwaps {
  import Decide

  /** A container is whoever it was created as, whatever name it wears now. */
  datatype Container = Container(id: nat, running: bool, networks: set<string>)

  type Names = map<string, Container>

  datatype Step =
    | Stop(container: string)
    | Rename(container: string, to: string)
    | Create(name: string, networks: set<string>)
    | Connect(container: string, network: string)
    | Start(container: string)
    | Remove(container: string)

  datatype Plan = Plan(swap: seq<Step>, commit: seq<Step>)

  function RollbackName(name: string): string {
    name + "-tidewaiter-rollback"
  }

  function ConnectAll(name: string, networks: seq<string>): seq<Step> {
    seq(|networks|, i requires 0 <= i < |networks| => Connect(name, networks[i]))
  }

  /** networks: what the container is attached to, the first of them at create. */
  function PlanSwap(name: string, networks: seq<string>): Plan {
    var parked := RollbackName(name);
    var (first, extra) := if networks == [] then ({}, []) else ({networks[0]}, networks[1..]);
    Plan([Stop(name), Rename(name, parked), Create(name, first)] + ConnectAll(name, extra) + [Start(name)],
         [Remove(parked)])
  }

  /** How far a swap got. */
  datatype Progress = Progress(stopped: bool, parked: bool, created: bool, started: bool)

  /** The names and their containers as a swap that got as far as done leaves them, from start: the one
      that wore the name is stopped, then parked, and only then does another wear it. */
  ghost predicate LeftAt(done: Progress, start: Names, name: string, now: Names)
    requires name in start
  {
    var parked := RollbackName(name);
    var original := start[name].(running := false);
    (done.parked ==> parked !in start) &&
    if !done.stopped then !done.parked && !done.created && now == start
    else if !done.parked then !done.created && now == start[name := original]
    else if !done.created then now == (start - {name})[parked := original]
    else name in now && now[name].id != original.id && now == (start - {name})[parked := original][name := now[name]]
  }

  /** The container that wears a name at the start is still there, under that name or parked. */
  ghost predicate NeverLost(start: Names, name: string, now: Names)
    requires name in start
  {
    || (name in now && now[name].id == start[name].id)
    || (RollbackName(name) in now && now[RollbackName(name)].id == start[name].id)
  }

  /** Another container wears the name and runs, on the same networks, and every other name is as it was, but for the
      rollback name. */
  ghost predicate IsReplaced(start: Names, name: string, networks: seq<string>, now: Names)
    requires name in start
  {
    && name in now && now[name].running && now[name].id != start[name].id
    && now[name].networks == Joined(networks, |networks|)
    && now - {name, RollbackName(name)} == start - {name}
  }

  lemma RollbackNameIsAnother(name: string)
    ensures RollbackName(name) != name
  {
    assert |RollbackName(name)| > |name|;
  }

  lemma LeftAtIsSafe(done: Progress, start: Names, name: string, now: Names)
    requires name in start && LeftAt(done, start, name, now)
    ensures NeverLost(start, name, now)
  {
    RollbackNameIsAnother(name);
  }

  /** The first k of some networks. */
  function Joined(networks: seq<string>, k: nat): set<string> {
    var joined := networks[..if k < |networks| then k else |networks|];
    set n | n in joined
  }

  lemma JoinedOneMore(networks: seq<string>, k: nat)
    requires k < |networks|
    ensures Joined(networks, k + 1) == Joined(networks, k) + {networks[k]}
  {
    assert networks[..k + 1] == networks[..k] + [networks[k]];
  }

  class Docker {
    var containers: Names
    var next: nat
    // The names after each call so far.
    ghost var history: seq<Names>

    ghost predicate Valid()
      reads this
    {
      forall n :: n in containers ==> containers[n].id < next
    }

    constructor ()
      ensures Valid() && containers == map[]
    {
      containers, next, history := map[], 0, [];
    }

    /** One call, which may fail without effect, and does when it makes no sense. */
    method Do(step: Step) returns (ok: bool)
      requires Valid()
      modifies this
      ensures Valid() && next >= old(next)
      ensures history == old(history) + [containers]
      ensures !ok ==> containers == old(containers)
      ensures ok ==>
                match step
                case Stop(n) => n in old(containers) && containers == old(containers)[n := old(containers)[n].(running := false)]
                case Rename(n, to) =>
                  && n in old(containers) && to !in old(containers)
                  && containers == (old(containers) - {n})[to := old(containers)[n]]
                case Create(n, network) =>
                  n !in old(containers) && containers == old(containers)[n := Container(old(next), false, network)]
                case Connect(n, network) =>
                  && n in old(containers)
                  && containers == old(containers)[n := old(containers)[n].(networks := old(containers)[n].networks + {network})]
                case Start(n) => n in old(containers) && containers == old(containers)[n := old(containers)[n].(running := true)]
                case Remove(n) => n in old(containers) && containers == old(containers) - {n}
    {
      ok := *;
      match step {
        case Stop(n) =>
          ok := ok && n in containers;
          if ok { containers := containers[n := containers[n].(running := false)]; }
        case Rename(n, to) =>
          ok := ok && n in containers && to !in containers;
          if ok { containers := (containers - {n})[to := containers[n]]; }
        case Create(n, network) =>
          ok := ok && n !in containers;
          if ok { containers, next := containers[n := Container(next, false, network)], next + 1; }
        case Connect(n, network) =>
          ok := ok && n in containers;
          if ok { containers := containers[n := containers[n].(networks := containers[n].networks + {network})]; }
        case Start(n) =>
          ok := ok && n in containers;
          if ok { containers := containers[n := containers[n].(running := true)]; }
        case Remove(n) =>
          ok := ok && n in containers;
          if ok { containers := containers - {n}; }
      }
      history := history + [containers];
    }
  }

  /** What is carried about one container from pass to pass. */
  datatype Memory = Memory(idleStreak: nat, pinned: string, swapFailures: nat, failing: string)

  function CountFailure(memory: Memory, desired: string): Memory {
    var failures := if memory.failing == desired then memory.swapFailures + 1 else 1;
    var counted := memory.(swapFailures := failures, failing := desired);
    if failures >= Decide.MAX_SWAP_FAILURES then counted.(pinned := desired) else counted
  }

  /** A pin only holds until the tag moves on. */
  function Holding(memory: Memory, desired: string): Memory {
    if memory.pinned != "" && memory.pinned != desired then memory.(pinned := "") else memory
  }

  /** What is carried after n passes that swapped to desired and failed at a step, but for the streak. */
  function AfterFailures(memory: Memory, desired: string, n: nat): Memory {
    if n == 0 then Holding(memory, desired) else Holding(CountFailure(AfterFailures(memory, desired, n - 1), desired), desired)
  }

  /** From a memory with no failures against it, failures in a row add up, and pin a digest out exactly from
      the MAX_SWAP_FAILURES-th on. */
  lemma {:induction false} FailuresAddUp(memory: Memory, desired: string, n: nat)
    requires desired != "" && memory.failing != desired && memory.pinned != desired
    ensures var after := AfterFailures(memory, desired, n);
            && (n > 0 ==> after.failing == desired && after.swapFailures == n)
            && (after.pinned == desired <==> n >= Decide.MAX_SWAP_FAILURES)
  {
    if n == 0 {
    } else {
      FailuresAddUp(memory, desired, n - 1);
    }
  }

  /** What n failures in some passes that all want desired make of first: known, and never too many. */
  ghost predicate Tallied(first: Memory, memory: Memory, desired: string, n: nat) {
    && n <= Decide.MAX_SWAP_FAILURES
    && (n > 0 ==>
          && memory.failing == desired && memory.swapFailures >= n
          && (n >= Decide.MAX_SWAP_FAILURES ==> memory.pinned == desired))
    && Holding(memory, desired).(idleStreak := 0) == AfterFailures(first, desired, n).(idleStreak := 0)
  }

  /** One more pass that no gate ruled on, which either tried a swap that failed, of a digest not pinned out,
      or left what was still held against it. */
  lemma TalliedOnceMore(first: Memory, before: Memory, after: Memory, desired: string, n: nat, tried: bool)
    requires desired != "" && Tallied(first, before, desired, n)
    requires var base := Holding(before, desired).(idleStreak := after.idleStreak);
             after == if tried then CountFailure(base, desired) else base
    requires tried ==> before.pinned != desired
    ensures Tallied(first, after, desired, if tried then n + 1 else n)
  {
  }

  function MemoryOf(memory: map<string, Memory>, name: string): Memory {
    if name in memory then memory[name] else Memory(0, "", 0, "")
  }

  /** How an update left things. */
  datatype Left = Untouched | PutBack | RolledBack | Committed(cleaned: bool) | Stuck(atTheGate: bool) {
    predicate WasGated() {
      RolledBack? || Committed? || this == Stuck(true)
    }
  }

  /** A pass's look at a container, what was resolved and sampled of it included. */
  datatype Visit = Visit(name: string, networks: seq<string>, recreatable: bool, pulls: bool, dryRun: bool, idleSamples: nat,
                         desired: string, current: string, busy: bool)

  function SamplesOf(samples: map<string, seq<bool>>, name: string): seq<bool> {
    if name in samples then samples[name] else []
  }

  /** The length of the run of idle samples that ends some. */
  ghost function TrailingIdle(samples: seq<bool>): nat {
    if samples == [] || !samples[|samples| - 1] then 0 else TrailingIdle(samples[..|samples| - 1]) + 1
  }

  lemma TrailingIdleOneMore(samples: seq<bool>, idle: bool)
    ensures TrailingIdle(samples + [idle]) == if idle then TrailingIdle(samples) + 1 else 0
  {
    assert (samples + [idle])[..|samples|] == samples;
  }

  /** Each container's streak is the length of the run of idle samples that ends its samples. */
  ghost predicate StreaksAre(memory: map<string, Memory>, samples: map<string, seq<bool>>) {
    && samples.Keys == memory.Keys
    && forall n :: n in memory ==> memory[n].idleStreak == TrailingIdle(samples[n])
  }

  lemma StreaksOneMore(memory: map<string, Memory>, samples: map<string, seq<bool>>, name: string, next: Memory, idle: bool)
    requires StreaksAre(memory, samples)
    requires next.idleStreak == if idle then MemoryOf(memory, name).idleStreak + 1 else 0
    ensures MemoryOf(memory, name).idleStreak == TrailingIdle(SamplesOf(samples, name))
    ensures StreaksAre(memory[name := next], samples[name := SamplesOf(samples, name) + [idle]])
  {
    TrailingIdleOneMore(SamplesOf(samples, name), idle);
  }

  class Source {
    const docker: Docker
    var memory: map<string, Memory>

    // Every sample taken of each container, the idle ones being true.
    ghost var samples: map<string, seq<bool>>
    // The containers whose swap was started on, and whose gate ruled, each as often as it was.
    ghost var tried: multiset<string>
    ghost var gated: multiset<string>

    ghost predicate Valid()
      reads this, docker
    {
      docker.Valid() && StreaksAre(memory, samples)
    }

    constructor (docker: Docker)
      requires docker.Valid()
      ensures this.docker == docker && memory == map[] && Valid() && tried == multiset{} && gated == multiset{}
    {
      this.docker, memory := docker, map[];
      samples, tried, gated := map[], multiset{}, multiset{};
    }

    /** Every state of the names since the n-th call still had the container that wore the name. */
    ghost predicate SafeSince(n: nat, start: Names, name: string)
      requires name in start
      reads docker
    {
      forall i :: n <= i < |docker.history| ==> NeverLost(start, name, docker.history[i])
    }

    /** Carries out the swap's steps, remembering how far it got. */
    method Run(name: string, networks: seq<string>) returns (done: Progress, ok: bool)
      requires docker.Valid() && name in docker.containers
      modifies docker
      ensures docker.Valid() && old(docker.history) < docker.history
      ensures LeftAt(done, old(docker.containers), name, docker.containers)
      ensures ok ==> done == Progress(true, true, true, true)
      ensures ok ==> docker.containers[name].running && docker.containers[name].networks == Joined(networks, |networks|)
      ensures SafeSince(|old(docker.history)|, old(docker.containers), name)
    {
      RollbackNameIsAnother(name);
      ghost var start := docker.containers;
      var steps := PlanSwap(name, networks).swap;
      done := Progress(false, false, false, false);
      for i := 0 to |steps|
        invariant docker.Valid() && old(docker.history) <= docker.history
        invariant i > 0 ==> |old(docker.history)| < |docker.history|
        invariant done == Progress(i >= 1, i >= 2, i >= 3, i >= |steps|)
        invariant LeftAt(done, start, name, docker.containers)
        invariant i >= 3 ==> docker.containers[name].networks == Joined(networks, i - 2)
        invariant i == |steps| ==> docker.containers[name].running
        invariant SafeSince(|old(docker.history)|, start, name)
      {
        ghost var before := docker.containers;
        var went := docker.Do(steps[i]);
        LeftAtIsSafe(done, start, name, before);
        if !went {
          return done, false;
        }
        match steps[i] {
          case Stop(_) => done := done.(stopped := true);
          case Rename(_, _) => done := done.(parked := true);
          case Create(_, _) => done := done.(created := true);
          case Start(_) => done := done.(started := true);
          case Connect(_, _) => JoinedOneMore(networks, i - 2);
          case Remove(_) =>
        }
        LeftAtIsSafe(done, start, name, docker.containers);
      }
      ok := true;
    }

    /** Takes back a swap that got as far as done: what it created goes, to free the name; then what it parked
        gets its name back and starts or, never parked, simply starts again. */
    method Undo(name: string, done: Progress, ghost start: Names) returns (ok: bool)
      requires docker.Valid() && name in start
      requires LeftAt(done, start, name, docker.containers)
      modifies docker
      ensures docker.Valid() && old(docker.history) <= docker.history
      ensures SafeSince(|old(docker.history)|, start, name)
      ensures NeverLost(start, name, docker.containers)
      ensures ok ==> docker.containers == if done.stopped then start[name := start[name].(running := true)] else start
    {
      RollbackNameIsAnother(name);
      LeftAtIsSafe(done, start, name, docker.containers);
      var parked := RollbackName(name);
      ghost var original := start[name].(running := false);
      if done.created {
        ok := docker.Do(Remove(name));
        if !ok { return; }
        assert docker.containers == (start - {name})[parked := original];
      }
      if done.parked {
        ok := docker.Do(Rename(parked, name));
        if !ok { return; }
        assert docker.containers == start[name := original];
        ok := docker.Do(Start(name));
        assert ok ==> docker.containers == start[name := start[name].(running := true)];
      } else if done.stopped {
        ok := docker.Do(Start(name));
        assert ok ==> docker.containers == start[name := start[name].(running := true)];
      } else {
        ok := true;
      }
    }

    /** The swap of one container: refused, failed to pull, undone at a step, rolled back at the gate, or
        committed. memory is what is carried on; left says whether what had to be undone was. */
    method Update(name: string, networks: seq<string>, recreatable: bool, pulls: bool, base: Memory, desired: string)
      returns (next: Memory, left: Left)
      requires docker.Valid() && name in docker.containers
      modifies docker, this`tried, this`gated
      ensures docker.Valid()
      ensures !recreatable ==> left == Untouched
      ensures recreatable && !pulls ==> left != Untouched && |docker.history| > |old(docker.history)|
      ensures left == Untouched ==> docker.containers == old(docker.containers) && next == base
      // A swap taken back leaves every name with the container it had, the swapped one running.
      ensures left == PutBack || left == RolledBack ==>
                || docker.containers == old(docker.containers)
                || docker.containers == old(docker.containers)[name := old(docker.containers[name]).(running := true)]
      ensures left == PutBack || left == Stuck(false) ==> next == CountFailure(base, desired)
      ensures left == RolledBack || left == Stuck(true) ==> next == base.(pinned := desired)
      // The container swapped out is never lost: not even where undoing failed part-way.
      ensures !left.Committed? ==> NeverLost(old(docker.containers), name, docker.containers)
      ensures !left.Committed? ==> SafeSince(|old(docker.history)|, old(docker.containers), name)
      // A committed swap leaves another container in its place, on the same networks, and nothing else changed.
      ensures left.Committed? ==>
                && next == Memory(base.idleStreak, "", 0, "")
                && IsReplaced(old(docker.containers), name, networks, docker.containers)
                && (left.cleaned ==> RollbackName(name) !in docker.containers)
      ensures tried == if left == Untouched then old(tried) else old(tried) + multiset{name}
      ensures gated == if left.WasGated() then old(gated) + multiset{name} else old(gated)
    {
      next := base;
      if !recreatable {
        return next, Untouched;
      }
      if pulls {
        var pulled: bool := *;
        if !pulled {
          return next, Untouched;
        }
      }
      ghost var start := docker.containers;
      tried := tried + multiset{name};
      var done, ok := Run(name, networks);
      if !ok {
        var undone := Undo(name, done, start);
        return CountFailure(base, desired), if undone then PutBack else Stuck(false);
      }
      var healthy: bool := *;
      gated := gated + multiset{name};
      if healthy {
        RollbackNameIsAnother(name);
        var cleaned := docker.Do(Remove(RollbackName(name)));
        assert docker.containers - {name, RollbackName(name)} == start - {name};
        return Memory(base.idleStreak, "", 0, ""), Committed(cleaned);
      }
      var undone := Undo(name, done, start);
      return base.(pinned := desired), if undone then RolledBack else Stuck(true);
    }

    /** What a pass over a container comes to: a swap its gate ruled on is either committed, and all else forgotten, or
        the digest is pinned out; otherwise a failure is counted, if one was started on. Not committed, the container
        that was swapped out is never lost. */
    ghost predicate CameTo(visit: Visit, base: Memory, next: Memory, before: Names, tried: bool, gated: bool)
      requires visit.name in before
      reads docker
    {
      if gated && next.pinned != visit.desired then
        && next == Memory(base.idleStreak, "", 0, "")
        && IsReplaced(before, visit.name, visit.networks, docker.containers)
      else
        && next == (if gated then base.(pinned := visit.desired) else if tried then CountFailure(base, visit.desired) else base)
        && NeverLost(before, visit.name, docker.containers)
    }

    /** Carries out what was decided of a container; base is what is carried about it so far. */
    method Apply(visit: Visit, kind: Decide.Kind, base: Memory) returns (next: Memory)
      requires docker.Valid() && visit.name in docker.containers && visit.desired != ""
      requires kind.Pinned? ==> base.pinned == visit.desired
      modifies docker, this`tried, this`gated
      ensures docker.Valid() && next.idleStreak == base.idleStreak
      ensures docker.containers != old(docker.containers) || tried != old(tried) || gated != old(gated) ==>
                kind == Decide.Update && !visit.dryRun && visit.recreatable
      ensures kind == Decide.Update && !visit.dryRun && visit.recreatable && !visit.pulls ==>
                |docker.history| > |old(docker.history)| && tried == old(tried) + multiset{visit.name}
      ensures tried == old(tried) || tried == old(tried) + multiset{visit.name}
      ensures gated == old(gated) || gated == old(gated) + multiset{visit.name}
      ensures CameTo(visit, base, next, old(docker.containers), tried != old(tried), gated != old(gated))
    {
      next := base;
      match kind {
        case Pinned => next := next.(pinned := visit.desired);
        case Update =>
          if !visit.dryRun {
            var left;
            next, left := Update(visit.name, visit.networks, visit.recreatable, visit.pulls, next, visit.desired);
            assert visit.name in multiset{visit.name};
          }
        case Keep =>
        case Defer =>
      }
    }

    /** A pass over one container, given what was sampled and resolved of it; desired is "" for a tag that
        resolves to nothing here. */
    method Reconcile(visit: Visit) returns (kind: Decide.Kind)
      requires Valid() && visit.name in docker.containers
      modifies this, docker
      ensures Valid()
      ensures forall n :: n != visit.name ==> MemoryOf(memory, n) == MemoryOf(old(memory), n)
      // Without a digest to go to, the container is left alone and not looked at.
      ensures visit.desired == "" ==> kind == Decide.Keep && unchanged(docker) && unchanged(this)
      ensures visit.desired != "" ==>
                && visit.name in memory
                && samples == old(samples)[visit.name := SamplesOf(old(samples), visit.name) + [!visit.busy]]
      // Containers are touched only for an update: idle for long enough, elsewhere than desired, and not pinned out.
      ensures docker.containers != old(docker.containers) || tried != old(tried) || gated != old(gated) ==>
                kind == Decide.Update && !visit.dryRun && visit.recreatable
      ensures kind == Decide.Update <==>
                && visit.desired != "" && visit.current != visit.desired && !visit.busy
                && TrailingIdle(SamplesOf(old(samples), visit.name)) + 1 >= visit.idleSamples
                && MemoryOf(old(memory), visit.name).pinned != visit.desired
      // And then they are, unless the update is refused outright.
      ensures kind == Decide.Update && !visit.dryRun && visit.recreatable && !visit.pulls ==>
                |docker.history| > |old(docker.history)| && tried == old(tried) + multiset{visit.name}
      // A pin holds for as long as its digest is desired.
      ensures visit.desired != "" && MemoryOf(old(memory), visit.name).pinned == visit.desired ==>
                kind == Decide.Pinned && memory[visit.name].pinned == visit.desired
      // One swap at most is started on, and its gate rules once at most.
      ensures tried == old(tried) || tried == old(tried) + multiset{visit.name}
      ensures gated == old(gated) || gated == old(gated) + multiset{visit.name}
      ensures visit.desired != "" ==>
                var base := Holding(MemoryOf(old(memory), visit.name),
                                    visit.desired).(idleStreak := memory[visit.name].idleStreak);
                CameTo(visit, base, memory[visit.name], old(docker.containers), tried != old(tried), gated != old(gated))
    {
      if visit.desired == "" {
        return Decide.Keep;
      }
      var name := visit.name;
      var previous := MemoryOf(memory, name);
      if previous.pinned != "" && previous.pinned != visit.desired {
        previous := previous.(pinned := "");
      }
      var idleStreak := if visit.busy then 0 else previous.idleStreak + 1;
      kind := Decide.Decide(Decide.Inputs(visit.idleSamples, visit.current, visit.desired, visit.busy, idleStreak),
                            previous.pinned);
      var next := Apply(visit, kind, previous.(idleStreak := idleStreak));
      StreaksOneMore(memory, samples, name, next, !visit.busy);
      memory := memory[name := next];
      samples := samples[name := SamplesOf(samples, name) + [!visit.busy]];
    }
  }

  /** One visit more to the container. */
  method VisitIt(source: Source, visit: Visit, ghost first: Memory, ghost n: nat, ghost gated: nat)
    requires source.Valid() && visit.desired != "" && visit.name in source.docker.containers
    requires source.gated[visit.name] >= gated
    requires source.gated[visit.name] == gated ==> Tallied(first, MemoryOf(source.memory, visit.name), visit.desired, n)
    modifies source, source.docker
    ensures var name := visit.name;
            && source.Valid() && source.tried[name] >= old(source.tried)[name] && source.gated[name] >= old(source.gated)[name]
            && (source.gated[name] == gated ==>
                  Tallied(first, MemoryOf(source.memory, name), visit.desired,
                          n + source.tried[name] - old(source.tried)[name]))
  {
    ghost var before := MemoryOf(source.memory, visit.name);
    var _ := source.Reconcile(visit);
    if source.gated[visit.name] == gated {
      TalliedOnceMore(first, before, MemoryOf(source.memory, visit.name), visit.desired, n, source.tried != old(source.tried));
    }
  }

  /** One visit more, to whatever container. */
  method VisitOnceMore(source: Source, visit: Visit, name: string, desired: string, ghost first: Memory, ghost n: nat,
                       ghost gated: nat)
    requires source.Valid() && desired != "" && (visit.name == name ==> visit.desired == desired)
    requires source.gated[name] >= gated
    requires source.gated[name] == gated ==> Tallied(first, MemoryOf(source.memory, name), desired, n)
    modifies source, source.docker
    ensures source.Valid() && source.tried[name] >= old(source.tried)[name] && source.gated[name] >= old(source.gated)[name]
    ensures source.gated[name] == gated ==>
              Tallied(first, MemoryOf(source.memory, name), desired, n + source.tried[name] - old(source.tried)[name])
  {
    if visit.name in source.docker.containers {
      if visit.name == name {
        VisitIt(source, visit, first, n, gated);
      } else {
        var _ := source.Reconcile(visit);
        assert source.tried[name] == old(source.tried)[name] && source.gated[name] == old(source.gated)[name];
      }
    }
  }

  /** Any passes over any containers, all of which want desired of one of them: so long as no gate rules on that
      one, its swap is started on MAX_SWAP_FAILURES times at most, and it is pinned out by then; what is carried
      about it in the end is what that many failures make of what was carried at first. */
  method PassesOnOneDigest(source: Source, visits: seq<Visit>, name: string, desired: string)
    requires source.Valid() && desired != ""
    requires forall i :: 0 <= i < |visits| && visits[i].name == name ==> visits[i].desired == desired
    modifies source, source.docker
    ensures source.Valid() && source.tried[name] >= old(source.tried)[name]
    ensures source.gated[name] == old(source.gated)[name] ==>
              Tallied(MemoryOf(old(source.memory), name), MemoryOf(source.memory, name), desired,
                      source.tried[name] - old(source.tried)[name])
  {
    for i := 0 to |visits|
      invariant source.Valid() && source.tried[name] >= old(source.tried)[name] && source.gated[name] >= old(source.gated)[name]
      invariant source.gated[name] == old(source.gated)[name] ==>
                  Tallied(MemoryOf(old(source.memory), name), MemoryOf(source.memory, name), desired,
                          source.tried[name] - old(source.tried)[name])
    {
      VisitOnceMore(source, visits[i], name, desired, MemoryOf(old(source.memory), name),
                    source.tried[name] - old(source.tried)[name], old(source.gated)[name]);
    }
  }
}
