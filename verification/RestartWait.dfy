/** Waiting for a unit's restart job to end (internal/systemd/dbus.go). The reply that names the job and
    the signal that ends it are separate messages, and either may be heard first. */
module RestartWait {
  import opened Wrappers

  type Job = nat
  type Caller = nat
  type JobResult = string

  datatype Outcome = Heard(result: JobResult) | LostTheBus | NotQueued | Cancelled

  /** Where one Restart call has got to: before the reply, waiting on its job, on its way out, out. */
  datatype Phase = Calling | Waiting(job: Job) | Returning(outcome: Outcome) | Returned(outcome: Outcome)

  /** One step of anyone on the connection: a caller's, a message's, or the connection's end. */
  datatype Event =
    | Begin(caller: Caller)
    | Queue(caller: Caller, job: Job)
    | Reply(caller: Caller)
    | Refuse(caller: Caller)
    | JobRemoved(job: Job, result: JobResult)
    | Go
    | Wake(caller: Caller)
    | Cancel(caller: Caller)
    | Leave(caller: Caller)

  /** A connection and its callers. channels holds what each caller's channel, of one place, does; queued is
      the job systemd queued for each call, and heard every end the listener heard of. */
  datatype Bus = Bus(
    waiting: map<Job, Caller>,
    channels: map<Caller, JobResult>,
    ended: map<Job, JobResult>,
    inFlight: nat,
    gone: bool,
    phases: map<Caller, Phase>,
    queued: map<Caller, Job>,
    heard: map<Job, JobResult>)
  {
    predicate IsCalling(caller: Caller) {
      caller in phases && phases[caller].Calling?
    }

    predicate IsWaiting(caller: Caller) {
      caller in phases && phases[caller].Waiting?
    }

    /** A step that can happen now: systemd queues a job of its own for each call, and ends it once. */
    predicate Enabled(event: Event) {
      match event
      case Begin(caller) => caller !in phases
      case Queue(caller, job) => IsCalling(caller) && caller !in queued && job !in queued.Values && job !in heard
      case Reply(caller) => IsCalling(caller) && caller in queued
      case Refuse(caller) => IsCalling(caller)
      case JobRemoved(job, _) => !gone && job !in heard
      case Go => true
      case Wake(caller) => IsWaiting(caller) && (caller in channels || gone)
      case Cancel(caller) => IsWaiting(caller)
      case Leave(caller) => caller in phases && phases[caller].Returning? && inFlight > 0
    }

    function To(caller: Caller, phase: Phase): Bus {
      this.(phases := phases[caller := phase])
    }

    function After(event: Event): Bus
      requires Enabled(event)
    {
      match event
      case Begin(caller) => To(caller, Calling).(inFlight := inFlight + 1)
      case Queue(caller, job) => this.(queued := queued[caller := job])
      case Reply(caller) =>
        var job := queued[caller];
        if job in ended then To(caller, Returning(Heard(ended[job])))
        else To(caller, Waiting(job)).(waiting := waiting[job := caller])
      case Refuse(caller) => To(caller, Returning(NotQueued))
      case JobRemoved(job, result) =>
        var told :=
          if job in waiting then this.(waiting := waiting - {job}, channels := channels[waiting[job] := result])
          else if inFlight > 0 then this.(ended := ended[job := result])
          else this;
        told.(heard := heard[job := result])
      case Go => this.(gone := true)
      case Wake(caller) => To(caller, Returning(if caller in channels then Heard(channels[caller]) else LostTheBus))
      case Cancel(caller) => To(caller, Returning(Cancelled)).(waiting := waiting - {phases[caller].job})
      case Leave(caller) =>
        To(caller, Returned(phases[caller].outcome)).(
        inFlight := inFlight - 1, ended := if inFlight == 1 then map[] else ended)
    }

    function Active(): set<Caller> {
      set c | c in phases && !phases[c].Returned?
    }

    /** An outcome heard is the caller's own job's; the bus was lost only if its end was not heard. */
    ghost predicate Truthful(caller: Caller, outcome: Outcome) {
      match outcome
      case Heard(result) => caller in queued && queued[caller] in heard && heard[queued[caller]] == result
      case LostTheBus => gone && caller in queued && queued[caller] !in heard
      case NotQueued => true
      case Cancelled => true
    }

    /** What holds of one caller. Before its reply, its job's end, if heard, is kept among the ended; then it
        is waited for until that end is on its channel. */
    ghost predicate Follows(caller: Caller)
      requires caller in phases
    {
      match phases[caller]
      case Calling => caller !in channels && (caller in queued && queued[caller] in heard ==> queued[caller] in ended)
      case Waiting(job) =>
        && caller in queued && job == queued[caller]
        && if job in heard then caller in channels else job in waiting && waiting[job] == caller && caller !in channels
      case Returning(outcome) => Truthful(caller, outcome)
      case Returned(outcome) => Truthful(caller, outcome)
    }

    ghost predicate Distinct() {
      forall c, d :: c in queued && d in queued && queued[c] == queued[d] ==> c == d
    }

    ghost predicate Valid() {
      && (forall c :: c in phases ==> Follows(c))
      && queued.Keys <= phases.Keys && Distinct()
      && (forall c :: c in channels ==> c in queued && queued[c] in heard && channels[c] == heard[queued[c]])
      && (forall j :: j in ended ==> j in heard && ended[j] == heard[j])
      && (forall j :: j in waiting ==> j !in heard && waiting[j] in queued && queued[waiting[j]] == j && !IsCalling(waiting[j]))
      && inFlight == |Active()|
      && (inFlight == 0 ==> ended == map[])
    }
  }

  const NEW := Bus(map[], map[], map[], 0, false, map[], map[], map[])

  lemma ActiveAfter(b: Bus, caller: Caller, phase: Phase)
    ensures var active := b.To(caller, phase).Active();
            && (phase.Returned? ==> active == b.Active() - {caller})
            && (!phase.Returned? ==> active == if caller in b.Active() then b.Active() else b.Active() + {caller})
  {
    assert b.Active() + {caller} == if caller in b.Active() then b.Active() else b.Active() + {caller};
    var active := b.To(caller, phase).Active();
    assert phase.Returned? ==> active == b.Active() - {caller};
    assert !phase.Returned? ==> active == b.Active() + {caller};
  }

  lemma BeginKeeps(b: Bus, caller: Caller)
    requires b.Valid() && b.Enabled(Begin(caller))
    ensures b.After(Begin(caller)).Valid()
  {
    var a := b.After(Begin(caller));
    ActiveAfter(b, caller, Calling);
    assert a.Active() == b.To(caller, Calling).Active();
    assert caller !in b.queued;
    forall c | c in a.phases ensures a.Follows(c) {
      assert c != caller ==> b.Follows(c);
    }
  }

  /** A caller that is on its way out changes nothing for the others. */
  lemma ReturningKeeps(b: Bus, caller: Caller, outcome: Outcome)
    requires b.Valid() && (b.IsCalling(caller) || b.IsWaiting(caller)) && b.Truthful(caller, outcome)
    ensures b.To(caller, Returning(outcome)).Valid()
  {
    var a := b.To(caller, Returning(outcome));
    ActiveAfter(b, caller, Returning(outcome));
    assert caller in b.Active();
    forall c | c in a.phases ensures a.Follows(c) {
      assert c != caller ==> b.Follows(c);
    }
  }

  lemma LeaveKeeps(b: Bus, caller: Caller)
    requires b.Valid() && b.Enabled(Leave(caller))
    ensures b.After(Leave(caller)).Valid()
  {
    var a := b.After(Leave(caller));
    ActiveAfter(b, caller, a.phases[caller]);
    assert a.Active() == b.To(caller, a.phases[caller]).Active();
    assert caller in b.Active();
    assert a.inFlight == |a.Active()|;
    assert b.Follows(caller);
    forall c | c in a.phases ensures a.Follows(c) {
      if c != caller {
        assert b.Follows(c);
        assert a.phases[c].Calling? ==> c in a.Active();
      }
    }
  }

  /** A reply that comes before its job's end: the caller waits, and is waited for. */
  lemma WaitKeeps(b: Bus, caller: Caller)
    requires b.Valid() && b.Enabled(Reply(caller)) && b.queued[caller] !in b.ended
    ensures b.After(Reply(caller)).Valid()
  {
    var a := b.After(Reply(caller));
    ActiveAfter(b, caller, a.phases[caller]);
    assert a.Active() == b.To(caller, a.phases[caller]).Active();
    assert caller in b.Active();
    assert b.Follows(caller);
    forall c | c in a.phases ensures a.Follows(c) {
      if c != caller {
        assert b.Follows(c);
        assert c in b.queued ==> b.queued[c] != b.queued[caller];
      }
    }
  }

  /** Forgetting who waits for a job changes nothing once nobody does. */
  lemma ForgetKeeps(b: Bus, job: Job)
    requires b.Valid() && forall c :: b.IsWaiting(c) ==> b.phases[c].job != job
    ensures b.(waiting := b.waiting - {job}).Valid()
  {
    var a := b.(waiting := b.waiting - {job});
    assert a.Active() == b.Active();
    forall c | c in a.phases ensures a.Follows(c) {
      assert b.Follows(c) && (b.IsWaiting(c) ==> b.phases[c].job != job);
    }
  }

  lemma CancelKeeps(b: Bus, caller: Caller)
    requires b.Valid() && b.Enabled(Cancel(caller))
    ensures b.After(Cancel(caller)).Valid()
  {
    assert b.Follows(caller);
    ReturningKeeps(b, caller, Cancelled);
    var returning := b.To(caller, Returning(Cancelled));
    var job := b.phases[caller].job;
    forall c | returning.IsWaiting(c) ensures returning.phases[c].job != job {
      assert returning.Follows(c);
    }
    ForgetKeeps(returning, job);
  }

  lemma QueueOrGoKeeps(b: Bus, event: Event)
    requires b.Valid() && b.Enabled(event) && (event.Queue? || event.Go?)
    ensures b.After(event).Valid()
  {
    var a := b.After(event);
    assert a.Active() == b.Active();
    forall c | c in a.phases ensures a.Follows(c) {
      assert b.Follows(c);
    }
    if event.Queue? {
      forall c, d | c in a.queued && d in a.queued && a.queued[c] == a.queued[d] ensures c == d {
        assert event.job !in b.queued.Values;
        assert forall e :: e in b.queued ==> b.queued[e] in b.queued.Values;
      }
    }
  }

  lemma JobRemovedFollows(b: Bus, job: Job, result: JobResult, caller: Caller)
    requires b.Valid() && b.Enabled(JobRemoved(job, result)) && caller in b.phases
    ensures b.After(JobRemoved(job, result)).Follows(caller)
  {
    assert b.Follows(caller);
    if b.phases[caller].Calling? {
      assert caller in b.Active();
    }
  }

  lemma JobRemovedKeeps(b: Bus, job: Job, result: JobResult)
    requires b.Valid() && b.Enabled(JobRemoved(job, result))
    ensures b.After(JobRemoved(job, result)).Valid()
    // The listener never blocks: the channel it sends on is empty.
    ensures job in b.waiting ==> b.waiting[job] !in b.channels
  {
    var a := b.After(JobRemoved(job, result));
    assert a.Active() == b.Active();
    forall c | c in a.phases ensures a.Follows(c) {
      JobRemovedFollows(b, job, result, c);
    }
  }

  lemma StepKeeps(b: Bus, event: Event)
    requires b.Valid() && b.Enabled(event)
    ensures b.After(event).Valid()
  {
    match event
    case Begin(caller) => BeginKeeps(b, caller);
    case Refuse(caller) => ReturningKeeps(b, caller, NotQueued);
    case Wake(caller) =>
      assert b.Follows(caller);
      ReturningKeeps(b, caller, if caller in b.channels then Heard(b.channels[caller]) else LostTheBus);
    case Leave(caller) => LeaveKeeps(b, caller);
    case Queue(_, _) => QueueOrGoKeeps(b, event);
    case Go => QueueOrGoKeeps(b, event);
    case Reply(caller) =>
      if b.queued[caller] in b.ended {
        ReturningKeeps(b, caller, Heard(b.ended[b.queued[caller]]));
      } else {
        WaitKeeps(b, caller);
      }
    case Cancel(caller) => CancelKeeps(b, caller);
    case JobRemoved(job, result) => JobRemovedKeeps(b, job, result);
  }

  /** The connection after some events, those that cannot happen when they come up left out. */
  function Run(events: seq<Event>): Bus {
    if events == [] then NEW
    else
      var (before, last) := (Run(events[..|events| - 1]), events[|events| - 1]);
      if before.Enabled(last) then before.After(last) else before
  }

  lemma {:induction false} RunsAreValid(events: seq<Event>)
    ensures Run(events).Valid()
  {
    if events == [] {
    } else {
      var before := Run(events[..|events| - 1]);
      RunsAreValid(events[..|events| - 1]);
      if before.Enabled(events[|events| - 1]) {
        StepKeeps(before, events[|events| - 1]);
      }
    }
  }

  /** In every interleaving of callers, replies, signals and the loss of the connection, a caller whose restart
      was queued and that was neither refused nor cancelled is told exactly its own job's end, if the listener
      heard it before the connection went, and otherwise that the bus was lost; and no ends are kept once
      nobody is in flight. */
  lemma EveryCallerIsToldItsOwnJob(events: seq<Event>, caller: Caller)
    ensures var b := Run(events);
            && (caller in b.phases && b.phases[caller].Returned? && !b.phases[caller].outcome.NotQueued?
                && !b.phases[caller].outcome.Cancelled? ==>
                  && caller in b.queued
                  && b.phases[caller].outcome ==
                     if b.queued[caller] in b.heard then Heard(b.heard[b.queued[caller]]) else LostTheBus)
            && (b.Active() == {} ==> b.ended == map[])
  {
    RunsAreValid(events);
    var b := Run(events);
    if caller in b.phases {
      assert b.Follows(caller);
    }
  }

  /** A caller that waits can always go on once its job's end was heard or the connection went. */
  lemma WaitingEndsOnceThereIsNews(events: seq<Event>, caller: Caller)
    requires var b := Run(events);
             b.IsWaiting(caller) && caller in b.queued && (b.queued[caller] in b.heard || b.gone)
    ensures Run(events).Enabled(Wake(caller))
    ensures var b := Run(events);
            b.After(Wake(caller)).phases[caller] ==
            Returning(if b.queued[caller] in b.heard then Heard(b.heard[b.queued[caller]]) else LostTheBus)
  {
    RunsAreValid(events);
    assert Run(events).Follows(caller);
  }

  /** The connection as the source keeps it, each method one step under its lock. */
  class Connection {
    var waiting: map<Job, Caller>
    var channels: map<Caller, JobResult>
    var ended: map<Job, JobResult>
    var inFlight: nat
    var gone: bool
    ghost var phases: map<Caller, Phase>
    ghost var queued: map<Caller, Job>
    ghost var heard: map<Job, JobResult>

    ghost function Now(): Bus
      reads this
    {
      Bus(waiting, channels, ended, inFlight, gone, phases, queued, heard)
    }

    constructor ()
      ensures Now() == NEW
    {
      waiting, channels, ended, inFlight, gone := map[], map[], map[], 0, false;
      phases, queued, heard := map[], map[], map[];
    }

    /** Restart, up to its call. */
    method BeginRestart(caller: Caller)
      requires Now().Valid() && Now().Enabled(Begin(caller))
      modifies this
      ensures Now() == old(Now()).After(Begin(caller)) && Now().Valid()
    {
      StepKeeps(Now(), Begin(caller));
      inFlight := inFlight + 1;
      phases := phases[caller := Calling];
    }

    /** Restart, on the reply: the result, if it is known already. */
    method Replied(caller: Caller, job: Job) returns (already: Option<JobResult>)
      requires Now().Valid() && Now().Enabled(Reply(caller)) && queued[caller] == job
      modifies this
      ensures Now() == old(Now()).After(Reply(caller)) && Now().Valid()
      ensures already == if job in heard then Some(heard[job]) else None
    {
      assert Now().Follows(caller);
      StepKeeps(Now(), Reply(caller));
      if job in ended {
        already := Some(ended[job]);
        phases := phases[caller := Returning(Heard(ended[job]))];
      } else {
        waiting := waiting[job := caller];
        phases := phases[caller := Waiting(job)];
        already := None;
      }
    }

    /** listen, on one signal. */
    method Removed(job: Job, result: JobResult)
      requires Now().Valid() && Now().Enabled(JobRemoved(job, result))
      modifies this
      ensures Now() == old(Now()).After(JobRemoved(job, result)) && Now().Valid()
    {
      StepKeeps(Now(), JobRemoved(job, result));
      JobRemovedKeeps(Now(), job, result);
      if job in waiting {
        var waiter := waiting[job];
        waiting := waiting - {job};
        Send(waiter, result);
      } else if inFlight > 0 {
        ended := ended[job := result];
      }
      heard := heard[job := result];
    }

    /** Sends on a caller's channel, of one place: on a full one the listener would block. */
    method Send(caller: Caller, result: JobResult)
      requires caller !in channels
      modifies this`channels
      ensures channels == old(channels)[caller := result]
    {
      channels := channels[caller := result];
    }

    /** Restart, woken by its channel or by the connection having gone: it looks at its channel either way. */
    method Woken(caller: Caller) returns (outcome: Outcome)
      requires Now().Valid() && Now().Enabled(Wake(caller))
      modifies this
      ensures Now() == old(Now()).After(Wake(caller)) && Now().Valid()
      ensures outcome == if queued[caller] in heard then Heard(heard[queued[caller]]) else LostTheBus
    {
      assert Now().Follows(caller);
      StepKeeps(Now(), Wake(caller));
      outcome := if caller in channels then Heard(channels[caller]) else LostTheBus;
      phases := phases[caller := Returning(outcome)];
    }

    /** Restart, given up on. */
    method GivenUp(caller: Caller, job: Job)
      requires Now().Valid() && Now().Enabled(Cancel(caller)) && phases[caller].job == job
      modifies this
      ensures Now() == old(Now()).After(Cancel(caller)) && Now().Valid()
    {
      StepKeeps(Now(), Cancel(caller));
      waiting := waiting - {job};
      phases := phases[caller := Returning(Cancelled)];
    }

    /** What Restart defers. */
    method Left(caller: Caller)
      requires Now().Valid() && Now().Enabled(Leave(caller))
      modifies this
      ensures Now() == old(Now()).After(Leave(caller)) && Now().Valid()
    {
      StepKeeps(Now(), Leave(caller));
      inFlight := inFlight - 1;
      phases := phases[caller := Returned(phases[caller].outcome)];
      if inFlight == 0 {
        ended := map[];
      }
    }
  }
}
