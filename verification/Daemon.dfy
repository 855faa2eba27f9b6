/** The daemon's passes, ticks and reboots (internal/daemon/daemon.go, internal/reboot/reboot.go): what it
    last saw of each source's workloads, and the two loops that share it. */
module Daemons {
  import opened Wrappers

  /** What a pass concluded of a workload; busy is absent if it was not sampled. */
  datatype Outcome = Outcome(workload: string, busy: Option<bool>, settled: bool)

  datatype Activity = Activity(workload: string, busy: bool)

  /** One source's workloads as last seen, in the order the status lists them. */
  datatype Verdicts = Verdicts(order: seq<string>, busy: map<string, bool>, settled: map<string, bool>) {

    /** Every workload either kind of verdict is about is listed, once. */
    ghost predicate Listed() {
      && (forall i, j :: 0 <= i < j < |order| ==> order[i] != order[j])
      && (forall w :: w in order <==> w in busy || w in settled)
    }
  }

  const UNSEEN := Verdicts([], map[], map[])

  // ----- A pass's verdicts

  function RecordOne(next: Verdicts, previous: map<string, bool>, outcome: Outcome): Verdicts {
    var w := outcome.workload;
    Verdicts(
      if w in next.settled then next.order else next.order + [w],
      if outcome.busy.Some? then next.busy[w := outcome.busy.value]
      else if w in previous then next.busy[w := previous[w]]
      else next.busy,
      next.settled[w := outcome.settled])
  }

  function Recorded(previous: map<string, bool>, outcomes: seq<Outcome>): Verdicts {
    if outcomes == [] then UNSEEN
    else RecordOne(Recorded(previous, outcomes[..|outcomes| - 1]), previous, outcomes[|outcomes| - 1])
  }

  /** The last thing some outcomes say of a workload is that it is settled, or is not. */
  ghost predicate LastSettled(outcomes: seq<Outcome>, workload: string, settled: bool) {
    && outcomes != []
    && var last := outcomes[|outcomes| - 1];
       if last.workload == workload then last.settled == settled
       else LastSettled(outcomes[..|outcomes| - 1], workload, settled)
  }

  lemma {:induction false} RecordedIsListed(previous: map<string, bool>, outcomes: seq<Outcome>)
    ensures var now := Recorded(previous, outcomes);
            && now.Listed() && now.busy.Keys <= now.settled.Keys
            && (forall w :: w in now.settled <==> exists o :: o in outcomes && o.workload == w)
  {
    if outcomes == [] {
    } else {
      var before, last := outcomes[..|outcomes| - 1], outcomes[|outcomes| - 1];
      RecordedIsListed(previous, before);
      assert outcomes == before + [last];
      assert forall o :: o in outcomes <==> o in before || o == last;
      RecordOneIsListed(Recorded(previous, before), previous, last);
    }
  }

  lemma RecordOneIsListed(next: Verdicts, previous: map<string, bool>, outcome: Outcome)
    requires next.Listed() && next.busy.Keys <= next.settled.Keys
    ensures var now := RecordOne(next, previous, outcome);
            && now.Listed() && now.busy.Keys <= now.settled.Keys
            && (forall w :: w in now.settled <==> w in next.settled || w == outcome.workload)
  {
    var now := RecordOne(next, previous, outcome);
    assert forall w :: w in now.order <==> w in next.order || w == outcome.workload;
  }

  lemma {:induction false} RecordedIsLastSettled(previous: map<string, bool>, outcomes: seq<Outcome>, w: string)
    requires w in Recorded(previous, outcomes).settled
    ensures LastSettled(outcomes, w, Recorded(previous, outcomes).settled[w])
  {
    if w == outcomes[|outcomes| - 1].workload {
    } else {
      RecordedIsLastSettled(previous, outcomes[..|outcomes| - 1], w);
    }
  }

  lemma {:induction false} RecordedKeepsBusy(previous: map<string, bool>, outcomes: seq<Outcome>, w: string)
    requires forall o :: o in outcomes && o.workload == w ==> o.busy.None?
    ensures var now := Recorded(previous, outcomes);
            && (w in now.busy <==> w in now.settled && w in previous)
            && (w in now.busy ==> now.busy[w] == previous[w])
  {
    if outcomes == [] {
    } else {
      var before, last := outcomes[..|outcomes| - 1], outcomes[|outcomes| - 1];
      assert outcomes == before + [last];
      assert last in outcomes;
      RecordedKeepsBusy(previous, before, w);
    }
  }

  /** A record lists exactly the workloads reported, once each, settled as last reported; one the pass never
      sampled keeps the busy verdict it had, if it had one. */
  lemma RecordedIs(previous: map<string, bool>, outcomes: seq<Outcome>)
    ensures var now := Recorded(previous, outcomes);
            && now.Listed() && now.busy.Keys <= now.settled.Keys
            && (forall w :: w in now.settled <==> exists o :: o in outcomes && o.workload == w)
            && (forall w :: w in now.settled ==> LastSettled(outcomes, w, now.settled[w]))
            && (forall w :: w in now.settled && (forall o :: o in outcomes && o.workload == w ==> o.busy.None?) ==>
                  if w in previous then w in now.busy && now.busy[w] == previous[w] else w !in now.busy)
  {
    RecordedIsListed(previous, outcomes);
    var now := Recorded(previous, outcomes);
    forall w | w in now.settled ensures LastSettled(outcomes, w, now.settled[w]) {
      RecordedIsLastSettled(previous, outcomes, w);
    }
    forall w | w in now.settled && (forall o :: o in outcomes && o.workload == w ==> o.busy.None?)
      ensures if w in previous then w in now.busy && now.busy[w] == previous[w] else w !in now.busy
    {
      RecordedKeepsBusy(previous, outcomes, w);
    }
  }

  // ----- A look's verdicts

  function ReadOne(order: seq<string>, busy: map<string, bool>, a: Activity): (seq<string>, map<string, bool>) {
    (if a.workload in busy then order else order + [a.workload], busy[a.workload := a.busy])
  }

  function ReadAll(activity: seq<Activity>): (seq<string>, map<string, bool>) {
    if activity == [] then ([], map[])
    else
      var (order, busy) := ReadAll(activity[..|activity| - 1]);
      ReadOne(order, busy, activity[|activity| - 1])
  }

  /** The workloads of the last pass a look did not report. */
  function Missed(order: seq<string>, busy: map<string, bool>, settled: map<string, bool>): seq<string> {
    if order == [] then []
    else
      var (before, last) := (Missed(order[..|order| - 1], busy, settled), order[|order| - 1]);
      if last !in busy && last in settled then before + [last] else before
  }

  function Read(seen: Verdicts, activity: seq<Activity>): Verdicts {
    var (order, busy) := ReadAll(activity);
    Verdicts(order + Missed(seen.order, busy, seen.settled), busy, seen.settled)
  }

  lemma {:induction false} ReadAllIs(activity: seq<Activity>)
    ensures var (order, busy) := ReadAll(activity);
            && Verdicts(order, busy, map[]).Listed()
            && (forall w :: w in busy <==> exists a :: a in activity && a.workload == w)
            && (forall w :: w in busy && (forall a :: a in activity && a.workload == w ==> !a.busy) ==> !busy[w])
  {
    if activity == [] {
    } else {
      var before, last := activity[..|activity| - 1], activity[|activity| - 1];
      ReadAllIs(before);
      assert activity == before + [last];
      assert forall a :: a in activity <==> a in before || a == last;
    }
  }

  lemma {:induction false} MissedIs(order: seq<string>, busy: map<string, bool>, settled: map<string, bool>)
    requires forall i, j :: 0 <= i < j < |order| ==> order[i] != order[j]
    ensures var missed := Missed(order, busy, settled);
            && (forall w :: w in missed <==> w in order && w !in busy && w in settled)
            && (forall i, j :: 0 <= i < j < |missed| ==> missed[i] != missed[j])
  {
    if order == [] {
    } else {
      var before, last := order[..|order| - 1], order[|order| - 1];
      MissedIs(before, busy, settled);
      assert order == before + [last];
      assert forall w :: w in order <==> w in before || w == last;
      assert last !in before;
    }
  }

  /** A look keeps every settled flag, lists exactly what either kind of verdict is about, once, and knows
      of as busy just what it reported busy. */
  lemma ReadIs(seen: Verdicts, activity: seq<Activity>)
    requires seen.Listed()
    ensures var now := Read(seen, activity);
            && now.Listed() && now.settled == seen.settled
            && (forall w :: w in now.busy <==> exists a :: a in activity && a.workload == w)
  {
    var (order, busy) := ReadAll(activity);
    ReadAllIs(activity);
    MissedIs(seen.order, busy, seen.settled);
    var missed := Missed(seen.order, busy, seen.settled);
    var reported := Verdicts(order, busy, map[]);
    assert forall w :: w in order <==> w in reported.busy || w in reported.settled;
    var all := order + missed;
    assert forall w :: w in all <==> w in order || w in missed;
    forall i, j | 0 <= i < j < |all| ensures all[i] != all[j] {
      if i < |order| <= j {
        assert all[i] in order && all[j] in missed;
      } else if i >= |order| {
        assert all[i] == missed[i - |order|] && all[j] == missed[j - |order|];
      } else {
        assert reported.order[i] != reported.order[j];
      }
    }
  }

  // ----- Whether to reboot

  datatype Kind = NotNeeded | Wait | Reboot

  function DecideReboot(needed: bool, inWindow: bool, busy: set<string>, unsettled: set<string>, swapping: set<string>): Kind {
    if !needed then NotNeeded
    else if !inWindow then Wait
    else if swapping != {} then Wait
    else if busy != {} then Wait
    else if unsettled != {} then Wait
    else Reboot
  }

  /** What the daemon keeps under its lock. Sources are numbered in the order they run. */
  class Daemon {
    var seen: map<nat, Verdicts>
    var held: set<string>
    var rebooting: bool

    constructor ()
      ensures seen == map[] && held == {} && !rebooting
    {
      seen, held, rebooting := map[], {}, false;
    }

    /** Remembers a pass's verdicts for a source. */
    method Record(source: nat, outcomes: seq<Outcome>)
      modifies this`seen
      ensures seen == old(seen)[source := Recorded((if source in old(seen) then old(seen)[source] else UNSEEN).busy, outcomes)]
    {
      var previous := if source in seen then seen[source].busy else map[];
      var next := UNSEEN;
      for i := 0 to |outcomes|
        invariant next == Recorded(previous, outcomes[..i])
      {
        assert outcomes[..i + 1][..|outcomes[..i + 1]| - 1] == outcomes[..i];
        var o := outcomes[i];
        var order, busy := next.order, next.busy;
        if o.workload !in next.settled {
          order := order + [o.workload];
        }
        if o.busy.Some? {
          busy := busy[o.workload := o.busy.value];
        } else if o.workload in previous {
          busy := busy[o.workload := previous[o.workload]];
        }
        next := Verdicts(order, busy, next.settled[o.workload := o.settled]);
      }
      assert outcomes[..|outcomes|] == outcomes;
      seen := seen[source := next];
    }

    /** Reads a source's activity, once it answered, into its busy verdicts. */
    method ReadActivity(source: nat, activity: seq<Activity>)
      modifies this`seen
      ensures seen == old(seen)[source := Read(if source in old(seen) then old(seen)[source] else UNSEEN, activity)]
    {
      var was := if source in seen then seen[source] else UNSEEN;
      var order: seq<string>, busy: map<string, bool> := [], map[];
      for i := 0 to |activity|
        invariant (order, busy) == ReadAll(activity[..i])
      {
        assert activity[..i + 1][..|activity[..i + 1]| - 1] == activity[..i];
        if activity[i].workload !in busy {
          order := order + [activity[i].workload];
        }
        busy := busy[activity[i].workload := activity[i].busy];
      }
      assert activity[..|activity|] == activity;
      ghost var reported := order;
      for i := 0 to |was.order|
        invariant order == reported + Missed(was.order[..i], busy, was.settled)
      {
        assert was.order[..i + 1][..|was.order[..i + 1]| - 1] == was.order[..i];
        if was.order[i] !in busy && was.order[i] in was.settled {
          order := order + [was.order[i]];
        }
      }
      assert was.order[..|was.order|] == was.order;
      seen := seen[source := Verdicts(order, busy, was.settled)];
    }
  }

  // ----- The two loops, interleaved

  /** Where the loop of passes is. It has the turn while passing and while looking. */
  datatype PassLoop =
    | Resting
    | Passing(k: nat, failed: bool)
    | Passed
    | Decided
    | Looking(k: nat, answered: bool)
    | Looked(answered: bool)
    | Asking

  /** Where the loop of ticks is. It has the turn while ticking. */
  datatype TickLoop = Sleeping | Ticking(k: nat)

  /** What the last decision went by. */
  datatype Saw = Saw(seen: map<nat, Verdicts>, held: set<string>, inWindow: bool, latest: map<nat, seq<Activity>>)

  datatype Event =
    | StartPass
    | Hold(workload: string)
    | SourcePassed(outcomes: seq<Outcome>)
    | SourceFailed
    | EndPass
    | Consider(needed: bool, inWindow: bool)
    | StartLook
    | LookAnswered(activity: seq<Activity>)
    | LookFailed
    | EndLook
    | Reconsider(inWindow: bool)
    | Ask(accepted: bool)
    | StartTick
    | TickAnswered(activity: seq<Activity>)
    | TickFailed
    | EndTick

  /** The daemon of n sources. reported is what each source that succeeded reported in the last pass, latest
      what each last answered since the last look before a reboot began, and accepted how many times a reboot
      was. */
  datatype State = State(
    n: nat,
    seen: map<nat, Verdicts>,
    held: set<string>,
    rebooting: bool,
    pass: PassLoop,
    tick: TickLoop,
    reported: map<nat, seq<Outcome>>,
    latest: map<nat, seq<Activity>>,
    saw: Option<Saw>,
    accepted: nat)
  {
    predicate TurnTaken() {
      pass.Passing? || pass.Looking? || tick.Ticking?
    }

    function VerdictsOf(source: nat): Verdicts {
      if source in seen then seen[source] else UNSEEN
    }

    function InUse(): set<string> {
      set k, w | k in seen && w in seen[k].busy && seen[k].busy[w] :: w
    }

    function Unsettled(): set<string> {
      set k, w | k in seen && w in seen[k].settled && !seen[k].settled[w] :: w
    }

    predicate Enabled(event: Event) {
      match event
      case StartPass => pass.Resting? && !TurnTaken()
      case Hold(_) => pass.Passing?
      case SourcePassed(_) => pass.Passing? && pass.k < n
      case SourceFailed => pass.Passing? && pass.k < n
      case EndPass => pass.Passing? && pass.k == n
      case Consider(_, _) => pass.Passed?
      case StartLook => pass.Decided? && !TurnTaken()
      case LookAnswered(_) => pass.Looking? && pass.k < n
      case LookFailed => pass.Looking? && pass.k < n
      case EndLook => pass.Looking? && pass.k == n
      case Reconsider(_) => pass.Looked?
      case Ask(_) => pass.Asking?
      case StartTick => tick.Sleeping? && !TurnTaken()
      case TickAnswered(_) => tick.Ticking? && tick.k < n
      case TickFailed => tick.Ticking? && tick.k < n
      case EndTick => tick.Ticking? && tick.k == n
    }

    function Decide(needed: bool, inWindow: bool): Kind {
      DecideReboot(needed, inWindow, InUse(), Unsettled(), held)
    }

    function After(event: Event): State
      requires Enabled(event)
    {
      match event
      case StartPass => this.(pass := Passing(0, false), reported := map[], latest := map[])
      case Hold(workload) => this.(held := held + {workload})
      case SourcePassed(outcomes) =>
        this.(seen := seen[pass.k := Recorded(VerdictsOf(pass.k).busy, outcomes)],
        reported := reported[pass.k := outcomes], pass := Passing(pass.k + 1, pass.failed))
      case SourceFailed => this.(pass := Passing(pass.k + 1, true))
      case EndPass => this.(held := {}, pass := if pass.failed then Resting else Passed)
      case Consider(needed, inWindow) =>
        this.(pass := if !rebooting && Decide(needed, inWindow).Reboot? then Decided else Resting)
      case StartLook => this.(pass := Looking(0, true), latest := map[])
      case LookAnswered(activity) =>
        this.(seen := seen[pass.k := Read(VerdictsOf(pass.k), activity)], latest := latest[pass.k := activity],
        pass := Looking(pass.k + 1, pass.answered))
      case LookFailed => this.(pass := Looking(pass.k + 1, false))
      case EndLook => this.(pass := Looked(pass.answered))
      case Reconsider(inWindow) =>
        // A reboot that was needed a moment ago still is: it is not asked again.
        if pass.answered && Decide(true, inWindow).Reboot?
        then this.(pass := Asking, saw := Some(Saw(seen, held, inWindow, latest)))
        else this.(pass := Resting)
      case Ask(isAccepted) =>
        this.(pass := Resting, rebooting := rebooting || isAccepted, accepted := if isAccepted then accepted + 1 else accepted)
      case StartTick => this.(tick := Ticking(0))
      case TickAnswered(activity) =>
        this.(seen := seen[tick.k := Read(VerdictsOf(tick.k), activity)], latest := latest[tick.k := activity],
        tick := Ticking(tick.k + 1))
      case TickFailed => this.(tick := Ticking(tick.k + 1))
      case EndTick => this.(tick := Sleeping)
    }

    /** Every source up to the k-th succeeded in the last pass. */
    ghost predicate AllReported(k: nat) {
      forall i :: 0 <= i < k ==> i in reported
    }

    ghost predicate AllAnswered(k: nat) {
      forall i :: 0 <= i < k ==> i in latest
    }

    ghost predicate Valid() {
      && !((pass.Passing? || pass.Looking?) && tick.Ticking?)
      && (held != {} ==> pass.Passing?)
      && SeenAs(seen, reported, latest)
      && (pass.Passing? ==> latest == map[])
      && Progressed()
      && (rebooting <==> accepted > 0) && accepted <= 1
      && (pass.Decided? || pass.Looking? || pass.Looked? || pass.Asking? ==> !rebooting)
    }

    ghost predicate Progressed() {
      match pass
      case Resting => true
      case Passing(k, failed) => k <= n && (!failed ==> AllReported(k))
      case Passed => AllReported(n)
      case Decided => AllReported(n)
      case Looking(k, answered) => k <= n && AllReported(n) && (answered ==> AllAnswered(k))
      case Looked(answered) => AllReported(n) && (answered ==> AllAnswered(n))
      case Asking => AllReported(n) && saw.Some? && SawNobody(saw.value)
    }

    /** The decision to ask for a reboot saw every source's last pass succeed with every workload it reported
        settled, every source's answer to a look taken since with nothing busy, nothing held, and the clock in
        the window. */
    ghost predicate SawNobody(s: Saw) {
      && s.inWindow && s.held == {}
      && forall i :: 0 <= i < n ==>
           && i in reported && (forall o :: o in reported[i] ==> SettledIn(reported[i], o.workload))
           && i in s.latest && (forall a :: a in s.latest[i] ==> !BusyIn(s.latest[i], a.workload))
    }
  }

  /** What is seen of a source is listed, settled as the last pass reported and busy as it last answered. */
  ghost predicate SourceSeen(i: nat, seen: map<nat, Verdicts>, reported: map<nat, seq<Outcome>>, latest: map<nat,
                             seq<Activity>>) {
    && (i in seen ==> seen[i].Listed())
    && (i in reported ==> i in seen && seen[i].settled == Recorded(map[], reported[i]).settled)
    && (i in latest ==> i in seen && seen[i].busy == ReadAll(latest[i]).1)
  }

  ghost predicate SeenAs(seen: map<nat, Verdicts>, reported: map<nat, seq<Outcome>>, latest: map<nat, seq<Activity>>) {
    forall i: nat :: SourceSeen(i, seen, reported, latest)
  }

  lemma AnswerIsSeen(seen: map<nat, Verdicts>, reported: map<nat, seq<Outcome>>, latest: map<nat, seq<Activity>>,
                     k: nat, activity: seq<Activity>)
    requires SeenAs(seen, reported, latest)
    ensures SeenAs(seen[k := Read(if k in seen then seen[k] else UNSEEN, activity)], reported, latest[k := activity])
  {
    var was := if k in seen then seen[k] else UNSEEN;
    assert SourceSeen(k, seen, reported, latest);
    ReadIs(was, activity);
    var (now, later) := (seen[k := Read(was, activity)], latest[k := activity]);
    forall i: nat ensures SourceSeen(i, now, reported, later) {
      assert SourceSeen(i, seen, reported, latest);
    }
  }

  lemma ReportIsSeen(seen: map<nat, Verdicts>, reported: map<nat, seq<Outcome>>, k: nat, outcomes: seq<Outcome>)
    requires SeenAs(seen, reported, map[])
    ensures SeenAs(seen[k := Recorded((if k in seen then seen[k] else UNSEEN).busy, outcomes)], reported[k := outcomes], map[])
  {
    var previous := (if k in seen then seen[k] else UNSEEN).busy;
    RecordedIsListed(previous, outcomes);
    SettledDoesNotDependOnBusy(previous, map[], outcomes);
    var (now, later) := (seen[k := Recorded(previous, outcomes)], reported[k := outcomes]);
    forall i: nat ensures SourceSeen(i, now, later, map[]) {
      assert SourceSeen(i, seen, reported, map[]);
    }
  }

  /** The last word of a pass on a workload is that it is settled. */
  ghost predicate SettledIn(outcomes: seq<Outcome>, workload: string) {
    LastSettled(outcomes, workload, true)
  }

  /** The last word of a look on a workload is that it is busy. */
  ghost predicate BusyIn(activity: seq<Activity>, workload: string) {
    var busy := ReadAll(activity).1;
    workload in busy && busy[workload]
  }

  lemma SettledDoesNotDependOnBusy(previous: map<string, bool>, other: map<string, bool>, outcomes: seq<Outcome>)
    ensures Recorded(previous, outcomes).settled == Recorded(other, outcomes).settled
  {
  }

  function Start(n: nat): State {
    State(n, map[], {}, false, Resting, Sleeping, map[], map[], None, 0)
  }

  function Run(n: nat, events: seq<Event>): State {
    if events == [] then Start(n)
    else
      var (before, last) := (Run(n, events[..|events| - 1]), events[|events| - 1]);
      if before.Enabled(last) then before.After(last) else before
  }

  /** A decision to reboot after a look every source answered saw nobody. */
  lemma ReconsiderSawNobody(s: State, inWindow: bool)
    requires s.Valid() && s.Enabled(Reconsider(inWindow)) && s.After(Reconsider(inWindow)).pass.Asking?
    ensures s.SawNobody(s.After(Reconsider(inWindow)).saw.value)
  {
    forall i | 0 <= i < s.n
      ensures forall o :: o in s.reported[i] ==> SettledIn(s.reported[i], o.workload)
      ensures forall a :: a in s.latest[i] ==> !BusyIn(s.latest[i], a.workload)
    {
      assert SourceSeen(i, s.seen, s.reported, s.latest);
      var settled := Recorded(map[], s.reported[i]).settled;
      RecordedIs(map[], s.reported[i]);
      forall o | o in s.reported[i] ensures SettledIn(s.reported[i], o.workload) {
        assert o.workload in settled;
        assert !settled[o.workload] ==> o.workload in s.Unsettled();
      }
      forall a | a in s.latest[i] ensures !BusyIn(s.latest[i], a.workload) {
        assert BusyIn(s.latest[i], a.workload) ==> a.workload in s.InUse();
      }
    }
  }

  lemma SourcePassedKeeps(s: State, outcomes: seq<Outcome>)
    requires s.Valid() && s.Enabled(SourcePassed(outcomes))
    ensures s.After(SourcePassed(outcomes)).Valid()
  {
    ReportIsSeen(s.seen, s.reported, s.pass.k, outcomes);
  }

  lemma LookAnsweredKeeps(s: State, activity: seq<Activity>)
    requires s.Valid() && s.Enabled(LookAnswered(activity))
    ensures s.After(LookAnswered(activity)).Valid()
  {
    AnswerIsSeen(s.seen, s.reported, s.latest, s.pass.k, activity);
  }

  lemma TickAnsweredKeeps(s: State, activity: seq<Activity>)
    requires s.Valid() && s.Enabled(TickAnswered(activity))
    ensures s.After(TickAnswered(activity)).Valid()
  {
    AnswerIsSeen(s.seen, s.reported, s.latest, s.tick.k, activity);
  }

  lemma DecisionKeeps(s: State, event: Event)
    requires s.Valid() && s.Enabled(event) && (event.Consider? || event.Reconsider? || event.Ask?)
    ensures s.After(event).Valid()
  {
    if event.Reconsider? && s.After(event).pass.Asking? {
      ReconsiderSawNobody(s, event.inWindow);
    }
  }

  lemma OtherStepKeeps(s: State, event: Event)
    requires s.Valid() && s.Enabled(event)
    requires event.StartPass? || event.Hold? || event.SourceFailed? || event.EndPass? || event.StartLook? || event.LookFailed?
             || event.EndLook? || event.StartTick? || event.TickFailed? || event.EndTick?
    ensures s.After(event).Valid()
  {
    var a := s.After(event);
    forall i: nat ensures SourceSeen(i, a.seen, a.reported, a.latest) {
      assert SourceSeen(i, s.seen, s.reported, s.latest);
    }
  }

  lemma StepKeeps(s: State, event: Event)
    requires s.Valid() && s.Enabled(event)
    ensures s.After(event).Valid()
  {
    match event
    case SourcePassed(outcomes) => SourcePassedKeeps(s, outcomes);
    case LookAnswered(activity) => LookAnsweredKeeps(s, activity);
    case TickAnswered(activity) => TickAnsweredKeeps(s, activity);
    case Consider(_, _) => DecisionKeeps(s, event);
    case Reconsider(_) => DecisionKeeps(s, event);
    case Ask(_) => DecisionKeeps(s, event);
    case _ => OtherStepKeeps(s, event);
  }

  lemma {:induction false} RunsAreValid(n: nat, events: seq<Event>)
    ensures Run(n, events).Valid() && Run(n, events).n == n
  {
    if events == [] {
    } else {
      var before := Run(n, events[..|events| - 1]);
      RunsAreValid(n, events[..|events| - 1]);
      if before.Enabled(events[|events| - 1]) {
        StepKeeps(before, events[|events| - 1]);
      }
    }
  }

  /** In every interleaving of passes and ticks: whenever logind is about to be asked, the decision to ask it
      saw nobody; workloads are held only while a pass has the turn; every workload either kind of verdict is
      about is listed once per source; and a reboot is accepted at most once, after which it is never asked for
      again. */
  lemma RebootsOnlyWhenNobodyIsThere(n: nat, events: seq<Event>)
    ensures var s := Run(n, events);
            && (forall accepted :: s.Enabled(Ask(accepted)) ==> s.saw.Some? && s.SawNobody(s.saw.value) && s.accepted == 0)
            && (s.held != {} ==> s.pass.Passing? && s.tick.Sleeping?)
            && (forall i :: i in s.seen ==> s.seen[i].Listed())
            && s.accepted <= 1
  {
    RunsAreValid(n, events);
    var s := Run(n, events);
    forall i | i in s.seen ensures s.seen[i].Listed() {
      assert SourceSeen(i, s.seen, s.reported, s.latest);
    }
  }

  /** A tick moves no settled flag, and a source that fails, in a pass, a look or a tick, keeps its verdicts. */
  lemma TicksNeverSettle(s: State, event: Event, source: nat)
    requires s.Valid() && s.Enabled(event)
    ensures event.TickAnswered? || event.LookAnswered? ==>
              s.After(event).VerdictsOf(source).settled == s.VerdictsOf(source).settled
    ensures event.TickFailed? || event.LookFailed? || event.SourceFailed? ==> s.After(event).seen == s.seen
    ensures s.pass.Passing? && source != s.pass.k ==> s.After(event).VerdictsOf(source) == s.VerdictsOf(source)
  {
  }
}
