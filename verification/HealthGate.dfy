/** The health gate every swap must pass (internal/health): the rule that combines the checks, the poll that
    waits for a verdict, and the uptime check whose grace decides whether a broken version is caught. */
module HealthGates {
  import opened Wrappers

  datatype Result = Inconclusive | Pass | Fail | Skip

  /** Combine's verdict, None for "keep polling". */
  function Combine(results: seq<Result>, timedOut: bool): (verdict: Option<bool>)
    ensures verdict == Some(false) <==> Fail in results
    ensures verdict == Some(true) <==> Fail !in results && (timedOut || Inconclusive !in results)
  {
    if Fail in results then Some(false)
    else if timedOut then Some(true)
    else if Inconclusive in results then None
    else Some(true)
  }

  /** About two-thirds of the timeout, at most 30 and at least 2. All in whole seconds. */
  function UptimeSeconds(timeout: int): int {
    var part := if timeout >= 0 then timeout * 66 / 100 else -(-timeout * 66 / 100);
    var capped := if part < 30 then part else 30;
    if capped > 2 then capped else 2
  }

  /** The grace leaves room before the timeout for every timeout it can. */
  lemma UptimeSecondsLeavesRoom(timeout: int)
    ensures 2 <= UptimeSeconds(timeout) <= 30
    ensures UptimeSeconds(timeout) < timeout <==> timeout >= 3
  {
  }

  /** What an evaluation finds of the workload. bound is None when the sockets could not be read. */
  datatype Subject = Subject(running: bool, hasPorts: bool, bound: Option<bool>)

  /** One evaluation: how long until its clock is read and then until it is done, whether it erred, what it
      found of the workload, what the checks but uptime said, and how much longer than asked the sleep after
      it took. Times are in nanoseconds. */
  datatype Look = Look(before: nat, after: nat, erred: bool, subject: Subject, others: seq<Result>, overslept: nat)

  function Nanos(seconds: int): int {
    seconds * 1_000_000_000
  }

  /** What the uptime check says at a moment of a workload it first saw up at firstSeen. */
  function UptimeSays(grace: int, firstSeen: int, now: int, subject: Subject): Result {
    if !subject.running then Fail
    else if now - firstSeen < Nanos(grace) then Inconclusive
    else if !subject.hasPorts then Pass
    else match subject.bound
         case None => Inconclusive
         case Some(bound) => if bound then Pass else Fail
  }

  class Uptime {
    const seconds: int
    var firstSeen: Option<int>

    constructor (seconds: int)
      ensures this.seconds == seconds && firstSeen == None
    {
      this.seconds, firstSeen := seconds, None;
    }

    method Evaluate(now: int, subject: Subject) returns (result: Result)
      modifies this
      ensures firstSeen == if subject.running && old(firstSeen).None? then Some(now) else old(firstSeen)
      ensures result == UptimeSays(seconds, if firstSeen.Some? then firstSeen.value else now, now, subject)
    {
      if !subject.running {
        return Fail;
      }
      if firstSeen.None? {
        firstSeen := Some(now);
      }
      if now - firstSeen.value < Nanos(seconds) {
        return Inconclusive;
      }
      if !subject.hasPorts {
        return Pass;
      }
      match subject.bound
      case None => return Inconclusive;
      case Some(bound) => return if bound then Pass else Fail;
    }
  }

  /** A gate from a moment on: what its evaluations would meet, in order, its timeout in seconds, its poll, and
      whether uptime is one of its checks. */
  datatype Setup = Setup(looks: nat -> Look, start: int, seconds: nat, poll: nat, withUptime: bool) {

    function Deadline(): int {
      start + Nanos(seconds)
    }

    /** When the k-th evaluation begins, if it does. */
    function At(k: nat): int {
      if k == 0 then start
      else
        var look := looks(k - 1);
        At(k - 1) + look.before + look.after + poll + look.overslept
    }

    /** When the workload was first seen up, by the evaluations before the k-th. */
    function FirstSeen(k: nat): Option<int> {
      if k == 0 then None
      else if FirstSeen(k - 1).Some? then FirstSeen(k - 1)
      else if !looks(k - 1).erred && looks(k - 1).subject.running then Some(At(k - 1) + looks(k - 1).before)
      else None
    }

    /** What the checks say at the k-th. */
    function Results(k: nat): seq<Result> {
      var look := looks(k);
      var now := At(k) + look.before;
      look.others +
      if withUptime then [UptimeSays(UptimeSeconds(seconds), if FirstSeen(k).Some? then FirstSeen(k).value else now, now,
                                     look.subject)]
      else []
    }

    /** The k-th evaluation is the last look, at the deadline. */
    predicate TimedOut(k: nat) {
      At(k) >= Deadline()
    }

    /** The k-th evaluation says no: a check fails, or the evaluation itself errs before the deadline. */
    predicate SaysNo(k: nat) {
      if looks(k).erred then !TimedOut(k) else Fail in Results(k)
    }

    /** There is nothing to wait for after the k-th. */
    predicate Settles(k: nat) {
      TimedOut(k) || looks(k).erred || Combine(Results(k), false).Some?
    }

    /** The gate gets as far as the k-th evaluation. */
    ghost predicate Makes(k: nat) {
      forall j: nat :: j < k ==> !Settles(j)
    }
  }

  lemma AtIsAfterPolls(g: Setup, k: nat)
    ensures g.At(k) >= g.start + k * g.poll
  {
    if k == 0 {
    } else {
      AtIsAfterPolls(g, k - 1);
      assert k * g.poll == (k - 1) * g.poll + g.poll;
    }
  }

  /** ceil(timeout / poll). */
  function Polls(timeout: nat, poll: nat): nat
    requires poll > 0
  {
    (timeout + poll - 1) / poll
  }

  /** The gate has settled by the evaluation after ceil(timeout / poll) others, so it makes at most one more
      than that. */
  lemma SettlesInTime(g: Setup)
    requires g.poll > 0
    ensures g.Settles(Polls(Nanos(g.seconds), g.poll))
  {
    var up := Polls(Nanos(g.seconds), g.poll);
    AtIsAfterPolls(g, up);
    assert Nanos(g.seconds) + g.poll - 1 == up * g.poll + (Nanos(g.seconds) + g.poll - 1) % g.poll;
  }

  /** The gate, uncancelled: it settles at its last-th evaluation, and is unhealthy exactly when some evaluation
      it made says no, which can only be that one. */
  method Gate(g: Setup) returns (healthy: bool, last: nat)
    requires g.poll > 0
    ensures g.Makes(last) && g.Settles(last)
    ensures last <= Polls(Nanos(g.seconds), g.poll)
    ensures healthy <==> forall k: nat :: k <= last ==> !g.SaysNo(k)
  {
    var uptime := new Uptime(UptimeSeconds(g.seconds));
    var now := g.start;
    last := 0;
    while now < g.Deadline()
      invariant now == g.At(last) && g.Makes(last)
      invariant uptime.firstSeen == g.FirstSeen(last)
      invariant forall k: nat :: k < last ==> !g.SaysNo(k)
      decreases g.Deadline() - now
    {
      var look := g.looks(last);
      var results := Evaluate(g, last, now, uptime);
      if look.erred {
        AtMostPolls(g, last);
        assert g.SaysNo(last);
        return false, last;
      }
      var verdict := Combine(results, false);
      if verdict.Some? {
        AtMostPolls(g, last);
        assert verdict.value <==> !g.SaysNo(last);
        return verdict.value, last;
      }
      now := now + look.before + look.after + g.poll + look.overslept;
      last := last + 1;
    }
    var look := g.looks(last);
    var results := Evaluate(g, last, now, uptime);
    AtMostPolls(g, last);
    var verdict := Combine(if look.erred then [] else results, true);
    assert g.TimedOut(last);
    assert verdict.value <==> !g.SaysNo(last);
    return verdict.value, last;
  }

  /** One evaluation of the checks, the stateful one among them; what one that errs leaves behind is nothing. */
  method Evaluate(g: Setup, k: nat, now: int, uptime: Uptime) returns (results: seq<Result>)
    requires now == g.At(k) && uptime.firstSeen == g.FirstSeen(k) && uptime.seconds == UptimeSeconds(g.seconds)
    modifies uptime
    ensures !g.looks(k).erred ==> results == g.Results(k)
    ensures uptime.firstSeen == g.FirstSeen(k + 1)
  {
    var look := g.looks(k);
    results := look.others;
    if !look.erred {
      var mine := uptime.Evaluate(now + look.before, look.subject);
      if g.withUptime {
        results := results + [mine];
      }
    }
  }

  lemma AtMostPolls(g: Setup, last: nat)
    requires g.poll > 0 && g.Makes(last)
    ensures last <= Polls(Nanos(g.seconds), g.poll)
  {
    SettlesInTime(g);
  }

  /** Down, or up with ports none of which is bound. */
  predicate NeverServes(look: Look) {
    !look.erred && (look.subject.running ==> look.subject.hasPorts && look.subject.bound == Some(false))
  }

  /** With the uptime check, a gate never says yes of a workload that never serves, though one that times out
      says yes: for any timeout of 3s or more, so long as the first look reads its clock no later than the grace
      before the deadline. */
  lemma NeverServingIsNeverHealthy(g: Setup, last: nat)
    requires g.withUptime && g.seconds >= 3
    requires g.Makes(last) && g.Settles(last)
    requires forall k: nat :: k <= last ==> NeverServes(g.looks(k))
    requires g.looks(0).before <= Nanos(g.seconds - UptimeSeconds(g.seconds))
    ensures g.SaysNo(last)
  {
    var look := g.looks(last);
    var results := g.Results(last);
    var uptime := results[|look.others|];
    assert uptime in results;
    if look.subject.running {
      SeenAtTheFirst(g, last);
    }
  }

  /** It was first seen up, if it still is, at the first look: down, it would have failed there. */
  lemma SeenAtTheFirst(g: Setup, k: nat)
    requires g.withUptime && g.seconds >= 3
    requires g.Makes(k) && NeverServes(g.looks(0))
    ensures k > 0 ==> g.FirstSeen(k) == Some(g.start + g.looks(0).before)
  {
    if k == 0 {
    } else if k == 1 {
      var results := g.Results(0);
      assert results[|g.looks(0).others|] in results;
      assert !g.Settles(0);
    } else {
      SeenAtTheFirst(g, k - 1);
    }
  }
}
