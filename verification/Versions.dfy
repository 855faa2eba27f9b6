/** Negotiating the Engine API version (internal/docker/version.go) and asking again, once, when a call is
    refused for it (do in internal/docker/client.go). */
module Versions {
  import opened Wrappers

  /** A dotted version's parts; one that is not a number counts as 0. */
  type Version = seq<int>

  function Part(v: Version, i: nat): int {
    if i < |v| then v[i] else 0
  }

  /** a comes before b: at the first part they differ in, if any, a's is smaller. */
  ghost predicate Before(a: Version, b: Version) {
    exists i: nat :: Part(a, i) < Part(b, i) && forall j: nat :: j < i ==> Part(a, j) == Part(b, j)
  }

  ghost predicate Equal(a: Version, b: Version) {
    forall i: nat :: Part(a, i) == Part(b, i)
  }

  /** -1, 0 or 1, by the first parts from the i-th on that differ. */
  function CompareFrom(a: Version, b: Version, i: nat): int
    decreases |a| + |b| - i
  {
    if i >= |a| && i >= |b| then 0
    else if Part(a, i) < Part(b, i) then -1
    else if Part(a, i) > Part(b, i) then 1
    else CompareFrom(a, b, i + 1)
  }

  function Compare(a: Version, b: Version): int {
    CompareFrom(a, b, 0)
  }

  /** The order says of two versions which comes before the other, and 0 only of equal ones. */
  lemma CompareIs(a: Version, b: Version)
    ensures Compare(a, b) == if Before(a, b) then -1 else if Before(b, a) then 1 else 0
    ensures Compare(a, b) == 0 <==> Equal(a, b)
  {
    CompareFromIs(a, b, 0);
  }

  lemma {:induction false} CompareFromIs(a: Version, b: Version, i: nat)
    requires forall j: nat :: j < i ==> Part(a, j) == Part(b, j)
    ensures CompareFrom(a, b, i) == if Before(a, b) then -1 else if Before(b, a) then 1 else 0
    ensures CompareFrom(a, b, i) == 0 <==> Equal(a, b)
    decreases |a| + |b| - i
  {
    if i >= |a| && i >= |b| {
      assert forall j: nat :: j >= i ==> Part(a, j) == 0 == Part(b, j);
    } else if Part(a, i) != Part(b, i) {
      DifferFirstAt(a, b, i);
    } else {
      CompareFromIs(a, b, i + 1);
    }
  }

  method CompareVersions(a: Version, b: Version) returns (order: int)
    ensures order == Compare(a, b)
  {
    var parts := if |a| > |b| then |a| else |b|;
    for i := 0 to parts
      invariant Compare(a, b) == CompareFrom(a, b, i)
    {
      var diff := Part(a, i) - Part(b, i);
      if diff != 0 {
        return if diff < 0 then -1 else 1;
      }
    }
    return 0;
  }

  lemma DifferFirstAt(a: Version, b: Version, i: nat)
    requires Part(a, i) != Part(b, i) && forall j: nat :: j < i ==> Part(a, j) == Part(b, j)
    ensures Before(a, b) <==> Part(a, i) < Part(b, i)
    ensures Before(b, a) <==> Part(b, i) < Part(a, i)
    ensures !Equal(a, b)
  {
    if Before(a, b) {
      var k: nat :| Part(a, k) < Part(b, k) && forall j: nat :: j < k ==> Part(a, j) == Part(b, j);
      assert k < i || i < k || i == k;
    }
    if Before(b, a) {
      var k: nat :| Part(b, k) < Part(a, k) && forall j: nat :: j < k ==> Part(b, j) == Part(a, j);
      assert k < i || i < k || i == k;
    }
  }

  /** Two versions that are not equal differ first somewhere. */
  lemma FirstDifference(a: Version, b: Version) returns (i: nat)
    requires !Equal(a, b)
    ensures Part(a, i) != Part(b, i) && forall j: nat :: j < i ==> Part(a, j) == Part(b, j)
  {
    var k: nat :| Part(a, k) != Part(b, k);
    i := 0;
    while Part(a, i) == Part(b, i)
      invariant i <= k && forall j: nat :: j < i ==> Part(a, j) == Part(b, j)
      decreases k - i
    {
      i := i + 1;
    }
  }

  /** The order is total: of any two versions exactly one comes first, or they are equal. */
  lemma OrderIsTotal(a: Version, b: Version)
    ensures Compare(a, b) == -Compare(b, a)
    ensures Compare(a, b) == 0 <==> Equal(a, b)
  {
    CompareIs(a, b);
    CompareIs(b, a);
    if !Equal(a, b) {
      var i := FirstDifference(a, b);
      DifferFirstAt(a, b, i);
    }
  }

  lemma OrderIsTransitive(a: Version, b: Version, c: Version)
    requires Compare(a, b) <= 0 && Compare(b, c) <= 0
    ensures Compare(a, c) <= 0
    ensures Compare(a, c) == 0 <==> Compare(a, b) == 0 && Compare(b, c) == 0
  {
    CompareIs(a, b);
    CompareIs(b, c);
    CompareIs(a, c);
    if Equal(a, b) {
      if !Equal(b, c) {
        var j := FirstDifference(b, c);
        DifferFirstAt(b, c, j);
        DifferFirstAt(a, c, j);
      }
    } else {
      var i := FirstDifference(a, b);
      DifferFirstAt(a, b, i);
      if Equal(b, c) {
        DifferFirstAt(a, c, i);
      } else {
        var j := FirstDifference(b, c);
        DifferFirstAt(b, c, j);
        DifferFirstAt(a, c, if i < j then i else j);
      }
    }
  }

  /** Trailing zero parts say nothing. */
  lemma TrailingZeroIsEqual(a: Version)
    ensures Compare(a + [0], a) == 0
  {
    assert forall i: nat :: Part(a + [0], i) == Part(a, i);
    CompareIs(a + [0], a);
  }

  const NEWEST_API: Version := [1, 56]

  /** The range of versions a daemon accepts; oldest is absent when it does not say. */
  datatype Offer = Offer(newest: Version, oldest: Option<Version>) {

    ghost predicate Accepts(v: Version) {
      Compare(v, newest) <= 0 && (oldest.Some? ==> Compare(oldest.value, v) <= 0)
    }

    ghost predicate NonEmpty() {
      oldest.Some? ==> Compare(oldest.value, newest) <= 0
    }
  }

  /** Within any range that is not empty, and beyond NEWEST_API only when the oldest is. */
  method Choose(offer: Offer) returns (version: Version)
    ensures offer.NonEmpty() ==> offer.Accepts(version)
    ensures Compare(version, NEWEST_API) > 0 ==> offer.oldest == Some(version)
    ensures version == offer.newest || version == NEWEST_API || offer.oldest == Some(version)
  {
    version := offer.newest;
    var beyond := CompareVersions(version, NEWEST_API);
    if beyond > 0 {
      version := NEWEST_API;
    }
    OrderIsTotal(offer.newest, NEWEST_API);
    OrderIsTotal(NEWEST_API, NEWEST_API);
    OrderIsTotal(offer.newest, offer.newest);
    if offer.oldest.Some? {
      var below := CompareVersions(version, offer.oldest.value);
      OrderIsTotal(version, offer.oldest.value);
      OrderIsTotal(offer.oldest.value, offer.oldest.value);
      if below < 0 {
        version := offer.oldest.value;
      }
    }
  }

  /** A daemon with a fixed range, which it may or may not manage to say, and which refuses a call for its
      version exactly outside it. */
  class Docker {
    const offer: Offer
    const says: bool
    // The versions of the calls it was sent.
    ghost var asked: seq<Version>

    constructor (offer: Offer, says: bool)
      ensures this.offer == offer && this.says == says && asked == []
    {
      this.offer, this.says := offer, says;
      asked := [];
    }

    method Call(version: Version) returns (refused: bool)
      modifies this
      ensures asked == old(asked) + [version]
      ensures refused <==> !offer.Accepts(version)
    {
      asked := asked + [version];
      var newer := CompareVersions(version, offer.newest);
      refused := newer > 0;
      if offer.oldest.Some? {
        var older := CompareVersions(offer.oldest.value, version);
        refused := refused || older > 0;
      }
    }
  }

  class Client {
    // The version negotiated, kept until a call is refused for it.
    var version: Option<Version>

    constructor ()
      ensures version == None
    {
      version := None;
    }

    /** The version to speak: the one kept, or one negotiated now - the newest this client asks for when
        the daemon cannot say. */
    method ApiVersion(docker: Docker) returns (v: Version)
      modifies this
      ensures version == Some(v)
      ensures old(version).Some? ==> v == old(version).value
      ensures old(version).None? && docker.says && docker.offer.NonEmpty() ==> docker.offer.Accepts(v)
      ensures old(version).None? && !docker.says ==> v == NEWEST_API
    {
      if version.Some? {
        return version.value;
      }
      if docker.says {
        v := Choose(docker.offer);
      } else {
        v := NEWEST_API;
      }
      version := Some(v);
    }

    method Forget(v: Version)
      modifies this
      ensures version == if old(version) == Some(v) then None else old(version)
    {
      if version == Some(v) {
        version := None;
      }
    }

    /** One request, asked again once if it is refused for its version. Whatever version was kept from before,
        at most two are sent, and from a daemon that says which versions it speaks the answer is never such a
        refusal; a version it accepts is asked for once, and is kept. */
    method Do(docker: Docker) returns (refused: bool)
      modifies this, docker
      ensures old(docker.asked) < docker.asked && |docker.asked| <= |old(docker.asked)| + 2
      ensures docker.says && docker.offer.NonEmpty() ==> !refused
      ensures old(version).Some? && docker.offer.Accepts(old(version).value) ==>
                !refused && version == old(version) && docker.asked == old(docker.asked) + [old(version).value]
      ensures !refused ==> version.Some? && docker.offer.Accepts(version.value)
      ensures version == Some(docker.asked[|docker.asked| - 1])
    {
      var v := ApiVersion(docker);
      refused := docker.Call(v);
      if refused {
        Forget(v);
        v := ApiVersion(docker);
        refused := docker.Call(v);
      }
    }
  }
}
