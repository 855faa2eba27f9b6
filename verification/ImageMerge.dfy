/** Telling a container's own settings from its image's (internal/docker/recreate.go), against Docker's
    merge of the two at create (internal/docker/fake_docker_test.go, after moby's). */
module ImageMerge {
  import opened Wrappers

  /** An empty test or a zero is "not set". */
  datatype Healthcheck = Healthcheck(test: seq<string>, interval: int, timeout: int, retries: int, startPeriod: int,
                                     startInterval: int)
  {
    predicate Unset() {
      test == [] && interval == 0 && timeout == 0 && retries == 0 && startPeriod == 0 && startInterval == 0
    }
  }

  /** What Docker merges: a container's own settings, an image's defaults, or the two merged. An
      entrypoint may be absent or explicitly []; an empty cmd is an absent one. */
  datatype Settings = Settings(
    env: seq<string>,
    labels: map<string, string>,
    exposed: seq<string>,
    volumes: seq<string>,
    entrypoint: Option<seq<string>>,
    cmd: seq<string>,
    user: string,
    workingDir: string,
    stopSignal: string,
    healthcheck: Option<Healthcheck>)

  // ----- Docker's merge

  /** The name of an environment entry: what comes before its first '='. */
  function Key(entry: string): string {
    if entry == "" || entry[0] == '=' then "" else [entry[0]] + Key(entry[1..])
  }

  predicate HasKey(env: seq<string>, key: string) {
    exists i :: 0 <= i < |env| && Key(env[i]) == key
  }

  function AddMissing(env: seq<string>, image: seq<string>): seq<string>
    decreases |image|
  {
    if image == [] then env
    else AddMissing(if HasKey(env, Key(image[0])) then env else env + [image[0]], image[1..])
  }

  function MergeEnv(own: seq<string>, image: seq<string>): seq<string> {
    if own == [] then image else AddMissing(own, image)
  }

  function AddNew(own: seq<string>, image: seq<string>): seq<string>
    decreases |image|
  {
    if image == [] then own
    else AddNew(if image[0] in own then own else own + [image[0]], image[1..])
  }

  function MergeLabels(own: map<string, string>, image: map<string, string>): map<string, string> {
    image + own
  }

  function OrText(own: string, image: string): string {
    if own != "" then own else image
  }

  function OrInt(own: int, image: int): int {
    if own != 0 then own else image
  }

  function MergeHealthcheck(own: Option<Healthcheck>, image: Option<Healthcheck>): Option<Healthcheck> {
    if image.None? then own
    else if own.None? then image
    else
      var (o, i) := (own.value, image.value);
      Some(Healthcheck(
             if o.test == [] then i.test else o.test,
             OrInt(o.interval, i.interval), OrInt(o.timeout, i.timeout), OrInt(o.retries, i.retries),
             OrInt(o.startPeriod, i.startPeriod), OrInt(o.startInterval, i.startInterval)))
  }

  predicate HasEntrypoint(s: Settings) {
    s.entrypoint.Some? && s.entrypoint.value != []
  }

  function Merge(own: Settings, image: Settings): Settings {
    Settings(
      MergeEnv(own.env, image.env),
      MergeLabels(own.labels, image.labels),
      AddNew(own.exposed, image.exposed),
      AddNew(own.volumes, image.volumes),
      if own.entrypoint.None? then image.entrypoint else own.entrypoint,
      if !HasEntrypoint(own) && own.cmd == [] then image.cmd else own.cmd,
      OrText(own.user, image.user),
      OrText(own.workingDir, image.workingDir),
      OrText(own.stopSignal, image.stopSignal),
      MergeHealthcheck(own.healthcheck, image.healthcheck))
  }

  // ----- What a recreate takes back out

  function Less(entries: seq<string>, image: seq<string>): seq<string> {
    if entries == [] then []
    else (if entries[0] in image then [] else [entries[0]]) + Less(entries[1..], image)
  }

  function LessUnlessIn(entries: seq<string>, image: seq<string>, keep: set<string>): seq<string> {
    if entries == [] then []
    else (if entries[0] in keep || entries[0] !in image then [entries[0]] else []) + LessUnlessIn(entries[1..], image, keep)
  }

  function LessLabels(labels: map<string, string>, image: map<string, string>): map<string, string> {
    map k | k in labels && !(k in image && image[k] == labels[k]) :: labels[k]
  }

  function LessText(own: string, image: string): string {
    if own == image then "" else own
  }

  function LessInt(own: int, image: int): int {
    if own == image then 0 else own
  }

  function OwnHealthcheck(check: Option<Healthcheck>, image: Option<Healthcheck>): Option<Healthcheck> {
    if check.None? || image.None? then check
    else
      var (c, i) := (check.value, image.value);
      var own := Healthcheck(
                   if c.test == i.test then [] else c.test,
                   LessInt(c.interval, i.interval), LessInt(c.timeout, i.timeout), LessInt(c.retries, i.retries),
                   LessInt(c.startPeriod, i.startPeriod), LessInt(c.startInterval, i.startInterval));
      if own.Unset() then None else Some(own)
  }

  predicate OwnEntrypoint(spec: Settings, image: Settings) {
    spec.entrypoint != image.entrypoint || (spec.cmd == [] && image.cmd != [])
  }

  /** A container's merged settings less what they only have from their image. published: the container
      ports, as "80/tcp", that the container publishes. */
  function Strip(spec: Settings, published: set<string>, image: Settings): Settings {
    var own := OwnEntrypoint(spec, image);
    Settings(
      Less(spec.env, image.env),
      LessLabels(spec.labels, image.labels),
      LessUnlessIn(spec.exposed, image.exposed, published),
      Less(spec.volumes, image.volumes),
      if own then spec.entrypoint else None,
      if !(own && HasEntrypoint(spec)) && spec.cmd == image.cmd then [] else spec.cmd,
      LessText(spec.user, image.user),
      LessText(spec.workingDir, image.workingDir),
      LessText(spec.stopSignal, image.stopSignal),
      OwnHealthcheck(spec.healthcheck, image.healthcheck))
  }

  lemma LessAppend(a: seq<string>, b: seq<string>, image: seq<string>)
    ensures Less(a + b, image) == Less(a, image) + Less(b, image)
  {
    if a == [] {
      assert a + b == b;
    } else {
      assert (a + b)[1..] == a[1..] + b;
      LessAppend(a[1..], b, image);
    }
  }

  lemma LessUnlessInAppend(a: seq<string>, b: seq<string>, image: seq<string>, keep: set<string>)
    ensures LessUnlessIn(a + b, image, keep) == LessUnlessIn(a, image, keep) + LessUnlessIn(b, image, keep)
  {
    if a == [] {
      assert a + b == b;
    } else {
      assert (a + b)[1..] == a[1..] + b;
      LessUnlessInAppend(a[1..], b, image, keep);
    }
  }

  method WithoutEntries(entries: seq<string>, image: seq<string>) returns (own: seq<string>)
    ensures own == Less(entries, image)
  {
    own := [];
    for i := 0 to |entries|
      invariant own == Less(entries[..i], image)
    {
      assert entries[..i + 1] == entries[..i] + [entries[i]];
      LessAppend(entries[..i], [entries[i]], image);
      if entries[i] !in image {
        own := own + [entries[i]];
      }
    }
    assert entries[..|entries|] == entries;
  }

  method WithoutLabels(labels: map<string, string>, image: map<string, string>) returns (own: map<string, string>)
    ensures own == LessLabels(labels, image)
  {
    own := labels;
    var keys := image.Keys;
    while keys != {}
      invariant keys <= image.Keys
      invariant own == map k | k in labels && (k in keys || !(k in image && image[k] == labels[k])) :: labels[k]
      decreases keys
    {
      var key :| key in keys;
      if key in own && own[key] == image[key] {
        own := own - {key};
      }
      keys := keys - {key};
    }
  }

  method WithoutExposed(ports: seq<string>, bindings: seq<string>, image: seq<string>) returns (own: seq<string>)
    ensures own == LessUnlessIn(ports, image, Entries(bindings))
  {
    var published: set<string> := {};
    for i := 0 to |bindings|
      invariant published == Entries(bindings[..i])
    {
      published := published + {bindings[i]};
    }
    assert bindings[..|bindings|] == bindings;
    own := [];
    for i := 0 to |ports|
      invariant own == LessUnlessIn(ports[..i], image, published)
    {
      assert ports[..i + 1] == ports[..i] + [ports[i]];
      LessUnlessInAppend(ports[..i], [ports[i]], image, published);
      if ports[i] in published || ports[i] !in image {
        own := own + [ports[i]];
      }
    }
    assert ports[..|ports|] == ports;
  }

  /** Strip, computed entry by entry. bindings: the container ports it publishes, as "80/tcp". */
  method WithoutImageDefaults(spec: Settings, bindings: seq<string>, image: Settings) returns (own: Settings)
    ensures own == Strip(spec, Entries(bindings), image)
  {
    var env := WithoutEntries(spec.env, image.env);
    var labels := WithoutLabels(spec.labels, image.labels);
    var exposed := WithoutExposed(spec.exposed, bindings, image.exposed);
    var ownEntrypoint := spec.entrypoint != image.entrypoint || (|spec.cmd| == 0 && |image.cmd| > 0);
    var entrypoint, cmd := spec.entrypoint, spec.cmd;
    if !ownEntrypoint {
      entrypoint := None;
    }
    if !(ownEntrypoint && HasEntrypoint(spec)) && spec.cmd == image.cmd {
      cmd := [];
    }
    var volumes := WithoutEntries(spec.volumes, image.volumes);
    own := Settings(env, labels, exposed, volumes, entrypoint, cmd,
                    LessText(spec.user, image.user), LessText(spec.workingDir, image.workingDir),
                    LessText(spec.stopSignal, image.stopSignal), OwnHealthcheck(spec.healthcheck, image.healthcheck));
  }

  // ----- What that means

  function Entries(list: seq<string>): set<string> {
    set e | e in list
  }

  /** The same settings: what is exposed and what the volumes are is a set to Docker, however listed. */
  ghost predicate Same(a: Settings, b: Settings) {
    && Entries(a.exposed) == Entries(b.exposed)
    && Entries(a.volumes) == Entries(b.volumes)
    && a.(exposed := [], volumes := []) == b.(exposed := [], volumes := [])
  }

  ghost predicate DistinctKeys(env: seq<string>) {
    forall i, j :: 0 <= i < j < |env| ==> Key(env[i]) != Key(env[j])
  }

  /** The same settings, with the environment taken as the map it is. */
  ghost predicate Alike(a: Settings, b: Settings) {
    && Entries(a.env) == Entries(b.env)
    && Same(a.(env := []), b.(env := []))
  }

  /** own less whatever of it coincides with image, said of own alone: per entry for the lists and the
      labels, per field for the healthcheck, whole otherwise. An entrypoint that equals the image's stays
      own if it also set aside the image's cmd, and the cmd beside an entrypoint of its own is its own.
      The one thing gained is the image's published ports. */
  function OwnLess(own: Settings, published: set<string>, image: Settings): Settings {
    var setsAside := HasEntrypoint(own) && (own.entrypoint != image.entrypoint || (own.cmd == [] && image.cmd != []));
    Settings(
      Less(own.env, image.env),
      LessLabels(own.labels, image.labels),
      LessUnlessIn(AddNew(own.exposed, image.exposed), image.exposed, published),
      Less(own.volumes, image.volumes),
      if setsAside || own.entrypoint != image.entrypoint then own.entrypoint else None,
      if !setsAside && own.cmd == image.cmd then [] else own.cmd,
      LessText(own.user, image.user),
      LessText(own.workingDir, image.workingDir),
      LessText(own.stopSignal, image.stopSignal),
      OwnHealthcheck(own.healthcheck, image.healthcheck))
  }

  lemma LessMembers(entries: seq<string>, image: seq<string>)
    ensures forall e :: e in Less(entries, image) <==> e in entries && e !in image
  {
    if entries == [] {
    } else {
      LessMembers(entries[1..], image);
      assert entries == [entries[0]] + entries[1..];
    }
  }

  lemma LessUnlessInMembers(entries: seq<string>, image: seq<string>, keep: set<string>)
    ensures forall e :: e in LessUnlessIn(entries, image, keep) <==> e in entries && (e in keep || e !in image)
  {
    if entries == [] {
    } else {
      LessUnlessInMembers(entries[1..], image, keep);
      assert entries == [entries[0]] + entries[1..];
    }
  }

  lemma AddNewMembers(own: seq<string>, image: seq<string>)
    ensures forall e :: e in AddNew(own, image) <==> e in own || e in image
    decreases |image|
  {
    if image == [] {
    } else {
      AddNewMembers(if image[0] in own then own else own + [image[0]], image[1..]);
      assert image == [image[0]] + image[1..];
    }
  }

  /** Whatever AddMissing adds, Less takes out again. */
  lemma LessOfAddMissing(env: seq<string>, added: seq<string>, image: seq<string>)
    requires forall e :: e in added ==> e in image
    ensures Less(AddMissing(env, added), image) == Less(env, image)
    decreases |added|
  {
    if added == [] {
    } else {
      assert added[0] in image;
      LessAppend(env, [added[0]], image);
      LessOfAddMissing(if HasKey(env, Key(added[0])) then env else env + [added[0]], added[1..], image);
    }
  }

  lemma LessOfAll(entries: seq<string>, image: seq<string>)
    requires forall e :: e in entries ==> e in image
    ensures Less(entries, image) == []
  {
    LessMembers(entries, image);
    if Less(entries, image) != [] {
      assert Less(entries, image)[0] in Less(entries, image);
    }
  }

  lemma StripMergeEnv(own: seq<string>, image: seq<string>)
    ensures Less(MergeEnv(own, image), image) == Less(own, image)
  {
    if own == [] {
      LessOfAll(image, image);
    } else {
      LessOfAddMissing(own, image, image);
    }
  }

  lemma StripMergeLabels(own: map<string, string>, image: map<string, string>)
    ensures LessLabels(MergeLabels(own, image), image) == LessLabels(own, image)
  {
  }

  lemma StripMergeHealthcheck(own: Option<Healthcheck>, image: Option<Healthcheck>)
    ensures OwnHealthcheck(MergeHealthcheck(own, image), image) == OwnHealthcheck(own, image)
  {
  }

  lemma StripMergeEntrypoint(own: Settings, published: set<string>, image: Settings)
    ensures Strip(Merge(own, image), published, image).entrypoint == OwnLess(own, published, image).entrypoint
    ensures Strip(Merge(own, image), published, image).cmd == OwnLess(own, published, image).cmd
  {
  }

  lemma StripMergeVolumes(own: seq<string>, image: seq<string>)
    ensures Entries(Less(AddNew(own, image), image)) == Entries(Less(own, image))
  {
    LessMembers(own, image);
    LessMembers(AddNew(own, image), image);
    AddNewMembers(own, image);
  }

  /** Taking an image back out of what Docker merged with it leaves the container's own settings less
      what coincided with the image. */
  lemma StripUndoesMerge(own: Settings, published: set<string>, image: Settings)
    ensures Same(Strip(Merge(own, image), published, image), OwnLess(own, published, image))
  {
    StripMergeEnv(own.env, image.env);
    StripMergeLabels(own.labels, image.labels);
    StripMergeVolumes(own.volumes, image.volumes);
    StripMergeEntrypoint(own, published, image);
    StripMergeHealthcheck(own.healthcheck, image.healthcheck);
  }

  lemma MergeSame(a: Settings, b: Settings, image: Settings)
    requires Same(a, b)
    ensures Same(Merge(a, image), Merge(b, image))
  {
    AddNewMembers(a.exposed, image.exposed);
    AddNewMembers(b.exposed, image.exposed);
    AddNewMembers(a.volumes, image.volumes);
    AddNewMembers(b.volumes, image.volumes);
    assert forall e :: e in a.exposed <==> e in Entries(a.exposed);
    assert forall e :: e in b.exposed <==> e in Entries(b.exposed);
    assert forall e :: e in a.volumes <==> e in Entries(a.volumes);
    assert forall e :: e in b.volumes <==> e in Entries(b.volumes);
    SameFields(a, b);
  }

  lemma SameFields(a: Settings, b: Settings)
    requires Same(a, b)
    ensures a.env == b.env && a.labels == b.labels && a.entrypoint == b.entrypoint && a.cmd == b.cmd
    ensures a.user == b.user && a.workingDir == b.workingDir && a.stopSignal == b.stopSignal && a.healthcheck == b.healthcheck
  {
    var (x, y) := (a.(exposed := [], volumes := []), b.(exposed := [], volumes := []));
    assert x.env == y.env && x.labels == y.labels && x.entrypoint == y.entrypoint && x.cmd == y.cmd;
  }

  lemma StripSame(a: Settings, b: Settings, published: set<string>, image: Settings)
    requires Same(a, b)
    ensures Same(Strip(a, published, image), Strip(b, published, image))
  {
    SameFields(a, b);
    LessMembers(a.volumes, image.volumes);
    LessMembers(b.volumes, image.volumes);
    LessUnlessInMembers(a.exposed, image.exposed, published);
    LessUnlessInMembers(b.exposed, image.exposed, published);
    assert forall e :: e in a.exposed <==> e in Entries(a.exposed);
    assert forall e :: e in b.exposed <==> e in Entries(b.exposed);
    assert forall e :: e in a.volumes <==> e in Entries(a.volumes);
    assert forall e :: e in b.volumes <==> e in Entries(b.volumes);
  }

  /** A recreate on a newer image is a fresh create on it of the settings that did not coincide with the
      old one. */
  lemma RecreateIsFreshCreate(own: Settings, published: set<string>, v1: Settings, v2: Settings)
    ensures Same(Merge(Strip(Merge(own, v1), published, v1), v2), Merge(OwnLess(own, published, v1), v2))
  {
    StripUndoesMerge(own, published, v1);
    MergeSame(Strip(Merge(own, v1), published, v1), OwnLess(own, published, v1), v2);
  }

  /** Losing what coincided with v1 shows nowhere on v2: v2 sets the same, or it was not set to begin with. */
  ghost predicate NothingLostMatters(own: Settings, published: set<string>, v1: Settings, v2: Settings) {
    && (forall e :: e in own.env && e in v1.env ==> e in v2.env)
    && (forall k :: k in own.labels && k in v1.labels && own.labels[k] == v1.labels[k] ==>
          k in v2.labels && v2.labels[k] == own.labels[k])
    && (forall p :: p in own.exposed && p in v1.exposed && p !in published ==> p in v2.exposed)
    && (forall p :: p in published && p in v1.exposed ==> p in own.exposed || p in v2.exposed)
    && (forall v :: v in own.volumes && v in v1.volumes ==> v in v2.volumes)
    && EntrypointLossIsNone(own, v1, v2)
    && TextLossIsNone(own.user, v1.user, v2.user)
    && TextLossIsNone(own.workingDir, v1.workingDir, v2.workingDir)
    && TextLossIsNone(own.stopSignal, v1.stopSignal, v2.stopSignal)
    && HealthcheckLossIsNone(own.healthcheck, v1.healthcheck, v2.healthcheck)
  }

  ghost predicate TextLossIsNone(own: string, v1: string, v2: string) {
    own == "" || own != v1 || own == v2
  }

  ghost predicate EntrypointLossIsNone(own: Settings, v1: Settings, v2: Settings) {
    if HasEntrypoint(own) then
      || own.entrypoint != v1.entrypoint
      || (own.cmd == [] && v1.cmd != [])
      || (own.entrypoint == v2.entrypoint && (own.cmd == v1.cmd ==> own.cmd == v2.cmd))
    else
      && (own.entrypoint == v1.entrypoint == Some([]) ==> v2.entrypoint == Some([]))
      && (own.cmd == v1.cmd != [] ==> v2.cmd == own.cmd)
  }

  ghost predicate HealthcheckLossIsNone(own: Option<Healthcheck>, v1: Option<Healthcheck>, v2: Option<Healthcheck>) {
    own.Some? && v1.Some? ==>
      var (o, i) := (own.value, v1.value);
      && (o.Unset() ==> v2.Some?)
      && (o.test == i.test != [] ==> v2.Some? && v2.value.test == o.test)
      && (o.interval == i.interval != 0 ==> v2.Some? && v2.value.interval == o.interval)
      && (o.timeout == i.timeout != 0 ==> v2.Some? && v2.value.timeout == o.timeout)
      && (o.retries == i.retries != 0 ==> v2.Some? && v2.value.retries == o.retries)
      && (o.startPeriod == i.startPeriod != 0 ==> v2.Some? && v2.value.startPeriod == o.startPeriod)
      && (o.startInterval == i.startInterval != 0 ==> v2.Some? && v2.value.startInterval == o.startInterval)
  }

  /** The entry an environment with distinct keys ends up with is its own for its own keys, the image's for
      the others. */
  lemma AddMissingMembers(env: seq<string>, image: seq<string>)
    requires DistinctKeys(image)
    ensures forall e :: e in AddMissing(env, image) <==> e in env || (e in image && !HasKey(env, Key(e)))
    decreases |image|
  {
    if image == [] {
    } else {
      var e0 := image[0];
      var env' := if HasKey(env, Key(e0)) then env else env + [e0];
      AddMissingMembers(env', image[1..]);
      assert image == [e0] + image[1..];
      forall e ensures e in AddMissing(env, image) <==> e in env || (e in image && !HasKey(env, Key(e))) {
        assert HasKey(env, Key(e)) ==> HasKey(env', Key(e)) by {
          if i :| 0 <= i < |env| && Key(env[i]) == Key(e) { assert Key(env'[i]) == Key(e); }
        }
        if e in image[1..] {
          var j :| 0 <= j < |image[1..]| && image[1..][j] == e;
          assert Key(image[0]) != Key(image[j + 1]);
          assert HasKey(env', Key(e)) ==> HasKey(env, Key(e));
        }
        assert !HasKey(env, Key(e0)) ==> env'[|env|] == e0;
      }
    }
  }

  lemma MergeEnvMembers(own: seq<string>, image: seq<string>)
    requires DistinctKeys(image)
    ensures forall e :: e in MergeEnv(own, image) <==> e in own || (e in image && !HasKey(own, Key(e)))
  {
    AddMissingMembers(own, image);
  }

  lemma OtherEntryOtherKey(env: seq<string>, a: string, b: string)
    requires DistinctKeys(env) && a in env && b in env && a != b
    ensures Key(a) != Key(b)
  {
    var i :| 0 <= i < |env| && env[i] == a;
    var j :| 0 <= j < |env| && env[j] == b;
    assert i < j || j < i;
  }

  lemma LessHasNoMoreKeys(own: seq<string>, v1: seq<string>, key: string)
    ensures HasKey(Less(own, v1), key) ==> HasKey(own, key)
  {
    var less := Less(own, v1);
    LessMembers(own, v1);
    if HasKey(less, key) {
      var i :| 0 <= i < |less| && Key(less[i]) == key;
      assert less[i] in own;
    }
  }

  /** The key of an entry that coincides is lost with it. */
  lemma LostKey(own: seq<string>, v1: seq<string>, e: string)
    requires DistinctKeys(own) && e in own && e in v1
    ensures !HasKey(Less(own, v1), Key(e))
  {
    var less := Less(own, v1);
    LessMembers(own, v1);
    forall i | 0 <= i < |less| ensures Key(less[i]) != Key(e) {
      assert less[i] in less;
      OtherEntryOtherKey(own, less[i], e);
    }
  }

  /** Only the key of an entry that coincides is lost. */
  lemma LostKeyIsOfLostEntry(own: seq<string>, v1: seq<string>, key: string) returns (e: string)
    requires HasKey(own, key) && !HasKey(Less(own, v1), key)
    ensures e in own && e in v1 && Key(e) == key
  {
    var less := Less(own, v1);
    LessMembers(own, v1);
    var i :| 0 <= i < |own| && Key(own[i]) == key;
    e := own[i];
    assert e in less ==> HasKey(less, key);
  }

  lemma EnvLoss(own: seq<string>, v1: seq<string>, v2: seq<string>)
    requires DistinctKeys(own) && DistinctKeys(v2)
    ensures Entries(MergeEnv(Less(own, v1), v2)) == Entries(MergeEnv(own, v2)) <==> forall e :: e in own && e in v1 ==> e in v2
  {
    var less := Less(own, v1);
    LessMembers(own, v1);
    MergeEnvMembers(own, v2);
    MergeEnvMembers(less, v2);
    var (a, b) := (MergeEnv(less, v2), MergeEnv(own, v2));
    if Entries(a) == Entries(b) {
      forall e | e in own && e in v1 ensures e in v2 {
        assert e in Entries(b);
        assert e in Entries(a);
      }
    }
    if forall e :: e in own && e in v1 ==> e in v2 {
      forall e ensures e in a <==> e in b {
        EnvLossOfEntry(own, v1, v2, e);
      }
    }
  }

  lemma EnvLossOfEntry(own: seq<string>, v1: seq<string>, v2: seq<string>, e: string)
    requires DistinctKeys(own) && DistinctKeys(v2) && forall e :: e in own && e in v1 ==> e in v2
    ensures var less := Less(own, v1);
            e in less || (e in v2 && !HasKey(less, Key(e))) <==> e in own || (e in v2 && !HasKey(own, Key(e)))
  {
    var less := Less(own, v1);
    LessMembers(own, v1);
    LessHasNoMoreKeys(own, v1, Key(e));
    if e in own && e in v1 {
      LostKey(own, v1, e);
    }
    if e in v2 && HasKey(own, Key(e)) && !HasKey(less, Key(e)) {
      var lost := LostKeyIsOfLostEntry(own, v1, Key(e));
      if lost != e {
        OtherEntryOtherKey(v2, lost, e);
      }
    }
  }

  lemma LabelLoss(own: map<string, string>, v1: map<string, string>, v2: map<string, string>)
    ensures MergeLabels(LessLabels(own, v1), v2) == MergeLabels(own, v2) <==>
              forall k :: k in own && k in v1 && own[k] == v1[k] ==> k in v2 && v2[k] == own[k]
  {
    var (a, b) := (MergeLabels(LessLabels(own, v1), v2), MergeLabels(own, v2));
    if a == b {
      forall k | k in own && k in v1 && own[k] == v1[k] ensures k in v2 && v2[k] == own[k] {
        assert b[k] == own[k] && k in a;
      }
    }
    if forall k :: k in own && k in v1 && own[k] == v1[k] ==> k in v2 && v2[k] == own[k] {
      assert a.Keys == b.Keys;
      assert forall k :: k in a ==> a[k] == b[k];
    }
  }

  lemma ExposedLoss(own: seq<string>, published: set<string>, v1: seq<string>, v2: seq<string>)
    ensures var less := LessUnlessIn(AddNew(own, v1), v1, published);
            Entries(AddNew(less, v2)) == Entries(AddNew(own, v2)) <==>
              && (forall p :: p in own && p in v1 && p !in published ==> p in v2)
              && (forall p :: p in published && p in v1 ==> p in own || p in v2)
  {
    var less := LessUnlessIn(AddNew(own, v1), v1, published);
    LessUnlessInMembers(AddNew(own, v1), v1, published);
    AddNewMembers(own, v1);
    AddNewMembers(own, v2);
    AddNewMembers(less, v2);
    var (a, b) := (AddNew(less, v2), AddNew(own, v2));
    assert forall p :: p in a <==> p in Entries(a);
    assert forall p :: p in b <==> p in Entries(b);
  }

  lemma VolumeLoss(own: seq<string>, v1: seq<string>, v2: seq<string>)
    ensures Entries(AddNew(Less(own, v1), v2)) == Entries(AddNew(own, v2)) <==> forall v :: v in own && v in v1 ==> v in v2
  {
    LessMembers(own, v1);
    AddNewMembers(own, v2);
    AddNewMembers(Less(own, v1), v2);
    var (a, b) := (AddNew(Less(own, v1), v2), AddNew(own, v2));
    assert forall p :: p in a <==> p in Entries(a);
    assert forall p :: p in b <==> p in Entries(b);
  }

  lemma HealthcheckLoss(own: Option<Healthcheck>, v1: Option<Healthcheck>, v2: Option<Healthcheck>)
    ensures MergeHealthcheck(OwnHealthcheck(own, v1), v2) == MergeHealthcheck(own, v2) <==> HealthcheckLossIsNone(own, v1, v2)
  {
  }

  lemma EntrypointLoss(own: Settings, published: set<string>, v1: Settings, v2: Settings)
    ensures var (a, b) := (Merge(OwnLess(own, published, v1), v2), Merge(own, v2));
            a.entrypoint == b.entrypoint && a.cmd == b.cmd <==> EntrypointLossIsNone(own, v1, v2)
  {
  }

  /** Exactly when a recreate from v1 onto v2 gives what a fresh create of the same settings on v2 would. */
  lemma RecreateLosesNothingExactlyWhen(own: Settings, published: set<string>, v1: Settings, v2: Settings)
    requires DistinctKeys(own.env) && DistinctKeys(v2.env)
    ensures Alike(Merge(Strip(Merge(own, v1), published, v1), v2), Merge(own, v2)) <==> NothingLostMatters(own, published, v1, v2)
  {
    var less := OwnLess(own, published, v1);
    var recreated, again, anew := Merge(Strip(Merge(own, v1), published, v1), v2), Merge(less, v2), Merge(own, v2);
    RecreateIsFreshCreate(own, published, v1, v2);
    SameFields(recreated, again);
    EnvLoss(own.env, v1.env, v2.env);
    LabelLoss(own.labels, v1.labels, v2.labels);
    ExposedLoss(own.exposed, published, v1.exposed, v2.exposed);
    VolumeLoss(own.volumes, v1.volumes, v2.volumes);
    HealthcheckLoss(own.healthcheck, v1.healthcheck, v2.healthcheck);
    EntrypointLoss(own, published, v1, v2);
    AlikeFields(recreated, anew);
  }

  lemma AlikeFields(a: Settings, b: Settings)
    ensures Alike(a, b) <==>
              && Entries(a.env) == Entries(b.env) && a.labels == b.labels
              && Entries(a.exposed) == Entries(b.exposed) && Entries(a.volumes) == Entries(b.volumes)
              && a.entrypoint == b.entrypoint && a.cmd == b.cmd
              && a.user == b.user && a.workingDir == b.workingDir && a.stopSignal == b.stopSignal
              && a.healthcheck == b.healthcheck
  {
    if Alike(a, b) {
      SameFields(a.(env := []), b.(env := []));
    }
  }

  /** Recreating on the very same image changes nothing, whatever the container's own settings: what is
      taken out could not be told from the image's. */
  lemma RecreateOnTheSameImageIsIdentity(own: Settings, published: set<string>, image: Settings)
    requires DistinctKeys(own.env) && DistinctKeys(image.env)
    ensures Alike(Merge(Strip(Merge(own, image), published, image), image), Merge(own, image))
  {
    RecreateLosesNothingExactlyWhen(own, published, image, image);
  }

  /** A container created on the first of some images and recreated on each of the others in turn. */
  function Recreated(own: Settings, published: set<string>, images: seq<Settings>): Settings
    requires images != []
  {
    var last := images[|images| - 1];
    if |images| == 1 then Merge(own, last)
    else Merge(Strip(Recreated(own, published, images[..|images| - 1]), published, images[|images| - 2]), last)
  }

  function LessAll(own: Settings, published: set<string>, images: seq<Settings>): Settings {
    if images == [] then own
    else OwnLess(LessAll(own, published, images[..|images| - 1]), published, images[|images| - 1])
  }

  /** However many images it has been through, a container is a fresh create on the last one. */
  lemma {:induction false} RecreatedIsFreshCreateOnTheLast(own: Settings, published: set<string>, images: seq<Settings>)
    requires images != []
    ensures Same(Recreated(own, published, images),
                 Merge(LessAll(own, published, images[..|images| - 1]), images[|images| - 1]))
  {
    var left := images[..|images| - 1];
    if left == [] {
    } else {
      var last := left[|left| - 1];
      assert last == images[|images| - 2];
      var before := LessAll(own, published, left[..|left| - 1]);
      RecreatedIsFreshCreateOnTheLast(own, published, left);
      StripSame(Recreated(own, published, left), Merge(before, last), published, last);
      StripUndoesMerge(before, published, last);
      SameFields(Strip(Recreated(own, published, left), published, last), Strip(Merge(before, last), published, last));
      SameFields(Strip(Merge(before, last), published, last), OwnLess(before, published, last));
      MergeSame(Strip(Recreated(own, published, left), published, last), LessAll(own, published, left), images[|images| - 1]);
    }
  }

  ghost predicate SomeEnv(images: seq<Settings>, entry: string) {
    exists v :: v in images && entry in v.env
  }

  ghost predicate SomeLabel(images: seq<Settings>, key: string, value: string) {
    exists v :: v in images && key in v.labels && v.labels[key] == value
  }

  ghost predicate SomeExposed(images: seq<Settings>, port: string) {
    exists v :: v in images && port in v.exposed
  }

  ghost predicate SomeVolume(images: seq<Settings>, path: string) {
    exists v :: v in images && path in v.volumes
  }

  ghost predicate SomeUser(images: seq<Settings>, user: string) {
    exists v :: v in images && v.user == user
  }

  ghost predicate SomeWorkingDir(images: seq<Settings>, dir: string) {
    exists v :: v in images && v.workingDir == dir
  }

  ghost predicate SomeStopSignal(images: seq<Settings>, signal: string) {
    exists v :: v in images && v.stopSignal == signal
  }

  /** An image that takes an entrypoint of own's away: it has the same, and own's does not set its cmd aside. */
  ghost predicate TakesEntrypoint(own: Settings, image: Settings) {
    image.entrypoint == own.entrypoint && !(own.cmd == [] && image.cmd != [])
  }

  ghost predicate SomeTakesEntrypoint(images: seq<Settings>, own: Settings) {
    exists v :: v in images && TakesEntrypoint(own, v)
  }

  ghost predicate SomeEntrypoint(images: seq<Settings>, entrypoint: Option<seq<string>>) {
    exists v :: v in images && v.entrypoint == entrypoint
  }

  ghost predicate SomeCmd(images: seq<Settings>, cmd: seq<string>) {
    exists v :: v in images && v.cmd == cmd
  }

  /** Some image has the very cmd of own, and that one or one before it takes the entrypoint beside it away. */
  ghost predicate SomeTakesCmd(images: seq<Settings>, own: Settings) {
    exists i, j :: 0 <= i <= j < |images| && TakesEntrypoint(own, images[i]) && images[j].cmd == own.cmd
  }

  /** A number in a healthcheck. */
  datatype Field = Interval | Timeout | Retries | StartPeriod | StartInterval

  /** What a healthcheck, if there is one, sets a field to; 0 for not set. */
  ghost function Set(check: Option<Healthcheck>, field: Field): int {
    if check.None? then 0
    else
      match field
      case Interval => check.value.interval
      case Timeout => check.value.timeout
      case Retries => check.value.retries
      case StartPeriod => check.value.startPeriod
      case StartInterval => check.value.startInterval
  }

  ghost function Test(check: Option<Healthcheck>): seq<string> {
    if check.None? then [] else check.value.test
  }

  ghost predicate SomeHealthcheck(images: seq<Settings>) {
    exists v :: v in images && v.healthcheck.Some?
  }

  ghost predicate SomeTest(images: seq<Settings>, test: seq<string>) {
    exists v :: v in images && v.healthcheck.Some? && v.healthcheck.value.test == test
  }

  ghost predicate SomeSets(images: seq<Settings>, field: Field, value: int) {
    exists v :: v in images && v.healthcheck.Some? && Set(v.healthcheck, field) == value
  }

  /** Field by field, a healthcheck is left what no image's sets the same; and none is left once there was an
      image's and no field of it is. */
  ghost predicate HealthcheckLeft(own: Option<Healthcheck>, images: seq<Settings>, less: Option<Healthcheck>) {
    && Test(less) == (if SomeTest(images, Test(own)) then [] else Test(own))
    && (forall f :: Set(less, f) == if SomeSets(images, f, Set(own, f)) then 0 else Set(own, f))
    && (less.None? <==> own.None? || (SomeHealthcheck(images) && Test(less) == [] && forall f :: Set(less, f) == 0))
  }

  /** An entrypoint of own's stays, its cmd with it, unless some image takes it away; the cmd stays then, too,
      unless that image or a later one has the same. Without one, each goes by itself. */
  ghost predicate EntrypointLeft(own: Settings, images: seq<Settings>, less: Settings) {
    if HasEntrypoint(own) then
      && less.entrypoint == (if SomeTakesEntrypoint(images, own) then None else own.entrypoint)
      && less.cmd == (if SomeTakesCmd(images, own) then [] else own.cmd)
    else
      && less.entrypoint == (if SomeEntrypoint(images, own.entrypoint) then None else own.entrypoint)
      && less.cmd == (if SomeCmd(images, own.cmd) then [] else own.cmd)
  }

  lemma InOneMore(images: seq<Settings>)
    requires images != []
    ensures forall v :: v in images <==> v in images[..|images| - 1] || v == images[|images| - 1]
  {
    assert images == images[..|images| - 1] + [images[|images| - 1]];
  }

  lemma {:induction false} ListsLeft(own: Settings, published: set<string>, images: seq<Settings>)
    ensures var less := LessAll(own, published, images);
            && (forall e :: e in less.env <==> e in own.env && !SomeEnv(images, e))
            && (forall v :: v in less.volumes <==> v in own.volumes && !SomeVolume(images, v))
            && (forall p :: p !in published ==> (p in less.exposed <==> p in own.exposed && !SomeExposed(images, p)))
            && (forall p :: p in published ==> (p in less.exposed <==> p in own.exposed || SomeExposed(images, p)))
  {
    if images == [] {
    } else {
      var left, last := images[..|images| - 1], images[|images| - 1];
      ListsLeft(own, published, left);
      InOneMore(images);
      var before := LessAll(own, published, left);
      LessMembers(before.env, last.env);
      LessMembers(before.volumes, last.volumes);
      LessUnlessInMembers(AddNew(before.exposed, last.exposed), last.exposed, published);
      AddNewMembers(before.exposed, last.exposed);
    }
  }

  lemma {:induction false} LabelsLeft(own: Settings, published: set<string>, images: seq<Settings>)
    ensures var less := LessAll(own, published, images);
            && (forall k :: k in less.labels <==> k in own.labels && !SomeLabel(images, k, own.labels[k]))
            && (forall k :: k in less.labels ==> less.labels[k] == own.labels[k])
  {
    if images == [] {
    } else {
      LabelsLeft(own, published, images[..|images| - 1]);
      InOneMore(images);
    }
  }

  lemma {:induction false} TextsLeft(own: Settings, published: set<string>, images: seq<Settings>)
    ensures var less := LessAll(own, published, images);
            && less.user == (if SomeUser(images, own.user) then "" else own.user)
            && less.workingDir == (if SomeWorkingDir(images, own.workingDir) then "" else own.workingDir)
            && less.stopSignal == (if SomeStopSignal(images, own.stopSignal) then "" else own.stopSignal)
  {
    if images == [] {
    } else {
      TextsLeft(own, published, images[..|images| - 1]);
      InOneMore(images);
    }
  }

  lemma SomeTakesCmdOneMore(images: seq<Settings>, own: Settings)
    requires images != []
    ensures var last := images[|images| - 1];
            SomeTakesCmd(images, own) <==>
              || SomeTakesCmd(images[..|images| - 1], own)
              || (SomeTakesEntrypoint(images, own) && last.cmd == own.cmd)
  {
    var left, n := images[..|images| - 1], |images| - 1;
    if SomeTakesCmd(left, own) {
      var i, j :| 0 <= i <= j < |left| && TakesEntrypoint(own, left[i]) && left[j].cmd == own.cmd;
      assert TakesEntrypoint(own, images[i]) && images[j].cmd == own.cmd;
    }
    if SomeTakesEntrypoint(images, own) && images[n].cmd == own.cmd {
      var v :| v in images && TakesEntrypoint(own, v);
      var i :| 0 <= i <= n && images[i] == v;
      assert TakesEntrypoint(own, images[i]) && images[n].cmd == own.cmd;
    }
    if SomeTakesCmd(images, own) {
      var i, j :| 0 <= i <= j < |images| && TakesEntrypoint(own, images[i]) && images[j].cmd == own.cmd;
      if j < n {
        assert TakesEntrypoint(own, left[i]) && left[j].cmd == own.cmd;
      }
    }
  }

  lemma {:induction false} EntrypointsLeft(own: Settings, published: set<string>, images: seq<Settings>)
    ensures EntrypointLeft(own, images, LessAll(own, published, images))
  {
    if images == [] {
    } else {
      EntrypointsLeft(own, published, images[..|images| - 1]);
      InOneMore(images);
      SomeTakesCmdOneMore(images, own);
    }
  }

  lemma {:induction false} HealthchecksLeft(own: Settings, published: set<string>, images: seq<Settings>)
    ensures HealthcheckLeft(own.healthcheck, images, LessAll(own, published, images).healthcheck)
  {
    if images == [] {
    } else {
      HealthchecksLeft(own, published, images[..|images| - 1]);
      InOneMore(images);
      HealthcheckLeftOneMore(own.healthcheck, images, LessAll(own, published, images[..|images| - 1]).healthcheck);
    }
  }

  lemma HealthcheckLeftOneMore(own: Option<Healthcheck>, images: seq<Settings>, before: Option<Healthcheck>)
    requires images != [] && HealthcheckLeft(own, images[..|images| - 1], before)
    ensures HealthcheckLeft(own, images, OwnHealthcheck(before, images[|images| - 1].healthcheck))
  {
    InOneMore(images);
    var last := images[|images| - 1].healthcheck;
    var less := OwnHealthcheck(before, last);
    forall f ensures Set(less, f) == if last.Some? && Set(before, f) == Set(last, f) then 0 else Set(before, f) {
    }
    assert less.None? <==> before.None? || (last.Some? && Test(less) == [] && forall f :: Set(less, f) == 0) by {
      assert before.Some? && last.Some? && less.Some? ==>
          Test(less) != [] || Set(less, Interval) != 0 || Set(less, Timeout) != 0 || Set(less, Retries) != 0
          || Set(less, StartPeriod) != 0 || Set(less, StartInterval) != 0;
    }
  }

  /** What is left of own after some images is what coincided with none of them, entry by entry, field by field
      and whole, and nothing else but the ports of theirs it publishes; so nothing of an image it left leaks
      into what it becomes. */
  lemma LessAllIsWhatCoincidedWithNone(own: Settings, published: set<string>, images: seq<Settings>)
    ensures var less := LessAll(own, published, images);
            && (forall e :: e in less.env <==> e in own.env && !SomeEnv(images, e))
            && (forall k :: k in less.labels <==> k in own.labels && !SomeLabel(images, k, own.labels[k]))
            && (forall k :: k in less.labels ==> less.labels[k] == own.labels[k])
            && (forall v :: v in less.volumes <==> v in own.volumes && !SomeVolume(images, v))
            && (forall p :: p !in published ==> (p in less.exposed <==> p in own.exposed && !SomeExposed(images, p)))
            && (forall p :: p in published ==> (p in less.exposed <==> p in own.exposed || SomeExposed(images, p)))
            && less.user == (if SomeUser(images, own.user) then "" else own.user)
            && less.workingDir == (if SomeWorkingDir(images, own.workingDir) then "" else own.workingDir)
            && less.stopSignal == (if SomeStopSignal(images, own.stopSignal) then "" else own.stopSignal)
            && EntrypointLeft(own, images, less)
            && HealthcheckLeft(own.healthcheck, images, less.healthcheck)
  {
    ListsLeft(own, published, images);
    LabelsLeft(own, published, images);
    TextsLeft(own, published, images);
    EntrypointsLeft(own, published, images);
    HealthchecksLeft(own, published, images);
  }
}
