/** The request that recreates a container (CreateBody in internal/docker/recreate.go): what docker inspect
    said of it, passed back as it said it, less two short lists. */
module CreateBodies {
  import opened Wrappers
  import opened Versions
  import opened ImageMerge

  /** A key Docker writes: one the code names, or any other. */
  datatype Key =
    // of a container's config
    | ImageKey | EnvKey | LabelsKey | CmdKey | EntrypointKey | ExposedPortsKey | VolumesKey | UserKey | WorkingDirKey
    | StopSignalKey | HealthcheckKey | HostnameKey | MacAddressKey
    // of a healthcheck
    | TestKey | IntervalKey | TimeoutKey | RetriesKey | StartPeriodKey | StartIntervalKey
    // of a host config
    | MaskedPathsKey | ReadonlyPathsKey | NetworkModeKey
    // of an endpoint
    | NetworkIDKey | EndpointIDKey | GatewayKey | IPAddressKey | IPPrefixLenKey | IPv6GatewayKey | GlobalIPv6AddressKey
    | GlobalIPv6PrefixLenKey | DNSNamesKey | AliasesKey
    | OtherKey(name: string)

  /** A value as Docker wrote it. */
  datatype Json =
    | Text(text: string)
    | Texts(texts: seq<string>)
    | Number(number: int)
    | Fields(fields: map<Key, Json>)
    | Other(raw: string)

  type Object = map<Key, Json>

  datatype Inspect = Inspect(id: string, version: Version, config: Object, host: Object, endpoints: map<string, Object>)

  /** own is the container's own settings; hasCmd tells a cmd of [] from none. */
  datatype Spec = Spec(image: string, own: Settings, hasCmd: bool, networks: seq<string>, inspected: Option<Inspect>)

  /** The body of a create, its HostConfig, and the endpoint of its own network if it has one. */
  datatype Request = Request(config: Object, host: Object, endpoint: Option<(string, Object)>)

  function Get(o: Object, key: Key): Option<Json> {
    if key in o then Some(o[key]) else None
  }

  function SetOf(keys: seq<string>): Json {
    Fields(map k | k in Named(keys) :: Fields(map[]))
  }

  function Named(names: seq<string>): set<Key> {
    set n | n in names :: OtherKey(n)
  }

  function LabelFields(labels: map<string, string>): Json {
    Fields(map l | l in labels :: OtherKey(l) := Text(labels[l]))
  }

  function ShortId(i: Inspect): Option<string> {
    if |i.id| >= 12 then Some(i.id[..12]) else None
  }

  /** A setting of the container's own, or nothing, so that the new image's takes effect. */
  function TextOr(text: string): Option<Json> {
    if text == "" then None else Some(Text(text))
  }

  /** A known field that a healthcheck leaves to the image. */
  predicate LeftToImage(own: Healthcheck, field: Key) {
    match field
    case TestKey => own.test == []
    case IntervalKey => own.interval == 0
    case TimeoutKey => own.timeout == 0
    case RetriesKey => own.retries == 0
    case StartPeriodKey => own.startPeriod == 0
    case StartIntervalKey => own.startInterval == 0
    case _ => false
  }

  /** Operational data of an endpoint, which a new one is given afresh. */
  predicate IsOperational(key: Key) {
    || key.NetworkIDKey? || key.EndpointIDKey? || key.GatewayKey? || key.IPAddressKey? || key.IPPrefixLenKey?
    || key.IPv6GatewayKey? || key.GlobalIPv6AddressKey? || key.GlobalIPv6PrefixLenKey? || key.DNSNamesKey? || key.MacAddressKey?
  }

  /** What a version of the Engine API has, of what the requests below turn on: a MAC address on an endpoint at
      create, no short id among the aliases it shows, no MAC address in the config it shows, and a MAC address
      on an endpoint at connect. */
  datatype Api = Api(endpointMac: bool, aliasesWithoutId: bool, inspectEndpointMac: bool, connectMac: bool)

  function ApiOf(v: Version): Api {
    Api(Compare(v, [1, 44]) >= 0, Compare(v, [1, 45]) >= 0, Compare(v, [1, 52]) >= 0, Compare(v, [1, 54]) >= 0)
  }

  method ReadApi(v: Version) returns (api: Api)
    ensures api == ApiOf(v)
  {
    var endpointMac := CompareVersions(v, [1, 44]);
    var aliases := CompareVersions(v, [1, 45]);
    var inspectMac := CompareVersions(v, [1, 52]);
    var connectMac := CompareVersions(v, [1, 54]);
    api := Api(endpointMac >= 0, aliases >= 0, inspectMac >= 0, connectMac >= 0);
  }

  method SetOr(o: Object, key: Key, value: Option<Json>) returns (into: Object)
    ensures Get(into, key) == value
    ensures forall k :: k != key ==> Get(into, k) == Get(o, k)
  {
    into := if value.Some? then o[key := value.value] else o - {key};
  }

  /** The container's own healthcheck: as inspect gave it, whatever of it is not known, less each field left to
      the image. */
  function HealthcheckBody(inspected: Option<Json>, own: Healthcheck): Json {
    var fields := if inspected.Some? && inspected.value.Fields? then inspected.value.fields else map[];
    Fields(map f | f in fields && !LeftToImage(own, f) :: fields[f])
  }

  /** What an overridden setting goes out as: the container's own, or nothing, so that the new image's takes
      effect. */
  ghost function OwnValue(spec: Spec, config: Object, key: Key): Option<Json> {
    var own := spec.own;
    match key
    case ImageKey => Some(Text(spec.image))
    case EnvKey => Some(Texts(own.env))
    case LabelsKey => Some(LabelFields(own.labels))
    case CmdKey => if spec.hasCmd then Some(Texts(own.cmd)) else None
    case EntrypointKey => if own.entrypoint.Some? then Some(Texts(own.entrypoint.value)) else None
    case ExposedPortsKey => if own.exposed == [] then None else Some(SetOf(own.exposed))
    case VolumesKey => if own.volumes == [] then None else Some(SetOf(own.volumes))
    case UserKey => TextOr(own.user)
    case WorkingDirKey => TextOr(own.workingDir)
    case StopSignalKey => TextOr(own.stopSignal)
    case HealthcheckKey =>
      if own.healthcheck.Some? then Some(HealthcheckBody(Get(config, HealthcheckKey), own.healthcheck.value)) else None
    case _ => Get(config, key)
  }

  /** Docker's default hostname is the container's own short id. */
  predicate IsDefaultHostname(config: Object, inspected: Inspect) {
    ShortId(inspected).Some? && Get(config, HostnameKey) == Some(Text(ShortId(inspected).value))
  }

  /** How many settings are overridden, and where each comes among them; SETTINGS for any other. */
  const SETTINGS: nat := 11

  function Rank(key: Key): nat {
    match key
    case ImageKey => 0
    case EnvKey => 1
    case LabelsKey => 2
    case CmdKey => 3
    case EntrypointKey => 4
    case ExposedPortsKey => 5
    case VolumesKey => 6
    case UserKey => 7
    case WorkingDirKey => 8
    case StopSignalKey => 9
    case HealthcheckKey => 10
    case _ => SETTINGS
  }

  /** The first n settings are the container's own, the rest as config has them. */
  ghost predicate AreOwn(into: Object, config: Object, spec: Spec, n: nat) {
    forall k {:trigger Get(into, k)} :: Get(into, k) == if Rank(k) < n then OwnValue(spec, config, k) else Get(config, k)
  }

  /** One setting more, to the value that is the container's own. */
  method SetNext(into: Object, key: Key, value: Option<Json>, ghost config: Object, ghost spec: Spec) returns (next: Object)
    requires Rank(key) < SETTINGS && AreOwn(into, config, spec, Rank(key)) && value == OwnValue(spec, config, key)
    ensures AreOwn(next, config, spec, Rank(key) + 1)
  {
    next := SetOr(into, key, value);
  }

  method OverrideProcess(config: Object, spec: Spec) returns (into: Object)
    ensures AreOwn(into, config, spec, Rank(ExposedPortsKey))
  {
    var own := spec.own;
    into := SetNext(config, ImageKey, Some(Text(spec.image)), config, spec);
    into := SetNext(into, EnvKey, Some(Texts(own.env)), config, spec);
    into := SetNext(into, LabelsKey, Some(LabelFields(own.labels)), config, spec);
    into := SetNext(into, CmdKey, if spec.hasCmd then Some(Texts(own.cmd)) else None, config, spec);
    into := SetNext(into, EntrypointKey, if own.entrypoint.Some? then Some(Texts(own.entrypoint.value)) else None, config, spec);
  }

  method OverrideRest(into: Object, spec: Spec, check: Option<Json>, ghost config: Object) returns (next: Object)
    requires AreOwn(into, config, spec, Rank(ExposedPortsKey)) && check == OwnValue(spec, config, HealthcheckKey)
    ensures AreOwn(next, config, spec, SETTINGS)
  {
    var own := spec.own;
    next := SetNext(into, ExposedPortsKey, if |own.exposed| > 0 then Some(SetOf(own.exposed)) else None, config, spec);
    next := SetNext(next, VolumesKey, if |own.volumes| > 0 then Some(SetOf(own.volumes)) else None, config, spec);
    next := SetNext(next, UserKey, TextOr(own.user), config, spec);
    next := SetNext(next, WorkingDirKey, TextOr(own.workingDir), config, spec);
    next := SetNext(next, StopSignalKey, TextOr(own.stopSignal), config, spec);
    next := SetNext(next, HealthcheckKey, check, config, spec);
  }

  method OverrideConfig(config: Object, spec: Spec, inspected: Inspect) returns (into: Object)
    ensures forall k :: k != HostnameKey ==> Get(into, k) == OwnValue(spec, config, k)
    ensures Get(into, HostnameKey) == if IsDefaultHostname(config, inspected) then None else Get(config, HostnameKey)
  {
    var own := spec.own.healthcheck;
    into := OverrideProcess(config, spec);
    into := OverrideRest(into, spec, if own.Some? then Some(HealthcheckBody(Get(config, HealthcheckKey), own.value)) else None,
                         config);
    ghost var all := into;
    assert Get(all, HostnameKey) == Get(config, HostnameKey);
    if IsDefaultHostname(into, inspected) {
      into := into - {HostnameKey};
    }
    assert forall k :: k != HostnameKey ==> Get(into, k) == Get(all, k);
  }

  predicate IsNonEmptyList(value: Option<Json>) {
    value.Some? && value.value.Texts? && value.value.texts != []
  }

  /** A host config goes out as inspect gave it, was, less the lists Docker fills in. */
  ghost predicate HostIs(was: Object, host: Object) {
    forall k :: Get(host, k) ==
                if (k.MaskedPathsKey? || k.ReadonlyPathsKey?) && IsNonEmptyList(Get(was, k)) then None else Get(was, k)
  }

  method OverrideHost(host: Object) returns (into: Object)
    ensures HostIs(host, into)
  {
    into := host;
    if IsNonEmptyList(Get(into, MaskedPathsKey)) {
      into := into - {MaskedPathsKey};
    }
    if IsNonEmptyList(Get(into, ReadonlyPathsKey)) {
      into := into - {ReadonlyPathsKey};
    }
  }

  function EndpointOf(inspected: Inspect, network: string): Object {
    if network in inspected.endpoints then inspected.endpoints[network] else map[]
  }

  /** The address inspect can say is the container's own on network, "" for none; said is the API it was read in. */
  function MacAddress(inspected: Inspect, said: Api, network: string, own: bool): string {
    var value := if said.inspectEndpointMac then Get(EndpointOf(inspected, network), MacAddressKey)
                 else if own then Get(inspected.config, MacAddressKey)
                 else None;
    if value.Some? && value.value.Text? then value.value.text else ""
  }

  function Without(entries: seq<string>, entry: string): seq<string> {
    if entries == [] then []
    else (if entries[0] == entry then [] else [entries[0]]) + Without(entries[1..], entry)
  }

  /** Every entry is kept but the one, each as often as it was. */
  lemma {:induction false} WithoutIs(entries: seq<string>, entry: string)
    ensures multiset(Without(entries, entry)) == multiset(entries)[entry := 0]
  {
    if entries == [] {
    } else {
      WithoutIs(entries[1..], entry);
      assert entries == [entries[0]] + entries[1..];
    }
  }

  /** And they are kept in the order they were in. */
  lemma {:induction false} WithoutKeepsOrder(before: seq<string>, after: seq<string>, entry: string)
    ensures Without(before + after, entry) == Without(before, entry) + Without(after, entry)
  {
    if before == [] {
      assert before + after == after;
    } else {
      var (all, head) := (before + after, if before[0] == entry then [] else [before[0]]);
      assert all[0] == before[0] && all[1..] == before[1..] + after;
      WithoutKeepsOrder(before[1..], after, entry);
      var (left, right) := (Without(before[1..], entry), Without(after, entry));
      assert Without(all, entry) == head + (left + right) == (head + left) + right;
    }
  }

  /** An alias of the old container's short id, which inspect adds in an older API, is not passed back. */
  function Aliases(inspected: Inspect, said: Api, value: Option<Json>): Option<Json> {
    if value.Some? && value.value.Texts? && !said.aliasesWithoutId && ShortId(inspected).Some?
    then Some(Texts(Without(value.value.texts, ShortId(inspected).value)))
    else value
  }

  /** What attaches a container to a network is as inspect gave it, less what is operational; its aliases
      and an address that is the container's own depend on the versions. */
  ghost predicate EndpointIs(i: Inspect, said: Api, speaks: Api, network: string, create: bool, endpoint: Object) {
    var was := EndpointOf(i, network);
    var mac := MacAddress(i, said, network, create);
    && (forall k :: !IsOperational(k) && k != AliasesKey ==> Get(endpoint, k) == Get(was, k))
    && (forall k :: IsOperational(k) && k != MacAddressKey ==> k !in endpoint)
    && Get(endpoint, MacAddressKey) ==
       (if mac != "" && (if create then speaks.endpointMac else speaks.connectMac) then Some(Text(mac)) else None)
    && Get(endpoint, AliasesKey) == Aliases(i, said, Get(was, AliasesKey))
  }

  /** What attaches the container to network, at create or connect, in the API spoken. */
  method EndpointBody(inspected: Inspect, said: Api, network: string, create: bool, speaks: Api) returns (endpoint: Object)
    ensures EndpointIs(inspected, said, speaks, network, create, endpoint)
  {
    var was := EndpointOf(inspected, network);
    endpoint := map k | k in was && !IsOperational(k) :: was[k];
    var mac := MacAddress(inspected, said, network, create);
    if mac != "" && (if create then speaks.endpointMac else speaks.connectMac) {
      endpoint := endpoint[MacAddressKey := Text(mac)];
    }
    if AliasesKey in endpoint {
      endpoint := endpoint[AliasesKey := Aliases(inspected, said, Some(endpoint[AliasesKey])).value];
    }
  }

  predicate IsPrefix(prefix: string, text: string) {
    prefix <= text
  }

  /** A container on another's network shows that one's hostname, which create refuses. */
  predicate SharesNetwork(host: Object) {
    var mode := Get(host, NetworkModeKey);
    mode.Some? && mode.value.Text? && IsPrefix("container:", mode.value.text)
  }

  /** The config goes out as inspect gave it, but for the settings overridden, a hostname that is Docker's or
      another's, and a MAC address. */
  ghost predicate ConfigIs(spec: Spec, i: Inspect, host: Object, mac: Option<Json>, config: Object) {
    && (forall k :: Rank(k) == SETTINGS && k != HostnameKey && k != MacAddressKey ==> Get(config, k) == Get(i.config, k))
    && (forall k :: Rank(k) < SETTINGS ==> Get(config, k) == OwnValue(spec, i.config, k))
    && Get(config, HostnameKey) ==
       (if IsDefaultHostname(i.config, i) || SharesNetwork(host) then None else Get(i.config, HostnameKey))
    && Get(config, MacAddressKey) == mac
  }

  /** An address that is the container's own goes back in its config, for an API whose endpoints take none. */
  function ConfigMac(spec: Spec, i: Inspect, said: Api, speaks: Api): Option<Json> {
    if spec.networks == [] || speaks.endpointMac || MacAddress(i, said, spec.networks[0], true) == "" then None
    else Some(Text(MacAddress(i, said, spec.networks[0], true)))
  }

  /** The create that recreates a container; none without an inspect of it. Every setting not on one of the
      lists goes out as inspect gave it, and nothing is added; an address that is the container's own goes
      back in exactly one place. */
  method CreateBody(spec: Spec, version: Version) returns (request: Option<Request>)
    ensures request.None? <==> spec.inspected.None?
    ensures request.Some? ==>
              var (i, r) := (spec.inspected.value, request.value);
              var (said, speaks) := (ApiOf(i.version), ApiOf(version));
              && ConfigIs(spec, i, r.host, ConfigMac(spec, i, said, speaks), r.config) && HostIs(i.host, r.host)
              && (r.endpoint.None? <==> spec.networks == [])
              && (r.endpoint.Some? ==>
                    && r.endpoint.value.0 == spec.networks[0]
                    && EndpointIs(i, said, speaks, spec.networks[0], true, r.endpoint.value.1))
  {
    if spec.inspected.None? {
      return None;
    }
    var i := spec.inspected.value;
    var said := ReadApi(i.version);
    var speaks := ReadApi(version);
    var host := OverrideHost(i.host);
    var config := ConfigBody(spec, i, host, said, speaks);
    var endpoint := None;
    if spec.networks != [] {
      var body := EndpointBody(i, said, spec.networks[0], true, speaks);
      endpoint := Some((spec.networks[0], body));
    }
    return Some(Request(config, host, endpoint));
  }

  /** The overridden config, less the name of a host that is another's. */
  method NamedConfig(spec: Spec, i: Inspect, host: Object) returns (config: Object)
    ensures forall k :: Rank(k) == SETTINGS && k != HostnameKey ==> Get(config, k) == Get(i.config, k)
    ensures forall k :: Rank(k) < SETTINGS ==> Get(config, k) == OwnValue(spec, i.config, k)
    ensures Get(config, HostnameKey) ==
            if IsDefaultHostname(i.config, i) || SharesNetwork(host) then None else Get(i.config, HostnameKey)
  {
    var overridden := OverrideConfig(i.config, spec, i);
    config := overridden;
    if SharesNetwork(host) {
      config := config - {HostnameKey};
    }
    assert forall k :: k != HostnameKey ==> Get(config, k) == Get(overridden, k);
    assert forall k :: Rank(k) == SETTINGS ==> OwnValue(spec, i.config, k) == Get(i.config, k);
  }

  method ConfigBody(spec: Spec, i: Inspect, host: Object, said: Api, speaks: Api) returns (config: Object)
    ensures ConfigIs(spec, i, host, ConfigMac(spec, i, said, speaks), config)
  {
    var named := NamedConfig(spec, i, host);
    config := named - {MacAddressKey};
    if spec.networks != [] {
      var mac := MacAddress(i, said, spec.networks[0], true);
      if mac != "" && !speaks.endpointMac {
        config := config[MacAddressKey := Text(mac)];
      }
    }
    assert forall k :: k != MacAddressKey ==> Get(config, k) == Get(named, k);
  }

  function ReadTexts(value: Option<Json>): seq<string> {
    if value.Some? && value.value.Texts? then value.value.texts else []
  }

  function ReadNumber(value: Option<Json>): int {
    if value.Some? && value.value.Number? then value.value.number else 0
  }

  /** What some fields say of a healthcheck. */
  function ReadHealthcheck(fields: Object): Healthcheck {
    Healthcheck(ReadTexts(Get(fields, TestKey)), ReadNumber(Get(fields, IntervalKey)), ReadNumber(Get(fields, TimeoutKey)),
                ReadNumber(Get(fields, RetriesKey)), ReadNumber(Get(fields, StartPeriodKey)),
                ReadNumber(Get(fields, StartIntervalKey)))
  }

  predicate IsKnown(field: Key) {
    match field
    case TestKey => true
    case IntervalKey => true
    case TimeoutKey => true
    case RetriesKey => true
    case StartPeriodKey => true
    case StartIntervalKey => true
    case _ => false
  }

  /** A field is left to the image where the container's own healthcheck, less the image's, sets nothing; any
      other field it sets as inspect showed it. */
  lemma OwnFieldIsTheOneShown(check: Healthcheck, image: Option<Healthcheck>)
    requires OwnHealthcheck(Some(check), image).Some?
    ensures var own := OwnHealthcheck(Some(check), image).value;
            && own.test == (if LeftToImage(own, TestKey) then [] else check.test)
            && own.interval == (if LeftToImage(own, IntervalKey) then 0 else check.interval)
            && own.timeout == (if LeftToImage(own, TimeoutKey) then 0 else check.timeout)
            && own.retries == (if LeftToImage(own, RetriesKey) then 0 else check.retries)
            && own.startPeriod == (if LeftToImage(own, StartPeriodKey) then 0 else check.startPeriod)
            && own.startInterval == (if LeftToImage(own, StartIntervalKey) then 0 else check.startInterval)
  {
  }

  lemma FieldsSent(fields: Object, own: Healthcheck, field: Key)
    ensures var sent := HealthcheckBody(Some(Fields(fields)), own).fields;
            Get(sent, field) == if LeftToImage(own, field) then None else Get(fields, field)
  {
  }

  /** So what is sent reads back as the container's own healthcheck, less the image's. */
  lemma SentReadsBack(fields: Object, image: Option<Healthcheck>)
    requires OwnHealthcheck(Some(ReadHealthcheck(fields)), image).Some?
    ensures var own := OwnHealthcheck(Some(ReadHealthcheck(fields)), image).value;
            ReadHealthcheck(HealthcheckBody(Some(Fields(fields)), own).fields) == own
  {
    var own := OwnHealthcheck(Some(ReadHealthcheck(fields)), image).value;
    OwnFieldIsTheOneShown(ReadHealthcheck(fields), image);
    FieldsSent(fields, own, TestKey);
    FieldsSent(fields, own, IntervalKey);
    FieldsSent(fields, own, TimeoutKey);
    FieldsSent(fields, own, RetriesKey);
    FieldsSent(fields, own, StartPeriodKey);
    FieldsSent(fields, own, StartIntervalKey);
  }

  /** Of a healthcheck that inspect shows, what is sent says just what the container's own healthcheck, less
      what its image has, does, and passes every field not known through. If that is nothing, nothing is sent,
      the fields not known included. */
  lemma HealthcheckSent(spec: Spec, config: Object, image: Option<Healthcheck>)
    requires Get(config, HealthcheckKey).Some? && config[HealthcheckKey].Fields?
    requires spec.own.healthcheck == OwnHealthcheck(Some(ReadHealthcheck(config[HealthcheckKey].fields)), image)
    ensures var sent := OwnValue(spec, config, HealthcheckKey);
            && (sent.None? <==> spec.own.healthcheck.None?)
            && (sent.Some? ==>
                  && sent.value.Fields?
                  && ReadHealthcheck(sent.value.fields) == spec.own.healthcheck.value
                  && (forall f :: !IsKnown(f) ==> Get(sent.value.fields, f) == Get(config[HealthcheckKey].fields, f))
                  && sent.value.fields.Keys <= config[HealthcheckKey].fields.Keys)
  {
    if spec.own.healthcheck.Some? {
      SentReadsBack(config[HealthcheckKey].fields, image);
    }
  }
}
