/** The container manager: one docker-compose project per running instance, each in its
    own directory under the compose root, plus the periodic sweep of expired instances. */
module Containers {
  import opened Wrappers
  import opened Json
  import opened Text
  import opened Models
  import Utils
  import Setup

  /** Base directory of the compose projects. */
  const ComposeRoot := "/tmp/ctfd_compose"

  const InvalidMemory := "Invalid memory limit configuration"
  const InvalidCpu := "Invalid CPU limit configuration"

  /** The docker daemon at a base url: `Success` when a client could be built,
      otherwise the text of the exception. */
  type Connector = string -> Result<(), string>

  /** `docker-compose <args>` run in a project directory (named here by the directory's
      name under the compose root): `Success(stdout)` on exit status 0, otherwise
      `Failure(stderr)`. */
  type ComposeRunner = (string, seq<string>) -> Result<string, string>

  /** What `float(text)` yields: `None` for a ValueError, otherwise whether the number is
      positive and `str()` of it. */
  datatype FloatText = FloatText(positive: bool, repr: string)
  type FloatParser = string -> Option<FloatText>

  /** `settings.get(key)` read for truthiness: an absent key reads as empty text. */
  function Setting(settings: map<string, string>, key: string): string {
    if key in settings then settings[key] else ""
  }

  lemma MinutesToSeconds(minutes: int)
    ensures (minutes * 60) % 60 == 0 && (minutes * 60) / 60 == minutes
  {
  }

  /** `int(settings.get("container_expiration", 0)) * 60`, with 0 when the text is not an
      integer. */
  function ExpirationSeconds(settings: map<string, string>): (seconds: int)
    ensures seconds % 60 == 0
    ensures seconds != 0 ==>
      "container_expiration" in settings && ParseInt(settings["container_expiration"]) == Some(seconds / 60)
    // Any text `int()` accepts gives that many minutes; a missing or malformed value gives 0.
    ensures "container_expiration" in settings && ParseInt(settings["container_expiration"]).Some? ==>
      seconds == ParseInt(settings["container_expiration"]).value * 60
    ensures "container_expiration" !in settings || ParseInt(settings["container_expiration"]).None? ==> seconds == 0
  {
    if "container_expiration" !in settings then 0
    else match ParseInt(settings["container_expiration"])
      case None => 0
      case Some(minutes) => MinutesToSeconds(minutes); minutes * 60
  }

  /** Writing a number of minutes gives that many minutes of lifetime. */
  lemma ExpirationOfMinutes(settings: map<string, string>, minutes: int)
    requires "container_expiration" in settings && settings["container_expiration"] == IntToString(minutes)
    ensures ExpirationSeconds(settings) == minutes * 60
  {
    IntToStringRoundTrip(minutes);
  }

  /** After the defaults are installed on a store without an expiry, instances live
      45 minutes. */
  lemma DefaultExpirationSeconds(m: map<string, string>)
    requires "container_expiration" !in m
    ensures ExpirationSeconds(Setup.WithDefaults(m, Setup.DefaultConfigs)) == 2700
  {
    var settings := Setup.WithDefaults(m, Setup.DefaultConfigs);
    Setup.DefaultExpirationIs45(m);
    FortyFiveMinutes(settings);
  }

  lemma FortyFiveMinutes(settings: map<string, string>)
    requires "container_expiration" in settings && settings["container_expiration"] == "45"
    ensures ExpirationSeconds(settings) == 2700
  {
    assert IntToString(45) == "45";
    ExpirationOfMinutes(settings, 45);
  }

  /** The configured memory limit in megabytes, when it is an integer above zero. */
  function MemoryLimitMb(settings: map<string, string>): Option<int> {
    var raw := Setting(settings, "container_maxmemory");
    if raw != "" && ParseInt(raw).Some? && ParseInt(raw).value > 0 then Some(ParseInt(raw).value) else None
  }

  predicate MemoryLimitInvalid(settings: map<string, string>) {
    Setting(settings, "container_maxmemory") != "" && ParseInt(Setting(settings, "container_maxmemory")).None?
  }

  /** The `str()` of the configured CPU limit, when it is a number above zero. */
  function CpuLimitText(settings: map<string, string>, parseFloat: FloatParser): Option<string> {
    var raw := Setting(settings, "container_maxcpu");
    if raw != "" && parseFloat(raw).Some? && parseFloat(raw).value.positive then Some(parseFloat(raw).value.repr) else None
  }

  predicate CpuLimitInvalid(settings: map<string, string>, parseFloat: FloatParser) {
    Setting(settings, "container_maxcpu") != "" && parseFloat(Setting(settings, "container_maxcpu")).None?
  }

  function ServiceName(challengeId: string): string {
    "challenge_" + challengeId
  }

  /** The `deploy` entry that carries resource limits. */
  function Deploy(limits: Fields): Json {
    Object([("resources", Object([("limits", Object(limits))]))])
  }

  /** The service entry's `deploy.resources.limits` object, if it has one. */
  function LimitsOf(service: Fields): Option<Fields> {
    match Get(service, "deploy")
    case Some(Object(deploy)) =>
      (match Get(deploy, "resources")
       case Some(Object(resources)) =>
         (match Get(resources, "limits")
          case Some(Object(limits)) => Some(limits)
          case _ => None)
       case _ => None)
    case _ => None
  }

  /** `config['services'][id]['ports'][0].split(':')[0]` on a loaded compose document;
      `None` wherever that expression raises. A string `ports` is indexed by character. */
  function PortOfSpec(config: Json, id: string): (r: Option<string>)
    ensures r.Some? ==> ':' !in r.value
    ensures r.Some? ==> config.Object? && Get(config.fields, "services").Some?
    ensures r.Some? ==> Get(config.fields, "services").value.Object?
                        && Get(Get(config.fields, "services").value.fields, id).Some?
  {
    match config
    case Object(top) =>
      (match Get(top, "services")
       case Some(Object(services)) =>
         (match Get(services, id)
          case Some(Object(service)) =>
            (match Get(service, "ports")
             case Some(Array(ports)) => if ports != [] && ports[0].Str? then Some(BeforeColon(ports[0].s)) else None
             case Some(Str(s)) => if s != "" then Some(BeforeColon([s[0]])) else None
             case _ => None)
          case _ => None)
       case _ => None)
    case _ => None
  }

  /** The compose document holding the single service `name`. */
  function Document(name: string, service: Fields): Json {
    Object([("version", Str("3")), ("services", Object([(name, Object(service))]))])
  }

  /** The service entry `create_compose_file` builds: image and ports first, the command
      and the volumes exactly when they are non-empty, and `deploy.resources.limits`
      exactly when the settings call for limits, holding them; no other key. */
  ghost predicate ServiceAsConfigured(service: Fields, settings: map<string, string>, parseFloat: FloatParser,
                                      image: string, port: int, command: string, volumes: string)
  {
    && |service| >= 2 && service[0].0 == "image" && service[1].0 == "ports"
    && Get(service, "image") == Some(Str(image))
    && Get(service, "ports") == Some(Array([Str(Utils.PortMapping(port))]))
    && Get(service, "command") == (if command != "" then Some(Str(command)) else None)
    && Get(service, "volumes") == (if volumes != "" then Some(Str(volumes)) else None)
    && (HasKey(service, "deploy") <==> MemoryLimitMb(settings).Some? || CpuLimitText(settings, parseFloat).Some?)
    && (HasKey(service, "deploy") ==>
          LimitsOf(service).Some?
          && Get(LimitsOf(service).value, "memory")
             == (if MemoryLimitMb(settings).Some? then Some(Str(IntToString(MemoryLimitMb(settings).value) + "m")) else None)
          && Get(LimitsOf(service).value, "cpus")
             == (if CpuLimitText(settings, parseFloat).Some? then Some(Str(CpuLimitText(settings, parseFloat).value)) else None))
    && forall k :: HasKey(service, k) ==> k in {"image", "ports", "command", "volumes", "deploy"}
  }

  /** The compose document `create_compose_file` writes, and its service entry. */
  method ComposeFileSpec(settings: map<string, string>, parseFloat: FloatParser, challengeId: string,
                         image: string, port: int, command: string, volumes: string)
    returns (r: Result<Json, string>, service: Fields)
    ensures r.Failure? <==> MemoryLimitInvalid(settings) || CpuLimitInvalid(settings, parseFloat)
    ensures MemoryLimitInvalid(settings) ==> r == Failure(InvalidMemory)
    ensures !MemoryLimitInvalid(settings) && CpuLimitInvalid(settings, parseFloat) ==> r == Failure(InvalidCpu)
    ensures r.Success? ==> r.value == Document(ServiceName(challengeId), service)
    ensures r.Success? ==> ServiceAsConfigured(service, settings, parseFloat, image, port, command, volumes)
    ensures r.Success? ==> Utils.ValidateComposeConfig(r.value.fields)
    ensures r.Success? ==> PortOfSpec(r.value, ServiceName(challengeId)) == Some(IntToString(port))
  {
    var name := ServiceName(challengeId);
    service := BaseService(image, port, command, volumes);
    var limits := ResourceLimits(settings, parseFloat);
    if limits.Failure? {
      r := Failure(limits.error);
      return;
    }
    service := AttachLimits(service, image, port, command, volumes, limits.value);
    r := Success(Object([("version", Str("3")), ("services", Object([(name, Object(service))]))]));
    Utils.ValidSingleServiceDocument("3", name, service, []);
    assert [("version", Str("3")), ("services", Object([(name, Object(service))]))] + [] == r.value.fields;
    PortOfSingleService(name, service, port);
  }

  /** The service entry before the resource limits: image and ports, then the command
      and the volumes when they are non-empty. */
  method BaseService(image: string, port: int, command: string, volumes: string) returns (service: Fields)
    ensures |service| >= 2 && service[0].0 == "image" && service[1].0 == "ports"
    ensures Get(service, "image") == Some(Str(image))
    ensures Get(service, "ports") == Some(Array([Str(Utils.PortMapping(port))]))
    ensures Get(service, "command") == if command != "" then Some(Str(command)) else None
    ensures Get(service, "volumes") == if volumes != "" then Some(Str(volumes)) else None
    ensures !HasKey(service, "deploy")
    ensures forall k :: HasKey(service, k) ==> k in {"image", "ports", "command", "volumes"}
  {
    var withCommand := Utils.ImagePortsCommand(image, port, command);
    service := withCommand;
    if volumes != "" {
      service := Put(withCommand, "volumes", Str(volumes));
    }
  }

  /** `service_config["deploy"] = {"resources": {"limits": limits}}` when there are limits. */
  method AttachLimits(base: Fields, image: string, port: int, command: string, volumes: string, limits: Option<Fields>)
    returns (service: Fields)
    requires |base| >= 2 && base[0].0 == "image" && base[1].0 == "ports"
    requires Get(base, "image") == Some(Str(image))
    requires Get(base, "ports") == Some(Array([Str(Utils.PortMapping(port))]))
    requires Get(base, "command") == if command != "" then Some(Str(command)) else None
    requires Get(base, "volumes") == if volumes != "" then Some(Str(volumes)) else None
    requires !HasKey(base, "deploy")
    requires forall k :: HasKey(base, k) ==> k in {"image", "ports", "command", "volumes"}
    ensures |service| >= 2 && service[0].0 == "image" && service[1].0 == "ports"
    ensures Get(service, "image") == Some(Str(image))
    ensures Get(service, "ports") == Some(Array([Str(Utils.PortMapping(port))]))
    ensures Get(service, "command") == if command != "" then Some(Str(command)) else None
    ensures Get(service, "volumes") == if volumes != "" then Some(Str(volumes)) else None
    ensures HasKey(service, "deploy") <==> limits.Some?
    ensures limits.Some? ==> LimitsOf(service) == limits
    ensures forall k :: HasKey(service, k) ==> k in {"image", "ports", "command", "volumes", "deploy"}
  {
    service := base;
    if limits.Some? {
      service := Put(base, "deploy", Deploy(limits.value));
      LimitsOfDeploy(service, limits.value);
    }
  }

  /** The `deploy.resources.limits` object the memory and CPU settings call for, if any. */
  method ResourceLimits(settings: map<string, string>, parseFloat: FloatParser) returns (r: Result<Option<Fields>, string>)
    ensures r.Failure? <==> MemoryLimitInvalid(settings) || CpuLimitInvalid(settings, parseFloat)
    ensures MemoryLimitInvalid(settings) ==> r == Failure(InvalidMemory)
    ensures !MemoryLimitInvalid(settings) && CpuLimitInvalid(settings, parseFloat) ==> r == Failure(InvalidCpu)
    ensures r.Success? ==> (r.value.Some? <==> MemoryLimitMb(settings).Some? || CpuLimitText(settings, parseFloat).Some?)
    ensures r.Success? && r.value.Some? ==>
      Get(r.value.value, "memory")
      == (if MemoryLimitMb(settings).Some? then Some(Str(IntToString(MemoryLimitMb(settings).value) + "m")) else None)
    ensures r.Success? && r.value.Some? ==>
      Get(r.value.value, "cpus")
      == (if CpuLimitText(settings, parseFloat).Some? then Some(Str(CpuLimitText(settings, parseFloat).value)) else None)
  {
    var limits: Option<Fields> := None;
    var memory := Setting(settings, "container_maxmemory");
    if memory != "" {
      match ParseInt(memory)
      case None => {
        return Failure(InvalidMemory);
      }
      case Some(mb) => {
        if mb > 0 {
          limits := Some(Put([], "memory", Str(IntToString(mb) + "m")));
        }
      }
    }
    var cpu := Setting(settings, "container_maxcpu");
    if cpu != "" {
      match parseFloat(cpu)
      case None => {
        return Failure(InvalidCpu);
      }
      case Some(f) => {
        if f.positive {
          var current := if limits.Some? then limits.value else [];
          limits := Some(Put(current, "cpus", Str(f.repr)));
        }
      }
    }
    r := Success(limits);
  }

  lemma LimitsOfDeploy(service: Fields, limits: Fields)
    requires Get(service, "deploy") == Some(Deploy(limits))
    ensures LimitsOf(service) == Some(limits)
  {
    assert Get([("resources", Object([("limits", Object(limits))]))], "resources")
           == Some(Object([("limits", Object(limits))]));
    assert Get([("limits", Object(limits))], "limits") == Some(Object(limits));
  }

  /** Reading back the port of the single service of a written document. */
  lemma PortOfSingleService(name: string, service: Fields, port: int)
    requires Get(service, "ports") == Some(Array([Str(Utils.PortMapping(port))]))
    ensures PortOfSpec(Object([("version", Str("3")), ("services", Object([(name, Object(service))]))]), name)
            == Some(IntToString(port))
  {
    assert Get([("version", Str("3")), ("services", Object([(name, Object(service))]))], "services")
           == Some(Object([(name, Object(service))]));
    assert Get([(name, Object(service))], name) == Some(Object(service));
    BeforeColonOfMapping(IntToString(port), IntToString(port));
  }

  /** `get_images`: every non-empty tag of every image, duplicates kept, sorted;
      any failure of the listing (including no client) gives the empty list. */
  function GetImages(images: Result<seq<seq<string>>, string>): (r: seq<string>)
    ensures images.Failure? ==> r == []
    ensures images.Success? ==> Sorted(r) && multiset(r) == multiset(NonEmptyTags(images.value))
  {
    match images
    case Failure(_) => []
    case Success(tagLists) => SortStrings(NonEmptyTags(tagLists))
  }

  /** The tags of all images in listing order, empty tags dropped. */
  function NonEmptyTags(tagLists: seq<seq<string>>): (r: seq<string>)
    ensures forall t :: t in r <==> t != "" && exists i :: 0 <= i < |tagLists| && t in tagLists[i]
    decreases |tagLists|
  {
    if tagLists == [] then []
    else
      var rest := NonEmptyTags(tagLists[1..]);
      assert forall t :: (exists i :: 0 <= i < |tagLists| && t in tagLists[i])
                         ==> t in tagLists[0] || exists i :: 0 <= i < |tagLists[1..]| && t in tagLists[1..][i] by {
        forall t, i | 0 <= i < |tagLists| && t in tagLists[i] && t !in tagLists[0]
          ensures 0 <= i - 1 < |tagLists[1..]| && t in tagLists[1..][i - 1] {
        }
      }
      NonEmpty(tagLists[0]) + rest
  }

  function NonEmpty(tags: seq<string>): (r: seq<string>)
    ensures forall t :: t in r <==> t in tags && t != ""
    decreases |tags|
  {
    if tags == [] then []
    else (if tags[0] != "" then [tags[0]] else []) + NonEmpty(tags[1..])
  }

  /** The records the sweep keeps: those not yet expired at `now`, in table order. */
  function Unexpired(rows: seq<ContainerInfo>, now: int): seq<ContainerInfo>
    decreases |rows|
  {
    if rows == [] then []
    else
      var last := rows[|rows| - 1];
      Unexpired(rows[..|rows| - 1], now) + (if last.expires >= now then [last] else [])
  }

  /** The ids of the records the sweep stops, in table order. */
  function ExpiredIds(rows: seq<ContainerInfo>, now: int): seq<string>
    decreases |rows|
  {
    if rows == [] then []
    else
      var last := rows[|rows| - 1];
      ExpiredIds(rows[..|rows| - 1], now) + (if last.expires < now then [last.containerId] else [])
  }

  /** The sweep keeps exactly the records that expire at `now` or later. */
  lemma {:induction false} UnexpiredMembers(rows: seq<ContainerInfo>, now: int)
    ensures forall c :: c in Unexpired(rows, now) <==> c in rows && c.expires >= now
    decreases |rows|
  {
    if rows != [] {
      var init := rows[..|rows| - 1];
      assert rows == init + [rows[|rows| - 1]];
      UnexpiredMembers(init, now);
    }
  }

  /** The sweep stops exactly the ids of the records that expired before `now`. */
  lemma {:induction false} ExpiredIdsMembers(rows: seq<ContainerInfo>, now: int)
    ensures forall id :: id in ExpiredIds(rows, now) <==> exists c :: c in rows && c.expires < now && c.containerId == id
    decreases |rows|
  {
    if rows != [] {
      var init := rows[..|rows| - 1];
      assert rows == init + [rows[|rows| - 1]];
      ExpiredIdsMembers(init, now);
    }
  }

  /** The kept and the stopped records partition the table. */
  lemma {:induction false} SweepPartitions(rows: seq<ContainerInfo>, now: int)
    ensures |Unexpired(rows, now)| + |ExpiredIds(rows, now)| == |rows|
    decreases |rows|
  {
    if rows != [] {
      SweepPartitions(rows[..|rows| - 1], now);
    }
  }

  lemma UnexpiredIds(rows: seq<ContainerInfo>, now: int)
    ensures Ids(Unexpired(rows, now)) <= Ids(rows)
  {
    UnexpiredMembers(rows, now);
    forall id | id in Ids(Unexpired(rows, now)) ensures id in Ids(rows) {
      var u := Unexpired(rows, now);
      var k :| 0 <= k < |u| && u[k].containerId == id;
      assert u[k] in rows;
      var j :| 0 <= j < |rows| && rows[j] == u[k];
    }
  }

  lemma UniquePrefixSuffix(rows: seq<ContainerInfo>, i: nat)
    requires UniqueIds(rows) && i < |rows|
    ensures rows[i].containerId !in Ids(rows[..i])
  {
    forall k | 0 <= k < i ensures rows[..i][k].containerId != rows[i].containerId {
      assert rows[..i][k] == rows[k];
    }
  }

  /** One step of the sweep over `rows[i]`. */
  lemma SweepStep(rows: seq<ContainerInfo>, i: nat, now: int)
    requires i < |rows|
    ensures Unexpired(rows[..i + 1], now)
            == Unexpired(rows[..i], now) + (if rows[i].expires >= now then [rows[i]] else [])
    ensures ExpiredIds(rows[..i + 1], now)
            == ExpiredIds(rows[..i], now) + (if rows[i].expires < now then [rows[i].containerId] else [])
    ensures rows[i..] == [rows[i]] + rows[i + 1..]
  {
    assert rows[..i + 1][..i] == rows[..i];
  }

  /** The directories left after the sweep has tried to stop `attempted`: the original
      ones, less those whose `down` succeeded, with their contents unchanged. */
  function Remaining(orig: map<string, Option<Json>>, attempted: seq<string>, compose: ComposeRunner)
    : (dirs: map<string, Option<Json>>)
  {
    map k | k in orig && !(k in attempted && compose(k, ["down"]).Success?) :: orig[k]
  }

  /** One more stop attempt removes the directory exactly when its `down` succeeds. */
  lemma RemainingStep(orig: map<string, Option<Json>>, attempted: seq<string>, id: string, compose: ComposeRunner)
    ensures Remaining(orig, attempted + [id], compose)
            == (var before := Remaining(orig, attempted, compose);
                if id in before && compose(id, ["down"]).Success? then before - {id} else before)
  {
  }

  lemma RemoveFront(kept: seq<ContainerInfo>, rest: seq<ContainerInfo>)
    requires rest != []
    ensures RemoveAt(kept + rest, |kept|) == kept + rest[1..]
  {
  }

  /** A record whose id occurs in no earlier row is the first match for that id. */
  lemma FindAfterPrefix(rows: seq<ContainerInfo>, prefix: seq<ContainerInfo>, rest: seq<ContainerInfo>)
    requires rows == prefix + rest && rest != [] && rest[0].containerId !in Ids(prefix)
    ensures FindById(rows, rest[0].containerId) == Some(|prefix|)
  {
    var id := rest[0].containerId;
    var p := (r: ContainerInfo) => r.containerId == id;
    assert p(rows[|prefix|]);
    assert forall j :: 0 <= j < |prefix| ==> !p(rows[j]) by {
      forall j | 0 <= j < |prefix| ensures !p(rows[j]) {
        assert rows[j] == prefix[j];
      }
    }
  }

  class ContainerManager {
    var settings: map<string, string>
    /** Whether a docker client was built. */
    var hasClient: bool
    /** `expiration_seconds`; `None` while the attribute has never been set. */
    var expirationSeconds: Option<int>
    /** Whether the background sweep job is scheduled. */
    var sweepScheduled: bool
    /** The project directories under the compose root, by name, each with the document
        its `docker-compose.yml` holds (`None`: the directory has no readable file). */
    var composeDirs: map<string, Option<Json>>

    /** `__init__`: without a base url nothing is connected; otherwise the connection is
        set up, and a failure to connect leaves the manager without a client. `dirs` is
        what the compose root already holds; constructing the manager does not touch it. */
    constructor (settings: map<string, string>, connect: Connector, dirs: map<string, Option<Json>>)
      ensures this.settings == settings && composeDirs == dirs
      ensures Setting(settings, "docker_base_url") == "" ==> !hasClient && expirationSeconds.None? && !sweepScheduled
      ensures Setting(settings, "docker_base_url") != "" ==>
        hasClient == connect(settings["docker_base_url"]).Success?
        && expirationSeconds == (if hasClient then Some(ExpirationSeconds(settings)) else None)
        && sweepScheduled == (hasClient && ExpirationSeconds(settings) > 0)
    {
      this.settings := settings;
      hasClient := false;
      expirationSeconds := None;
      sweepScheduled := false;
      composeDirs := dirs;
      new;
      if Setting(settings, "docker_base_url") != "" {
        var _ := InitializeConnection(settings, connect);
      }
    }

    /** `initialize_connection`: stops any scheduled sweep, connects, and, when the
        configured lifetime is positive, schedules the sweep. */
    method InitializeConnection(settings: map<string, string>, connect: Connector) returns (r: Result<(), string>)
      modifies this`settings, this`hasClient, this`expirationSeconds, this`sweepScheduled
      ensures this.settings == settings
      ensures "docker_base_url" !in settings ==>
        r.Success? && !hasClient && !sweepScheduled && expirationSeconds == old(expirationSeconds)
      ensures "docker_base_url" in settings && connect(settings["docker_base_url"]).Failure? ==>
        r == Failure("CTFd could not connect to Docker: " + connect(settings["docker_base_url"]).error)
        && !hasClient && !sweepScheduled && expirationSeconds == old(expirationSeconds)
      ensures "docker_base_url" in settings && connect(settings["docker_base_url"]).Success? ==>
        r.Success? && hasClient && expirationSeconds == Some(ExpirationSeconds(settings))
        && sweepScheduled == (ExpirationSeconds(settings) > 0)
    {
      this.settings := settings;
      sweepScheduled := false;
      if "docker_base_url" !in settings {
        hasClient := false;
        return Success(());
      }
      match connect(settings["docker_base_url"])
      case Failure(e) => {
        hasClient := false;
        return Failure("CTFd could not connect to Docker: " + e);
      }
      case Success(_) => {
        hasClient := true;
      }
      var seconds := ExpirationSeconds(settings);
      expirationSeconds := Some(seconds);
      if seconds > 0 {
        sweepScheduled := true;
      }
      r := Success(());
    }

    /** `create_compose_file`: writes the project for `challenge_<id>` and returns its
        directory and service name. The directory is created before the limits are read,
        so a configuration error leaves it in place; the model applies that net effect to
        the directory map in one update per outcome. */
    method CreateComposeFile(parseFloat: FloatParser, challengeId: string, image: string, port: int,
                             command: string, volumes: string)
      returns (r: Result<(string, string), string>)
      modifies this`composeDirs
      // Only the project directory of this challenge is created or rewritten.
      ensures ServiceName(challengeId) in composeDirs
      ensures composeDirs == old(composeDirs)[ServiceName(challengeId) := composeDirs[ServiceName(challengeId)]]
      ensures r.Failure? <==> MemoryLimitInvalid(settings) || CpuLimitInvalid(settings, parseFloat)
      ensures MemoryLimitInvalid(settings) ==> r == Failure(InvalidMemory)
      ensures !MemoryLimitInvalid(settings) && CpuLimitInvalid(settings, parseFloat) ==> r == Failure(InvalidCpu)
      ensures r.Failure? ==> composeDirs[ServiceName(challengeId)] == DirContents(old(composeDirs), ServiceName(challengeId))
      ensures r.Success? ==>
        r.value == (ComposeRoot + "/" + ServiceName(challengeId), ServiceName(challengeId))
        && composeDirs[ServiceName(challengeId)].Some? && composeDirs[ServiceName(challengeId)].value.Object?
        && Utils.ValidateComposeConfig(composeDirs[ServiceName(challengeId)].value.fields)
        && GetContainerPort(ServiceName(challengeId)) == Some(IntToString(port))
      // The file holds the document built from the arguments and the settings.
      ensures r.Success? ==> exists service :: composeDirs[ServiceName(challengeId)] == Some(Document(ServiceName(challengeId), service))
                                               && ServiceAsConfigured(service, settings, parseFloat, image, port, command, volumes)
    {
      var name := ServiceName(challengeId);
      var spec, service := ComposeFileSpec(settings, parseFloat, challengeId, image, port, command, volumes);
      match spec
      case Failure(e) => {
        composeDirs := composeDirs[name := DirContents(composeDirs, name)];
        r := Failure(e);
      }
      case Success(config) => {
        composeDirs := composeDirs[name := Some(config)];
        r := Success((ComposeRoot + "/" + name, name));
      }
    }

    /** `create_container`: the service id is the current second; a configuration error
        propagates as it is, a failing `up -d` is wrapped. */
    method CreateContainer(parseFloat: FloatParser, compose: ComposeRunner, now: int, image: string, port: int,
                           command: string, volumes: string)
      returns (r: Result<string, string>)
      modifies this`composeDirs
      ensures ServiceName(IntToString(now)) in composeDirs
      ensures composeDirs == old(composeDirs)[ServiceName(IntToString(now)) := composeDirs[ServiceName(IntToString(now))]]
      ensures MemoryLimitInvalid(settings) ==> r == Failure(InvalidMemory)
      ensures !MemoryLimitInvalid(settings) && CpuLimitInvalid(settings, parseFloat) ==> r == Failure(InvalidCpu)
      ensures !MemoryLimitInvalid(settings) && !CpuLimitInvalid(settings, parseFloat) ==>
        match compose(ServiceName(IntToString(now)), ["up", "-d"])
        case Success(_) => r == Success(ServiceName(IntToString(now)))
        case Failure(_) => r == Failure("Failed to start compose service: "
                                        + RunComposeCommand(compose, ServiceName(IntToString(now)), ["up", "-d"]).error)
      ensures r.Success? ==> GetContainerPort(r.value) == Some(IntToString(port))
      // Once the configuration is valid the project file exists, whether or not `up -d` succeeds.
      ensures !MemoryLimitInvalid(settings) && !CpuLimitInvalid(settings, parseFloat) ==>
        exists service :: composeDirs[ServiceName(IntToString(now))] == Some(Document(ServiceName(IntToString(now)), service))
                          && ServiceAsConfigured(service, settings, parseFloat, image, port, command, volumes)
    {
      var created := CreateComposeFile(parseFloat, IntToString(now), image, port, command, volumes);
      if created.Failure? {
        return Failure(created.error);
      }
      var (_, name) := created.value;
      match RunComposeCommand(compose, name, ["up", "-d"])
      case Failure(e) => {
        r := Failure("Failed to start compose service: " + e);
      }
      case Success(_) => {
        r := Success(name);
      }
    }

    /** `kill_container`: `down` and remove the project directory; nothing to do when
        there is no such directory. A failing `down` leaves the directory. */
    method KillContainer(compose: ComposeRunner, containerId: string) returns (r: Result<(), string>)
      modifies this`composeDirs
      ensures composeDirs == if containerId in old(composeDirs) && compose(containerId, ["down"]).Success?
                             then old(composeDirs) - {containerId} else old(composeDirs)
      ensures r.Failure? <==> containerId in old(composeDirs) && compose(containerId, ["down"]).Failure?
      ensures r.Failure? ==> r.error == "Failed to stop compose service: "
                                        + RunComposeCommand(compose, containerId, ["down"]).error
    {
      r := Success(());
      if containerId in composeDirs {
        match RunComposeCommand(compose, containerId, ["down"])
        case Failure(e) => {
          r := Failure("Failed to stop compose service: " + e);
        }
        case Success(_) => {
          composeDirs := composeDirs - {containerId};
        }
      }
    }

    /** `is_container_running`: the project exists and `ps --quiet` succeeds with output
        that is not all whitespace. */
    function IsContainerRunning(compose: ComposeRunner, containerId: string): (running: bool)
      reads this
      ensures running <==> containerId in composeDirs && compose(containerId, ["ps", "--quiet"]).Success?
                           && exists i :: 0 <= i < |compose(containerId, ["ps", "--quiet"]).value|
                                        && !IsSpace(compose(containerId, ["ps", "--quiet"]).value[i])
    {
      containerId in composeDirs
      && match RunComposeCommand(compose, containerId, ["ps", "--quiet"])
         case Success(out) => Strip(out, IsSpace) != []
         case Failure(_) => false
    }

    /** `get_container_port`: the host side of the first port mapping in the project's
        compose file; `None` when there is no project or no readable mapping. */
    function GetContainerPort(containerId: string): (port: Option<string>)
      reads this
      ensures port.Some? ==> containerId in composeDirs && composeDirs[containerId].Some?
      ensures port.Some? ==> ':' !in port.value
    {
      if containerId in composeDirs && composeDirs[containerId].Some?
      then PortOfSpec(composeDirs[containerId].value, containerId)
      else None
    }

    /** The body of the sweep for one expired record `rest[0]`: stop its project, ignoring
        a failure, then delete the record. */
    method StopAndDelete(table: InstanceTable, compose: ComposeRunner, id: string, ghost kept: seq<ContainerInfo>,
                         ghost rest: seq<ContainerInfo>)
      requires table.Valid() && rest != [] && table.rows == kept + rest
      requires rest[0].containerId == id && id !in Ids(kept)
      modifies this`composeDirs, table
      ensures table.Valid() && table.rows == kept + rest[1..]
      ensures composeDirs == if id in old(composeDirs) && compose(id, ["down"]).Success?
                             then old(composeDirs) - {id} else old(composeDirs)
    {
      var _ := KillContainer(compose, id);
      FindAfterPrefix(table.rows, kept, rest);
      table.Delete(id);
      RemoveFront(kept, rest);
    }

    /** `kill_expired_containers` at time `now`: every record that expired before `now`
        is stopped (a failed stop is ignored) and deleted; the others stay in order.
        Returns the ids it tried to stop. */
    method KillExpiredContainers(table: InstanceTable, compose: ComposeRunner, now: int)
      returns (attempted: seq<string>)
      requires table.Valid()
      modifies this`composeDirs, table
      ensures table.Valid()
      ensures table.rows == Unexpired(old(table.rows), now)
      ensures attempted == ExpiredIds(old(table.rows), now)
      ensures composeDirs == Remaining(old(composeDirs), attempted, compose)
    {
      var containers := table.rows;
      ghost var orig := composeDirs;
      var i := 0;
      attempted := [];
      ghost var kept: seq<ContainerInfo> := [];
      while i < |containers|
        invariant 0 <= i <= |containers| && UniqueIds(containers)
        invariant table.Valid()
        invariant kept == Unexpired(containers[..i], now)
        invariant table.rows == kept + containers[i..]
        invariant attempted == ExpiredIds(containers[..i], now)
        invariant composeDirs == Remaining(orig, attempted, compose)
      {
        attempted, kept := SweepRow(table, compose, containers, i, now, orig, kept, attempted);
        i := i + 1;
      }
      assert containers[..i] == containers;
    }

    /** One pass of the sweep's loop, over `containers[i]`: a record that expired before
        `now` is stopped and deleted, any other is kept. */
    method SweepRow(table: InstanceTable, compose: ComposeRunner, containers: seq<ContainerInfo>, i: nat, now: int,
                    ghost orig: map<string, Option<Json>>, ghost kept: seq<ContainerInfo>, attempted: seq<string>)
      returns (attempted': seq<string>, ghost kept': seq<ContainerInfo>)
      requires i < |containers| && UniqueIds(containers) && table.Valid()
      requires kept == Unexpired(containers[..i], now) && table.rows == kept + containers[i..]
      requires attempted == ExpiredIds(containers[..i], now) && composeDirs == Remaining(orig, attempted, compose)
      modifies this`composeDirs, table
      ensures table.Valid()
      ensures kept' == Unexpired(containers[..i + 1], now) && table.rows == kept' + containers[i + 1..]
      ensures attempted' == ExpiredIds(containers[..i + 1], now)
      ensures composeDirs == Remaining(orig, attempted', compose)
    {
      var c := containers[i];
      SweepStep(containers, i, now);
      if c.expires - now < 0 {
        UnexpiredIds(containers[..i], now);
        UniquePrefixSuffix(containers, i);
        StopAndDelete(table, compose, c.containerId, kept, containers[i..]);
        RemainingStep(orig, attempted, c.containerId, compose);
        attempted', kept' := attempted + [c.containerId], kept;
      } else {
        attempted', kept' := attempted, kept + [c];
      }
    }
  }

  /** What a directory already holds, for one that `makedirs` may have just created. */
  function DirContents(dirs: map<string, Option<Json>>, name: string): Option<Json> {
    if name in dirs then dirs[name] else None
  }

  /** `run_compose_command`: stdout, or the wrapped stderr on a non-zero exit. */
  function RunComposeCommand(compose: ComposeRunner, dir: string, args: seq<string>): (r: Result<string, string>)
    ensures r.Success? <==> compose(dir, args).Success?
    ensures r.Success? ==> r.value == compose(dir, args).value
    ensures r.Failure? ==> r.error == "Docker Compose command failed: " + compose(dir, args).error
  {
    match compose(dir, args)
    case Success(out) => Success(out)
    case Failure(err) => Failure("Docker Compose command failed: " + err)
  }
}
