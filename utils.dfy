/** The compose-document builder and its structural validator. */
module Utils {
  import opened Wrappers
  import opened Json
  import opened Text

  /** `f"{port}:{port}"`: the published host port equals the container port. */
  function PortMapping(port: int): string {
    IntToString(port) + ":" + IntToString(port)
  }

  /** The Python type name that appears in the exceptions raised on wrongly shaped JSON. */
  function PyTypeName(j: Json): string {
    match j
    case Null => "NoneType"
    case Bool(_) => "bool"
    case Int(_) => "int"
    case Str(_) => "str"
    case Array(_) => "list"
    case Object(_) => "dict"
  }

  /** What a lenient field contributes: the parsed value of non-empty text that parses;
      nothing for empty text, and nothing (no error) for malformed text. */
  function Lenient(parse: Parser, text: string): Option<Json> {
    if text != "" && parse(text).Success? then Some(parse(text).value) else None
  }

  /** The custom networks object, when the networks text is non-empty and parses to one. */
  function CustomNetworks(parse: Parser, networks: string): Option<Fields> {
    match Lenient(parse, networks)
    case Some(Object(f)) => Some(f)
    case _ => None
  }

  /** The networks text parsed, but to something other than an object, on which
      `.items()` fails. */
  predicate ParsesToNonObject(parse: Parser, text: string) {
    Lenient(parse, text).Some? && !Lenient(parse, text).value.Object?
  }

  /** The AttributeError of `.items()` on a value that is not a dict. */
  function NoItems(j: Json): string {
    "'" + PyTypeName(j) + "' object has no attribute 'items'"
  }

  /** Stands for a pair whose key is a number, a boolean or null: Python accepts such a
      key, but the keys of the model's objects are strings. */
  const UnsupportedKey := "non-string key"

  function LengthError(index: nat, length: nat): string {
    "dictionary update sequence element #" + IntToString(index) + " has length "
    + IntToString(length) + "; 2 is required"
  }

  /** The pair element number `index` of the argument of `dict.update` gives: Python
      turns the element into a list (a string into its characters, a dict into its keys)
      that must have length 2, and its first item must be hashable. */
  function UpdatePair(e: Json, index: nat): (r: Result<(string, Json), string>)
    ensures r.Success? ==> e.Array? || e.Str? || e.Object?
  {
    match e
    case Array(xs) =>
      if |xs| != 2 then Failure(LengthError(index, |xs|))
      else (match xs[0]
            case Str(k) => Success((k, xs[1]))
            case Array(_) => Failure("unhashable type: 'list'")
            case Object(_) => Failure("unhashable type: 'dict'")
            case _ => Failure(UnsupportedKey))
    case Str(t) => if |t| != 2 then Failure(LengthError(index, |t|)) else Success(([t[0]], Str([t[1]])))
    case Object(f) => if |f| != 2 then Failure(LengthError(index, |f|)) else Success((f[0].0, Str(f[1].0)))
    case _ => Failure("cannot convert dictionary update sequence element #" + IntToString(index) + " to a sequence")
  }

  /** The pairs of the elements `items`, numbered from `index`; the first bad element's
      error otherwise. */
  function UpdatePairs(items: seq<Json>, index: nat): (r: Result<Fields, string>)
    ensures r.Success? ==> |r.value| == |items|
    ensures r.Success? ==> forall i :: 0 <= i < |items| ==> UpdatePair(items[i], index + i) == Success(r.value[i])
    ensures r.Failure? ==> exists i :: 0 <= i < |items| && UpdatePair(items[i], index + i).Failure?
    decreases |items|
  {
    if items == [] then Success([])
    else match UpdatePair(items[0], index)
      case Failure(e) => Failure(e)
      case Success(pair) =>
        match UpdatePairs(items[1..], index + 1)
        case Failure(e) =>
          Failure(e)
        case Success(rest) =>
          assert forall i :: 1 <= i < |items| ==> items[i] == items[1..][i - 1];
          Success([pair] + rest)
  }

  /** What `d.update(x)` assigns, in order: the entries of a dict; for any other value,
      the pairs its iteration yields. A value that cannot be iterated, and a bad element,
      raise. */
  function UpdateItems(x: Json): (r: Result<Fields, string>)
    ensures x.Object? ==> r == Success(x.fields)
    // `update` accepts a dict, the empty string, and a list whose every element is a pair.
    ensures r.Success? <==> x.Object? || x == Str("")
                            || (x.Array? && forall i :: 0 <= i < |x.items| ==> UpdatePair(x.items[i], i).Success?)
    ensures x.Array? && r.Success? ==> |r.value| == |x.items|
  {
    match x
    case Object(f) => Success(f)
    case Array(items) => UpdatePairs(items, 0)
    case Str(t) => if t == "" then Success([]) else Failure(LengthError(0, 1))
    case _ => Failure("'" + PyTypeName(x) + "' object is not iterable")
  }

  /** The additional compose configuration as the items merged over the service entry:
      none when the text is empty or malformed. */
  function ExtraItems(parse: Parser, composeConfig: string): Result<Fields, string> {
    match Lenient(parse, composeConfig)
    case None => Success([])
    case Some(x) => UpdateItems(x)
  }

  /** The merge raises: the additional configuration parsed to a value `update` rejects. */
  predicate MergeFails(parse: Parser, composeConfig: string) {
    ExtraItems(parse, composeConfig).Failure?
  }

  /** The items merged when the merge does not raise. */
  function ExtraConfig(parse: Parser, composeConfig: string): Fields {
    match ExtraItems(parse, composeConfig)
    case Success(f) => f
    case Failure(_) => []
  }

  /** A custom network's top-level entry: a null configuration means an external network. */
  function NetworkEntry(config: Json): Json {
    if config.Null? then External else config
  }

  function NetworkEntries(custom: Fields): (r: Fields)
    ensures |r| == |custom| && forall i :: 0 <= i < |custom| ==> r[i].0 == custom[i].0
    ensures forall k :: Get(r, k) == if HasKey(custom, k) then Some(NetworkEntry(Get(custom, k).value)) else None
    decreases |custom|
  {
    if custom == [] then []
    else
      var init, last := custom[..|custom| - 1], custom[|custom| - 1];
      var r := NetworkEntries(init) + [(last.0, NetworkEntry(last.1))];
      assert custom == init + [last];
      assert forall k :: Get(r, k) == if HasKey(custom, k) then Some(NetworkEntry(Get(custom, k).value)) else None by {
        forall k ensures Get(r, k) == if HasKey(custom, k) then Some(NetworkEntry(Get(custom, k).value)) else None {
          GetSnoc(NetworkEntries(init), (last.0, NetworkEntry(last.1)), k);
          GetSnoc(init, last, k);
        }
      }
      r
  }

  function StrItems(names: seq<string>): (r: seq<Json>)
    ensures |r| == |names| && forall i :: 0 <= i < |names| ==> r[i] == Str(names[i])
  {
    seq(|names|, i requires 0 <= i < |names| => Str(names[i]))
  }

  /** The keys a generated service entry can hold before the additional configuration
      is merged. */
  const GeneratedKeys: set<string> := {"image", "ports", "command", "volumes", "environment", "networks"}

  /** `validate_compose_config`'s loop over the services. */
  function AllServicesValid(services: Fields): (ok: bool)
    ensures ok <==> forall i :: 0 <= i < |services| ==>
      services[i].1.Object? && HasKey(services[i].1.fields, "image")
    decreases |services|
  {
    if services == [] then true
    else
      var v := services[0].1;
      v.Object? && HasKey(v.fields, "image") && AllServicesValid(services[1..])
  }

  /** `validate_compose_config`: true iff `version` and `services` are present,
      `services` is a non-empty mapping, and every service is a mapping with an `image`. */
  function ValidateComposeConfig(config: Fields): (ok: bool)
    ensures ok <==>
      && HasKey(config, "version")
      && HasKey(config, "services")
      && Get(config, "services").value.Object?
      && |Get(config, "services").value.fields| > 0
      && forall i :: 0 <= i < |Get(config, "services").value.fields| ==>
           var s := Get(config, "services").value.fields[i].1;
           s.Object? && HasKey(s.fields, "image")
  {
    if !(HasKey(config, "version") && HasKey(config, "services")) then false
    else match Get(config, "services")
      case Some(Object(services)) => services != [] && AllServicesValid(services)
      case _ => false
  }

  /** Lines building `service_config` before the networks: image and ports, then
      the command when non-empty, then volumes and environment when their text is
      non-empty and parses (malformed text is skipped without error). */
  method BuildServiceEntry(parse: Parser, image: string, port: int, command: string, volumes: string, environment: string)
    returns (service: Fields)
    ensures |service| >= 2 && service[0].0 == "image" && service[1].0 == "ports"
    ensures Get(service, "image") == Some(Str(image))
    ensures Get(service, "ports") == Some(Array([Str(PortMapping(port))]))
    ensures Get(service, "command") == if command != "" then Some(Str(command)) else None
    ensures Get(service, "volumes") == Lenient(parse, volumes)
    ensures Get(service, "environment") == Lenient(parse, environment)
    ensures forall k :: HasKey(service, k) ==> k in GeneratedKeys - {"networks"}
  {
    var withCommand := ImagePortsCommand(image, port, command);
    var withVolumes := withCommand;
    if volumes != "" {
      var parsed := parse(volumes);
      if parsed.Success? {
        withVolumes := Put(withCommand, "volumes", parsed.value);
      }
    }
    service := withVolumes;
    if environment != "" {
      var parsed := parse(environment);
      if parsed.Success? {
        service := Put(withVolumes, "environment", parsed.value);
      }
    }
  }

  /** The dict literal with image and ports, then the command when it is non-empty. */
  method ImagePortsCommand(image: string, port: int, command: string) returns (service: Fields)
    ensures |service| >= 2 && service[0].0 == "image" && service[1].0 == "ports"
    ensures Get(service, "image") == Some(Str(image))
    ensures Get(service, "ports") == Some(Array([Str(PortMapping(port))]))
    ensures Get(service, "command") == if command != "" then Some(Str(command)) else None
    ensures forall k :: HasKey(service, k) ==> k == "image" || k == "ports" || k == "command"
  {
    var base := ImageAndPorts(image, port);
    service := base;
    if command != "" {
      service := Put(base, "command", Str(command));
    }
  }

  /** The dict literal `{"image": image, "ports": [f"{port}:{port}"]}`. */
  method ImageAndPorts(image: string, port: int) returns (base: Fields)
    ensures |base| == 2 && base[0].0 == "image" && base[1].0 == "ports"
    ensures Get(base, "image") == Some(Str(image))
    ensures Get(base, "ports") == Some(Array([Str(PortMapping(port))]))
    ensures forall k :: HasKey(base, k) ==> k == "image" || k == "ports"
  {
    base := [("image", Str(image)), ("ports", Array([Str(PortMapping(port))]))];
    assert base == [] + [base[0]] + [base[1]];
    GetSnoc([], base[0], "image");
    GetSnoc([base[0]], base[1], "image");
    GetSnoc([base[0]], base[1], "ports");
    forall k | HasKey(base, k) ensures k == "image" || k == "ports" {
      GetSnoc([], base[0], k);
      GetSnoc([base[0]], base[1], k);
    }
  }

  /** The loop over the custom networks: each one is written into the top-level
      networks mapping, a null configuration as an external network. */
  method AddCustomNetworks(nets: Fields, custom: Fields) returns (r: Fields)
    ensures r == Update(nets, NetworkEntries(custom))
    ensures forall k :: Get(r, k) == if HasKey(custom, k) then Some(NetworkEntry(Get(custom, k).value)) else Get(nets, k)
  {
    r := nets;
    var i := 0;
    while i < |custom|
      invariant 0 <= i <= |custom|
      invariant r == Update(nets, NetworkEntries(custom[..i]))
    {
      NetworkEntriesStep(nets, custom, i);
      r := Put(r, custom[i].0, NetworkEntry(custom[i].1));
      i := i + 1;
    }
    assert custom[..i] == custom;
  }

  /** Writing one more custom network is updating with one more entry. */
  lemma NetworkEntriesStep(nets: Fields, custom: Fields, i: nat)
    requires i < |custom|
    ensures Update(nets, NetworkEntries(custom[..i + 1]))
            == Put(Update(nets, NetworkEntries(custom[..i])), custom[i].0, NetworkEntry(custom[i].1))
  {
    assert custom[..i + 1][..i] == custom[..i];
    assert NetworkEntries(custom[..i + 1]) == NetworkEntries(custom[..i]) + [(custom[i].0, NetworkEntry(custom[i].1))];
    UpdateSnoc(nets, NetworkEntries(custom[..i]), (custom[i].0, NetworkEntry(custom[i].1)));
  }

  /** The top-level networks mapping: the default network as external, overwritten
      only by a custom network of the same name, plus one entry per custom network. */
  ghost predicate NetworksAsConfigured(nets: Fields, custom: Option<Fields>, defaultNetwork: string) {
    forall k :: Get(nets, k) ==
      if custom.Some? && HasKey(custom.value, k) then Some(NetworkEntry(Get(custom.value, k).value))
      else if k == defaultNetwork then Some(External)
      else None
  }

  /** The service's `networks` list: the custom network names in order, then the default network. */
  function ServiceNetworks(custom: Option<Fields>, defaultNetwork: string): Option<Json> {
    match custom
    case Some(f) => Some(Array(StrItems(Keys(f)) + [Str(defaultNetwork)]))
    case None => None
  }

  /** `generate_compose_config`. The service entry and the top-level networks mapping
      are built step by step, as the source mutates `service_config` and
      `compose_dict["networks"]`; `service` and `nets` are their final values. A
      Failure stands for an exception other than JSONDecodeError, which the source
      lets propagate: networks or additional configuration that parse to a value that
      cannot be used as a dict. */
  method GenerateComposeConfig(
    parse: Parser, serviceName: string, image: string, port: int,
    command: string, volumes: string, composeConfig: string, environment: string,
    networks: string, composeVersion: string, defaultNetwork: string)
    returns (r: Result<Json, string>, service: Fields, nets: Fields)
    // The only errors are networks that are not a dict and additional configuration that
    // `update` rejects, in that order; malformed JSON never fails.
    ensures r.Failure? <==> ParsesToNonObject(parse, networks) || MergeFails(parse, composeConfig)
    ensures r.Failure? ==> r.error == if ParsesToNonObject(parse, networks) then NoItems(Lenient(parse, networks).value)
                                     else ExtraItems(parse, composeConfig).error
    ensures r.Success? ==> r.value == Object([
      ("version", Str(composeVersion)),
      ("services", Object([(serviceName, Object(service))])),
      ("networks", Object(nets))])
    // Every document it returns passes the validator.
    ensures r.Success? ==> ValidateComposeConfig(r.value.fields)
    // The entry starts with image and ports; the merge keeps those positions.
    ensures r.Success? ==> |service| >= 2 && service[0].0 == "image" && service[1].0 == "ports"
    // Each generated key, unless the additional configuration overrides it.
    ensures r.Success? ==> var extra := ExtraConfig(parse, composeConfig);
      && (!HasKey(extra, "image") ==> Get(service, "image") == Some(Str(image)))
      && (!HasKey(extra, "ports") ==> Get(service, "ports") == Some(Array([Str(PortMapping(port))])))
      && (!HasKey(extra, "command") ==> Get(service, "command") == if command != "" then Some(Str(command)) else None)
      && (!HasKey(extra, "volumes") ==> Get(service, "volumes") == Lenient(parse, volumes))
      && (!HasKey(extra, "environment") ==> Get(service, "environment") == Lenient(parse, environment))
      && (!HasKey(extra, "networks") ==>
            Get(service, "networks") == ServiceNetworks(CustomNetworks(parse, networks), defaultNetwork))
    // The additional configuration wins on every key it has (shallow, last wins) ...
    ensures r.Success? ==> var extra := ExtraConfig(parse, composeConfig);
      forall k :: HasKey(extra, k) ==> Get(service, k) == Get(extra, k)
    // ... and nothing else is added.
    ensures r.Success? ==> forall k :: k !in GeneratedKeys && !HasKey(ExtraConfig(parse, composeConfig), k) ==> !HasKey(service, k)
    ensures r.Success? ==> NetworksAsConfigured(nets, CustomNetworks(parse, networks), defaultNetwork)
  {
    service := BuildServiceEntry(parse, image, port, command, volumes, environment);
    var failed;
    failed, service, nets := AddNetworks(parse, service, networks, defaultNetwork);
    if failed.Some? {
      r := Failure(failed.value);
      return;
    }
    failed, service := MergeExtraConfig(parse, service, composeConfig);
    if failed.Some? {
      r := Failure(failed.value);
      return;
    }
    r := Success(Object([
      ("version", Str(composeVersion)),
      ("services", Object([(serviceName, Object(service))])),
      ("networks", Object(nets))]));
    HasKeyAt(service, 0);
    ValidSingleServiceDocument(composeVersion, serviceName, service, [("networks", Object(nets))]);
    assert [("version", Str(composeVersion)), ("services", Object([(serviceName, Object(service))]))] + [("networks", Object(nets))]
        == r.value.fields;
  }

  /** The networks step of `generate_compose_config`: the default network as external,
      and, when the networks text parses to a mapping, each custom network added to the
      top-level mapping and the service's `networks` list set to the custom names
      followed by the default one. Text that parses to something else fails as
      `.items()` on it does. */
  method AddNetworks(parse: Parser, service: Fields, networks: string, defaultNetwork: string)
    returns (failed: Option<string>, service': Fields, nets: Fields)
    requires !HasKey(service, "networks")
    ensures failed.Some? <==> ParsesToNonObject(parse, networks)
    ensures failed.Some? ==> failed.value == NoItems(Lenient(parse, networks).value)
    ensures failed.None? ==> |service'| >= |service| && forall i :: 0 <= i < |service| ==> service'[i].0 == service[i].0
    ensures failed.None? ==> Get(service', "networks") == ServiceNetworks(CustomNetworks(parse, networks), defaultNetwork)
    ensures failed.None? ==> forall k :: k != "networks" ==> Get(service', k) == Get(service, k)
    ensures failed.None? ==> NetworksAsConfigured(nets, CustomNetworks(parse, networks), defaultNetwork)
  {
    failed, service' := None, service;
    nets := [(defaultNetwork, External)];
    DefaultNetworkOnly(defaultNetwork);
    if networks != "" {
      var parsed := parse(networks);
      if parsed.Success? {
        if !parsed.value.Object? {
          failed := Some(NoItems(parsed.value));
          return;
        }
        var custom := parsed.value.fields;
        assert CustomNetworks(parse, networks) == Some(custom);
        var nets0 := nets;
        nets := AddCustomNetworks(nets, custom);
        CustomNetworksConfigured(nets0, nets, custom, defaultNetwork);
        service' := Put(service, "networks", Array(StrItems(Keys(custom)) + [Str(defaultNetwork)]));
        return;
      }
    }
    assert CustomNetworks(parse, networks) == None;
  }

  /** The networks mapping before the loop: only the default network, as external. */
  lemma DefaultNetworkOnly(defaultNetwork: string)
    ensures forall k :: Get([(defaultNetwork, External)], k) == if k == defaultNetwork then Some(External) else None
    ensures NetworksAsConfigured([(defaultNetwork, External)], None, defaultNetwork)
  {
    forall k ensures Get([(defaultNetwork, External)], k) == if k == defaultNetwork then Some(External) else None {
      assert [(defaultNetwork, External)] == [] + [(defaultNetwork, External)];
      GetSnoc([], (defaultNetwork, External), k);
    }
  }

  lemma CustomNetworksConfigured(nets0: Fields, nets: Fields, custom: Fields, defaultNetwork: string)
    requires forall k :: Get(nets0, k) == if k == defaultNetwork then Some(External) else None
    requires forall k :: Get(nets, k)
                         == if HasKey(custom, k) then Some(NetworkEntry(Get(custom, k).value)) else Get(nets0, k)
    ensures NetworksAsConfigured(nets, Some(custom), defaultNetwork)
  {
  }

  /** `service_config.update(...)` with the additional configuration when its text
      parses; the update raises on a value it cannot take as a dict or as pairs. */
  method MergeExtraConfig(parse: Parser, service: Fields, composeConfig: string)
    returns (failed: Option<string>, service': Fields)
    ensures failed.Some? <==> MergeFails(parse, composeConfig)
    ensures failed.Some? ==> failed.value == ExtraItems(parse, composeConfig).error
    ensures failed.None? ==> service' == Update(service, ExtraConfig(parse, composeConfig))
  {
    failed, service' := None, service;
    if composeConfig != "" {
      var parsed := parse(composeConfig);
      if parsed.Success? {
        match UpdateItems(parsed.value)
        case Failure(e) => {
          failed := Some(e);
          return;
        }
        case Success(items) => {
          service' := Update(service, items);
        }
      }
    }
  }

  /** A document whose `version` comes first, `services` second and holds a single
      entry with an image, followed by anything but another `services`, passes the
      validator. */
  lemma ValidSingleServiceDocument(version: string, name: string, service: Fields, rest: Fields)
    requires HasKey(service, "image") && !HasKey(rest, "services")
    ensures ValidateComposeConfig([("version", Str(version)), ("services", Object([(name, Object(service))]))] + rest)
  {
    var head: Fields := [("version", Str(version)), ("services", Object([(name, Object(service))]))];
    var doc := head + rest;
    HasKeyAt(doc, 0);
    HasKeyAt(doc, 1);
    assert Get(head, "services") == Some(Object([(name, Object(service))]));
    ServicesAfterHead(head, rest);
  }

  lemma {:induction false} ServicesAfterHead(head: Fields, rest: Fields)
    requires !HasKey(rest, "services")
    ensures Get(head + rest, "services") == Get(head, "services")
    decreases |rest|
  {
    if rest == [] {
      assert head + rest == head;
    } else {
      var init, last := rest[..|rest| - 1], rest[|rest| - 1];
      assert rest == init + [last];
      assert head + rest == (head + init) + [last];
      GetSnoc(head + init, last, "services");
      GetSnoc(init, last, "services");
      ServicesAfterHead(head, init);
    }
  }
}
