# Compose challenge instances for CTFd: a verified model

This project models the core of a CTFd plugin. The plugin runs each challenge instance
as its own docker-compose project, owned by a user or by a team. The model covers:

- the three request handlers that create, stop and renew an instance against the
  instance registry (`RoutesHelper`), including the rule that looks an instance up by
  user under the `user` and `unlimited` policies and by team otherwise;
- the compose-document builder and its structural validator (`Utils`);
- the container manager (`Containers`): the document `create_compose_file` writes, its
  resource limits, the port read back from a project, stopping and probing a project,
  the image listing, the lifetime derived from the settings and the periodic sweep of
  expired instances;
- the readiness wait with its TCP and HTTP probes (`HealthCheck`);
- the database records and the insert-if-absent of settings (`Models`), and first-run
  setup of the default settings (`Setup`).

`Json` models the values `json.loads` and `yaml.safe_load` produce. An object keeps its
entries in insertion order, as a Python dict does. `d[k] = v` is `Put` and
`d.update(o)` with a dict `o` is `Update`; `Utils.UpdateItems` gives the entries
`update` assigns for any other argument, or the error it raises. `Text` models the pieces of `str` and `int` the plugin relies
on: `str(n)`, `int(s)`, `strip()`, `split(':')[0]` and the ordering `sorted` uses.
`Wrappers` holds `Option` and `Result`.

Everything outside the process is a parameter:

- `json.loads` is a `Parser`; `float()` of the CPU limit is a `FloatParser`.
- `docker-compose <args>` in a project directory is a `ComposeRunner`, which returns
  stdout or stderr.
- Building a docker client is a `Connector`.
- The handlers see the container manager as a `Runtime` of such functions and return
  the calls they made into it.
- The health probes' outcomes per attempt are a `Network`.
- The clock is a `now` argument.

The filesystem under the compose root is a map from project directory name to the document
its `docker-compose.yml` holds. The instance registry (`InstanceTable`) and the settings
table (`SettingsStore`) are classes whose fields the handlers reassign; each
`session.add`/`session.delete` followed by `commit` is one method call.

The handlers are stated against the interface they use. The `create_container` in
container_manager.py:177-196 accepts no `compose_config`, `environment` or `networks`
argument, and the object it returns has no `compose_path` or `service_name`. Called as
routes_helper.py:65-91 calls it, it raises, and every creation would end in the 500
branch. `RoutesHelper.Runtime.create` is the interface the handler expects;
`Containers.ContainerManager.CreateContainer` models the method as it is written.

The model follows the code in these places, where its behaviour may be unexpected:

- A missing port after creation returns 500. No compensating teardown of the new
  service happens (routes_helper.py:76-78).
- Creation and renewal set the expiry to `now` plus the lifetime, so renewal does not
  always increase the expiry (routes_helper.py:81, 156). With a lifetime of 0 the
  expiry is `now`, but the sweep is only scheduled for a positive lifetime
  (container_manager.py:83). Such instances are never swept.
- The additional compose configuration goes to `dict.update` whatever it parses to.
  An empty list or an empty string merges nothing. A list of pairs merges those pairs. A
  non-empty string, a number, a boolean or null raises (utils.py:78-83).
- A compose configuration, environment or networks column that does not parse makes
  the create handler answer 500 (routes_helper.py:60-62). Only the builder in utils.py
  parses leniently.
- A memory or CPU limit of zero or below adds no limit. Only text that is not a number is
  an error (container_manager.py:126-148).

## Model

| member | source | states |
|---|---|---|
| Text.IntToString | utils.py:28 | `str(n)` is non-empty, starts with a digit or `-`, ends with a digit, and holds no colon or whitespace |
| Text.IntToStringRoundTrip | container_manager.py:79 | `int(str(n)) == n` for every integer |
| Text.Strip | container_manager.py:222 | the stripped text is the slice of the input left after cutting characters of the given whitespace set, and only those, from both ends; it is empty exactly when every character is in the set, and otherwise starts and ends outside it. `strip()` uses `isspace()`'s set, `int()` the smaller set `IsIntSpace` |
| Text.ParseIntOfNumeral | container_manager.py:79 | `int()` of an optionally signed run of digits between whitespace in `int()`'s sense (U+001C to U+001F excluded) is the value of the numeral |
| Text.ParseIntOnlyNumerals | container_manager.py:79 | `int()` succeeds only on an optionally signed run of digits between whitespace in `int()`'s sense (U+001C to U+001F excluded), and its value is the numeral's |
| Text.ParseIntKeepsSeparators | container_manager.py:79 | a separator U+001C to U+001F before a numeral is trimmed by `strip()`, yet `int()` of the text fails |
| Text.SeparatorBlocksInt | container_manager.py:79 | `int()` fails on any text starting with a separator U+001C to U+001F |
| Text.StripPadded | container_manager.py:79 | stripping a text that starts and ends outside the whitespace set, padded with characters of the set, gives that text |
| Text.BeforeColon | container_manager.py:241 | `split(':')[0]` is the longest prefix without a colon, stopped by a colon when shorter than the text |
| Text.BeforeColonOfMapping | container_manager.py:241 | the host part of `"<a>:<b>"` is `a` when `a` has no colon |
| Text.StrLeTotal | container_manager.py:251 | any two strings are ordered one way or the other |
| Text.StrLeTransitive | container_manager.py:251 | string order is transitive |
| Text.InsertSorted | container_manager.py:251 | inserting into a sorted list gives a sorted list with exactly one more occurrence of the element |
| Text.SortStrings | container_manager.py:251 | `sorted` gives a sorted permutation of its input |
| Json.Get | utils.py:110 | `d.get(k)` is present exactly when `k in d` |
| Json.GetSnoc | utils.py:70 | a later entry under a key wins over earlier ones, and other keys read as before |
| Json.GetCons | utils.py:81 | an earlier entry under a key is hidden by any later one |
| Json.Put | utils.py:33 | `d[k] = v` reads back `v` under `k`, leaves every other key unchanged, keeps existing positions and appends only a new key |
| Json.Update | utils.py:81 | `d.update(o)`: every key of `o` ends with `o`'s value, every other key keeps its value, and existing keys keep their positions |
| Json.UpdateSnoc | utils.py:68-72 | updating with one more entry is assigning that entry after the update |
| Json.GetDistinct | utils.py:110 | in an object with distinct keys, as `json.loads` returns, each entry is what its key reads |
| Utils.ImageAndPorts | utils.py:26-29 | the entry is exactly `image` then `ports == ["<port>:<port>"]` |
| Utils.ImagePortsCommand | utils.py:26-33 | image and ports first; `command` present exactly when the command is non-empty; no other key |
| Utils.BuildServiceEntry | utils.py:26-49 | as above, plus `volumes` and `environment` exactly when their text is non-empty and parses, with the parsed value; malformed text adds nothing |
| Utils.NetworkEntries | utils.py:68-72 | each custom network keeps its name and order; a null configuration becomes `{"external": true}`, any other is copied |
| Utils.AddCustomNetworks | utils.py:68-72 | the network loop equals updating the top-level networks with the custom entries: custom names get their entry, other names keep theirs |
| Utils.NetworkEntriesStep | utils.py:68-72 | one loop pass assigns one more custom network |
| Utils.AddNetworks | utils.py:57-75 | top-level networks hold the default network as external unless a custom network of that name overrides it; the service's `networks` list is the custom names in order then the default; malformed text adds nothing; text that parses to a non-object fails as `.items()` does |
| Utils.DefaultNetworkOnly | utils.py:57-61 | before any custom network only the default network is present, as external |
| Utils.CustomNetworksConfigured | utils.py:57-73 | after the loop the networks mapping is as configured |
| Utils.UpdatePair | utils.py:81 | an element `update` accepts from a sequence is a list, a string or a dict; a length other than 2, an unhashable key, and an element that is not a sequence each raise Python's error |
| Utils.UpdateItems | utils.py:81 | `update` takes a dict's entries as they are; it accepts exactly a dict, the empty string, and a list whose every element is a pair, giving one entry per element |
| Utils.UpdatePairs | utils.py:81 | a sequence of pairs gives one entry per element, in order, each the element's pair; it fails only at an element that is not a pair |
| Utils.MergeExtraConfig | utils.py:78-83 | fails exactly when the parsed configuration is something `update` rejects, with `update`'s error text; otherwise the service entry is updated with the items of the parsed value, shallow and last wins; malformed text is ignored |
| Utils.GenerateComposeConfig | utils.py:10-85 | fails exactly when networks parse to a non-object or the compose configuration to something `update` rejects, reporting the networks error first; otherwise the document is version, the single service and networks; it validates; every generated key holds its value unless the extra configuration overrides it; overridden keys take the extra value; no other key appears |
| Utils.AllServicesValid | utils.py:115-119 | true exactly when every service is a mapping with an `image` |
| Utils.ValidateComposeConfig | utils.py:99-121 | true exactly when `version` and `services` are present, `services` is a non-empty mapping and every service is a mapping with `image` |
| Utils.ValidSingleServiceDocument | utils.py:52-62 | a document with version, then a single service having an image, then no second `services`, validates |
| Utils.ServicesAfterHead | utils.py:52-62 | entries after `services` that are not `services` do not change what `services` reads |
| Containers.ExpirationSeconds | container_manager.py:78-81 | the lifetime is the parsed minutes times 60 for any text `int()` accepts, and 0 for a missing or malformed value |
| Containers.ExpirationOfMinutes | container_manager.py:79 | a setting of `str(m)` minutes gives `m * 60` seconds |
| Containers.DefaultExpirationSeconds | container_manager.py:79 | after first-run setup on a store without an expiry, instances live 2700 seconds |
| Containers.FortyFiveMinutes | container_manager.py:79 | an expiry setting of "45" gives 2700 seconds |
| Containers.BaseService | container_manager.py:109-123 | image, then ports `"<port>:<port>"`; command and volumes exactly when non-empty; no `deploy` and no other key |
| Containers.ResourceLimits | container_manager.py:126-148 | a non-integer memory limit is "Invalid memory limit configuration", which is checked first; a non-number CPU limit is "Invalid CPU limit configuration"; otherwise limits exist exactly when memory is above 0 or CPU is positive, holding `"<n>m"` and `str(cpu)` respectively |
| Containers.AttachLimits | container_manager.py:130-146 | `deploy.resources.limits` is present exactly when there are limits and holds them; the other keys keep their values |
| Containers.LimitsOfDeploy | container_manager.py:130-146 | the limits written under `deploy` read back |
| Containers.PortOfSpec | container_manager.py:239-243 | a port is found only in a document whose `services` holds the requested service, and holds no colon |
| Containers.ComposeFileSpec | container_manager.py:105-148 | the same errors as the limits; otherwise the document is version "3" with the single service `challenge_<id>`, whose entry holds the image, the ports, the command and volumes exactly when non-empty, and the configured limits under `deploy.resources.limits` exactly when there are any, and no other key; it validates |
| Containers.PortOfSingleService | container_manager.py:240-241 | reading the first port mapping of the written document gives the challenge port |
| Containers.GetImages | container_manager.py:245-253 | a failed listing gives `[]`; otherwise the result is sorted and is exactly the non-empty tags, duplicates kept |
| Containers.NonEmptyTags | container_manager.py:251 | a tag is in the result exactly when it is non-empty and belongs to some image |
| Containers.NonEmpty | container_manager.py:251 | a tag is kept exactly when it is non-empty |
| Containers.UnexpiredMembers | container_manager.py:261-268 | the sweep keeps exactly the records with `expires >= now` |
| Containers.ExpiredIdsMembers | container_manager.py:262-264 | the sweep tries to stop exactly the ids of records with `expires < now` |
| Containers.SweepPartitions | container_manager.py:261-268 | kept and stopped records together account for every record |
| Containers.UnexpiredIds | container_manager.py:261-268 | the kept records' ids are among the original ids |
| Containers.UniquePrefixSuffix | models.py:45 | under the primary key, a record's id occurs in no earlier record |
| Containers.SweepStep | container_manager.py:261-268 | one record extends either the kept records or the stopped ids |
| Containers.RemainingStep | container_manager.py:263-266 | one more stop attempt removes that project directory exactly when its `down` succeeds |
| Containers.FindAfterPrefix | container_manager.py:267 | the record being swept is the one `delete` finds |
| Containers.RunComposeCommand | container_manager.py:156-175 | stdout on success; the failure text is "Docker Compose command failed: " plus stderr |
| Containers.ContainerManager.constructor | container_manager.py:41-56 | the settings and the existing project directories are kept as given; without a base url nothing is connected or scheduled; otherwise the client exists exactly when connecting succeeds, and then the lifetime is set and the sweep is scheduled exactly when it is positive |
| Containers.ContainerManager.InitializeConnection | container_manager.py:58-91 | a missing url gives no client; a failed connection gives "CTFd could not connect to Docker: …" and no client; a connection sets the lifetime and schedules the sweep exactly when it is above 0 |
| Containers.ContainerManager.CreateComposeFile | container_manager.py:94-154 | only the directory `challenge_<id>` is created or rewritten; it exists afterwards in every case; on the limit errors as above it keeps the file it had, if any; on success it returns the directory and service name and holds a valid document whose port reads back as the challenge port; the file holds that document, built from the arguments and the settings as `ComposeFileSpec` states |
| Containers.ContainerManager.CreateContainer | container_manager.py:177-196 | configuration errors propagate; a failing `up -d` is wrapped as "Failed to start compose service: …"; on success the service's port reads back as the challenge port; only that one project directory changes; once the limits are valid the project file holds the document built from the arguments and the settings, even when `up -d` fails |
| Containers.ContainerManager.KillContainer | container_manager.py:198-210 | a missing directory is a no-op; a failing `down` is "Failed to stop compose service: …" and keeps the directory; otherwise the directory is removed |
| Containers.ContainerManager.IsContainerRunning | container_manager.py:212-224 | true exactly when the directory exists, `ps --quiet` succeeds, and its output has a non-space character |
| Containers.ContainerManager.GetContainerPort | container_manager.py:226-243 | a port is only found in an existing project with a readable file, and holds no colon |
| Containers.ContainerManager.StopAndDelete | container_manager.py:263-268 | the project is stopped and a failure ignored; the record is deleted either way |
| Containers.ContainerManager.SweepRow | container_manager.py:262-268 | one loop pass: an expired record is stopped and deleted, another is kept |
| Containers.ContainerManager.KillExpiredContainers | container_manager.py:255-268 | the registry keeps exactly the unexpired records in order; every expired id is tried, and a failed stop does not stop the loop; exactly the directories whose `down` succeeded are removed |
| HealthCheck.CheckTcpPort | health_check.py:15-21 | up exactly when the connection opens |
| HealthCheck.CheckHttpEndpoint | health_check.py:24-30 | up exactly when a response with status below 500 arrives |
| HealthCheck.SleepsAppend | health_check.py:53-63 | sleep and probe counts add up over concatenated traces |
| HealthCheck.ScheduleTotals | health_check.py:53-63 | `n` failed attempts probe `n` times for a known protocol and never for another; they sleep between attempts only, not after the last |
| HealthCheck.FailedWaitTotals | health_check.py:53-65 | a wait that never succeeds and does not raise probes `max_retries` times and sleeps `(max_retries - 1) * delay` seconds, which is not negative |
| HealthCheck.WaitForService | health_check.py:33-65 | raises "sleep length must be non-negative" exactly when the delay is negative, a retry is due and the first attempt failed, after that one probe; otherwise ready exactly when some attempt below `max_retries` finds the service up; then the first such attempt ends the wait with no further probe; the message matches the outcome; a failed wait makes exactly the scheduled probes and sleeps |
| Models.NewContainerChallenge | models.py:34-36 | a new challenge's value equals its initial value |
| Models.FirstWhere | routes_helper.py:118 | `query.filter(...).first()` is the first row in table order that matches, or none when none matches |
| Models.Ids | models.py:45 | the set of container ids of the rows |
| Models.RemoveAt | routes_helper.py:124 | deleting a row removes exactly that row and keeps the order |
| Models.RemoveAtKeepsUnique | models.py:45 | deleting a row keeps container ids unique and removes exactly that id |
| Models.InstanceTable.constructor | models.py:38-45 | an empty registry |
| Models.InstanceTable.Insert | routes_helper.py:96-97 | the commit succeeds exactly when the container id is new; the record is then appended; otherwise nothing changes |
| Models.InstanceTable.Delete | routes_helper.py:124-125 | exactly the row with that id is removed, if any |
| Models.InstanceTable.SetExpires | routes_helper.py:157-158 | only that row's expiry changes |
| Models.SettingsStore.constructor | models.py:72-77 | the settings table with the given rows |
| Models.SettingsStore.ApplyDefaultConfig | models.py:79-83 | the key is added with the value when absent; an existing value and every other key are unchanged |
| Setup.WithDefaultsKeys | setup.py:24-25 | after setup exactly the old keys and the default keys are present |
| Setup.WithDefaults | setup.py:24-25 | a setting already present keeps its value, whatever key it has |
| Setup.WithDefaultsFills | setup.py:24-25 | an absent key gets the value of its entry in the table |
| Setup.WithDefaultsNoop | setup.py:24-25 | once all default keys are present, setup changes nothing |
| Setup.WithDefaultsIdempotent | setup.py:24-27 | running setup twice gives the same settings as running it once |
| Setup.SetupCoversDefaults | setup.py:11-25 | after setup all ten default keys are present |
| Setup.EarlierKeysDiffer | setup.py:11-22 | the ten default keys are distinct |
| Setup.DefaultAssignmentIsUser | setup.py:18 | on a store without the key, setup sets `docker_assignment` to "user" |
| Setup.DefaultExpirationIs45 | setup.py:15 | on a store without the key, setup sets `container_expiration` to "45" |
| Setup.WithDefaultsStep | setup.py:24-25 | one loop pass applies one more default pair |
| Setup.ApplyDefaults | setup.py:24-25 | the loop's settings are the defaults applied in order: old keys plus default keys, old values unchanged |
| Setup.SetupDefaultConfigs | setup.py:7-27 | the settings afterwards are the ten defaults applied in order, as above |
| RoutesHelper.FindOwned | routes_helper.py:28-37 | the first record for the challenge and the owner: the user under `user` and `unlimited` policies, the team otherwise |
| RoutesHelper.BuildRequest | routes_helper.py:60-73 | the request exists exactly when the three columns parse (empty text reads as `{}`); the first parse error is reported |
| RoutesHelper.FindByUniqueId | routes_helper.py:50 | under the primary key, deleting by id finds that exact row |
| RoutesHelper.RemoveKeepsOnePerOwner | routes_helper.py:50-51 | deleting a record keeps at most one instance per owner |
| RoutesHelper.OwnedNowhereAfterRemove | routes_helper.py:50-51 | with one instance per owner, deleting the caller's record leaves the caller none |
| RoutesHelper.AppendOwned | routes_helper.py:84-97 | appending the caller's record where the caller owned none keeps one instance per owner, and the new record is what a lookup finds |
| RoutesHelper.NothingOwnedAfterStaleCheck | routes_helper.py:40-51 | when the existing instance neither runs nor fails the check, the caller owns nothing afterwards |
| RoutesHelper.CheckExisting | routes_helper.py:39-55 | a running instance is reported with its stored port and expiry after one `is_running` call, without changing the registry; a failed check is 500 without change; a stopped instance's record is deleted; the only runtime call is that status check, when the caller has an instance |
| RoutesHelper.RemoveStale | routes_helper.py:50-51 | exactly the caller's stale record is deleted |
| RoutesHelper.CommitRecord | routes_helper.py:83-97 | the record is added exactly when its id is new; the caller then owns exactly it |
| RoutesHelper.RecordService | routes_helper.py:75-104 | a missing or empty port is 500 "Could not get port assignment" with no record and no teardown; a missing lifetime or failed commit is 500; otherwise exactly one record with `timestamp = now` and `expires = now + lifetime` is added, and the response carries the stored port and expiry |
| RoutesHelper.LaunchService | routes_helper.py:63-109 | for a built request: 200 exactly when the service starts, reports a port, a lifetime exists and the id is new, with exactly one record added; otherwise the registry is unchanged and the answer is the first failing step's text, a failing start as "Failed to create service: …"; the runtime calls are the creation and, once the service exists, the port lookup |
| RoutesHelper.StartService | routes_helper.py:58-109 | 200 exactly when the columns parse, the service starts, reports a port, a lifetime exists and the id is new; then exactly one record is added; otherwise the registry is unchanged; the runtime calls are exactly the creation once the request is built and the port lookup once the service exists; a failure answers the text of the first failing step: a column that does not parse or a failing start, both as "Failed to create service: …", then the port, lifetime and commit errors |
| RoutesHelper.CreateComposeService | routes_helper.py:16-109 | an unknown challenge is 400 "Challenge not found" with no change and no runtime call; the running, status-failed and creation outcomes are as described above, with the stale record removed first; at most one instance per owner is kept; the runtime calls are the status check and then the creation calls, and never a kill; a failed creation answers the text of its first failing step as `StartService` states |
| RoutesHelper.KillComposeService | routes_helper.py:111-130 | an unknown id is 400 "Service not found" with no call; a failed kill is 500 "Failed to stop service: …" keeping the record; success removes exactly that record |
| RoutesHelper.RenewComposeService | routes_helper.py:132-164 | no instance is 400 "No running service found"; a missing lifetime is 500; otherwise only that record's expiry becomes `now + lifetime`, no runtime call is made, and the response carries it |

## Left out

- Docker, docker-compose, the filesystem and YAML are not modelled; these become the
  `Connector` and `ComposeRunner` parameters and the directory map. So are
  `write_compose_file` and `cleanup_compose_files`, which only do file I/O.
- APScheduler, the `atexit` hook and the process's threads are not modelled: one sweep
  is one call at a given `now`. The code does not guard the lookup-then-create race
  either.
- Containers.ContainerManager.KillExpiredContainers: the clock is read once per sweep,
  because its value is a parameter; the source reads `time.time()` again for each record.
- Time is whole seconds: the fractional part of `time.time()` that
  `int(time.time() + seconds)` truncates is not modelled.
- Floating point is not modelled. `float()` of the CPU limit is an oracle that says whether
  the number is positive and gives its `str()`. JSON numbers other than integers are not
  modelled.
- Text.ParseInt: underscore separators and non-ASCII digits, which Python's `int()` also
  accepts, are rejected.
- `f"{port}:{port}"` of a port too large for the port range, and other runtime overflow
  errors, are not modelled.
- Utils.UpdatePair: a pair whose key is a number, a boolean or null is refused with the
  stand-in error "non-string key". Python stores such a key, but the model's objects have
  string keys only.
- Keyword arguments of `dict.update` are not modelled; the builder passes none.
- RoutesHelper.CreateComposeService: the handler reads the clock twice, for `expires`
  (routes_helper.py:81) and for `timestamp` (routes_helper.py:92). The model reads it once,
  as its `now` argument, so the two readings are the same second.
- Containers.ContainerManager.GetContainerPort: its own contract only bounds the result.
  The read-back of the challenge port is stated by
  Containers.ContainerManager.CreateComposeFile.
- The port reported by the runtime is kept as text in the registry, as the handler
  passes it. The database's integer conversion of the column is not modelled.
- Session rollback after a failed commit is the unchanged registry. Log output is not
  modelled.
- `is_connected` and the `ContainerException` message class are not modelled.
- metrics.py, container_challenge.py, backup.py and `__init__.py` are not part of this
  model. They cover statistics, scoring, archives and plugin bootstrap.
- The handlers use the container manager's `create_container` with the interface they
  expect, not the written one, as described above.
- The service id `str(int(time.time()))` is a parameter. Nothing assumes it is unique.
