/** The three request handlers behind the plugin's routes: create an instance of a
    challenge for the caller, stop one, and extend one's lifetime. Each returns a JSON
    body and an HTTP status; the instance registry is the only state they change. */
module RoutesHelper {
  import opened Wrappers
  import opened Json
  import opened Models

  const ChallengeNotFound := "Challenge not found"
  const StatusCheckFailed := "Error checking container status"
  const NoPort := "Could not get port assignment"
  const CreateFailed := "Failed to create service: "
  const ServiceNotFound := "Service not found"
  const StopFailed := "Failed to stop service: "
  const NoRunningService := "No running service found"
  const RenewFailed := "Failed to renew service: "
  /** The text of the AttributeError raised when the manager never set its lifetime. */
  const NoExpiration := "'ContainerManager' object has no attribute 'expiration_seconds'"

  /** What the create handler asks the container manager to start. */
  datatype CreateRequest = CreateRequest(
    image: string, port: int, command: string, volumes: string,
    composeConfig: Json, environment: Json, networks: Json)

  /** What the container manager reports for a started service. */
  datatype CreatedService = CreatedService(id: string, composePath: string, serviceName: string)

  /** The container manager as the handlers use it. Every operation either returns or
      raises with a message. `expirationSeconds` is `None` while the manager never
      connected (the attribute is then missing).

      The `create_container` of container_manager.py:177 does not fit this interface: it
      accepts no `compose_config`, `environment` or `networks` argument, and the object
      it returns carries only `id`, not `compose_path` or `service_name`. Called as
      routes_helper.py:65-91 calls it, it raises, so that every creation ends in the
      500 branch. The model gives `create` the interface the handler expects. */
  datatype Runtime = Runtime(
    isRunning: string -> Result<bool, string>,
    create: CreateRequest -> Result<CreatedService, string>,
    port: string -> Option<string>,
    kill: string -> Result<(), string>,
    expirationSeconds: Option<int>)

  /** A call a handler makes into the container manager. */
  datatype RuntimeCall = IsRunning(id: string) | Create(request: CreateRequest) | GetPort(id: string) | Kill(id: string)

  datatype Body =
    | ErrorBody(error: string)
    | InstanceBody(status: string, hostname: string, port: string, expires: int)
    | Stopped(success: string)
    | Renewed(success: string, expires: int)

  datatype Response = Response(body: Body, code: int)

  /** Instances are keyed by user under the "user" and "unlimited" policies, by team
      otherwise. */
  predicate ByUser(assignment: string) {
    assignment == "user" || assignment == "unlimited"
  }

  /** Whether record `r` is the caller's instance of the challenge. */
  predicate Owns(r: ContainerInfo, challengeId: int, userId: Option<int>, teamId: Option<int>, assignment: string) {
    r.challengeId == challengeId && (if ByUser(assignment) then r.userId == userId else r.teamId == teamId)
  }

  /** The caller's first instance of the challenge, in table order. */
  function FindOwned(rows: seq<ContainerInfo>, challengeId: int, userId: Option<int>, teamId: Option<int>,
                     assignment: string): (r: Option<nat>)
    ensures r.Some? ==> r.value < |rows| && Owns(rows[r.value], challengeId, userId, teamId, assignment)
    ensures r.Some? ==> forall j :: 0 <= j < r.value ==> !Owns(rows[j], challengeId, userId, teamId, assignment)
    ensures r.None? ==> forall j :: 0 <= j < |rows| ==> !Owns(rows[j], challengeId, userId, teamId, assignment)
  {
    FirstWhere(rows, (r: ContainerInfo) => Owns(r, challengeId, userId, teamId, assignment))
  }

  /** Two records for the same challenge and the same owner under the policy. */
  predicate SameOwner(a: ContainerInfo, b: ContainerInfo, assignment: string) {
    a.challengeId == b.challengeId && (if ByUser(assignment) then a.userId == b.userId else a.teamId == b.teamId)
  }

  /** At most one instance per challenge and owner. */
  predicate OnePerOwner(rows: seq<ContainerInfo>, assignment: string) {
    forall i, j :: 0 <= i < j < |rows| ==> !SameOwner(rows[i], rows[j], assignment)
  }

  /** `json.loads(text) if text else {}`. */
  function LoadOrEmpty(parse: Parser, text: string): Result<Json, string> {
    if text == "" then Success(Object([])) else parse(text)
  }

  /** The request built from a challenge: the three JSON columns are parsed in order and
      the first parse error is the result. */
  function BuildRequest(parse: Parser, c: ContainerChallenge): (r: Result<CreateRequest, string>)
    ensures r.Success? <==> LoadOrEmpty(parse, c.composeConfig).Success? && LoadOrEmpty(parse, c.environment).Success?
                            && LoadOrEmpty(parse, c.networks).Success?
    ensures r.Success? ==> r.value == CreateRequest(c.image, c.port, c.command, c.volumes,
                                                    LoadOrEmpty(parse, c.composeConfig).value,
                                                    LoadOrEmpty(parse, c.environment).value,
                                                    LoadOrEmpty(parse, c.networks).value)
    ensures r.Failure? ==> r.error == (if LoadOrEmpty(parse, c.composeConfig).Failure? then LoadOrEmpty(parse, c.composeConfig).error
                                      else if LoadOrEmpty(parse, c.environment).Failure? then LoadOrEmpty(parse, c.environment).error
                                      else LoadOrEmpty(parse, c.networks).error)
  {
    match LoadOrEmpty(parse, c.composeConfig)
    case Failure(e) => Failure(e)
    case Success(composeConfig) =>
      match LoadOrEmpty(parse, c.environment)
      case Failure(e) => Failure(e)
      case Success(environment) =>
        match LoadOrEmpty(parse, c.networks)
        case Failure(e) => Failure(e)
        case Success(networks) => Success(CreateRequest(c.image, c.port, c.command, c.volumes, composeConfig, environment, networks))
  }

  /** The registry once the create handler has looked at the caller's existing instance:
      a record whose service is no longer running is deleted. */
  ghost function AfterStaleCheck(rows: seq<ContainerInfo>, rt: Runtime, challengeId: int, userId: Option<int>,
                                 teamId: Option<int>, assignment: string): seq<ContainerInfo>
  {
    match FindOwned(rows, challengeId, userId, teamId, assignment)
    case Some(i) => if rt.isRunning(rows[i].containerId) == Success(false) then RemoveAt(rows, i) else rows
    case None => rows
  }

  /** The caller already has a live instance, which the handler reports instead of
      creating one. */
  ghost predicate AlreadyRunning(rows: seq<ContainerInfo>, rt: Runtime, challengeId: int, userId: Option<int>,
                                 teamId: Option<int>, assignment: string) {
    var owned := FindOwned(rows, challengeId, userId, teamId, assignment);
    owned.Some? && rt.isRunning(rows[owned.value].containerId) == Success(true)
  }

  /** Asking whether the caller's existing instance runs raised. */
  ghost predicate StatusUnknown(rows: seq<ContainerInfo>, rt: Runtime, challengeId: int, userId: Option<int>,
                                teamId: Option<int>, assignment: string) {
    var owned := FindOwned(rows, challengeId, userId, teamId, assignment);
    owned.Some? && rt.isRunning(rows[owned.value].containerId).Failure?
  }

  /** Everything the creation path needs goes right: the columns parse, the service
      starts, reports a port, the manager has a lifetime and the new id is free. */
  /** Starting the service for a built request succeeds: it starts, reports a non-empty
      port, a lifetime exists, and its id is new to the registry. */
  ghost predicate LaunchSucceeds(rows: seq<ContainerInfo>, rt: Runtime, req: CreateRequest) {
    rt.create(req).Success?
    && rt.port(rt.create(req).value.id).Some? && rt.port(rt.create(req).value.id).value != ""
    && rt.expirationSeconds.Some?
    && rt.create(req).value.id !in Ids(rows)
  }

  ghost predicate CreationSucceeds(rows: seq<ContainerInfo>, rt: Runtime, parse: Parser, c: ContainerChallenge) {
    BuildRequest(parse, c).Success? && LaunchSucceeds(rows, rt, BuildRequest(parse, c).value)
  }

  /** The error text of a launch that does not succeed, from the first step that fails:
      a failing start, wrapped as a creation failure; a missing or empty port; a missing
      lifetime; the failed commit. */
  function LaunchError(rt: Runtime, req: CreateRequest, dbError: string): string {
    match rt.create(req)
    case Failure(e) => CreateFailed + e
    case Success(svc) =>
      if rt.port(svc.id).None? || rt.port(svc.id).value == "" then NoPort
      else if rt.expirationSeconds.None? then CreateFailed + NoExpiration
      else CreateFailed + dbError
  }

  /** The error text of a creation that does not succeed: a column that does not parse,
      wrapped as a creation failure, and otherwise the launch's error. */
  function StartError(rt: Runtime, parse: Parser, c: ContainerChallenge, dbError: string): string {
    match BuildRequest(parse, c)
    case Failure(e) => CreateFailed + e
    case Success(req) => LaunchError(rt, req, dbError)
  }

  lemma FindByUniqueId(rows: seq<ContainerInfo>, i: nat)
    requires UniqueIds(rows) && i < |rows|
    ensures FindById(rows, rows[i].containerId) == Some(i)
  {
    var p := (r: ContainerInfo) => r.containerId == rows[i].containerId;
    assert p(rows[i]);
    assert forall j :: 0 <= j < i ==> !p(rows[j]);
  }

  lemma RemoveKeepsOnePerOwner(rows: seq<ContainerInfo>, i: nat, assignment: string)
    requires i < |rows| && OnePerOwner(rows, assignment)
    ensures OnePerOwner(RemoveAt(rows, i), assignment)
  {
    var r := RemoveAt(rows, i);
    forall a, b | 0 <= a < b < |r| ensures !SameOwner(r[a], r[b], assignment) {
      var a' := if a < i then a else a + 1;
      var b' := if b < i then b else b + 1;
      assert r[a] == rows[a'] && r[b] == rows[b'];
    }
  }

  /** Appending the caller's record to a registry where the caller owns nothing keeps at
      most one instance per owner, and the new record is what a later lookup finds. */
  lemma AppendOwned(rows: seq<ContainerInfo>, rec: ContainerInfo, challengeId: int, userId: Option<int>,
                    teamId: Option<int>, assignment: string)
    requires OnePerOwner(rows, assignment) && Owns(rec, challengeId, userId, teamId, assignment)
    requires FindOwned(rows, challengeId, userId, teamId, assignment).None?
    ensures OnePerOwner(rows + [rec], assignment)
    ensures FindOwned(rows + [rec], challengeId, userId, teamId, assignment) == Some(|rows|)
  {
    var r := rows + [rec];
    forall a, b | 0 <= a < b < |r| ensures !SameOwner(r[a], r[b], assignment) {
      if b == |rows| {
        assert r[a] == rows[a];
        assert !Owns(rows[a], challengeId, userId, teamId, assignment);
      }
    }
    assert Owns(r[|rows|], challengeId, userId, teamId, assignment);
    assert forall j :: 0 <= j < |rows| ==> !Owns(r[j], challengeId, userId, teamId, assignment) by {
      forall j | 0 <= j < |rows| ensures !Owns(r[j], challengeId, userId, teamId, assignment) {
        assert r[j] == rows[j];
      }
    }
  }

  /** After the stale record of the caller is gone, the caller owns nothing, provided the
      registry had at most one instance per owner. */
  lemma NothingOwnedAfterStaleCheck(rows: seq<ContainerInfo>, rt: Runtime, challengeId: int, userId: Option<int>,
                                    teamId: Option<int>, assignment: string)
    requires OnePerOwner(rows, assignment)
    requires !AlreadyRunning(rows, rt, challengeId, userId, teamId, assignment)
    requires !StatusUnknown(rows, rt, challengeId, userId, teamId, assignment)
    ensures FindOwned(AfterStaleCheck(rows, rt, challengeId, userId, teamId, assignment),
                      challengeId, userId, teamId, assignment).None?
  {
    var after := AfterStaleCheck(rows, rt, challengeId, userId, teamId, assignment);
    match FindOwned(rows, challengeId, userId, teamId, assignment)
    case None => {}
    case Some(i) => {
      var status := rt.isRunning(rows[i].containerId);
      assert status.Success? && !status.value;
      assert status == Success(false);
      assert after == RemoveAt(rows, i);
      OwnedNowhereAfterRemove(rows, i, challengeId, userId, teamId, assignment);
    }
  }

  /** The runtime calls of the existence check: the status of the caller's instance, if
      the registry has one. */
  function CheckCalls(rows: seq<ContainerInfo>, challengeId: int, userId: Option<int>, teamId: Option<int>,
                      assignment: string): seq<RuntimeCall>
  {
    match FindOwned(rows, challengeId, userId, teamId, assignment)
    case Some(i) => if i < |rows| then [IsRunning(rows[i].containerId)] else []
    case None => []
  }

  /** The runtime calls of launching a built request: the creation, and the port lookup
      once the service exists. */
  function LaunchCalls(rt: Runtime, req: CreateRequest): seq<RuntimeCall> {
    match rt.create(req)
    case Failure(_) => [Create(req)]
    case Success(svc) => [Create(req), GetPort(svc.id)]
  }

  /** The runtime calls of starting a service: none when the request cannot be built,
      otherwise the launch's. */
  function StartCalls(rt: Runtime, parse: Parser, challenge: ContainerChallenge): seq<RuntimeCall> {
    match BuildRequest(parse, challenge)
    case Failure(_) => []
    case Success(req) => LaunchCalls(rt, req)
  }

  /** `create_compose_service`. */
  method CreateComposeService(table: InstanceTable, rt: Runtime, parse: Parser,
                              challenges: map<int, ContainerChallenge>, challengeId: int,
                              userId: Option<int>, teamId: Option<int>, assignment: string,
                              now: int, dbError: string)
    returns (resp: Response, calls: seq<RuntimeCall>)
    requires table.Valid()
    requires forall k :: k in challenges ==> challenges[k].id == k
    modifies table
    ensures table.Valid()
    ensures resp.code in {200, 400, 500}
    ensures OnePerOwner(old(table.rows), assignment) ==> OnePerOwner(table.rows, assignment)
    ensures challengeId !in challenges ==>
      resp == Response(ErrorBody(ChallengeNotFound), 400) && calls == [] && table.rows == old(table.rows)
    ensures challengeId in challenges && AlreadyRunning(old(table.rows), rt, challengeId, userId, teamId, assignment) ==>
      var r := old(table.rows)[FindOwned(old(table.rows), challengeId, userId, teamId, assignment).value];
      resp == Response(InstanceBody("already_running", challenges[challengeId].connectionInfo, r.port, r.expires), 200)
      && calls == [IsRunning(r.containerId)] && table.rows == old(table.rows)
    ensures challengeId in challenges && StatusUnknown(old(table.rows), rt, challengeId, userId, teamId, assignment) ==>
      resp == Response(ErrorBody(StatusCheckFailed), 500) && table.rows == old(table.rows)
    ensures challengeId in challenges
            && !AlreadyRunning(old(table.rows), rt, challengeId, userId, teamId, assignment)
            && !StatusUnknown(old(table.rows), rt, challengeId, userId, teamId, assignment) ==>
      var cleared := AfterStaleCheck(old(table.rows), rt, challengeId, userId, teamId, assignment);
      (resp.code == 200 <==> CreationSucceeds(cleared, rt, parse, challenges[challengeId]))
      && (resp.code == 200 ==>
            var req := BuildRequest(parse, challenges[challengeId]).value;
            var svc := rt.create(req).value;
            var port := rt.port(svc.id).value;
            var expires := now + rt.expirationSeconds.value;
            resp == Response(InstanceBody("created", challenges[challengeId].connectionInfo, port, expires), 200)
            && table.rows == cleared + [ContainerInfo(svc.id, challengeId, userId, teamId, port,
                                                      svc.composePath, svc.serviceName, now, expires)]
            && Create(req) in calls)
      && (resp.code != 200 ==>
            table.rows == cleared && resp.body.ErrorBody?
            && (resp.body.error == NoPort || CreateFailed <= resp.body.error)
            && resp.body == ErrorBody(StartError(rt, parse, challenges[challengeId], dbError)))
    ensures resp.code == 200 && resp.body.status == "created" && OnePerOwner(old(table.rows), assignment) ==>
      FindOwned(table.rows, challengeId, userId, teamId, assignment) == Some(|table.rows| - 1)
    // Every runtime call, in order; nothing is ever killed here.
    ensures calls == if challengeId !in challenges then []
                     else CheckCalls(old(table.rows), challengeId, userId, teamId, assignment)
                          + if AlreadyRunning(old(table.rows), rt, challengeId, userId, teamId, assignment)
                               || StatusUnknown(old(table.rows), rt, challengeId, userId, teamId, assignment)
                            then [] else StartCalls(rt, parse, challenges[challengeId])
  {
    if challengeId !in challenges {
      return Response(ErrorBody(ChallengeNotFound), 400), [];
    }
    var challenge := challenges[challengeId];
    var early;
    early, calls := CheckExisting(table, rt, challengeId, challenge.connectionInfo, userId, teamId, assignment);
    if early.Some? {
      return early.value, calls;
    }
    var more;
    resp, more := StartService(table, rt, parse, challenge, userId, teamId, assignment, now, dbError);
    calls := calls + more;
  }

  /** The first part of `create_compose_service`: the caller's existing instance, if any,
      is reported when it runs, and its record deleted when it does not. */
  method CheckExisting(table: InstanceTable, rt: Runtime, challengeId: int, connectionInfo: string,
                       userId: Option<int>, teamId: Option<int>, assignment: string)
    returns (early: Option<Response>, calls: seq<RuntimeCall>)
    requires table.Valid()
    modifies table
    ensures table.Valid()
    ensures AlreadyRunning(old(table.rows), rt, challengeId, userId, teamId, assignment) ==>
      var r := old(table.rows)[FindOwned(old(table.rows), challengeId, userId, teamId, assignment).value];
      early == Some(Response(InstanceBody("already_running", connectionInfo, r.port, r.expires), 200))
      && calls == [IsRunning(r.containerId)] && table.rows == old(table.rows)
    ensures StatusUnknown(old(table.rows), rt, challengeId, userId, teamId, assignment) ==>
      early == Some(Response(ErrorBody(StatusCheckFailed), 500)) && table.rows == old(table.rows)
    ensures !AlreadyRunning(old(table.rows), rt, challengeId, userId, teamId, assignment)
            && !StatusUnknown(old(table.rows), rt, challengeId, userId, teamId, assignment) ==>
      early.None? && table.rows == AfterStaleCheck(old(table.rows), rt, challengeId, userId, teamId, assignment)
    ensures OnePerOwner(old(table.rows), assignment) ==> OnePerOwner(table.rows, assignment)
    ensures early.None? && OnePerOwner(old(table.rows), assignment) ==>
      FindOwned(table.rows, challengeId, userId, teamId, assignment).None?
    ensures calls == CheckCalls(old(table.rows), challengeId, userId, teamId, assignment)
  {
    calls := [];
    early := None;
    match FindOwned(table.rows, challengeId, userId, teamId, assignment) {
    case Some(i) =>
      var running := table.rows[i];
      calls := [IsRunning(running.containerId)];
      match rt.isRunning(running.containerId) {
      case Failure(_) => {
        return Some(Response(ErrorBody(StatusCheckFailed), 500)), calls;
      }
      case Success(true) => {
        return Some(Response(InstanceBody("already_running", connectionInfo, running.port, running.expires), 200)), calls;
      }
      case Success(false) => {
        RemoveStale(table, i, challengeId, userId, teamId, assignment);
      }
      }
    case None =>
    }
  }

  /** `db.session.delete(existing)` of the caller's record at `i`, whose service is no
      longer running. */
  method RemoveStale(table: InstanceTable, i: nat, challengeId: int, userId: Option<int>, teamId: Option<int>,
                     assignment: string)
    requires table.Valid() && FindOwned(table.rows, challengeId, userId, teamId, assignment) == Some(i)
    modifies table
    ensures table.Valid() && table.rows == RemoveAt(old(table.rows), i)
    ensures OnePerOwner(old(table.rows), assignment) ==>
      OnePerOwner(table.rows, assignment) && FindOwned(table.rows, challengeId, userId, teamId, assignment).None?
  {
    ghost var rows0 := table.rows;
    FindByUniqueId(table.rows, i);
    table.Delete(table.rows[i].containerId);
    if OnePerOwner(rows0, assignment) {
      RemoveKeepsOnePerOwner(rows0, i, assignment);
      OwnedNowhereAfterRemove(rows0, i, challengeId, userId, teamId, assignment);
    }
  }

  /** Deleting the caller's first record from a registry with one instance per owner
      leaves the caller nothing. */
  lemma OwnedNowhereAfterRemove(rows: seq<ContainerInfo>, i: nat, challengeId: int, userId: Option<int>,
                                teamId: Option<int>, assignment: string)
    requires OnePerOwner(rows, assignment) && FindOwned(rows, challengeId, userId, teamId, assignment) == Some(i)
    ensures FindOwned(RemoveAt(rows, i), challengeId, userId, teamId, assignment).None?
  {
    var after := RemoveAt(rows, i);
    forall j | 0 <= j < |after| ensures !Owns(after[j], challengeId, userId, teamId, assignment) {
      if j < i {
        assert after[j] == rows[j];
      } else {
        assert after[j] == rows[j + 1];
        assert !SameOwner(rows[i], rows[j + 1], assignment);
      }
    }
  }

  /** The `try` block of `create_compose_service`, from parsing the JSON columns to the
      committed record. */
  method StartService(table: InstanceTable, rt: Runtime, parse: Parser, challenge: ContainerChallenge,
                      userId: Option<int>, teamId: Option<int>, assignment: string, now: int, dbError: string)
    returns (resp: Response, calls: seq<RuntimeCall>)
    requires table.Valid()
    modifies table
    ensures table.Valid()
    ensures resp.code in {200, 500}
    ensures resp.code == 200 <==> CreationSucceeds(old(table.rows), rt, parse, challenge)
    ensures resp.code == 200 ==>
      var req := BuildRequest(parse, challenge).value;
      var svc := rt.create(req).value;
      var port := rt.port(svc.id).value;
      var expires := now + rt.expirationSeconds.value;
      resp == Response(InstanceBody("created", challenge.connectionInfo, port, expires), 200)
      && table.rows == old(table.rows) + [ContainerInfo(svc.id, challenge.id, userId, teamId, port,
                                                        svc.composePath, svc.serviceName, now, expires)]
      && Create(req) in calls
    ensures resp.code != 200 ==>
      table.rows == old(table.rows) && resp.body.ErrorBody?
      && (resp.body.error == NoPort || CreateFailed <= resp.body.error)
    ensures resp.code != 200 ==> resp.body == ErrorBody(StartError(rt, parse, challenge, dbError))
    ensures resp.code == 200 && OnePerOwner(old(table.rows), assignment)
            && FindOwned(old(table.rows), challenge.id, userId, teamId, assignment).None? ==>
      OnePerOwner(table.rows, assignment)
      && FindOwned(table.rows, challenge.id, userId, teamId, assignment) == Some(|table.rows| - 1)
    ensures calls == StartCalls(rt, parse, challenge)
  {
    var request := BuildRequest(parse, challenge);
    if request.Failure? {
      return Response(ErrorBody(CreateFailed + request.error), 500), [];
    }
    resp, calls := LaunchService(table, rt, challenge, request.value, userId, teamId, assignment, now, dbError);
  }

  /** The `try` block of `create_compose_service` from `create_container` on, for the
      request built from the challenge's columns. */
  method LaunchService(table: InstanceTable, rt: Runtime, challenge: ContainerChallenge, req: CreateRequest,
                       userId: Option<int>, teamId: Option<int>, assignment: string, now: int, dbError: string)
    returns (resp: Response, calls: seq<RuntimeCall>)
    requires table.Valid()
    modifies table
    ensures table.Valid()
    ensures resp.code in {200, 500}
    ensures resp.code == 200 <==> LaunchSucceeds(old(table.rows), rt, req)
    ensures resp.code == 200 ==>
      var svc := rt.create(req).value;
      var port := rt.port(svc.id).value;
      var expires := now + rt.expirationSeconds.value;
      resp == Response(InstanceBody("created", challenge.connectionInfo, port, expires), 200)
      && table.rows == old(table.rows) + [ContainerInfo(svc.id, challenge.id, userId, teamId, port,
                                                        svc.composePath, svc.serviceName, now, expires)]
    ensures resp.code != 200 ==> table.rows == old(table.rows) && resp.body == ErrorBody(LaunchError(rt, req, dbError))
    ensures resp.code == 200 && OnePerOwner(old(table.rows), assignment)
            && FindOwned(old(table.rows), challenge.id, userId, teamId, assignment).None? ==>
      OnePerOwner(table.rows, assignment)
      && FindOwned(table.rows, challenge.id, userId, teamId, assignment) == Some(|table.rows| - 1)
    ensures calls == LaunchCalls(rt, req)
  {
    var created := rt.create(req);
    if created.Failure? {
      return Response(ErrorBody(CreateFailed + created.error), 500), [Create(req)];
    }
    var more;
    resp, more := RecordService(table, rt, challenge, created.value, userId, teamId, assignment, now, dbError);
    calls := [Create(req)] + more;
  }

  /** The rest of the `try` block once the service started: its port, its expiry and the
      committed record. */
  method RecordService(table: InstanceTable, rt: Runtime, challenge: ContainerChallenge, svc: CreatedService,
                       userId: Option<int>, teamId: Option<int>, assignment: string, now: int, dbError: string)
    returns (resp: Response, calls: seq<RuntimeCall>)
    requires table.Valid()
    modifies table
    ensures table.Valid()
    ensures calls == [GetPort(svc.id)]
    ensures resp.code in {200, 500}
    ensures resp.code == 200 <==> rt.port(svc.id).Some? && rt.port(svc.id).value != "" && rt.expirationSeconds.Some?
                                  && svc.id !in Ids(old(table.rows))
    ensures resp.code == 200 ==>
      var port := rt.port(svc.id).value;
      var expires := now + rt.expirationSeconds.value;
      resp == Response(InstanceBody("created", challenge.connectionInfo, port, expires), 200)
      && table.rows == old(table.rows) + [ContainerInfo(svc.id, challenge.id, userId, teamId, port,
                                                        svc.composePath, svc.serviceName, now, expires)]
    ensures resp.code != 200 ==>
      table.rows == old(table.rows)
      && resp.body == ErrorBody(if rt.port(svc.id).None? || rt.port(svc.id).value == "" then NoPort
                                else if rt.expirationSeconds.None? then CreateFailed + NoExpiration
                                else CreateFailed + dbError)
    ensures resp.code == 200 && OnePerOwner(old(table.rows), assignment)
            && FindOwned(old(table.rows), challenge.id, userId, teamId, assignment).None? ==>
      OnePerOwner(table.rows, assignment)
      && FindOwned(table.rows, challenge.id, userId, teamId, assignment) == Some(|table.rows| - 1)
  {
    calls := [GetPort(svc.id)];
    var port := rt.port(svc.id);
    if port.None? || port.value == "" {
      return Response(ErrorBody(NoPort), 500), calls;
    }
    if rt.expirationSeconds.None? {
      return Response(ErrorBody(CreateFailed + NoExpiration), 500), calls;
    }
    var expires := now + rt.expirationSeconds.value;
    var record := ContainerInfo(svc.id, challenge.id, userId, teamId, port.value,
                                svc.composePath, svc.serviceName, now, expires);
    var ok := CommitRecord(table, record, challenge.id, userId, teamId, assignment);
    if !ok {
      return Response(ErrorBody(CreateFailed + dbError), 500), calls;
    }
    resp := Response(InstanceBody("created", challenge.connectionInfo, port.value, expires), 200);
  }

  /** `db.session.add(...)` and `commit()` of the caller's new record; the commit fails
      on a duplicate container id. */
  method CommitRecord(table: InstanceTable, record: ContainerInfo, challengeId: int, userId: Option<int>,
                      teamId: Option<int>, assignment: string)
    returns (ok: bool)
    requires table.Valid() && Owns(record, challengeId, userId, teamId, assignment)
    modifies table
    ensures table.Valid()
    ensures ok <==> record.containerId !in Ids(old(table.rows))
    ensures table.rows == if ok then old(table.rows) + [record] else old(table.rows)
    ensures ok && OnePerOwner(old(table.rows), assignment)
            && FindOwned(old(table.rows), challengeId, userId, teamId, assignment).None? ==>
      OnePerOwner(table.rows, assignment)
      && FindOwned(table.rows, challengeId, userId, teamId, assignment) == Some(|table.rows| - 1)
  {
    ghost var rows0 := table.rows;
    ok := table.Insert(record);
    if ok && OnePerOwner(rows0, assignment) && FindOwned(rows0, challengeId, userId, teamId, assignment).None? {
      AppendOwned(rows0, record, challengeId, userId, teamId, assignment);
    }
  }

  /** `kill_compose_service`: stops the service and deletes its record; a failed stop
      keeps the record. The challenge id is not used. */
  method KillComposeService(table: InstanceTable, rt: Runtime, containerId: string, challengeId: string)
    returns (resp: Response, calls: seq<RuntimeCall>)
    requires table.Valid()
    modifies table
    ensures table.Valid()
    ensures containerId !in Ids(old(table.rows)) ==>
      resp == Response(ErrorBody(ServiceNotFound), 400) && calls == [] && table.rows == old(table.rows)
    ensures containerId in Ids(old(table.rows)) ==> calls == [Kill(containerId)]
    ensures containerId in Ids(old(table.rows)) && rt.kill(containerId).Failure? ==>
      resp == Response(ErrorBody(StopFailed + rt.kill(containerId).error), 500) && table.rows == old(table.rows)
    ensures containerId in Ids(old(table.rows)) && rt.kill(containerId).Success? ==>
      resp == Response(Stopped("Service stopped and removed"), 200)
      && table.rows == RemoveAt(old(table.rows), FindById(old(table.rows), containerId).value)
    ensures Ids(table.rows) == if resp.code == 200 then Ids(old(table.rows)) - {containerId} else Ids(old(table.rows))
  {
    calls := [];
    match FindById(table.rows, containerId)
    case None => {
      return Response(ErrorBody(ServiceNotFound), 400), calls;
    }
    case Some(i) => {
      calls := [Kill(containerId)];
      match rt.kill(containerId)
      case Failure(e) => {
        return Response(ErrorBody(StopFailed + e), 500), calls;
      }
      case Success(_) => {
        table.Delete(containerId);
        resp := Response(Stopped("Service stopped and removed"), 200);
      }
    }
  }

  /** `renew_compose_service`: moves the expiry of the caller's instance to now plus the
      configured lifetime; nothing else about the record changes. */
  method RenewComposeService(table: InstanceTable, rt: Runtime, challengeId: int, userId: Option<int>,
                             teamId: Option<int>, assignment: string, now: int)
    returns (resp: Response)
    requires table.Valid()
    modifies table
    ensures table.Valid()
    ensures FindOwned(old(table.rows), challengeId, userId, teamId, assignment).None? ==>
      resp == Response(ErrorBody(NoRunningService), 400) && table.rows == old(table.rows)
    ensures FindOwned(old(table.rows), challengeId, userId, teamId, assignment).Some? && rt.expirationSeconds.None? ==>
      resp == Response(ErrorBody(RenewFailed + NoExpiration), 500) && table.rows == old(table.rows)
    ensures FindOwned(old(table.rows), challengeId, userId, teamId, assignment).Some? && rt.expirationSeconds.Some? ==>
      var i := FindOwned(old(table.rows), challengeId, userId, teamId, assignment).value;
      resp == Response(Renewed("Service renewed", now + rt.expirationSeconds.value), 200)
      && table.rows == old(table.rows)[i := old(table.rows)[i].(expires := now + rt.expirationSeconds.value)]
    ensures OnePerOwner(old(table.rows), assignment) ==> OnePerOwner(table.rows, assignment)
  {
    match FindOwned(table.rows, challengeId, userId, teamId, assignment)
    case None => {
      return Response(ErrorBody(NoRunningService), 400);
    }
    case Some(i) => {
      if rt.expirationSeconds.None? {
        return Response(ErrorBody(RenewFailed + NoExpiration), 500);
      }
      var expires := now + rt.expirationSeconds.value;
      ghost var rows0 := table.rows;
      table.SetExpires(i, expires);
      assert forall j :: 0 <= j < |rows0| ==>
        table.rows[j].challengeId == rows0[j].challengeId && table.rows[j].userId == rows0[j].userId
        && table.rows[j].teamId == rows0[j].teamId;
      resp := Response(Renewed("Service renewed", expires), 200);
    }
  }
}
