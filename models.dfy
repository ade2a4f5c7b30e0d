/** The plugin's database records: the challenge definition, the instance registry
    (one row per running compose service) and the key/value settings table. The
    database itself becomes two classes whose fields the handlers reassign. */
module Models {
  import opened Wrappers

  /** A compose-based challenge as the handlers read it. Empty text stands for an unset
      optional column. */
  datatype ContainerChallenge = ContainerChallenge(
    id: int,
    image: string,
    port: int,
    command: string,
    volumes: string,
    composeConfig: string,
    environment: string,
    networks: string,
    connectionInfo: string,
    initial: int,
    minimum: int,
    decay: int,
    value: int)

  /** The challenge constructor: the current value starts at the initial value. */
  function NewContainerChallenge(
    id: int, image: string, port: int, command: string, volumes: string,
    composeConfig: string, environment: string, networks: string,
    connectionInfo: string, initial: int, minimum: int, decay: int): (c: ContainerChallenge)
    ensures c.value == c.initial == initial
    ensures c.id == id && c.image == image && c.port == port && c.minimum == minimum && c.decay == decay
  {
    ContainerChallenge(id, image, port, command, volumes, composeConfig, environment, networks,
                       connectionInfo, initial, minimum, decay, initial)
  }

  /** One running instance. `containerId` is the primary key. The port is kept as
      the text the runtime reported. */
  datatype ContainerInfo = ContainerInfo(
    containerId: string,
    challengeId: int,
    userId: Option<int>,
    teamId: Option<int>,
    port: string,
    composePath: string,
    serviceName: string,
    timestamp: int,
    expires: int)

  /** `query.filter(p).first()`: the index of the first row, in table order, that
      satisfies `p`. */
  function FirstWhere(rows: seq<ContainerInfo>, p: ContainerInfo -> bool): (r: Option<nat>)
    ensures r.Some? ==> r.value < |rows| && p(rows[r.value])
    ensures r.Some? ==> forall j :: 0 <= j < r.value ==> !p(rows[j])
    ensures r.None? ==> forall j :: 0 <= j < |rows| ==> !p(rows[j])
    decreases |rows|
  {
    if rows == [] then None
    else if p(rows[0]) then Some(0)
    else match FirstWhere(rows[1..], p)
      case None => None
      case Some(i) => Some(i + 1)
  }

  /** `query.filter_by(container_id=id).first()`. */
  function FindById(rows: seq<ContainerInfo>, id: string): Option<nat> {
    FirstWhere(rows, (r: ContainerInfo) => r.containerId == id)
  }

  function Ids(rows: seq<ContainerInfo>): (ids: set<string>)
    ensures forall i :: 0 <= i < |rows| ==> rows[i].containerId in ids
    ensures forall id :: id in ids ==> exists i :: 0 <= i < |rows| && rows[i].containerId == id
  {
    set i | 0 <= i < |rows| :: rows[i].containerId
  }

  /** The primary-key constraint: no two rows share a container id. */
  predicate UniqueIds(rows: seq<ContainerInfo>) {
    forall i, j :: 0 <= i < j < |rows| ==> rows[i].containerId != rows[j].containerId
  }

  function RemoveAt(rows: seq<ContainerInfo>, i: nat): (r: seq<ContainerInfo>)
    requires i < |rows|
    ensures |r| == |rows| - 1
    ensures forall j :: 0 <= j < i ==> r[j] == rows[j]
    ensures forall j :: i <= j < |r| ==> r[j] == rows[j + 1]
  {
    rows[..i] + rows[i + 1..]
  }

  lemma RemoveAtKeepsUnique(rows: seq<ContainerInfo>, i: nat)
    requires i < |rows| && UniqueIds(rows)
    ensures UniqueIds(RemoveAt(rows, i))
    ensures Ids(RemoveAt(rows, i)) == Ids(rows) - {rows[i].containerId}
  {
    var r := RemoveAt(rows, i);
    forall id | id in Ids(rows) - {rows[i].containerId} ensures id in Ids(r) {
      var k :| 0 <= k < |rows| && rows[k].containerId == id;
      if k < i { assert r[k] == rows[k]; } else { assert r[k - 1] == rows[k]; }
    }
  }

  /** The ContainerInfoModel table. Each handler's `session.add`/`session.delete`
      followed by `commit` is one method call here. */
  class InstanceTable {
    var rows: seq<ContainerInfo>

    ghost predicate Valid()
      reads this
    {
      UniqueIds(rows)
    }

    constructor ()
      ensures Valid() && rows == []
    {
      rows := [];
    }

    /** `session.add(record); session.commit()`. The commit fails with an integrity
        error when the primary key is already taken; the table is then unchanged. */
    method Insert(record: ContainerInfo) returns (ok: bool)
      requires Valid()
      modifies this
      ensures Valid()
      ensures ok <==> record.containerId !in Ids(old(rows))
      ensures rows == if ok then old(rows) + [record] else old(rows)
    {
      ok := FindById(rows, record.containerId).None?;
      if ok {
        rows := rows + [record];
      }
    }

    /** `session.delete(row); session.commit()` for the row with this id, if any. */
    method Delete(id: string)
      requires Valid()
      modifies this
      ensures Valid()
      ensures Ids(rows) == Ids(old(rows)) - {id}
      ensures match FindById(old(rows), id)
                case Some(i) => rows == RemoveAt(old(rows), i)
                case None => rows == old(rows)
    {
      match FindById(rows, id)
      case Some(i) => {
        RemoveAtKeepsUnique(rows, i);
        rows := RemoveAt(rows, i);
      }
      case None => {}
    }

    /** Assigns a new expiry to the row at index `i` and commits; nothing else changes. */
    method SetExpires(i: nat, expires: int)
      requires Valid() && i < |rows|
      modifies this
      ensures Valid()
      ensures rows == old(rows)[i := old(rows)[i].(expires := expires)]
    {
      rows := rows[i := rows[i].(expires := expires)];
    }
  }

  /** The ContainerSettingsModel table: `key` is the primary key. */
  class SettingsStore {
    var values: map<string, string>

    constructor (initial: map<string, string>)
      ensures values == initial
    {
      values := initial;
    }

    /** `apply_default_config`: adds `(key, value)` only when no row has that key. */
    method ApplyDefaultConfig(key: string, value: string)
      modifies this
      ensures key in values
      ensures values == if key in old(values) then old(values) else old(values)[key := value]
    {
      if key !in values {
        values := values[key := value];
      }
    }
  }
}
