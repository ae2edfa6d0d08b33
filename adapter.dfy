/** The persistence layer the karma service drives.

    Its implementation is not part of this model. This module states the
    behaviour the service relies on, as an abstract store:
    - entities are keyed by (server ID, name) and carry an integer karma;
    - every server has at most one configuration, holding its NoAnnounce flag;
    - a create call inserts a default row when the key is absent;
    - a karma adjustment adds the delta to the stored karma and returns the
      new total; an update of a row that does not exist fails with NoRows;
    - every call may fail for reasons outside the service (connectivity,
      constraints). Which calls fail is fixed by a fault oracle, so that every
      error path of the service can be reached;
    - the ranking behind the leaderboard queries belongs to the adapter and
      is given by a ranking oracle.
    Every call is appended to a log, so that properties can speak of which
    calls the service made. */
module Adapter {

  datatype Option<+T> = None | Some(value: T)

  datatype Error =
    | NoRows                   // the row the call needs does not exist
    | AlreadyExists            // a create call found the row already present
    | Failure(reason: string)  // any other failure of the persistence layer

  datatype Result<+T> = Ok(value: T) | Err(error: Error)

  /** An entity is identified by its server ID and its name. */
  type Key = (string, string)

  datatype Entity = Entity(serverID: string, name: string, karma: int)

  datatype Config = Config(serverID: string, noAnnounce: bool)

  datatype LeaderboardEntry = LeaderboardEntry(name: string, karma: int)

  /** The outcome of looking up one entity, with "no such row" as its own tag. */
  datatype Lookup = Found(karma: int) | NotFound | Other(error: Error)

  /** One call made on the persistence layer. */
  datatype Call =
    | CreateEntity(key: Key)
    | AddKarmaToEntity(key: Key, delta: int)
    | GetEntity(key: Key)
    | GetConfig(serverID: string)
    | CreateConfig(serverID: string)
    | PutConfig(config: Config)
    | GetTopEntities(serverID: string, limit: nat)
    | GetBotEntities(serverID: string, limit: nat)
  {
    /** The call reads or writes the entity `k`. */
    predicate Concerns(k: Key) {
      (CreateEntity? || AddKarmaToEntity? || GetEntity?) && key == k
    }
  }

  /** Which calls fail, and with which error. */
  datatype Faults = Faults(
    createEntity: map<Key, Error>,
    addKarma: map<Key, Error>,
    getEntity: map<Key, Error>,
    getConfig: map<string, Error>,
    createConfig: map<string, Error>,
    putConfig: map<string, Error>,
    board: map<(string, bool), Error>)

  /** The ranking policy: given the stored karma, a server, a direction
      (true for the highest karma first) and a limit, the entities listed. */
  type Ranking = (map<Key, int>, string, bool, nat) -> seq<Entity>

  /** `es` is an acceptable answer to a top (or bottom) query. */
  ghost predicate Ranked(es: seq<Entity>, karma: map<Key, int>, serverID: string, top: bool, limit: nat) {
    && |es| <= limit
    && (forall i :: 0 <= i < |es| ==>
          es[i].serverID == serverID && (serverID, es[i].name) in karma && karma[(serverID, es[i].name)] == es[i].karma)
    && (forall i, j :: 0 <= i < j < |es| ==> es[i].name != es[j].name)
    && (forall i, j :: 0 <= i < j < |es| ==> if top then es[i].karma >= es[j].karma else es[i].karma <= es[j].karma)
  }

  ghost predicate SoundRanking(rank: Ranking) {
    forall karma, serverID, top, limit :: Ranked(rank(karma, serverID, top, limit), karma, serverID, top, limit)
  }

  /** The karma of an entity, 0 for an entity that was never created. */
  function KarmaOf(karma: map<Key, int>, key: Key): int {
    if key in karma then karma[key] else 0
  }

  /** Creating an entity: inserted with karma 0 when absent, unless the call fails. */
  function CreateEntityEffect(karma: map<Key, int>, faults: Faults, key: Key): (r: (map<Key, int>, Option<Error>))
    ensures r.1 == None <==> key !in karma && key !in faults.createEntity
    ensures r.0 == if r.1 == None then karma[key := 0] else karma
  {
    if key in faults.createEntity then (karma, Some(faults.createEntity[key]))
    else if key in karma then (karma, Some(AlreadyExists))
    else (karma[key := 0], None)
  }

  /** Adjusting an entity's karma by `delta`: the new total is stored and returned. */
  function AddKarmaEffect(karma: map<Key, int>, faults: Faults, key: Key, delta: int): (r: (map<Key, int>, Result<Entity>))
    ensures r.1.Ok? <==> key in karma && key !in faults.addKarma
    ensures r.1.Ok? ==> r.1.value == Entity(key.0, key.1, karma[key] + delta) && r.0 == karma[key := karma[key] + delta]
    ensures r.1.Err? ==> r.0 == karma
  {
    if key in faults.addKarma then (karma, Err(faults.addKarma[key]))
    else if key !in karma then (karma, Err(NoRows))
    else (karma[key := karma[key] + delta], Ok(Entity(key.0, key.1, karma[key] + delta)))
  }

  /** Looking an entity up; a failure reported as NoRows is tagged NotFound. */
  function EntityLookup(karma: map<Key, int>, faults: Faults, key: Key): (r: Lookup)
    ensures r.Found? <==> key in karma && key !in faults.getEntity
    ensures r.Found? ==> r.karma == karma[key]
    ensures r.Other? ==> key in faults.getEntity && r.error == faults.getEntity[key] && r.error != NoRows
  {
    if key in faults.getEntity then
      if faults.getEntity[key] == NoRows then NotFound else Other(faults.getEntity[key])
    else if key in karma then Found(karma[key])
    else NotFound
  }

  /** Reading a server's configuration; an absent one is reported as NoRows. */
  function ConfigLookup(noAnnounce: map<string, bool>, faults: Faults, serverID: string): (r: (Config, Option<Error>))
    ensures r.1 == None <==> serverID in noAnnounce && serverID !in faults.getConfig
    ensures r.1 == None ==> r.0 == Config(serverID, noAnnounce[serverID])
  {
    if serverID in faults.getConfig then (Config("", false), Some(faults.getConfig[serverID]))
    else if serverID in noAnnounce then (Config(serverID, noAnnounce[serverID]), None)
    else (Config("", false), Some(NoRows))
  }

  /** Creating a configuration: inserted with NoAnnounce false when absent, unless the call fails. */
  function CreateConfigEffect(noAnnounce: map<string, bool>, faults: Faults, serverID: string): (r: (map<string, bool>, Option<Error>))
    ensures r.1 == None <==> serverID !in noAnnounce && serverID !in faults.createConfig
    ensures r.0 == if r.1 == None then noAnnounce[serverID := false] else noAnnounce
  {
    if serverID in faults.createConfig then (noAnnounce, Some(faults.createConfig[serverID]))
    else if serverID in noAnnounce then (noAnnounce, Some(AlreadyExists))
    else (noAnnounce[serverID := false], None)
  }

  /** Writing a configuration over the stored one; there must be one to write over. */
  function PutConfigEffect(noAnnounce: map<string, bool>, faults: Faults, config: Config): (r: (map<string, bool>, Option<Error>))
    ensures r.1 == None <==> config.serverID in noAnnounce && config.serverID !in faults.putConfig
    ensures r.0 == if r.1 == None then noAnnounce[config.serverID := config.noAnnounce] else noAnnounce
  {
    if config.serverID in faults.putConfig then (noAnnounce, Some(faults.putConfig[config.serverID]))
    else if config.serverID !in noAnnounce then (noAnnounce, Some(NoRows))
    else (noAnnounce[config.serverID := config.noAnnounce], None)
  }

  /** The persistence layer: its state and the calls made on it. */
  class Store {
    var karma: map<Key, int>
    var noAnnounce: map<string, bool>
    var log: seq<Call>
    const faults: Faults
    const rank: Ranking

    ghost predicate Valid()
      reads this
    {
      SoundRanking(rank)
    }

    constructor (faults: Faults, rank: Ranking)
      requires SoundRanking(rank)
      ensures Valid()
      ensures karma == map[] && noAnnounce == map[] && log == []
      ensures this.faults == faults && this.rank == rank
    {
      this.karma := map[];
      this.noAnnounce := map[];
      this.log := [];
      this.faults := faults;
      this.rank := rank;
    }

    /** The answer to a top (or bottom) query in the current state. */
    function Board(serverID: string, top: bool, limit: nat): (r: Result<seq<Entity>>)
      reads this
      ensures Valid() && r.Ok? ==> Ranked(r.value, karma, serverID, top, limit)
    {
      if (serverID, top) in faults.board then Err(faults.board[(serverID, top)])
      else Ok(rank(karma, serverID, top, limit))
    }

    method CreateEntity(serverID: string, name: string) returns (err: Option<Error>)
      modifies this`karma, this`log
      ensures (karma, err) == CreateEntityEffect(old(karma), faults, (serverID, name))
      ensures log == old(log) + [Call.CreateEntity((serverID, name))]
    {
      var effect := CreateEntityEffect(karma, faults, (serverID, name));
      karma, err := effect.0, effect.1;
      log := log + [Call.CreateEntity((serverID, name))];
    }

    method AddKarmaToEntity(entity: Entity, delta: int) returns (updated: Result<Entity>)
      modifies this`karma, this`log
      ensures (karma, updated) == AddKarmaEffect(old(karma), faults, (entity.serverID, entity.name), delta)
      ensures log == old(log) + [Call.AddKarmaToEntity((entity.serverID, entity.name), delta)]
    {
      var effect := AddKarmaEffect(karma, faults, (entity.serverID, entity.name), delta);
      karma, updated := effect.0, effect.1;
      log := log + [Call.AddKarmaToEntity((entity.serverID, entity.name), delta)];
    }

    method GetEntity(serverID: string, name: string) returns (r: Lookup)
      modifies this`log
      ensures r == EntityLookup(karma, faults, (serverID, name))
      ensures log == old(log) + [Call.GetEntity((serverID, name))]
    {
      r := EntityLookup(karma, faults, (serverID, name));
      log := log + [Call.GetEntity((serverID, name))];
    }

    method GetConfig(serverID: string) returns (c: Config, err: Option<Error>)
      modifies this`log
      ensures (c, err) == ConfigLookup(noAnnounce, faults, serverID)
      ensures log == old(log) + [Call.GetConfig(serverID)]
    {
      var lookup := ConfigLookup(noAnnounce, faults, serverID);
      c, err := lookup.0, lookup.1;
      log := log + [Call.GetConfig(serverID)];
    }

    method CreateConfig(serverID: string) returns (err: Option<Error>)
      modifies this`noAnnounce, this`log
      ensures (noAnnounce, err) == CreateConfigEffect(old(noAnnounce), faults, serverID)
      ensures log == old(log) + [Call.CreateConfig(serverID)]
    {
      var effect := CreateConfigEffect(noAnnounce, faults, serverID);
      noAnnounce, err := effect.0, effect.1;
      log := log + [Call.CreateConfig(serverID)];
    }

    method PutConfig(config: Config) returns (err: Option<Error>)
      modifies this`noAnnounce, this`log
      ensures (noAnnounce, err) == PutConfigEffect(old(noAnnounce), faults, config)
      ensures log == old(log) + [Call.PutConfig(config)]
    {
      var effect := PutConfigEffect(noAnnounce, faults, config);
      noAnnounce, err := effect.0, effect.1;
      log := log + [Call.PutConfig(config)];
    }

    method GetTopEntities(serverID: string, limit: nat) returns (r: Result<seq<Entity>>)
      modifies this`log
      ensures r == Board(serverID, true, limit)
      ensures log == old(log) + [Call.GetTopEntities(serverID, limit)]
    {
      r := Board(serverID, true, limit);
      log := log + [Call.GetTopEntities(serverID, limit)];
    }

    method GetBotEntities(serverID: string, limit: nat) returns (r: Result<seq<Entity>>)
      modifies this`log
      ensures r == Board(serverID, false, limit)
      ensures log == old(log) + [Call.GetBotEntities(serverID, limit)]
    {
      r := Board(serverID, false, limit);
      log := log + [Call.GetBotEntities(serverID, limit)];
    }
  }
}
