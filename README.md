# Popple karma service, modelled in Dafny

Popple is a chat bot that keeps karma for named entities, one score per
entity per server, and one configuration per server whose `NoAnnounce`
flag says whether karma changes are announced. The package
`internal/popple` is the logic layer between the command handlers and the
persistence layer. It has five operations:

- `AddKarmaToEntities` applies a map of name to delta. A zero delta is
  skipped. Any other delta is a create-entity call, whose error is ignored,
  followed by an add-karma call. The first add-karma error stops the loop,
  and nothing done before it is rolled back.
- `GetConfig` reads a server's configuration and passes it on unchanged.
- `GetLevels` looks up the karma of each requested name. A "no rows" error
  counts as karma 0. Any other error stops the call, and no map is returned.
- `GetLeaderboard` asks the persistence layer for the top or the bottom
  entities of a server. It projects each one to a `{Name, Karma}` entry and
  keeps the order it was given.
- `SetAnnounce` creates the server's configuration, ignoring that error, then
  writes `NoAnnounce = !on` and returns the write's error.

The project has two files:

- `adapter.dfy`, module `Adapter`. The persistence layer is not part of this
  model, so its behaviour is an assumption, stated here as the class `Store`:
  - the state is a map from (server ID, name) to karma and a map from server
    ID to `NoAnnounce`;
  - a create call inserts a default row (karma 0, `NoAnnounce` false) when the
    key is absent, and otherwise reports `AlreadyExists`;
  - `AddKarmaToEntity` adds the delta to the stored karma and returns the new
    total. On an entity that does not exist it fails with `NoRows`;
  - `PutConfig` on a configuration that does not exist fails with `NoRows`;
  - `GetEntity` returns a tagged `Found(karma) | NotFound | Other(error)`, and
    an error reported as `NoRows` is tagged `NotFound`;
  - `GetConfig` returns the zero configuration together with any error;
  - which calls fail, and with which error, is fixed per key by a fault
    oracle (`Faults`), so every error path of the service can be reached;
  - the top and bottom queries answer with a ranking oracle. `SoundRanking`
    is what the service may rely on: at most `limit` entities, all from the
    server and carrying their stored karma, no name twice, and sorted by karma
    in the requested direction.
  Every call is appended to `log`, so properties can say which calls were made.
- `popple.dfy`, module `Popple`. It holds the result records, one method per
  operation, and the specification functions the methods are proved against:
  `AddKarmaRun`, `LookupRun`, `Project` and `AnnounceEffect`. It also holds
  the lemmas that state what those functions promise.

A goroutine writing once into a channel of capacity one is modelled as a
method that returns its one result. A nil payload is `None`. Go ranges over
a map in an unspecified order, so the two looping operations take that order
as a parameter `order`, which is any sequence listing the map's keys once each
(`Enumerates`). Every lemma holds for every such order.

## Model

| member | source | states |
|---|---|---|
| `Popple.AddKarmaToEntities` | internal/popple/popple.go:17-44 | The loop leaves the store and the call log exactly as `AddKarmaRun` says, for the given key order, and returns the record that run ends in. |
| `Popple.AddKarmaResult` | internal/popple/popple.go:34-41 | The record sent carries exactly one of levels and error: the collected levels if the loop finished, the add-karma error if it stopped. |
| `Popple.AbortIsFinal` | internal/popple/popple.go:34-37 | Once an add-karma call has failed, the names after it change neither the store nor the log nor the result, because the goroutine returns. |
| `Popple.AddKarmaFrame` | internal/popple/popple.go:21-33 | Every call the loop makes is a create or add-karma call on this server for a listed name with a nonzero delta. No other entity changes, and only such names are reported. Which calls are made, and in what order, is stated by `AddKarmaCalls` and `AddKarmaCallsExactly`. |
| `Popple.AddKarmaSuccess` | internal/popple/popple.go:20-39 | If the loop is still running after the first i names, it has reported each of them with a nonzero delta. Each reported name maps to its old karma (0 if absent) plus its delta, and that is also what is stored. None of those names had a failing add-karma call. |
| `Popple.PairCallsAt` | internal/popple/popple.go:26-33 | In the calls made for a list of names, call 2k is the create call for name k, and call 2k+1 is the add-karma call for the same entity, carrying that name's own delta. |
| `Popple.PairCallsDistinct` | internal/popple/popple.go:26-33 | Distinct names give calls that are all distinct, so no entity is created twice. |
| `Popple.AddKarmaCalls` | internal/popple/popple.go:21-37 | After any number of names, the log holds exactly one create call and then one add-karma call with its delta for each nonzero name the loop reached, in key order. A stopped loop includes the name it stopped at. |
| `Popple.AddKarmaCallsExactly` | internal/popple/popple.go:20-41 | For every key order the log has even length and no call twice, and is made of create and add-karma pairs. On success the log is exactly the pairs for the nonzero names in key order, and every nonzero name has its create call and its add-karma call with its own delta. |
| `Popple.AddKarmaAborts` | internal/popple/popple.go:34-37 | If the loop stops, it stops at a name with a nonzero delta whose add-karma call failed, and every earlier name went through (`AbortsAt`). The reported error is that call's error. The failing name's own create call is kept: an absent entity that could be created stays stored at karma 0, and any other is left as it was. Earlier adjustments stay stored, with no rollback. Later names are neither called on nor changed. The log is the pairs for the earlier nonzero names followed by the failing name's pair, which is last. |
| `Popple.ZeroDeltaIsSkipped` | internal/popple/popple.go:21-24 | A name whose delta is 0 gets no create or add-karma call, its entity is left as it was, and it is absent from the result. |
| `Popple.AddKarmaSucceedsExactly` | internal/popple/popple.go:20-41 | For every key order: the call succeeds if and only if no name with a nonzero delta has a failing add-karma call. On success the result's keys are exactly the nonzero names, each value is old karma plus delta and equals the stored total, and every other entity is untouched. |
| `Popple.AddKarmaFromEmpty` | internal/popple/popple.go:20-41 | Against an empty store with no failing calls, the result is the map of nonzero deltas itself. |
| `Popple.AddKarmaAccumulates` | internal/popple/popple.go:26-39 | Two successful calls that both move a name leave it at its old karma plus both deltas, and that total is both reported and stored: additive, not overwriting. |
| `Popple.GetConfig` | internal/popple/popple.go:53-63 | Returns the persistence layer's configuration and error unchanged, and makes exactly one `GetConfig` call. |
| `Popple.GetLevels` | internal/popple/popple.go:72-87 | The loop makes exactly the lookups `LookupRun` lists and returns the record that run ends in. The store is not changed: only the log is in its modifies clause. |
| `Popple.LevelsResult` | internal/popple/popple.go:79-84 | The record sent carries exactly one of levels and error: the full map on success, the lookup error otherwise. |
| `Popple.LookupSuccess` | internal/popple/popple.go:75-84 | If the loop is still running after the first i names, it has looked each of them up once, in order. Each of them is reported: with its stored karma when found, with 0 when not found. No lookup failed with another error, and only requested names are reported. |
| `Popple.LookupAborts` | internal/popple/popple.go:77-81 | If the loop has stopped after the first i names, it stopped at the first name whose lookup failed with an error other than not-found, and reports that error. No name after it is looked up (`LookupStopsAt`). |
| `Popple.LookupAbortIsFinal` | internal/popple/popple.go:78-81 | Once a lookup has failed, the names after it change neither the log nor the result. |
| `Popple.GetLevelsExactly` | internal/popple/popple.go:75-84 | For every key order: the call succeeds if and only if no requested name's lookup fails with an error other than not-found. On success the keys are exactly the requested names. Each value is the karma of a found lookup and 0 for a not-found one, so a name whose lookup has no fault gets its stored karma (0 if never created), and a lookup the adapter answers with "no rows" gives 0. |
| `Popple.GetLeaderboard` | internal/popple/popple.go:96-122 | Makes a `GetTopEntities` call when `top` is true and a `GetBotEntities` call otherwise, nothing else. Returns the projection of that answer, or its error with no entries. |
| `Popple.ProjectKeepsOrder` | internal/popple/popple.go:112-118 | The projection has the adapter's length, and entry i carries entity i's name and karma. |
| `Popple.LeaderboardResult` | internal/popple/popple.go:106-119 | Exactly one of entries and error is set. Entries are present (possibly empty, never nil) exactly when the query succeeded, and are then the projection of the adapter's answer. An error is passed on as it is. |
| `Popple.LeaderboardSound` | internal/popple/popple.go:99-104 | With a sound ranking the entries are: at most `limit` of them (none for limit 0), no name twice, each with the karma stored for it on that server, and highest first for the top board, lowest first for the bottom one. |
| `Popple.SetAnnounce` | internal/popple/popple.go:126-133 | Makes a `CreateConfig` call and then a `PutConfig(serverID, !on)` call. It leaves the configurations as `AnnounceEffect` says and returns its error. |
| `Popple.AnnounceEffect` | internal/popple/popple.go:128-130 | The result is the write's error only: the write's own fault, or `NoRows` when the configuration is absent and could not be created. It succeeds if and only if the write is not failing and a configuration exists or could be created, so an `AlreadyExists` from the create call is ignored. On success the stored flag is `!on`. On failure the create is kept, not rolled back: an absent configuration that could be created stays stored with `NoAnnounce` false, and otherwise nothing changes. No other server's configuration changes. |
| `Popple.AnnounceThenGetConfig` | internal/popple/popple.go:128-130 | After a successful `SetAnnounce`, a `GetConfig` that does not fail reads `NoAnnounce == !on`. |

## Left out

- Goroutines and buffered channels: each call is a synchronous method that returns its one result. Interleavings between concurrent calls are not modelled. Nothing here claims the persistence layer is atomic across callers.
- The persistence layer (`github.com/connorkuehl/popple/adapter`) and the SQL behind it are not part of this model. Its behaviour is the assumption described above, failures are given by a static per-key fault oracle, and the ranking and tie-break policy is given by an oracle.
- `errors.Is(err, sql.ErrNoRows)`: replaced by the tagged `Lookup` result of `GetEntity`. That a not-found lookup carries karma 0 is part of the assumption.
- `int64(...)` conversions: karma is an unbounded `int`. 64-bit overflow of the stored karma or of a delta is not modelled.
- Go's nil map and nil slice are `None` in the result records. The distinction between a nil and an empty map in a failed call's `Levels` is not otherwise observable.
