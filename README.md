# URL shortener core, modelled in Dafny

This project models the save / lookup / delete path of a Go URL shortener.
The shortener maps long URLs to 10-character aliases and resolves them back, over gRPC.
The model covers four parts:

- **Alias generators** (`random.dfy`, `service_random.dfy`). `Random.RandomString` and the older
  `NewRandomString` spell a string of the requested length over the 62-character alphabet
  `a-z A-Z 0-9`. The pseudo-random source is an explicit stream of indices in `[0, 62)`.
- **In-memory storage** (`map_storage.dfy`). `MapStorage` holds a `map<string, string>` from alias to URL.
  It offers create-if-absent save, lookup and delete. Each operation rejects an empty alias or URL
  before it touches the map. The functions `Save`, `Get` and `Delete` state the storage contract on
  map values. The class's methods update the `store` field exactly as those functions say.
- **Service** (`service.dfy`). `SaveUrl` validates the URL. It then loops: ask the generator for a
  10-character alias, offer it to the storage, and try again when the storage reports that the alias
  exists. `GetUrl` and `DeleteUrl` translate the storage's "not found" into the service's own.
  The generator is injected as a `Provider` that replays scripted answers.
- **gRPC handler** (`grpc_handler.dfy`). Each handler checks the required request field. It then
  maps the service's error to `INVALID_ARGUMENT` (3), `NOT_FOUND` (5) or `INTERNAL` (13). An
  `INTERNAL` reply always carries the fixed generic text.

`errors.dfy` holds the shared error datatype. An error is either a sentinel declared by a package
(`Base(origin, kind)`) or an error wrapped by an operation with `%w` (`Wrapped(op, cause)`).
`Is` follows the cause chain, as `errors.Is` does. The origin keeps `storage.ErrNotFound` and
`service.ErrNotFound` apart, as they are in Go.

Where the source is inconsistent, the model takes one reading:

- The storage interface declares `SaveURL`/`DeleteURL`, but the service calls `SaveUrl`/`DeleteUrl`.
  The model has one operation for each pair.
- `internal/storage/storage.go` does not declare `ErrAliasIsEmpty` or `ErrUrlIsEmpty`, but
  `mapStorage.go` returns them. The model treats both as sentinels of the storage package.
- `service.New` takes only the storage and creates its own generator, but the tests inject one.
  The model injects the generator. `Shortener.LibraryAnswersAreWellFormed` shows that the library
  generator's answers meet the hypothesis of `Shortener.SavedAliasShape`.
- The code has no retry cap and no "alias space exhausted" error, and the service does not check
  for an empty alias itself. The model follows the code. The retry loop is unbounded, and an empty
  alias reaches the storage. Its `ErrAliasIsEmpty` comes back wrapped.

## Model

| member | source | states |
|---|---|---|
| `Errors.Is` | internal/service/service.go:57 | an error is its own target; a sentinel is only itself (the `errors.Is` chain walk) |
| `Errors.WrappedIsSameRoot` | internal/service/service.go:52-60 | wrapping with `%w` keeps `errors.Is` answers; `Is` against a sentinel means the innermost error is that sentinel |
| `RandomLib.CharsetIsAlphanumeric` | internal/lib/random/random.go:13 | the alphabet has 62 pairwise-distinct characters, and a character is in it iff it is `a-z`, `A-Z` or `0-9` |
| `RandomLib.Spell` | internal/lib/random/random.go:37-42 | the string spelled from `n` draws has length `n`, and position `i` holds `charset[draw i]` |
| `RandomLib.SpellIsAlphanumeric` | internal/lib/random/random.go:40 | every character of a generated string is in the alphabet |
| `RandomLib.SpellDependsOnDrawsOnly` | internal/lib/random/random.go:39-41 | two sources yield the same string iff they agree on the consumed draws: the output depends only on the drawn indices, and determines them |
| `RandomLib.Random.constructor` | internal/lib/random/random.go:20-24 | a new generator owns the given source and has drawn nothing |
| `RandomLib.Random.Intn` | internal/lib/random/random.go:40 | one draw returns the next value of the source and advances the source by one |
| `RandomLib.Random.RandomString` | internal/lib/random/random.go:27-43 | `length <= 0` gives `""` and a wrapped `ErrShortLength` and draws nothing; otherwise no error, exactly `length` alphanumeric characters, spelled from the next `length` draws |
| `ServiceRandom.SameAlphabet` | internal/service/random.go:8 | this package's alphabet is the same as the library generator's |
| `ServiceRandom.NewRandomString` | internal/service/random.go:11-24 | `length <= 0` gives `""`; otherwise exactly `length` characters with `s[i] == charset[intn(i)]`; all alphanumeric; there is no error result |
| `MapStore.Get` | internal/storage/inMemory/mapStorage/mapStorage.go:41-57 | succeeds iff the alias is non-empty and present, returning its URL; otherwise `""` with `ErrAliasIsEmpty` (for `""`) or `ErrNotFound` |
| `MapStore.Save` | internal/storage/inMemory/mapStorage/mapStorage.go:20-39 | the alias check comes before the URL check, which comes before the existence check (each error iff its condition); every error leaves the map unchanged; success adds exactly the alias, keeps every other entry, and `Get` then returns the URL; the invariant "no empty alias, no empty URL" is kept |
| `MapStore.Delete` | internal/storage/inMemory/mapStorage/mapStorage.go:59-75 | `ErrAliasIsEmpty` iff the alias is `""`, `ErrNotFound` iff absent, and both leave the map unchanged; success removes exactly that key, after which `Get` answers `ErrNotFound`; the invariant is kept |
| `MapStore.SaveExistingKeepsFirstUrl` | tests/unit/mapStorage/mapStorage_test.go:39-50 | saving a taken alias again is `ErrExistAlias` and the first URL stays |
| `MapStore.SaveGetDeleteGet` | internal/storage/inMemory/mapStorage/mapStorage.go:37-73 | after a save, `Get` returns the URL; a delete then succeeds, restores the old map, and `Get` answers `ErrNotFound` |
| `MapStore.MapStorage.constructor` | internal/storage/inMemory/mapStorage/mapStorage.go:14-18 | a new storage is empty and satisfies the invariant |
| `MapStore.MapStorage.SaveURL` | internal/storage/inMemory/mapStorage/mapStorage.go:20-39 | the new map and the error are those of `Save` on the old map; the invariant is kept |
| `MapStore.MapStorage.GetUrl` | internal/storage/inMemory/mapStorage/mapStorage.go:41-57 | read-only; returns what `Get` gives on the current map |
| `MapStore.MapStorage.DeleteURL` | internal/storage/inMemory/mapStorage/mapStorage.go:59-75 | the new map and the error are those of `Delete` on the old map; the invariant is kept |
| `MapStore.MapStorage.Disconnect` | internal/storage/inMemory/mapStorage/mapStorage.go:77-79 | always succeeds and changes nothing |
| `Shortener.FirstStop` | internal/service/service.go:49-63 | the loop stops at the first generator answer that does not collide; every earlier answer collided |
| `Shortener.SaveUrlSpec` | internal/service/service.go:37-64 | a refused URL gives `""` and `ErrBadUrl`, uses no generator answer and leaves storage alone; otherwise all answers before the stopping one collided; on success the alias is that answer's, was absent, and now resolves to the URL, and nothing else changed; a generator error ends the call with `""`, that error wrapped, the storage unchanged and no further answer used; success happens iff the URL is accepted and the storage accepts the stopping answer; a storage error other than "alias exists" ends the call with `""`, that error wrapped, and the storage unchanged; the invariant is kept. The URL check is `Accepts` (parse succeeds, scheme and host non-empty, service.go:41-44) and the retry test is `Collides` (the storage answers "alias exists", service.go:55-58) |
| `Shortener.Translate` | internal/service/service.go:66-90 | a storage "not found" becomes the service's "not found"; anything else is wrapped with the operation and keeps its root; no bare storage sentinel comes out; the result is the service's "not found" iff the input was a "not found" |
| `Shortener.GetUrlSpec` | internal/service/service.go:66-78 | present alias gives its URL; absent gives the service's `ErrNotFound`; an empty alias reaches storage and its `ErrAliasIsEmpty` comes back wrapped |
| `Shortener.DeleteUrlSpec` | internal/service/service.go:80-90 | present alias is removed; absent gives the service's `ErrNotFound`; empty alias gives the storage error wrapped; errors change nothing |
| `Shortener.SavedAliasShape` | internal/service/service.go:49-62 | when every answer is a 10-character alphanumeric alias, a saved alias has 10 alphanumeric characters, and a non-empty URL fails only as `ErrBadUrl` |
| `Shortener.LibraryAnswersAreWellFormed` | internal/lib/random/random.go:37-42 | the library generator asked for 10 characters gives an answer of that shape |
| `Shortener.SaveTwiceGivesDistinctAliases` | internal/service/service.go:55-62 | saving one URL twice gives two different aliases, and both resolve to the URL |
| `Shortener.RetriesAfterCollision` | internal/service/service_test.go:64-88 | a taken alias and then a free one: the free one is returned, after two generator requests |
| `Shortener.Provider.RandomString` | internal/service/service.go:12-14 | the injected generator replies with its next scripted answer and records the requested length |
| `Shortener.Service.constructor` | internal/service/service.go:29-34 | a service holds the given storage, generator and URL parser |
| `Shortener.Service.SaveUrl` | internal/service/service.go:37-64 | alias, error and new storage are those of `SaveUrlSpec`; exactly the used answers are consumed; every generator request asked for length 10 |
| `Shortener.Service.GetUrl` | internal/service/service.go:66-78 | read-only; returns `GetUrlSpec` of the current storage |
| `Shortener.Service.DeleteUrl` | internal/service/service.go:80-90 | new storage and error are `DeleteUrlSpec` of the old storage |
| `GrpcApi.SaveUrl` | internal/handler/grpc/grpcHandler.go:39-66 | an empty URL is `INVALID_ARGUMENT`/`ErrUrlEmpty` whatever the service would say; the service's alias is returned exactly on success; a service error is `INVALID_ARGUMENT` iff it is `ErrBadUrl`, and then always with the `ErrBadUrl` text; every other error is `INTERNAL` with the fixed text |
| `GrpcApi.LookupStatus` | internal/handler/grpc/grpcHandler.go:79-82 | `NOT_FOUND` iff the error is the service's `ErrNotFound`; otherwise `INTERNAL` with the fixed text |
| `GrpcApi.GetUrl` | internal/handler/grpc/grpcHandler.go:68-87 | an empty alias is `INVALID_ARGUMENT`/`ErrAliasEmpty` whatever the service would say; on success the service's URL exactly; errors as `LookupStatus` |
| `GrpcApi.DeleteUrl` | internal/handler/grpc/grpcHandler.go:89-112 | an empty alias is `INVALID_ARGUMENT`/`ErrAliasEmpty`; on success status `"OK"`; errors as `LookupStatus` |
| `GrpcApi.ShortenThenResolve` | internal/handler/grpc/grpcHandler.go:49-86 | an alias returned by the save handler resolves, through service and storage, to the saved URL |
| `GrpcApi.DeleteThenResolve` | internal/handler/grpc/grpcHandler.go:71-111 | after a successful delete, the get handler answers `NOT_FOUND` |
| `GrpcApi.RefusedUrlIsInvalidArgument` | internal/handler/grpc/grpcHandler.go:53-54 | a non-empty URL the validation refuses is `INVALID_ARGUMENT`/`ErrBadUrl`, with no generator answer used and storage unchanged |

## Left out

- Mutexes and concurrency. The operations are modelled one at a time. The atomicity of create-if-absent between concurrent callers is not modelled.
- The `context.Context` parameters. They are never read by this code.
- `url.ParseRequestURI` is a library call. It is the injected function `parse`, and only its scheme and host are read.
- `math/rand` seeding and distribution. Draws are an explicit index stream. The discarded `rand.NewSource(...)` in `NewRandomString` has no effect, and it is not modelled.
- Error message texts, including the `length=%d` suffix of the generator's error, and all logging. Errors are modelled by kind and wrapping.
- `Shortener.Service.SaveUrl`: the retry loop has no cap. It ends exactly when a generator answer does not collide. The method requires such an answer among the scripted ones (`Halts`). A generator that collides forever makes the source loop forever, and that run is outside the model.
- `Shortener.Provider.RandomString` replays scripted answers and requires one to be left. It stands for any injected generator, including the test doubles.
- The service is not wired to a `RandomLib.Random` object. The link is the pair of lemmas `LibraryAnswersAreWellFormed` and `SavedAliasShape`.
- The gRPC handlers are functions of the request and of the service's reply. "The service is not called" is stated as "the result does not depend on the reply".
- The PostgreSQL and Redis backends and their connection code, configuration loading, the gRPC server, signal handling and shutdown are not part of this model. They are drivers and process plumbing.
