# Ceryx manager: route table, credentials and service discovery

This is a Dafny model of the data logic behind the management side of the Ceryx
reverse proxy. Three parts are modelled:

- The route table and the operator table that `RedisRouter` and `RedisUsers` keep in Redis.
  Routes are stored as one hash per host, mapping each path to its target.
  Operators are stored as one string per user, holding a bcrypt hash.
  Keys are built from an optional prefix, a namespace (`routes:` or `users:`) and the name.
- The two service-eligibility filters over the Docker swarm's service list.
  `DockerService` keeps the services attached to the proxy network.
  `DockerApi` keeps the services that publish ports.
- The view models. `Route.all` marks a route as an orphan when no discovered
  service is named exactly like its target. `Service.all` copies the services.

Files:

- `redis.dfy`: the Redis keyspace is the class `Redis.Store`. Its `data` field maps each key to a
  hash or a string. Its methods are the Redis commands the code uses, including their error replies:
  - `WRONGTYPE` for a hash command on a string key, or the reverse;
  - "no such key" for `RENAMENX`;
  - `HDEL` removes a hash whose last field it deletes.
  `KEYS` returns its matches in no defined order, so `Store.Keys` may return them in any order.
- `glob.dfy`: the glob matching that `KEYS` uses.
- `db.dfy`: the key construction and the classes `RedisRouter` and `RedisUsers`.
  Both classes hold one `Store`, which they may share, as the two Python clients share one Redis.
  Their methods change only that store.
- `bcrypt.dfy`: a stand-in for `hashpw`/`checkpw`. The manager relies on one property of bcrypt: a
  password checks against its own hash. The stand-in digest is also ideal (collision-free), so under it
  any other password is rejected; real bcrypt does not promise this (see "## Left out").
- `swarm.dfy`: the service record that the Docker SDK returns. Each record has a name,
  the optional `Spec.Networks` and the optional `Endpoint.Ports`.
- `docker_service.dfy`, `dock.dfy`, `models.dfy`: the filters and the view models, as pure functions.
  These are the inputs that would come from I/O, passed in as parameters instead:
  - the daemon's `services.list(filters=...)`, as a function from filters to a service list;
  - `services.list()`, as a sequence;
  - the routes API's route list, as a sequence;
  - the outcome of fetching one route, as an `Option`.
- `seqs.dfy`, `wrappers.dfy`: `Filter` (a list comprehension with an `if`), and `Option`/`Result`/`Outcome`.
  Python exceptions become the `Err`/`Fail` cases of these types.

Prefix stripping in `lookup_hosts` and `RedisUsers.lookup` is proved for one case: a key head with
no glob metacharacter. The key head is `prefix:` followed by the namespace. With a `*`, `?`, `[` or
`\` in the prefix, the listing pattern matches keys outside the prefix. Cutting a fixed number of
characters off those keys then does not give back a name. The contracts say so: the exact
characterisation is an implication whose premise is `NoMeta(KeyHead(...))`.

In the source, `insert` stores the path as given, while `lookup` reads a missing or empty path as
`/`. A route inserted with the empty path therefore cannot be read back through `lookup`.
`RedisRouter.Insert` states both halves of this.

## Model

| member | source | states |
|---|---|---|
| `Db.PrefixedKey` | manager/ceryx/db.py:56-65 | a route key is `routes:` + source without a prefix and `prefix:routes:` + source with one; user keys (db.py:190-198) are the same with `users:` |
| `Db.PrefixedKeyInjective` | manager/ceryx/db.py:190-198 | within one namespace and prefix, equal keys come from equal names |
| `Db.RouteAndUserKeysDiffer` | manager/ceryx/db.py:61-63 | under one prefix, a route key never equals a user key, so the two tables never overwrite each other |
| `Db.StripPrefixedKey` | manager/ceryx/db.py:98-100 | `len(lookup_pattern) - len(pattern)` is the length of the key head, so cutting it off any name's key gives back exactly that name |
| `Db.ListNames` | manager/ceryx/db.py:96-100 | one name per key that `KEYS` matches; for a prefix without glob metacharacters, exactly the names whose key exists and whose name matches the pattern, each once |
| `Db.RedisRouter.constructor` | manager/ceryx/db.py:52-54 | the router works on the given store and prefix |
| `Db.RedisRouter.Lookup` | manager/ceryx/db.py:67-81 | a missing or empty path means `/`; returns the stored target when the field exists; otherwise raises LookupNotFound, or returns None when silent; a string under the host key is a WRONGTYPE error |
| `Db.RedisRouter.LookupPaths` | manager/ceryx/db.py:83-89 | the host's whole hash, empty for an absent host; every non-empty path in it is found by `Lookup` with its target |
| `Db.RedisRouter.LookupHosts` | manager/ceryx/db.py:91-100 | a missing or empty pattern becomes `*`; for a prefix without glob metacharacters, returns each stored route host once, unprefixed and matching the pattern; with no pattern, every stored route host |
| `Db.RedisRouter.RoutesOf` | manager/ceryx/db.py:107-116 | one `{host, paths}` entry per host, in the same order, whose paths are that host's whole hash; fails with WRONGTYPE exactly when some host key holds a string |
| `Db.RedisRouter.LookupRoutes` | manager/ceryx/db.py:102-116 | every entry's paths are its host's hash, one entry per matched key; for a prefix without glob metacharacters, its hosts are distinct and exactly the matching stored hosts |
| `Db.RedisRouter.Insert` | manager/ceryx/db.py:118-123 | sets only field `path` of the host's hash to `target` and changes no other key or field; afterwards `Lookup` of a non-empty path returns the target; an empty path is not visible to `Lookup`; WRONGTYPE for a string key, store unchanged |
| `Db.RedisRouter.UpdateHost` | manager/ceryx/db.py:140-150 | raises HostExists and changes nothing when the new key exists, which includes renaming a host to itself; no such key when neither exists; otherwise the old value sits under the new key, the old key is gone and nothing else changes |
| `Db.RedisRouter.DeletePath` | manager/ceryx/db.py:152-157 | removes only that field (and the key when it was the last one); no change for an absent host or path; afterwards `Lookup` finds nothing |
| `Db.RedisRouter.DeleteHost` | manager/ceryx/db.py:159-164 | removes only that key; no change when absent; afterwards the host has no paths |
| `Db.RedisUsers.constructor` | manager/ceryx/db.py:186-188 | the user table works on the given store and prefix |
| `Db.RedisUsers.Login` | manager/ceryx/db.py:200-210 | false for an absent user or an empty stored value; otherwise true exactly when `checkpw` accepts; a hash under the user key is a WRONGTYPE error |
| `Db.RedisUsers.Lookup` | manager/ceryx/db.py:212-216 | a missing or empty pattern becomes `*`; for a prefix without glob metacharacters, each stored username matching the pattern, once |
| `Db.RedisUsers.Insert` | manager/ceryx/db.py:218-223 | overwrites the user's key with the salted hash, changes no other key; afterwards `login` with that password is true and, under the ideal digest, with any other is false |
| `Db.RedisUsers.Delete` | manager/ceryx/db.py:225-227 | removes only the user's key, no change when absent; afterwards `login` is false for every password |
| `Bcrypt.CheckHashed` | manager/ceryx/db.py:219-220 | a password checks against its own salted hash, and that hash is never empty |
| `Bcrypt.CheckRejectsOther` | manager/ceryx/db.py:210 | under the ideal digest, a different password does not check |
| `Redis.Store.Keys` | manager/ceryx/db.py:99 | `KEYS` returns every matching key exactly once, in some order |
| `Glob.StarMatchesAll` | manager/ceryx/db.py:96-97 | the default pattern `*` matches every key |
| `Glob.LiteralHead` | manager/ceryx/db.py:98 | a pattern starting with a metacharacter-free head matches exactly the keys that start with that head and continue with a match of the rest |
| `Seqs.Filter` | manager/ceryx/docker_service.py:36 | a comprehension filter returns the order-preserving subsequence holding each satisfying element as often as the input does, and nothing else |
| `DockerService.AttachedTo` | manager/ceryx/docker_service.py:26-30 | true exactly when some network entry's `Target` equals the proxy network |
| `DockerService.IsInProxyNetwork` | manager/ceryx/docker_service.py:22-30 | false when `Spec` has no `Networks`; otherwise true exactly when some entry's `Target` is the proxy network |
| `DockerService.FiltersOrEmpty` | manager/ceryx/docker_service.py:34 | a None filter becomes the empty dict |
| `DockerService.Services` | manager/ceryx/docker_service.py:32-36 | the order-preserving subsequence of the listed services that are in the proxy network, with their multiplicities, and nothing outside it |
| `DockerService.NoFiltersIsEmptyFilters` | manager/ceryx/docker_service.py:34-35 | listing with no filters is listing with an empty filter dict |
| `DockerService.HasService` | manager/ceryx/docker_service.py:38-41 | true exactly when the proxy-network-filtered list under the name filter is non-empty, that is, when some service listed under that filter is in the proxy network |
| `Dock.ParseService` | manager/ceryx/dock.py:15-22 | raises "not published" exactly when `Endpoint` has no `Ports`; otherwise the record has the service's name and its `Ports` |
| `Dock.ParseEach` | manager/ceryx/dock.py:27 | parsing a list succeeds exactly when every service has `Ports`; then it yields one record per service, in order |
| `Dock.Services` | manager/ceryx/dock.py:24-27 | never raises; one record per listed service with `Ports`, in order, with its name and ports; as many records as listed services with `Ports` |
| `Dock.ServicesComeFromPublished` | manager/ceryx/dock.py:27 | every output record comes from a listed service of that name whose `Ports` it carries |
| `Models.IsOrphan` | manager/ceryx/manager/models.py:16-20 | a route is an orphan exactly when no service's name equals its target, in particular with no services |
| `Models.All` | manager/ceryx/manager/models.py:11-22 | one `Route` per route record, in order, with source and target copied and the orphan mark set exactly when no service is named like the target |
| `Models.OrphanMonotone` | manager/ceryx/manager/models.py:16-20 | adding services can clear orphan marks but never set one |
| `Models.AllOrphansWithoutServices` | manager/ceryx/manager/models.py:17-20 | with an empty service list every route is an orphan |
| `Models.Get` | manager/ceryx/manager/models.py:28-34 | the fetched route with source and target copied and never marked orphan, since `is_orphan` defaults to False (models.py:6); None when the fetch raised RouteNotFoundError |
| `Models.Delete` | manager/ceryx/manager/models.py:36-41 | the source deleted is the route's source for a `Route` and the string itself for a string |
| `Models.DeleteSameSource` | manager/ceryx/manager/models.py:36-41 | deleting a `Route` and deleting its source string delete the same route |
| `Models.AllServices` | manager/ceryx/manager/models.py:49-52 | one `Service` per service record, in order, with name and ports copied |
| `Models.Orphaned` | manager/ceryx/manager/views.py:27-31 | the orphaned view is the order-preserving subsequence of the orphan routes, each as often as in the input, and nothing else |
| `Models.UnpublishedTargetIsOrphan` | manager/ceryx/dock.py:27 | a route whose target names no service with `Ports` is marked orphan against `DockerApi.services` and appears in the orphaned view |
| `Models.PublishedTargetIsNotOrphan` | manager/ceryx/manager/models.py:17-19 | a route whose target names a listed service with `Ports` is not marked orphan |

## Left out

- `RedisRouter.update_path` (manager/ceryx/db.py:125-138) is not modelled. It checks `hexists` on the unprefixed host, and it calls `mdel`/`msetnx`, which are not hash commands. Its docstring (db.py:127) says it renames a path, but `mdel` is not a Redis command and `msetnx` is a string command, so there is no working behaviour to model.
- `RedisRouter.from_config`, `RedisUsers.from_config`, `DockerService.from_config`, `DockerApi.from_config`: they read settings. The constructors take the store or the proxy network instead.
- The message text and `errors` dict of `LookupNotFound`, `PathExists`, raised only by the left-out `update_path` (db.py:132), and the never-raised `UserNotFound`.
- Connecting to Redis or to the Docker daemon, and the network I/O that follows. The daemon's listings are parameters.
- `Glob.Match`: does not model Redis's `[...]` character classes. A `[` is matched literally. It also works on characters, not bytes: `?` matches one character, while Redis's `?` matches one byte, so the two differ on keys with multi-byte UTF-8 characters. The prefix-stripping results exclude prefixes containing `[` (and the other metacharacters), so they do not depend on this.
- `Bcrypt.CheckPassword`: models neither the real digest, nor bcrypt's 72-byte truncation, nor the `ValueError` that `checkpw` raises for a malformed stored hash. A malformed hash simply does not check. The salt from `gensalt()` is a parameter of `RedisUsers.Insert`.
- The UTF-8 encoding of passwords (`encode`/`decode`). Strings are sequences of characters.
- Docker's own filter semantics (for example, how the `name` filter matches) belong to the daemon, which is a parameter here.
- `Route.add` (manager/ceryx/manager/models.py:24-26): it is a single call into the routes API, which is not part of this model.
- `Models.Get`: `CERYX` is never defined in manager/ceryx/manager/__init__.py, so the routes client is unknown. The fetch outcome is an input. Its `None` stands for the client raising RouteNotFoundError. A client that returned `None` instead would make `route['source']` fail, and that case is not modelled. `DOCKER` is likewise undefined. The model reads it as `DockerApi` (manager/ceryx/dock.py), because models.py:18 and 52 subscript `s['name']` and `s['ports']`, the keys of the dicts `_parse_service` builds. `Models.UnpublishedTargetIsOrphan` and `Models.PublishedTargetIsNotOrphan` depend on that reading.
- The race between the existence check and `RENAMENX` in `update_host`, and concurrent clients in general. Each method is one atomic step.
- The HTTP API clients (ceryx_service.py, services.py, api.py), the Flask views and forms, settings, migrations and packaging. The one exception is the orphaned-routes filter of views.py, modelled as `Models.Orphaned`.
