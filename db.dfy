/**
 * The data logic of the manager (manager/ceryx/db.py): the route table, one
 * Redis hash per host mapping paths to targets, and the operator table, one
 * Redis string per user holding a bcrypt hash. Both live in one keyspace,
 * under keys built from an optional prefix and a namespace.
 */
module Db {
  import opened Wrappers
  import opened Seqs
  import opened Glob
  import opened Redis
  import opened Bcrypt

  const ROUTES_NAMESPACE: string := "routes:"
  const USERS_NAMESPACE: string := "users:"

  /** The exceptions the data layer raises. */
  datatype Error =
    | LookupNotFound               // RedisRouter.LookupNotFound
    | HostExists                   // RedisRouter.HostExists
    | StoreError(cause: RedisError) // an error reply from Redis

  /** One element of `lookup_routes`: a host and its whole path -> target hash. */
  datatype RouteEntry = RouteEntry(host: string, paths: map<string, string>)

  /** What goes before the namespace: nothing, or the prefix and a colon. */
  function PrefixPart(prefix: Option<string>): string
  {
    match prefix
    case None => ""
    case Some(p) => p + ":"
  }

  /** Everything in a key that comes before the caller's name. */
  function KeyHead(prefix: Option<string>, namespace: string): string
  {
    PrefixPart(prefix) + namespace
  }

  /**
   * `_prefixed_route_key` and `_prefixed_key`, for the given namespace: the
   * namespace and the name, behind the prefix and a colon when there is a prefix.
   */
  function PrefixedKey(prefix: Option<string>, namespace: string, name: string): (key: string)
    ensures prefix.None? ==> key == namespace + name
    ensures prefix.Some? ==> key == prefix.value + ":" + namespace + name
  {
    assert prefix.None? ==> PrefixPart(prefix) + namespace == namespace;
    KeyHead(prefix, namespace) + name
  }

  /** Python's `s[n:]`, which is empty when `n` is past the end. */
  function DropPrefix(s: string, n: nat): string
  {
    if n <= |s| then s[n..] else ""
  }

  /** Python's `value or default` on an optional string: None and the empty string are falsy. */
  function OrDefault(value: Option<string>, default: string): string
  {
    if value.None? || value.value == "" then default else value.value
  }

  /** `pattern or '*'`: a missing or empty pattern lists everything. */
  function PatternOrAll(pattern: Option<string>): string
  {
    OrDefault(pattern, "*")
  }

  /** `path or '/'`: a missing or empty path is the root path. */
  function EffectivePath(path: Option<string>): string
  {
    OrDefault(path, "/")
  }

  /** The hosts of `lookup_routes` entries, in order. */
  function Hosts(entries: seq<RouteEntry>): seq<string>
  {
    seq(|entries|, i requires 0 <= i < |entries| => entries[i].host)
  }

  /** Keys built in one namespace are different for different names. */
  lemma PrefixedKeyInjective(prefix: Option<string>, namespace: string, a: string, b: string)
    requires PrefixedKey(prefix, namespace, a) == PrefixedKey(prefix, namespace, b)
    ensures a == b
  {
    var head := KeyHead(prefix, namespace);
    assert a == (head + a)[|head|..];
    assert b == (head + b)[|head|..];
  }

  /**
   * Cutting `len(lookup_pattern) - len(pattern)` characters off the key of a
   * name gives back that name, whatever the pattern.
   */
  lemma StripPrefixedKey(prefix: Option<string>, namespace: string, pattern: string, name: string)
    ensures |PrefixedKey(prefix, namespace, pattern)| - |pattern| == |KeyHead(prefix, namespace)|
    ensures DropPrefix(PrefixedKey(prefix, namespace, name), |KeyHead(prefix, namespace)|) == name
  {
    var head := KeyHead(prefix, namespace);
    assert (head + name)[|head|..] == name;
  }

  /** With one prefix, a route key is never a user key. */
  lemma RouteAndUserKeysDiffer(prefix: Option<string>, host: string, username: string)
    ensures PrefixedKey(prefix, ROUTES_NAMESPACE, host) != PrefixedKey(prefix, USERS_NAMESPACE, username)
  {
    var p := PrefixPart(prefix);
    assert PrefixedKey(prefix, ROUTES_NAMESPACE, host) == p + (ROUTES_NAMESPACE + host);
    assert PrefixedKey(prefix, USERS_NAMESPACE, username) == p + (USERS_NAMESPACE + username);
    assert (p + (ROUTES_NAMESPACE + host))[|p|] == 'r';
    assert (p + (USERS_NAMESPACE + username))[|p|] == 'u';
  }

  /**
   * The listing shared by `lookup_hosts` and `RedisUsers.lookup`: `KEYS` on
   * the prefixed pattern, each key with its head cut off. When the head holds
   * no glob metacharacter, the names listed are exactly the names whose key
   * exists and matches the pattern, each once.
   */
  method ListNames(client: Store, prefix: Option<string>, namespace: string, pattern: Option<string>)
    returns (names: seq<string>)
    ensures |names| == |client.MatchingKeys(PrefixedKey(prefix, namespace, PatternOrAll(pattern)))|
    ensures NoMeta(KeyHead(prefix, namespace)) ==>
      && Distinct(names)
      && forall n :: n in names <==> PrefixedKey(prefix, namespace, n) in client.data && Match(PatternOrAll(pattern), n)
  {
    var pat := PatternOrAll(pattern);
    var lookupPattern := PrefixedKey(prefix, namespace, pat);
    var keys := client.Keys(lookupPattern);
    var cut := |lookupPattern| - |pat|;
    names := seq(|keys|, i requires 0 <= i < |keys| => DropPrefix(keys[i], cut));
    var head := KeyHead(prefix, namespace);
    if NoMeta(head) {
      assert cut == |head|;
      forall i | 0 <= i < |keys|
        ensures |head| <= |keys[i]| && keys[i] == head + names[i] && Match(pat, names[i])
      {
        LiteralHead(head, pat, keys[i]);
        assert keys[i] == head + keys[i][|head|..];
        StripPrefixedKey(prefix, namespace, pat, keys[i][|head|..]);
      }
      forall n | PrefixedKey(prefix, namespace, n) in client.data && Match(pat, n)
        ensures n in names
      {
        var key := head + n;
        assert key[..|head|] == head && key[|head|..] == n;
        LiteralHead(head, pat, key);
        assert key in keys;
        var i :| 0 <= i < |keys| && keys[i] == key;
        StripPrefixedKey(prefix, namespace, pat, n);
        assert names[i] == n;
      }
      forall i, j | 0 <= i < j < |names|
        ensures names[i] != names[j]
      {
        assert keys[i] != keys[j];
      }
    }
  }

  /** `RedisRouter`: routes stored as one hash per host, path -> target. */
  class RedisRouter {
    const client: Store
    const prefix: Option<string>

    constructor (client: Store, prefix: Option<string>)
      ensures this.client == client && this.prefix == prefix
    {
      this.client := client;
      this.prefix := prefix;
    }

    function RouteKey(source: string): string
    {
      PrefixedKey(prefix, ROUTES_NAMESPACE, source)
    }

    /**
     * `lookup`: the target stored for the host and path (a missing or empty
     * path meaning `/`); an absent one raises LookupNotFound, or reads as
     * None when silent.
     */
    function Lookup(host: string, path: Option<string>, silent: bool): (r: Result<Option<string>, Error>)
      reads client
      ensures HoldsString(client.data, RouteKey(host)) ==> r == Err(StoreError(WrongType))
      ensures !HoldsString(client.data, RouteKey(host)) ==>
        var paths := FieldsAt(client.data, RouteKey(host));
        r == if EffectivePath(path) in paths then Ok(Some(paths[EffectivePath(path)]))
             else if silent then Ok(None)
             else Err(LookupNotFound)
    {
      match client.HGet(RouteKey(host), EffectivePath(path))
      case Err(e) => Err(StoreError(e))
      case Ok(None) => if silent then Ok(None) else Err(LookupNotFound)
      case Ok(Some(target)) => Ok(Some(target))
    }

    /** `lookup_paths`: the whole path -> target hash of a host, empty when the host has none. */
    function LookupPaths(host: string): (r: Result<map<string, string>, Error>)
      reads client
      ensures r.Err? <==> HoldsString(client.data, RouteKey(host))
      ensures r.Err? ==> r.error == StoreError(WrongType)
      ensures r.Ok? ==> r.value == FieldsAt(client.data, RouteKey(host))
      ensures r.Ok? ==> forall p :: p in r.value ==> Lookup(host, Some(p), false) == Ok(Some(r.value[p])) || p == ""
    {
      match client.HGetAll(RouteKey(host))
      case Err(e) => Err(StoreError(e))
      case Ok(paths) => Ok(paths)
    }

    /** `lookup_hosts`: the unprefixed hosts whose keys match the pattern (`*` when none is given). */
    method LookupHosts(pattern: Option<string>) returns (hosts: seq<string>)
      ensures |hosts| == |client.MatchingKeys(RouteKey(PatternOrAll(pattern)))|
      ensures NoMeta(KeyHead(prefix, ROUTES_NAMESPACE)) ==>
        && Distinct(hosts)
        && forall h :: h in hosts <==> RouteKey(h) in client.data && Match(PatternOrAll(pattern), h)
      ensures NoMeta(KeyHead(prefix, ROUTES_NAMESPACE)) && (pattern.None? || pattern == Some("")) ==>
        forall h :: h in hosts <==> RouteKey(h) in client.data
    {
      hosts := ListNames(client, prefix, ROUTES_NAMESPACE, pattern);
      forall h ensures Match("*", h) {
        StarMatchesAll(h);
      }
    }

    /** The loop of `lookup_routes`: one entry per host, in order, each with the host's whole hash. */
    method RoutesOf(hosts: seq<string>) returns (r: Result<seq<RouteEntry>, Error>)
      ensures r.Ok? <==> forall h :: h in hosts ==> !HoldsString(client.data, RouteKey(h))
      ensures r.Err? ==> r.error == StoreError(WrongType)
      ensures r.Ok? ==> |r.value| == |hosts| && forall i :: 0 <= i < |hosts| ==>
        r.value[i] == RouteEntry(hosts[i], FieldsAt(client.data, RouteKey(hosts[i])))
    {
      var routes: seq<RouteEntry> := [];
      var i := 0;
      while i < |hosts|
        invariant 0 <= i <= |hosts| && |routes| == i
        invariant forall j :: 0 <= j < i ==> !HoldsString(client.data, RouteKey(hosts[j]))
        invariant forall j :: 0 <= j < i ==> routes[j] == RouteEntry(hosts[j], FieldsAt(client.data, RouteKey(hosts[j])))
      {
        var paths := LookupPaths(hosts[i]);
        if paths.Err? {
          return Err(paths.error);
        }
        routes := routes + [RouteEntry(hosts[i], paths.value)];
        i := i + 1;
      }
      r := Ok(routes);
    }

    /** `lookup_routes`: the routes of every host that `lookup_hosts` lists. */
    method LookupRoutes(pattern: Option<string>) returns (r: Result<seq<RouteEntry>, Error>)
      ensures r.Err? ==> r.error == StoreError(WrongType)
      ensures r.Ok? ==> forall e :: e in r.value ==> e.paths == FieldsAt(client.data, RouteKey(e.host))
      ensures r.Ok? ==> |r.value| == |client.MatchingKeys(RouteKey(PatternOrAll(pattern)))|
      ensures NoMeta(KeyHead(prefix, ROUTES_NAMESPACE)) ==>
        && (r.Ok? <==> forall h :: RouteKey(h) in client.data && Match(PatternOrAll(pattern), h) ==> !HoldsString(client.data, RouteKey(h)))
        && (r.Ok? ==> Distinct(Hosts(r.value)))
        && (r.Ok? ==> forall h :: h in Hosts(r.value) <==> RouteKey(h) in client.data && Match(PatternOrAll(pattern), h))
    {
      var hosts := LookupHosts(pattern);
      r := RoutesOf(hosts);
      if r.Ok? {
        assert Hosts(r.value) == hosts;
        forall e | e in r.value ensures e.paths == FieldsAt(client.data, RouteKey(e.host)) {
          var i :| 0 <= i < |r.value| && r.value[i] == e;
        }
      }
    }

    /** `insert`: `HSET` of one field of the host's hash; the path is stored as given. */
    method Insert(host: string, path: string, target: string) returns (r: Outcome<Error>)
      modifies client
      ensures r == (if old(HoldsString(client.data, RouteKey(host))) then Fail(StoreError(WrongType)) else Pass)
      ensures r.Fail? ==> client.data == old(client.data)
      ensures r.Pass? ==>
        client.data == old(client.data)[RouteKey(host) := Hash(old(FieldsAt(client.data, RouteKey(host)))[path := target])]
      ensures r.Pass? && path != "" ==> forall silent :: Lookup(host, Some(path), silent) == Ok(Some(target))
      ensures r.Pass? && path == "/" ==> Lookup(host, None, false) == Ok(Some(target))
      ensures path == "" ==> forall silent :: Lookup(host, Some(path), silent) == old(Lookup(host, Some(path), silent))
    {
      var res := client.HSet(RouteKey(host), path, target);
      r := if res.Fail? then Fail(StoreError(res.error)) else Pass;
    }

    /**
     * `update_host`: moves a host's hash to a new host name, refusing when
     * the new key exists (even when it is the old one).
     */
    method UpdateHost(oldHost: string, newHost: string) returns (r: Outcome<Error>)
      modifies client
      ensures old(RouteKey(newHost) in client.data) ==> r == Fail(HostExists)
      ensures old(RouteKey(newHost) !in client.data && RouteKey(oldHost) !in client.data) ==> r == Fail(StoreError(NoSuchKey))
      ensures r.Fail? ==> client.data == old(client.data)
      ensures r.Pass? <==> old(RouteKey(newHost) !in client.data && RouteKey(oldHost) in client.data)
      ensures r.Pass? ==>
        client.data == (old(client.data) - {RouteKey(oldHost)})[RouteKey(newHost) := old(client.data[RouteKey(oldHost)])]
      ensures r.Pass? ==>
        && RouteKey(oldHost) !in client.data
        && FieldsAt(client.data, RouteKey(newHost)) == old(FieldsAt(client.data, RouteKey(oldHost)))
    {
      var oldKey := RouteKey(oldHost);
      var newKey := RouteKey(newHost);
      if client.Exists(newKey) {
        return Fail(HostExists);
      }
      var res := client.RenameNx(oldKey, newKey);
      r := if res.Err? then Fail(StoreError(res.error)) else Pass;
    }

    /** `delete_path`: `HDEL` of one field; an absent host or path changes nothing. */
    method DeletePath(host: string, path: string) returns (r: Outcome<Error>)
      modifies client
      ensures r == (if old(HoldsString(client.data, RouteKey(host))) then Fail(StoreError(WrongType)) else Pass)
      ensures r.Fail? ==> client.data == old(client.data)
      ensures r.Pass? ==> client.data == WithoutField(old(client.data), RouteKey(host), path)
      ensures r.Pass? ==> FieldsAt(client.data, RouteKey(host)) == old(FieldsAt(client.data, RouteKey(host))) - {path}
      ensures r.Pass? && path != "" ==> Lookup(host, Some(path), true) == Ok(None)
      ensures r.Pass? && path != "" ==> Lookup(host, Some(path), false) == Err(LookupNotFound)
    {
      var res := client.HDel(RouteKey(host), path);
      r := if res.Fail? then Fail(StoreError(res.error)) else Pass;
    }

    /** `delete_host`: `DEL` of the host's key; an absent host changes nothing. */
    method DeleteHost(host: string)
      modifies client
      ensures client.data == old(client.data) - {RouteKey(host)}
      ensures LookupPaths(host) == Ok(map[])
    {
      client.Delete(RouteKey(host));
    }
  }

  /** `RedisUsers`: one string key per operator, holding the bcrypt hash of the password. */
  class RedisUsers {
    const client: Store
    const prefix: Option<string>

    constructor (client: Store, prefix: Option<string>)
      ensures this.client == client && this.prefix == prefix
    {
      this.client := client;
      this.prefix := prefix;
    }

    function UserKey(username: string): string
    {
      PrefixedKey(prefix, USERS_NAMESPACE, username)
    }

    /** `login`: false for an absent or empty stored hash, otherwise what `checkpw` says. */
    function Login(username: string, plainPassword: string): (r: Result<bool, Error>)
      reads client
      ensures r.Err? <==> HoldsHash(client.data, UserKey(username))
      ensures r.Err? ==> r.error == StoreError(WrongType)
      ensures r == Ok(true) <==>
        && HoldsString(client.data, UserKey(username))
        && client.data[UserKey(username)].s != ""
        && CheckPassword(plainPassword, client.data[UserKey(username)].s)
      ensures UserKey(username) !in client.data ==> r == Ok(false)
    {
      match client.Get(UserKey(username))
      case Err(e) => Err(StoreError(e))
      case Ok(None) => Ok(false)
      case Ok(Some(stored)) => if stored == "" then Ok(false) else Ok(CheckPassword(plainPassword, stored))
    }

    /** `lookup`: the usernames whose keys match the pattern (`*` when none is given). */
    method Lookup(pattern: Option<string>) returns (usernames: seq<string>)
      ensures |usernames| == |client.MatchingKeys(UserKey(PatternOrAll(pattern)))|
      ensures NoMeta(KeyHead(prefix, USERS_NAMESPACE)) ==>
        && Distinct(usernames)
        && forall u :: u in usernames <==> UserKey(u) in client.data && Match(PatternOrAll(pattern), u)
    {
      usernames := ListNames(client, prefix, USERS_NAMESPACE, pattern);
    }

    /** `insert`: stores a freshly salted hash, replacing any earlier entry. */
    method Insert(username: string, plainPassword: string, salt: Salt)
      modifies client
      ensures client.data == old(client.data)[UserKey(username) := Str(HashPassword(plainPassword, salt))]
      ensures Login(username, plainPassword) == Ok(true)
      ensures forall other :: other != plainPassword ==> Login(username, other) == Ok(false)
    {
      CheckHashed(plainPassword, salt);
      client.Set(UserKey(username), HashPassword(plainPassword, salt));
    }

    /** `delete`: removes the user's key; an absent user changes nothing. */
    method Delete(username: string)
      modifies client
      ensures client.data == old(client.data) - {UserKey(username)}
      ensures forall p :: Login(username, p) == Ok(false)
    {
      client.Delete(UserKey(username));
    }
  }
}
