/**
 * The part of Redis that the manager relies on: one keyspace whose keys hold
 * either a hash (field -> value) or a plain string, and the commands
 * `HGET`, `HGETALL`, `HSET`, `HDEL`, `GET`, `SET`, `DEL`, `EXISTS`,
 * `RENAMENX` and `KEYS` as Redis defines them for these two types.
 */
module Redis {
  import opened Wrappers
  import opened Seqs
  import opened Glob

  /** What a key holds. */
  datatype Value = Hash(fields: map<string, string>) | Str(s: string)

  /** The two Redis replies the manager can receive as an error. */
  datatype RedisError =
    | WrongType  // a hash command on a string key, or a string command on a hash key
    | NoSuchKey  // `RENAMENX` of a key that does not exist

  predicate HoldsString(data: map<string, Value>, key: string)
  {
    key in data && data[key].Str?
  }

  predicate HoldsHash(data: map<string, Value>, key: string)
  {
    key in data && data[key].Hash?
  }

  /** The fields of the hash under `key`; an absent key reads as an empty hash. */
  function FieldsAt(data: map<string, Value>, key: string): map<string, string>
  {
    if HoldsHash(data, key) then data[key].fields else map[]
  }

  /** The keyspace after `HDEL key field` on a key that is not a string: Redis drops a hash once it is empty. */
  function WithoutField(data: map<string, Value>, key: string, field: string): map<string, Value>
  {
    if field !in FieldsAt(data, key) then data
    else if FieldsAt(data, key) - {field} == map[] then data - {key}
    else data[key := Hash(FieldsAt(data, key) - {field})]
  }

  class Store {
    var data: map<string, Value>

    constructor (initial: map<string, Value>)
      ensures data == initial
    {
      data := initial;
    }

    /** `EXISTS key` */
    predicate Exists(key: string)
      reads this
    {
      key in data
    }

    /** `HGET key field`: nil for an absent key or field. */
    function HGet(key: string, field: string): Result<Option<string>, RedisError>
      reads this
    {
      if HoldsString(data, key) then Err(WrongType)
      else if field in FieldsAt(data, key) then Ok(Some(FieldsAt(data, key)[field]))
      else Ok(None)
    }

    /** `HGETALL key`: an empty hash for an absent key. */
    function HGetAll(key: string): Result<map<string, string>, RedisError>
      reads this
    {
      if HoldsString(data, key) then Err(WrongType) else Ok(FieldsAt(data, key))
    }

    /** `GET key`: nil for an absent key. */
    function Get(key: string): Result<Option<string>, RedisError>
      reads this
    {
      if HoldsHash(data, key) then Err(WrongType)
      else if key in data then Ok(Some(data[key].s))
      else Ok(None)
    }

    /** The keys that `KEYS pattern` reports. */
    function MatchingKeys(pattern: string): set<string>
      reads this
    {
      set k | k in data && Match(pattern, k)
    }

    /** `HSET key field value`, creating the hash when the key is absent. */
    method HSet(key: string, field: string, value: string) returns (r: Outcome<RedisError>)
      modifies this
      ensures r == (if old(HoldsString(data, key)) then Fail(WrongType) else Pass)
      ensures r.Fail? ==> data == old(data)
      ensures r.Pass? ==> data == old(data)[key := Hash(old(FieldsAt(data, key))[field := value])]
    {
      if HoldsString(data, key) {
        return Fail(WrongType);
      }
      data := data[key := Hash(FieldsAt(data, key)[field := value])];
      r := Pass;
    }

    /** `HDEL key field`; nothing happens when the key or the field is absent. */
    method HDel(key: string, field: string) returns (r: Outcome<RedisError>)
      modifies this
      ensures r == (if old(HoldsString(data, key)) then Fail(WrongType) else Pass)
      ensures r.Fail? ==> data == old(data)
      ensures r.Pass? ==> data == WithoutField(old(data), key, field)
    {
      if HoldsString(data, key) {
        return Fail(WrongType);
      }
      data := WithoutField(data, key, field);
      r := Pass;
    }

    /** `SET key value`, replacing whatever the key held. */
    method Set(key: string, value: string)
      modifies this
      ensures data == old(data)[key := Str(value)]
    {
      data := data[key := Str(value)];
    }

    /** `DEL key`; nothing happens when the key is absent. */
    method Delete(key: string)
      modifies this
      ensures data == old(data) - {key}
    {
      data := data - {key};
    }

    /** `RENAMENX source destination`: false, changing nothing, when the destination exists. */
    method RenameNx(source: string, destination: string) returns (r: Result<bool, RedisError>)
      modifies this
      ensures r == (if source !in old(data) then Err(NoSuchKey) else Ok(destination !in old(data)))
      ensures r == Ok(true) ==> data == (old(data) - {source})[destination := old(data[source])]
      ensures r != Ok(true) ==> data == old(data)
    {
      if source !in data {
        return Err(NoSuchKey);
      }
      if destination in data {
        return Ok(false);
      }
      data := (data - {source})[destination := data[source]];
      r := Ok(true);
    }

    /**
     * `KEYS pattern`: every matching key once, in an order Redis does not
     * define (here: any order).
     */
    method Keys(pattern: string) returns (keys: seq<string>)
      ensures Distinct(keys)
      ensures forall k :: k in keys <==> k in data && Match(pattern, k)
      ensures |keys| == |MatchingKeys(pattern)|
    {
      var remaining := MatchingKeys(pattern);
      keys := [];
      while remaining != {}
        invariant remaining <= MatchingKeys(pattern)
        invariant forall k :: k in keys <==> k in MatchingKeys(pattern) && k !in remaining
        invariant Distinct(keys)
        invariant |keys| + |remaining| == |MatchingKeys(pattern)|
        decreases remaining
      {
        var k :| k in remaining;
        keys := keys + [k];
        remaining := remaining - {k};
      }
    }
  }
}
