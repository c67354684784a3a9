/** The shared Redis server as the guard sees it: a keyspace of hashes and
    the three hash commands the guard sends (HSETNX, HGET, HSET), each one
    atomic on the server. */
module RedisHash {
  import opened Errors

  /** One Redis hash: field name to field value. */
  type Hash = map<string, string>

  /** The server's keyspace, restricted to hash values. */
  type Db = map<string, Hash>

  /** How one command fares between client and server. */
  datatype Link =
    | Delivered    // the command runs and its reply arrives
    | RequestLost  // the command never reaches the server
    | ReplyLost    // the command runs but the reply is lost: the caller sees an error

  /** The hash stored at `key`; a missing key reads as an empty hash. */
  function Fields(db: Db, key: string): Hash {
    if key in db then db[key] else map[]
  }

  predicate HasField(db: Db, key: string, field: string) {
    field in Fields(db, key)
  }

  /** The keyspace after a command and the reply its caller receives. */
  datatype Reply<T> = Reply(db: Db, result: Result<T>)

  /** Sends a command whose effect on the server is `applied` and whose
      answer is `answer`, over `link`. */
  function Transmit<T>(db: Db, link: Link, applied: Db, answer: T): Reply<T> {
    match link
    case Delivered => Reply(applied, Ok(answer))
    case RequestLost => Reply(db, Err(Unavailable))
    case ReplyLost => Reply(applied, Err(Unavailable))
  }

  /** HSETNX key field value: writes the field only when the hash lacks it;
      answers whether it wrote. */
  function SetIfAbsent(db: Db, key: string, field: string, value: string, link: Link): (r: Reply<bool>)
    ensures r.result == Ok(true) <==> link == Delivered && !HasField(db, key, field)
    ensures r.result == Ok(false) <==> link == Delivered && HasField(db, key, field)
    ensures HasField(db, key, field) || link == RequestLost ==> r.db == db
    ensures link != RequestLost && !HasField(db, key, field) ==>
              r.db == db[key := Fields(db, key)[field := value]]
    ensures r.db - {key} == db - {key}
  {
    var present := HasField(db, key, field);
    Transmit(db, link, if present then db else db[key := Fields(db, key)[field := value]], !present)
  }

  /** HGET key field: the field's value, or `Nil` when the key or the field
      is missing. A read: the keyspace does not change. */
  function GetField(db: Db, key: string, field: string, link: Link): (r: Result<string>)
    ensures r.Ok? <==> link == Delivered && HasField(db, key, field)
    ensures r.Ok? ==> r.value == Fields(db, key)[field]
    ensures r.Err? ==> r.error == (if link == Delivered then Nil else Unavailable)
  {
    if link != Delivered then Err(Unavailable)
    else if HasField(db, key, field) then Ok(Fields(db, key)[field])
    else Err(Nil)
  }

  /** HSET key field value: overwrites the field, creating the hash if
      needed; answers how many fields were added (0 or 1). */
  function SetField(db: Db, key: string, field: string, value: string, link: Link): (r: Reply<nat>)
    ensures r.result.Ok? <==> link == Delivered
    ensures r.result.Ok? ==> r.result.value == (if HasField(db, key, field) then 0 else 1)
    ensures link != RequestLost ==> Fields(r.db, key) == Fields(db, key)[field := value]
    ensures link == RequestLost ==> r.db == db
    ensures r.db - {key} == db - {key}
  {
    Transmit(db, link, db[key := Fields(db, key)[field := value]],
             if HasField(db, key, field) then 0 else 1)
  }

  /** A connection to the shared server (go-redis `*redis.Client`); `db` is
      the server's keyspace, which every client of the server shares. */
  class Client {
    var db: Db

    constructor ()
      ensures db == map[]
    {
      db := map[];
    }

    method HSetNX(key: string, field: string, value: string, link: Link) returns (r: Result<bool>)
      modifies this
      ensures Reply(db, r) == SetIfAbsent(old(db), key, field, value, link)
    {
      var present := key in db && field in db[key];
      if link != RequestLost && !present {
        var hash := if key in db then db[key] else map[];
        db := db[key := hash[field := value]];
      }
      r := if link == Delivered then Ok(!present) else Err(Unavailable);
    }

    method HGet(key: string, field: string, link: Link) returns (r: Result<string>)
      ensures r == GetField(db, key, field, link)
    {
      if link != Delivered {
        r := Err(Unavailable);
      } else if key in db && field in db[key] {
        r := Ok(db[key][field]);
      } else {
        r := Err(Nil);
      }
    }

    method HSet(key: string, field: string, value: string, link: Link) returns (r: Result<nat>)
      modifies this
      ensures Reply(db, r) == SetField(old(db), key, field, value, link)
    {
      var hash := if key in db then db[key] else map[];
      var added := if field in hash then 0 else 1;
      if link != RequestLost {
        db := db[key := hash[field := value]];
      }
      r := if link == Delivered then Ok(added) else Err(Unavailable);
    }
  }
}
