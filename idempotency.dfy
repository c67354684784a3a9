/** The idempotency guard `Redis[T]`: a per-key claim (Start) and publish
    (Store) protocol over the hash `"idempotency:" + key` on the shared
    Redis server. The field `status` marks a claimed key; the field `value`
    holds the encoded result once it is published. */
module Idempotency {
  import opened Errors
  import opened RedisHash

  const Prefix := "idempotency:"
  const StatusField := "status"
  const ValueField := "value"
  const StartedStatus := "started"

  /** The Redis key that guards `key`. */
  function Namespaced(key: string): string {
    Prefix + key
  }

  lemma NamespacedInjective(a: string, b: string)
    requires a != b
    ensures Namespaced(a) != Namespaced(b)
  {
    assert Namespaced(a)[|Prefix|..] == a;
    assert Namespaced(b)[|Prefix|..] == b;
  }

  /** What the guard needs of its result type T: Go's zero value and the
      `encoding/json` pair that turns a T into the bytes stored under
      `value` and back. Either direction may fail. */
  datatype Codec<!T> = Codec(zero: T, encode: T -> Result<string>, decode: string -> Result<T>)

  /** Decoding what was encoded gives the value back. */
  ghost predicate RoundTrips<T(!new)>(c: Codec<T>) {
    forall v :: c.encode(v).Ok? ==> c.decode(c.encode(v).value) == Ok(v)
  }

  /** Go's `(T, bool, error)` result of Start. */
  datatype StartReply<T> = StartReply(stored: T, has: bool, err: Outcome) {
    /** The caller holds a fresh claim and must run the guarded operation. */
    predicate IsFresh() {
      !has && err.Pass?
    }
  }

  /** Some Start has written the `status` field of `key`. */
  predicate Claimed(db: Db, key: string) {
    HasField(db, Namespaced(key), StatusField)
  }

  /** Some Store has written the `value` field of `key`. */
  predicate Published(db: Db, key: string) {
    HasField(db, Namespaced(key), ValueField)
  }

  /** The bytes published for `key`. */
  function PublishedBytes(db: Db, key: string): string
    requires Published(db, key)
  {
    Fields(db, Namespaced(key))[ValueField]
  }

  /** The keyspace after a Start and the reply its caller receives. */
  datatype Claiming<T> = Claiming(db: Db, reply: StartReply<T>)

  /** Start: HSETNX `status`, and on a key already claimed, HGET `value`
      and decode it. `setLink` and `getLink` say how the two commands fare. */
  function Claim<T>(db: Db, c: Codec<T>, key: string, setLink: Link, getLink: Link): (r: Claiming<T>)
    // the triple is fresh, a duplicate, or an error; never a duplicate with an error
    ensures r.reply.has ==> r.reply.err.Pass?
    ensures !r.reply.has ==> r.reply.stored == c.zero
    // a fresh claim exactly when the key was unclaimed and HSETNX answered
    ensures r.reply.IsFresh() <==> !Claimed(db, key) && setLink == Delivered
    // HSETNX on an unclaimed key writes `status = "started"`, whether or not its reply arrives
    ensures !Claimed(db, key) && setLink != RequestLost ==>
              r.db == db[Namespaced(key) := Fields(db, Namespaced(key))[StatusField := StartedStatus]]
    // HSETNX failed: its error, and false
    ensures setLink != Delivered ==> r.reply == StartReply(c.zero, false, Fail(Unavailable))
    // the key stays claimed; a key already claimed is not written at all
    ensures setLink != RequestLost ==> Claimed(r.db, key)
    ensures Claimed(db, key) || setLink == RequestLost ==> r.db == db
    // claimed but nothing published yet: an error, not a duplicate
    ensures Claimed(db, key) && !Published(db, key) && setLink == Delivered ==>
              r.reply == StartReply(c.zero, false, Fail(if getLink == Delivered then Nil else Unavailable))
    // claimed, and the HGET fails: its error, and false, whatever is published
    ensures Claimed(db, key) && setLink == Delivered && getLink != Delivered ==>
              r.reply == StartReply(c.zero, false, Fail(Unavailable))
    // claimed and published: the decoded value, or the decoding error
    ensures Claimed(db, key) && Published(db, key) && setLink == Delivered && getLink == Delivered ==>
              r.reply == match c.decode(PublishedBytes(db, key))
                         case Ok(v) => StartReply(v, true, Pass)
                         case Err(e) => StartReply(c.zero, false, Fail(e))
    // nothing but this key's hash changes, and in it only `status`
    ensures r.db - {Namespaced(key)} == db - {Namespaced(key)}
    ensures Fields(r.db, Namespaced(key)) - {StatusField} == Fields(db, Namespaced(key)) - {StatusField}
    ensures Published(r.db, key) == Published(db, key)
  {
    var k := Namespaced(key);
    var written := SetIfAbsent(db, k, StatusField, StartedStatus, setLink);
    if written.result.Err? then Claiming(written.db, StartReply(c.zero, false, Fail(written.result.error)))
    else if written.result.value then Claiming(written.db, StartReply(c.zero, false, Pass))
    else
      match GetField(written.db, k, ValueField, getLink)
      case Err(e) => Claiming(written.db, StartReply(c.zero, false, Fail(e)))
      case Ok(bytes) =>
        match c.decode(bytes)
        case Err(e) => Claiming(written.db, StartReply(c.zero, false, Fail(e)))
        case Ok(v) => Claiming(written.db, StartReply(v, true, Pass))
  }

  /** The keyspace after a Store and the error its caller receives. */
  datatype Publishing = Publishing(db: Db, err: Outcome)

  /** Store: encode `value` and HSET it as the `value` field of `key`. */
  function Publish<T>(db: Db, c: Codec<T>, key: string, value: T, link: Link): (r: Publishing)
    // encoding failed: nothing is written and the error is returned
    ensures c.encode(value).Err? ==> r == Publishing(db, Fail(c.encode(value).error))
    ensures r.err.Pass? <==> c.encode(value).Ok? && link == Delivered
    ensures r.err.Fail? && c.encode(value).Ok? ==> r.err == Fail(Unavailable)
    // once HSET runs, the key's `value` field holds the encoding
    ensures c.encode(value).Ok? && link != RequestLost ==>
              Published(r.db, key) && PublishedBytes(r.db, key) == c.encode(value).value
    ensures c.encode(value).Err? || link == RequestLost ==> r.db == db
    // nothing but this key's hash changes, and in it only `value`
    ensures r.db - {Namespaced(key)} == db - {Namespaced(key)}
    ensures Fields(r.db, Namespaced(key)) - {ValueField} == Fields(db, Namespaced(key)) - {ValueField}
    ensures Claimed(r.db, key) == Claimed(db, key)
  {
    match c.encode(value)
    case Err(e) => Publishing(db, Fail(e))
    case Ok(bytes) =>
      var written := SetField(db, Namespaced(key), ValueField, bytes, link);
      Publishing(written.db, if written.result.Err? then Fail(written.result.error) else Pass)
  }

  /** After a Store that went through, a Start on the claimed key returns
      the stored value as a duplicate. */
  lemma PublishThenClaim<T(!new)>(db: Db, c: Codec<T>, key: string, v: T, storeLink: Link)
    requires RoundTrips(c)
    requires Claimed(db, key) && c.encode(v).Ok? && storeLink != RequestLost
    ensures Claim(Publish(db, c, key, v, storeLink).db, c, key, Delivered, Delivered).reply == StartReply(v, true, Pass)
  {
  }

  /** Two Starts on an unpublished key before any Store: the first is
      fresh, the second is neither fresh nor a duplicate but an error. */
  lemma SecondStartBeforeStoreFails<T>(db: Db, c: Codec<T>, key: string, getLink: Link)
    requires !Claimed(db, key) && !Published(db, key)
    ensures var first := Claim(db, c, key, Delivered, Delivered);
            && first.reply == StartReply(c.zero, false, Pass)
            && Claim(first.db, c, key, Delivered, getLink).reply
               == StartReply(c.zero, false, Fail(if getLink == Delivered then Nil else Unavailable))
  {
  }

  /** Two Stores on one key leave the keyspace as the later one alone would:
      the later value wins and no trace of the earlier one remains. */
  lemma PublishTwiceLastWins<T>(db: Db, c: Codec<T>, key: string, v1: T, link1: Link, v2: T)
    requires c.encode(v2).Ok?
    ensures Publish(Publish(db, c, key, v1, link1).db, c, key, v2, Delivered).db
            == Publish(db, c, key, v2, Delivered).db
  {
    var k := Namespaced(key);
    var mid := Publish(db, c, key, v1, link1).db;
    var twice := Publish(mid, c, key, v2, Delivered).db;
    var once := Publish(db, c, key, v2, Delivered).db;
    assert Fields(twice, k) == Fields(mid, k)[ValueField := c.encode(v2).value];
    assert Fields(once, k) == Fields(db, k)[ValueField := c.encode(v2).value];
    assert Fields(twice, k) == Fields(once, k) by {
      forall f ensures (f in Fields(twice, k)) == (f in Fields(once, k)) {
        if f != ValueField {
          assert (f in Fields(mid, k) - {ValueField}) == (f in Fields(db, k) - {ValueField});
        }
      }
      forall f | f in Fields(twice, k) ensures Fields(twice, k)[f] == Fields(once, k)[f] {
        if f != ValueField {
          assert f in Fields(mid, k) - {ValueField};
        }
      }
    }
    assert twice - {k} == once - {k};
    assert k in twice && k in once;
    assert twice.Keys == once.Keys by {
      forall x ensures (x in twice) == (x in once) {
        if x != k { assert (x in twice - {k}) == (x in once - {k}); }
      }
    }
    forall x | x in twice ensures twice[x] == once[x] {
      if x != k { assert x in twice - {k}; }
    }
  }

  /** The guard for results of type T (`Redis[T]`): a client of the shared
      server and the JSON pair for T. */
  class Redis<T> {
    const client: Client
    const codec: Codec<T>

    constructor (client: Client, codec: Codec<T>)
      ensures this.client == client && this.codec == codec
    {
      this.client := client;
      this.codec := codec;
    }

    /** Claims `key`: `(zero, false, Pass)` to the one caller that must run
        the operation, `(v, true, Pass)` to a duplicate once `v` is stored,
        and `(zero, false, Fail(e))` on every failure. */
    method Start(key: string, setLink: Link, getLink: Link) returns (stored: T, has: bool, err: Outcome)
      modifies client
      ensures Claiming(client.db, StartReply(stored, has, err)) == Claim(old(client.db), codec, key, setLink, getLink)
    {
      var t := codec.zero;
      var written := client.HSetNX(Namespaced(key), StatusField, StartedStatus, setLink);
      if written.Err? {
        return t, false, Fail(written.error);
      }
      if written.value {
        return t, false, Pass;
      }
      var bytes := client.HGet(Namespaced(key), ValueField, getLink);
      if bytes.Err? {
        return t, false, Fail(bytes.error);
      }
      var decoded := codec.decode(bytes.value);
      if decoded.Err? {
        return t, false, Fail(decoded.error);
      }
      return decoded.value, true, Pass;
    }

    /** Publishes `value` as the result for `key`. */
    method Store(key: string, value: T, link: Link) returns (err: Outcome)
      modifies client
      ensures Publishing(client.db, err) == Publish(old(client.db), codec, key, value, link)
    {
      var bytes := codec.encode(value);
      if bytes.Err? {
        return Fail(bytes.error);
      }
      var written := client.HSet(Namespaced(key), ValueField, bytes.value, link);
      err := if written.Err? then Fail(written.error) else Pass;
    }
  }
}
