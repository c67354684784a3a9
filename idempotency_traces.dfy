/** Any sequence of Start and Store calls, from any number of callers and on
    any keys, each call one atomic step on the shared server: at most one
    Start per key is ever fresh, and once a value is published every
    duplicate Start that reaches the server returns that value. */
module IdempotencyTraces {
  import opened Errors
  import opened RedisHash
  import opened Idempotency

  /** One call on the guard, with the fate of its store commands. */
  datatype Op<T> =
    | StartOp(key: string, setLink: Link, getLink: Link)
    | StoreOp(key: string, value: T, link: Link)

  /** What the caller of one Op sees. */
  datatype Observed<T> = Started(reply: StartReply<T>) | Stored(err: Outcome)

  datatype Step<T> = Step(db: Db, outcome: Observed<T>)

  function Apply<T>(db: Db, c: Codec<T>, op: Op<T>): Step<T> {
    match op
    case StartOp(key, setLink, getLink) =>
      var r := Claim(db, c, key, setLink, getLink);
      Step(r.db, Started(r.reply))
    case StoreOp(key, value, link) =>
      var r := Publish(db, c, key, value, link);
      Step(r.db, Stored(r.err))
  }

  /** The keyspace after `ops`, and what each call saw. */
  datatype Trace<T> = Trace(db: Db, outcomes: seq<Observed<T>>)

  function Run<T>(db: Db, c: Codec<T>, ops: seq<Op<T>>): (r: Trace<T>)
    decreases |ops|
    ensures |r.outcomes| == |ops|
  {
    if ops == [] then Trace(db, [])
    else
      var first := Apply(db, c, ops[0]);
      var rest := Run(first.db, c, ops[1..]);
      Trace(rest.db, [first.outcome] + rest.outcomes)
  }

  predicate FreshStart<T>(op: Op<T>, outcome: Observed<T>, key: string) {
    op.StartOp? && op.key == key && outcome.Started? && outcome.reply.IsFresh()
  }

  /** How many calls in the trace were fresh Starts on `key`. */
  function FreshStarts<T>(ops: seq<Op<T>>, outcomes: seq<Observed<T>>, key: string): nat
    requires |ops| == |outcomes|
  {
    if ops == [] then 0
    else (if FreshStart(ops[0], outcomes[0], key) then 1 else 0) + FreshStarts(ops[1..], outcomes[1..], key)
  }

  /** No call can release a claim. */
  lemma ApplyKeepsClaim<T>(db: Db, c: Codec<T>, op: Op<T>, key: string)
    requires Claimed(db, key)
    ensures Claimed(Apply(db, c, op).db, key)
  {
  }

  /** A fresh Start leaves its key claimed. */
  lemma FreshClaims<T>(db: Db, c: Codec<T>, op: Op<T>, key: string)
    requires FreshStart(op, Apply(db, c, op).outcome, key)
    ensures Claimed(Apply(db, c, op).db, key)
  {
  }

  /** Once a key is claimed, no later Start on it is fresh. */
  lemma {:induction false} NeverFreshOnceClaimed<T>(db: Db, c: Codec<T>, ops: seq<Op<T>>, key: string)
    requires Claimed(db, key)
    ensures forall i :: 0 <= i < |ops| ==> !FreshStart(ops[i], Run(db, c, ops).outcomes[i], key)
    ensures FreshStarts(ops, Run(db, c, ops).outcomes, key) == 0
    decreases |ops|
  {
    if ops != [] {
      var first := Apply(db, c, ops[0]);
      ApplyKeepsClaim(db, c, ops[0], key);
      NeverFreshOnceClaimed(first.db, c, ops[1..], key);
      var outs := Run(db, c, ops).outcomes;
      assert outs[1..] == Run(first.db, c, ops[1..]).outcomes;
      forall i | 0 <= i < |ops| ensures !FreshStart(ops[i], outs[i], key) {
        if i > 0 {
          assert ops[i] == ops[1..][i - 1] && outs[i] == outs[1..][i - 1];
        }
      }
    }
  }

  /** At most one Start per key is ever fresh, and none when the key was
      already claimed. */
  lemma {:induction false} AtMostOneFreshStart<T>(db: Db, c: Codec<T>, ops: seq<Op<T>>, key: string)
    ensures FreshStarts(ops, Run(db, c, ops).outcomes, key) <= if Claimed(db, key) then 0 else 1
    decreases |ops|
  {
    if Claimed(db, key) {
      NeverFreshOnceClaimed(db, c, ops, key);
    } else if ops != [] {
      var first := Apply(db, c, ops[0]);
      var outs := Run(db, c, ops).outcomes;
      assert outs[0] == first.outcome;
      assert outs[1..] == Run(first.db, c, ops[1..]).outcomes;
      if FreshStart(ops[0], first.outcome, key) {
        FreshClaims(db, c, ops[0], key);
        NeverFreshOnceClaimed(first.db, c, ops[1..], key);
      } else {
        AtMostOneFreshStart(first.db, c, ops[1..], key);
      }
    }
  }

  /** Once a Start on a key has been fresh, no later Start on it is. */
  lemma {:induction false} FreshOnlyOnce<T>(db: Db, c: Codec<T>, ops: seq<Op<T>>, key: string, i: nat, j: nat)
    requires i < j < |ops|
    requires FreshStart(ops[i], Run(db, c, ops).outcomes[i], key)
    ensures !FreshStart(ops[j], Run(db, c, ops).outcomes[j], key)
    decreases i
  {
    var first := Apply(db, c, ops[0]);
    var outs := Run(db, c, ops).outcomes;
    var tail := Run(first.db, c, ops[1..]).outcomes;
    assert outs[1..] == tail;
    assert ops[j] == ops[1..][j - 1] && outs[j] == tail[j - 1];
    if i == 0 {
      FreshClaims(db, c, ops[0], key);
      NeverFreshOnceClaimed(first.db, c, ops[1..], key);
    } else {
      assert ops[i] == ops[1..][i - 1] && outs[i] == tail[i - 1];
      FreshOnlyOnce(first.db, c, ops[1..], key, i - 1, j - 1);
    }
  }

  /** `key` is claimed and its `value` field holds the encoding of `v`. */
  predicate Holds<T>(db: Db, c: Codec<T>, key: string, v: T) {
    Claimed(db, key) && c.encode(v).Ok? && Published(db, key) && PublishedBytes(db, key) == c.encode(v).value
  }

  predicate StoresOn<T>(op: Op<T>, key: string) {
    op.StoreOp? && op.key == key
  }

  /** A call that is not a Store on `key` keeps `v` published for it. */
  lemma ApplyKeepsValue<T>(db: Db, c: Codec<T>, op: Op<T>, key: string, v: T)
    requires Holds(db, c, key, v) && !StoresOn(op, key)
    ensures Holds(Apply(db, c, op).db, c, key, v)
  {
    var after := Apply(db, c, op).db;
    if op.key != key {
      NamespacedInjective(op.key, key);
      assert Namespaced(key) in db - {Namespaced(op.key)};
      assert Fields(after, Namespaced(key)) == Fields(db, Namespaced(key));
    }
  }

  /** Convergence: after `v` is published for a claimed key, and while no
      other Store on that key intervenes, every Start on it whose commands
      are delivered returns `v` as a duplicate. */
  lemma {:induction false} Convergence<T(!new)>(db: Db, c: Codec<T>, ops: seq<Op<T>>, key: string, v: T)
    requires RoundTrips(c) && Holds(db, c, key, v)
    requires forall i :: 0 <= i < |ops| ==> !StoresOn(ops[i], key)
    ensures forall i :: 0 <= i < |ops| && ops[i] == StartOp(key, Delivered, Delivered) ==>
              Run(db, c, ops).outcomes[i] == Started(StartReply(v, true, Pass))
    decreases |ops|
  {
    if ops != [] {
      var first := Apply(db, c, ops[0]);
      ApplyKeepsValue(db, c, ops[0], key, v);
      Convergence(first.db, c, ops[1..], key, v);
      var outs := Run(db, c, ops).outcomes;
      assert outs[1..] == Run(first.db, c, ops[1..]).outcomes;
      forall i | 0 <= i < |ops| && ops[i] == StartOp(key, Delivered, Delivered)
        ensures outs[i] == Started(StartReply(v, true, Pass))
      {
        if i > 0 {
          assert ops[i] == ops[1..][i - 1] && outs[i] == outs[1..][i - 1];
        }
      }
    }
  }
}
