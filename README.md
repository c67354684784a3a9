# Idempotent shipping-order creation, modelled in Dafny

This project models the idempotency guard of the duplicate-requests shipping
service (`main.go`). The guard `Redis[T]` lets the POST `/shipping/order`
handler create at most one shipping order per business order ID, even when
the request is retried or several copies of it are handled at once.

- **Start** claims the key `"idempotency:" + key` with Redis `HSETNX` on the
  hash field `status`.
  - If the field was absent, Start answers `(zero, false, nil)`: the caller
    must do the work.
  - Otherwise it reads the field `value` with `HGET` and decodes it. A
    decoded value is answered as a duplicate, `(v, true, nil)`.
  - A missing `value` field yields the error `redis.Nil`, not a duplicate.
    This is the case of a claimed key whose result is not yet stored.
- **Store** JSON-encodes a result and overwrites the `value` field with `HSET`.
- **The handler** runs Start and answers a duplicate 200 with the stored
  order. On a fresh claim it saves the order through GORM, then calls Store
  with the saved order, and only then looks at the save error. On success it
  answers 201 with the new ID.

The model has four layers:

- The Redis server is a map from key to hash (`RedisHash`). Each command is
  one atomic step on that map.
- Each command takes a `Link` that says how it fares on the network. The
  command is delivered, or its request is lost (nothing happens), or its
  reply is lost. A lost reply means the command ran but the caller sees an
  error.
- `Claim` and `Publish` (module `Idempotency`) are the pure meaning of Start
  and Store. `Redis<T>.Start` and `Redis<T>.Store` are imperative methods on
  a shared `Client` object, proved equal to them.
- The handler is `PlaceShippingOrder`. It is proved equal to the pure
  `Handle`, over the Redis keyspace and the `shipping_orders` table.
- Concurrent requests (`ShippingInterleavings`) split each handler run into
  three steps: Start, then Save, then Store with the reply. The steps of
  different requests interleave in any order, and a run may stall between
  steps. At most one order per order ID is proved over every interleaving.

The result type's JSON pair is a `Codec<T>` value. Lemmas that need the round
trip take `RoundTrips(codec)` as a precondition. The codec actually used,
`ShippingJson`, is proved to satisfy it (`ShippingJsonRoundTrips`).

The code never writes a "completed" status. The `status` field holds
`"started"` forever, and a key counts as completed once its `value` field
exists. The model follows the code here, not a three-state
UNSET/STARTED/COMPLETED record.

## Model

| member | source | states |
|---|---|---|
| `RedisHash.SetIfAbsent` | main.go:67 | HSETNX writes the field only when the hash lacks it. It answers true exactly when it wrote and its reply arrived. A lost request writes nothing, and no other key changes. |
| `RedisHash.GetField` | main.go:74 | HGET returns the field's value when key and field exist. A missing field gives the error `Nil`, and a failed link gives `Unavailable`. |
| `RedisHash.SetField` | main.go:89 | HSET overwrites the field, creating the hash if needed. A lost request writes nothing, and no other key changes. |
| `RedisHash.Client.HSetNX` | main.go:67 | The client's HSETNX changes the shared keyspace and answers as SetIfAbsent says. |
| `RedisHash.Client.HGet` | main.go:74 | The client's HGET answers as GetField says and changes nothing. |
| `RedisHash.Client.HSet` | main.go:89 | The client's HSET changes the shared keyspace and answers as SetField says. |
| `OrderJson.Decimal` | main.go:85 | An ID is written as a nonempty run of decimal digits. Its first digit is '0' only for 0. |
| `OrderJson.Encode` | main.go:85 | `json.Marshal` of an order: parsing the encoding gives the order back, so decoding any encoding succeeds with the same order. |
| `OrderJson.Decode` | main.go:78-80 | `json.Unmarshal` into an order accepts only encodings: any string it accepts is the encoding of the order it returns. Any other input fails with `Corrupt`. |
| `OrderJson.EncodeOfParse` | main.go:78-80 | Whatever the parser accepts is the encoding of the order it returns. |
| `ShippingService.ShippingJsonRoundTrips` | main.go:104 | The codec of `Redis[ShippingOrder]` satisfies the round trip that the guard's lemmas assume. |
| `Idempotency.Claim` | main.go:65-82 | Start answers fresh exactly when the key was unclaimed and HSETNX answered. On an unclaimed key, an HSETNX that ran writes `status = "started"` whether or not its reply arrived. On a failed HSETNX it answers `(zero, false, Unavailable)`. On a claimed key it writes nothing. A claimed key with nothing published gives `(zero, false, Nil)`. A published key gives the decoded value with `true`, or `(zero, false, decode error)`. Only `status` of this key can change. |
| `Idempotency.Publish` | main.go:84-90 | Store writes nothing and returns the error when encoding fails. Otherwise HSET leaves the encoding in `value`. The `status` field and every other key are untouched. |
| `Idempotency.Redis.constructor` | main.go:61-63 | NewRedis wraps a client and the result type's codec. |
| `Idempotency.Redis.Start` | main.go:65-82 | The imperative Start (HSETNX, then HGET and decode) leaves the keyspace and answers exactly as Claim says. |
| `Idempotency.Redis.Store` | main.go:84-90 | The imperative Store (encode, then HSET) leaves the keyspace and answers exactly as Publish says. |
| `Idempotency.SecondStartBeforeStoreFails` | main.go:67-77 | Two Starts on a key before any Store: the first is fresh, the second returns an error with `false`, not a duplicate. |
| `Idempotency.PublishThenClaim` | main.go:74-90 | After a Store on a claimed key, a Start whose commands arrive returns `(v, true, nil)`, by the round trip. |
| `Idempotency.PublishTwiceLastWins` | main.go:89 | Two Stores on one key leave the keyspace exactly as the later Store alone would. |
| `IdempotencyTraces.NeverFreshOnceClaimed` | main.go:67-73 | In any sequence of Start and Store calls on any keys, no Start on an already claimed key is fresh. |
| `IdempotencyTraces.AtMostOneFreshStart` | main.go:67-73 | In any such sequence, at most one Start per key is fresh, and none if the key started claimed. |
| `IdempotencyTraces.FreshOnlyOnce` | main.go:67-73 | Once a Start on a key has been fresh, every later Start on that key is a duplicate or an error. |
| `IdempotencyTraces.Convergence` | main.go:74-90 | Once `v` is published on a claimed key, and until another Store on that key, every delivered Start on it returns `(v, true, nil)`. |
| `ShippingService.Insert` | main.go:37-40 | A save keeps OrderID, Vendor and Address, and answers without error exactly when its commit is acknowledged. If the INSERT never ran, nothing changes and the order comes back unchanged. Otherwise the order carries a new positive ID that no row has and no later row will get. A row is added exactly when the transaction commits, in time or late. A rolled-back insert adds no row but consumes its ID. Every failure is `SaveFailed`. |
| `ShippingService.Shipping.constructor` | main.go:33-35 | NewShipping starts from an empty table whose ID sequence starts at 1. |
| `ShippingService.Shipping.Save` | main.go:37-40 | The repository's Save changes the table and its ID sequence, and answers, exactly as Insert says. |
| `ShippingService.Handle` | main.go:111-141 | One request adds at most one row, only the requested order under the sequence's next ID, and only when it found the key unclaimed and left it claimed. The sequence never goes back, and the table stays numbered. No claim is released, and no other Redis key changes. The answer is 200 exactly for a duplicate, and then nothing is written. A 201 carries the new row's ID, and that row's encoding is published under the order ID. |
| `ShippingService.PlaceShippingOrder` | main.go:111-141 | The handler (Start, then on a fresh claim Save, then Store, then the error checks) leaves Redis and the table and answers exactly as Handle says. |
| `ShippingService.DuplicateResponds200` | main.go:116-122 | A duplicate is answered 200 with the stored order, and nothing is written. |
| `ShippingService.FreshResponds201` | main.go:116-140 | A fresh request whose save and store go through is answered 201 with a new ID. The table gains exactly the requested order, and its encoding is published under the request's order ID. |
| `ShippingService.FailedSaveStillPublishes` | main.go:124-136 | A failed save still publishes the order Save returned, because Store runs before the save error is checked. That order has ID 0 if the INSERT never ran, and its new ID otherwise. Only a late commit puts it in the table. The request fails with the save error. |
| `ShippingService.RetryAfterCreated` | main.go:116-140 | Retrying a request that got 201 gets 200 with the created order, and saves nothing more. |
| `ShippingService.RetryAfterFailedSave` | main.go:116-136 | Retrying a request whose save failed gets 200 with the published order. Unless the insert committed late, its ID names no row: 0 if the INSERT never ran, a nonzero consumed ID if the transaction rolled back. After a late commit it is the table's new last row. |
| `ShippingService.RetryAfterLostStore` | main.go:116-136 | If the Store of a saved order never reaches Redis, the order stays in the table and the key stays claimed with nothing published. Every retry then fails with `Nil` and saves nothing. |
| `ShippingInterleavings.StepsMakeHandle` | main.go:111-141 | The three steps of one request, run back to back, leave Redis and the table exactly as `Handle` does and record its response. |
| `ShippingInterleavings.StepKeepsBudget` | main.go:116-131 | No step of any request raises an order ID's budget: orders saved for it, plus unused fresh claims on it, plus one while it is unclaimed. |
| `ShippingInterleavings.RunKeepsBudget` | main.go:116-131 | No interleaving of steps raises any order ID's budget. |
| `ShippingInterleavings.AtMostOneOrderPerKey` | main.go:116-131 | Under any interleaving of concurrent requests, with any failures, at most one order is saved per business order ID, and none for an ID that was already claimed. |
| `ShippingInterleavings.OverlappingDuplicateFails` | main.go:116-136 | A second request for an order ID that arrives during the first one's pause fails with `redis.Nil`. The first is answered 201, and the table gains one order. |

## Left out

- `main()` (main.go:92-109, 143) is not modelled: the echo server, its middleware, the Redis and Postgres connection settings and `AutoMigrate` are process startup.
- `Shipping.ByID`, `Shipping.ByOrderID` and `Shipping.by` (main.go:42-55) are not modelled. They are database lookups that the handler never calls.
- The request binding `c.Bind` and its error return (main.go:112-115) are not modelled. The handler model starts from a bound request body.
- The two-second pause and the one-second deadline (main.go:123-125) are timing. The pause is the gap between the Start and Save steps of a run in `ShippingInterleavings`. The deadline is one of the save's outcomes (`Write`). It may expire before the INSERT runs (`NotSent`), or after the INSERT has set the ID but before COMMIT, rolling back (`RolledBack`). It may also expire after the commit, which stands with the error still returned (`CommittedLate`).
- `Failed(err)` stands for the error the handler returns to echo. The HTTP status that echo's error handler then writes is not modelled.
- The steps that interleave are whole Start and Store calls (`IdempotencyTraces.Run`) and the Start, Save and Store steps of handler runs (`ShippingInterleavings.Run`). The gap between the HSETNX and the HGET inside one Start is not a separate step. A duplicate's HGET is modelled as running right after its HSETNX.
- go-redis client internals are not modelled: connection pooling and its automatic retries of failed commands. A key holding a non-hash value (a `WRONGTYPE` error) is not modelled either.
- Go integer widths are not modelled: the order ID is an unbounded `nat`, not a 64-bit `uint`.
- The `value` field holds bytes. The model keeps it as the JSON text, and the UTF-8 layer is not modelled.
- OrderJson.Encode writes only the escapes `\"` and `\\`. `encoding/json` also writes short or `\u` escapes for control characters, for `<`, `>` and `&`, and for U+2028/U+2029.
- OrderJson.Decode accepts only the layout that Encode writes. `encoding/json` also accepts whitespace, any member order, unknown members and other escapes.
- The timestamps of `gorm.Model` (`CreatedAt`, `UpdatedAt`, `DeletedAt`) are not modelled, in the order or in its JSON form.
- Idempotency.Redis.Start returns the zero value on a decode error. Go may return a partly filled `T` there. The handler discards that value either way.
- ShippingService.Shipping.Save models only the insert of a new order, which is the only way the handler calls it. GORM's update of an order that already has an ID is not modelled. The ID sequence is modelled as a counter apart from the table, as Postgres never reuses a value taken by a rolled-back insert. A save whose INSERT never runs takes no ID.
