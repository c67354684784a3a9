/** The POST /shipping/order handler: claim the request's order ID, answer a
    duplicate with the stored order, otherwise save a new order and publish
    it. The guard is instantiated at ShippingOrder with its JSON codec. */
module ShippingService {
  import opened Errors
  import opened RedisHash
  import opened Orders
  import OrderJson
  import opened Idempotency

  /** `Redis[ShippingOrder]`: Go's zero order and `encoding/json`. */
  const ShippingJson: Codec<ShippingOrder> :=
    Codec(Zero, (o: ShippingOrder) => Ok(OrderJson.Encode(o)), OrderJson.Decode)

  lemma ShippingJsonRoundTrips()
    ensures RoundTrips(ShippingJson)
  {
    forall o: ShippingOrder ensures ShippingJson.decode(ShippingJson.encode(o).value) == Ok(o) {
      var e := OrderJson.Encode(o);
      assert OrderJson.Parse(e) == Some(o);
    }
  }

  /** The shipping_orders table in insertion order, and its ID sequence,
      whose next value is `nextId`. The sequence starts at 1 and never hands
      a value out twice, even when the insert that took it rolls back: every
      row has a positive ID below `nextId`, ascending in insertion order. */
  predicate Numbered(rows: seq<ShippingOrder>, nextId: nat) {
    && 0 < nextId
    && (forall i :: 0 <= i < |rows| ==> 0 < rows[i].ID < nextId)
    && (forall i, j :: 0 <= i < j < |rows| ==> rows[i].ID < rows[j].ID)
  }

  /** How a save fares against its one-second deadline. */
  datatype Write =
    | Committed      // the insert commits and the commit is acknowledged in time
    | NotSent        // the deadline expires before the INSERT runs
    | RolledBack     // INSERT ... RETURNING sets the ID, then the deadline aborts the transaction
    | CommittedLate  // the commit goes through but its acknowledgement misses the deadline

  /** The table and its sequence after a save, the order the save returns,
      and its error. */
  datatype Saving = Saving(rows: seq<ShippingOrder>, nextId: nat, order: ShippingOrder, err: Outcome)

  /** `Shipping.Save` of a new order: GORM inserts it, reading the ID that
      the sequence hands out back into the order, and commits. */
  function Insert(rows: seq<ShippingOrder>, nextId: nat, order: ShippingOrder, write: Write): (r: Saving)
    ensures r.order.OrderID == order.OrderID && r.order.Vendor == order.Vendor && r.order.Address == order.Address
    ensures r.err.Pass? <==> write == Committed
    ensures r.err.Fail? ==> r.err == Fail(SaveFailed)
    // the order comes back untouched only when the INSERT never ran
    ensures write == NotSent ==> r == Saving(rows, nextId, order, Fail(SaveFailed))
    // a row is added exactly when the transaction commits, acknowledged or not
    ensures write == Committed || write == CommittedLate ==> r.rows == rows + [r.order]
    ensures write == RolledBack ==> r.rows == rows
    // once the INSERT ran, the order carries an ID no row has, and no later row will get
    ensures write != NotSent && Numbered(rows, nextId) ==>
              && Numbered(r.rows, r.nextId) && 0 < r.order.ID < r.nextId && nextId <= r.order.ID
              && forall i :: 0 <= i < |rows| ==> rows[i].ID != r.order.ID
  {
    if write == NotSent then
      Saving(rows, nextId, order, Fail(SaveFailed))
    else
      var saved := order.(ID := nextId);
      var err := if write == Committed then Pass else Fail(SaveFailed);
      if write == RolledBack then Saving(rows, nextId + 1, saved, err)
      else Saving(rows + [saved], nextId + 1, saved, err)
  }

  /** The repository over the shipping_orders table (`*Shipping`). */
  class Shipping {
    var rows: seq<ShippingOrder>
    var nextId: nat

    constructor ()
      ensures rows == [] && nextId == 1
    {
      rows := [];
      nextId := 1;
    }

    method Save(order: ShippingOrder, write: Write) returns (saved: ShippingOrder, err: Outcome)
      modifies this
      ensures Saving(rows, nextId, saved, err) == Insert(old(rows), old(nextId), order, write)
    {
      saved := order;
      err := Fail(SaveFailed);
      if write != NotSent {
        saved := order.(ID := nextId);
        nextId := nextId + 1;
        if write != RolledBack {
          rows := rows + [saved];
        }
        if write == Committed {
          err := Pass;
        }
      }
    }
  }

  /** The JSON body of a response. */
  datatype Body = StoredOrder(order: ShippingOrder) | Created(ok: bool, shippingId: nat)

  /** What the handler returns to echo: a JSON response with its status
      code, or an error. */
  datatype Response = Json(code: nat, body: Body) | Failed(err: Error)

  /** How each external call of one request fares: the HSETNX and HGET of
      Start, the database write of Save, the HSET of Store. */
  datatype Env = Env(claimLink: Link, readLink: Link, save: Write, storeLink: Link)

  /** The shared Redis keyspace, the shipping_orders table and its ID
      sequence. */
  datatype State = State(db: Db, rows: seq<ShippingOrder>, nextId: nat)

  datatype Handled = Handled(state: State, response: Response)

  /** One POST /shipping/order with a bound request body. */
  function Handle(s: State, c: Codec<ShippingOrder>, request: PlaceShippingOrderRequest, env: Env): (r: Handled)
    // the table only grows, by at most the one requested order
    ensures |s.rows| <= |r.state.rows| <= |s.rows| + 1 && r.state.rows[..|s.rows|] == s.rows
    ensures |r.state.rows| == |s.rows| + 1 ==>
              && !Claimed(s.db, request.OrderID) && Claimed(r.state.db, request.OrderID)
              && r.state.rows[|s.rows|] == NewOrder(request).(ID := s.nextId)
    ensures s.nextId <= r.state.nextId
    ensures Numbered(s.rows, s.nextId) ==> Numbered(r.state.rows, r.state.nextId)
    // no claim is ever released, and no other key's hash changes
    ensures forall k :: Claimed(s.db, k) ==> Claimed(r.state.db, k)
    ensures r.state.db - {Namespaced(request.OrderID)} == s.db - {Namespaced(request.OrderID)}
    // 200 exactly for a duplicate, and then nothing is written
    ensures r.response.Json? && r.response.code == 200 <==>
              Claim(s.db, c, request.OrderID, env.claimLink, env.readLink).reply.has
    ensures r.response.Json? && r.response.code == 200 ==> r.state == s
    // 201 only once the new row is saved and its encoding published
    ensures r.response.Json? && r.response.code == 201 ==>
              && |r.state.rows| == |s.rows| + 1
              && r.response.body == Created(true, r.state.rows[|s.rows|].ID)
              && c.encode(r.state.rows[|s.rows|]).Ok?
              && Published(r.state.db, request.OrderID)
              && PublishedBytes(r.state.db, request.OrderID) == c.encode(r.state.rows[|s.rows|]).value
    ensures r.response.Json? ==> r.response.code == 200 || r.response.code == 201
  {
    var claim := Claim(s.db, c, request.OrderID, env.claimLink, env.readLink);
    var unsaved := State(claim.db, s.rows, s.nextId);
    if claim.reply.err.Fail? then Handled(unsaved, Failed(claim.reply.err.error))
    else if claim.reply.has then Handled(unsaved, Json(200, StoredOrder(claim.reply.stored)))
    else
      var saving := Insert(s.rows, s.nextId, NewOrder(request), env.save);
      var publish := Publish(claim.db, c, saving.order.OrderID, saving.order, env.storeLink);
      var after := State(publish.db, saving.rows, saving.nextId);
      if publish.err.Fail? then Handled(after, Failed(publish.err.error))
      else if saving.err.Fail? then Handled(after, Failed(saving.err.error))
      else Handled(after, Json(201, Created(true, saving.order.ID)))
  }

  /** The handler closure registered for POST /shipping/order. */
  method PlaceShippingOrder(idempotency: Redis<ShippingOrder>, repository: Shipping,
                            request: PlaceShippingOrderRequest, env: Env) returns (response: Response)
    modifies idempotency.client, repository
    ensures Handled(State(idempotency.client.db, repository.rows, repository.nextId), response)
            == Handle(State(old(idempotency.client.db), old(repository.rows), old(repository.nextId)),
                      idempotency.codec, request, env)
  {
    var stored, has, err := idempotency.Start(request.OrderID, env.claimLink, env.readLink);
    if err.Fail? {
      return Failed(err.error);
    }
    if has {
      return Json(200, StoredOrder(stored));
    }
    var createdOrder, saveErr := repository.Save(NewOrder(request), env.save);
    var storeErr := idempotency.Store(createdOrder.OrderID, createdOrder, env.storeLink);
    if storeErr.Fail? {
      return Failed(storeErr.error);
    }
    if saveErr.Fail? {
      return Failed(saveErr.error);
    }
    return Json(201, Created(true, createdOrder.ID));
  }

  // ---- one request ----

  /** A duplicate is answered 200 with the stored order, and nothing is
      written anywhere. */
  lemma DuplicateResponds200(s: State, c: Codec<ShippingOrder>, request: PlaceShippingOrderRequest, env: Env)
    requires Claim(s.db, c, request.OrderID, env.claimLink, env.readLink).reply.has
    ensures Handle(s, c, request, env)
            == Handled(s, Json(200, StoredOrder(Claim(s.db, c, request.OrderID, env.claimLink, env.readLink).reply.stored)))
  {
  }

  /** A fresh request whose save and store go through is answered 201 with
      a new ID; the table gains exactly the requested order under that ID,
      and its encoding is published under the request's order ID. */
  lemma FreshResponds201(s: State, c: Codec<ShippingOrder>, request: PlaceShippingOrderRequest, env: Env)
    requires !Claimed(s.db, request.OrderID) && Numbered(s.rows, s.nextId)
    requires env.claimLink == Delivered && env.save == Committed && env.storeLink == Delivered
    requires c.encode(NewOrder(request).(ID := s.nextId)).Ok?
    ensures var h := Handle(s, c, request, env);
            var created := NewOrder(request).(ID := s.nextId);
            && h.response == Json(201, Created(true, created.ID))
            && h.state.rows == s.rows + [created] && Numbered(h.state.rows, h.state.nextId)
            && (forall i :: 0 <= i < |s.rows| ==> s.rows[i].ID != created.ID)
            && Claimed(h.state.db, request.OrderID)
            && Published(h.state.db, request.OrderID)
            && PublishedBytes(h.state.db, request.OrderID) == c.encode(created).value
  {
  }

  /** The order a failed save hands to Store: unchanged (ID 0) when the
      INSERT never ran, with the ID the sequence handed out otherwise. */
  function FailedSaveOrder(nextId: nat, request: PlaceShippingOrderRequest, write: Write): ShippingOrder {
    if write == NotSent then NewOrder(request) else NewOrder(request).(ID := nextId)
  }

  /** Store runs before the save error is looked at: a failed save still
      publishes the order Save returned, and the request fails with the
      save error. Only a save that committed late has added its row. */
  lemma FailedSaveStillPublishes(s: State, c: Codec<ShippingOrder>, request: PlaceShippingOrderRequest, env: Env)
    requires !Claimed(s.db, request.OrderID)
    requires env.claimLink == Delivered && env.save != Committed && env.storeLink == Delivered
    requires c.encode(FailedSaveOrder(s.nextId, request, env.save)).Ok?
    ensures var h := Handle(s, c, request, env);
            var saved := FailedSaveOrder(s.nextId, request, env.save);
            && h.response == Failed(SaveFailed)
            && h.state.rows == (if env.save == CommittedLate then s.rows + [saved] else s.rows)
            && Published(h.state.db, request.OrderID)
            && PublishedBytes(h.state.db, request.OrderID) == c.encode(saved).value
  {
  }

  // ---- a request and its retry ----

  /** A retry of a request that was answered 201 is answered 200 with the
      created order, and no second order is saved. */
  lemma RetryAfterCreated(s: State, c: Codec<ShippingOrder>, request: PlaceShippingOrderRequest, env: Env, retry: Env)
    requires RoundTrips(c)
    requires Handle(s, c, request, env).response.Json? && Handle(s, c, request, env).response.code == 201
    requires retry.claimLink == Delivered && retry.readLink == Delivered
    ensures var first := Handle(s, c, request, env).state;
            var created := NewOrder(request).(ID := s.nextId);
            Handle(first, c, request, retry) == Handled(first, Json(200, StoredOrder(created)))
  {
  }

  /** A retry of a request whose save failed is answered 200 with the
      order that was published. Unless the save committed late, that
      order's ID names no row of the table: it is 0 when the INSERT never
      ran, and a consumed sequence value when the transaction rolled back.
      A late commit makes it the table's new last row, although the first
      request was told it failed. */
  lemma RetryAfterFailedSave(s: State, c: Codec<ShippingOrder>, request: PlaceShippingOrderRequest, env: Env, retry: Env)
    requires RoundTrips(c) && Numbered(s.rows, s.nextId)
    requires !Claimed(s.db, request.OrderID)
    requires env.claimLink == Delivered && env.save != Committed && env.storeLink == Delivered
    requires c.encode(FailedSaveOrder(s.nextId, request, env.save)).Ok?
    requires retry.claimLink == Delivered && retry.readLink == Delivered
    ensures var first := Handle(s, c, request, env).state;
            var saved := FailedSaveOrder(s.nextId, request, env.save);
            && Handle(first, c, request, retry) == Handled(first, Json(200, StoredOrder(saved)))
            && (env.save != CommittedLate ==> forall i :: 0 <= i < |first.rows| ==> first.rows[i].ID != saved.ID)
            && (env.save == RolledBack ==> saved.ID != 0)
            && (env.save == CommittedLate ==> first.rows == s.rows + [saved])
  {
  }

  /** When the Store of a saved order never reaches Redis, the order is in
      the table but the key stays claimed with nothing published: every
      retry fails with `redis.Nil` and saves nothing. */
  lemma RetryAfterLostStore(s: State, c: Codec<ShippingOrder>, request: PlaceShippingOrderRequest, env: Env, retry: Env)
    requires !Claimed(s.db, request.OrderID) && !Published(s.db, request.OrderID)
    requires env.claimLink == Delivered && env.save == Committed && env.storeLink == RequestLost
    requires c.encode(NewOrder(request).(ID := s.nextId)).Ok?
    requires retry.claimLink == Delivered && retry.readLink == Delivered
    ensures var first := Handle(s, c, request, env);
            && first.response == Failed(Unavailable)
            && first.state.rows == s.rows + [NewOrder(request).(ID := s.nextId)]
            && Handle(first.state, c, request, retry) == Handled(first.state, Failed(Nil))
  {
  }
}
