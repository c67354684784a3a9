/** Concurrent POST /shipping/order requests. Each handler run is split at
    the points where it waits on another server (Start, then Save after the
    pause, then Store and the reply), and the steps of different requests
    interleave in any order. A request may also stall for good between two
    steps. */
module ShippingInterleavings {
  import opened Errors
  import opened RedisHash
  import opened Orders
  import opened Idempotency
  import opened ShippingService

  /** Where one handler run stands. */
  datatype Phase =
    | Fresh(request: PlaceShippingOrderRequest)          // Start answered fresh; Save not yet run
    | Saved(order: ShippingOrder, saveErr: Outcome)      // Save returned; Store not yet run
    | Done(response: Response)                           // the handler has returned

  /** One step of one handler run, with the fate of its external calls. A
      run is named by its position in `pending`. */
  datatype Event =
    | Arrive(request: PlaceShippingOrderRequest, claimLink: Link, readLink: Link)
    | SaveStep(run: nat, write: Write)
    | StoreStep(run: nat, link: Link)

  /** The servers' state and every handler run so far. */
  datatype World = World(db: Db, rows: seq<ShippingOrder>, nextId: nat, pending: seq<Phase>)

  /** One step. A step of a run that is not in the matching phase does
      nothing. */
  function Step(w: World, c: Codec<ShippingOrder>, e: Event): World {
    match e
    case Arrive(request, claimLink, readLink) =>
      var claim := Claim(w.db, c, request.OrderID, claimLink, readLink);
      var phase :=
        if claim.reply.err.Fail? then Done(Failed(claim.reply.err.error))
        else if claim.reply.has then Done(Json(200, StoredOrder(claim.reply.stored)))
        else Fresh(request);
      World(claim.db, w.rows, w.nextId, w.pending + [phase])
    case SaveStep(i, write) =>
      if i < |w.pending| && w.pending[i].Fresh? then
        var saving := Insert(w.rows, w.nextId, NewOrder(w.pending[i].request), write);
        World(w.db, saving.rows, saving.nextId, w.pending[i := Saved(saving.order, saving.err)])
      else w
    case StoreStep(i, link) =>
      if i < |w.pending| && w.pending[i].Saved? then
        var order := w.pending[i].order;
        var publish := Publish(w.db, c, order.OrderID, order, link);
        var response :=
          if publish.err.Fail? then Failed(publish.err.error)
          else if w.pending[i].saveErr.Fail? then Failed(w.pending[i].saveErr.error)
          else Json(201, Created(true, order.ID));
        World(publish.db, w.rows, w.nextId, w.pending[i := Done(response)])
      else w
  }

  function Run(w: World, c: Codec<ShippingOrder>, events: seq<Event>): World
    decreases |events|
  {
    if events == [] then w
    else Run(Step(w, c, events[0]), c, events[1..])
  }

  /** Three events run one after the other. */
  lemma RunThree(w: World, c: Codec<ShippingOrder>, e0: Event, e1: Event, e2: Event)
    ensures Run(w, c, [e0, e1, e2]) == Step(Step(Step(w, c, e0), c, e1), c, e2)
  {
    var w1 := Step(w, c, e0);
    var w2 := Step(w1, c, e1);
    assert [e0, e1, e2][1..] == [e1, e2] && [e1, e2][1..] == [e2] && [e2][1..] == [];
    assert Run(w2, c, [e2]) == Step(w2, c, e2);
    assert Run(w1, c, [e1, e2]) == Run(w2, c, [e2]);
  }

  /** Run back to back, the three steps of one request are the handler. */
  lemma StepsMakeHandle(w: World, c: Codec<ShippingOrder>, request: PlaceShippingOrderRequest, env: Env)
    ensures var i := |w.pending|;
            var after := Run(w, c, [Arrive(request, env.claimLink, env.readLink), SaveStep(i, env.save), StoreStep(i, env.storeLink)]);
            var h := Handle(State(w.db, w.rows, w.nextId), c, request, env);
            after == World(h.state.db, h.state.rows, h.state.nextId, w.pending + [Done(h.response)])
  {
    var i := |w.pending|;
    var e0, e1, e2 := Arrive(request, env.claimLink, env.readLink), SaveStep(i, env.save), StoreStep(i, env.storeLink);
    RunThree(w, c, e0, e1, e2);
  }

  /** Number of saved orders for the business order `orderId`. */
  function SavedFor(rows: seq<ShippingOrder>, orderId: string): nat {
    if rows == [] then 0
    else SavedFor(rows[..|rows| - 1], orderId) + (if rows[|rows| - 1].OrderID == orderId then 1 else 0)
  }

  /** 1 for a run holding a fresh claim on `orderId` that has not saved yet. */
  function Counted(p: Phase, orderId: string): nat {
    if p.Fresh? && p.request.OrderID == orderId then 1 else 0
  }

  /** Runs holding a fresh claim on `orderId` that have not saved yet. */
  function FreshFor(pending: seq<Phase>, orderId: string): nat {
    if pending == [] then 0
    else FreshFor(pending[..|pending| - 1], orderId) + Counted(pending[|pending| - 1], orderId)
  }

  lemma {:induction false} FreshForUpdate(pending: seq<Phase>, i: nat, p: Phase, orderId: string)
    requires i < |pending|
    ensures FreshFor(pending[i := p], orderId) + Counted(pending[i], orderId)
            == FreshFor(pending, orderId) + Counted(p, orderId)
    decreases |pending|
  {
    var n := |pending| - 1;
    var q := pending[i := p];
    assert q[..n] == if i == n then pending[..n] else pending[..n][i := p];
    if i < n {
      FreshForUpdate(pending[..n], i, p, orderId);
    }
  }

  lemma FreshForAppend(pending: seq<Phase>, p: Phase, orderId: string)
    ensures FreshFor(pending + [p], orderId) == FreshFor(pending, orderId) + Counted(p, orderId)
  {
  }

  lemma SavedForAppend(rows: seq<ShippingOrder>, row: ShippingOrder, orderId: string)
    ensures SavedFor(rows + [row], orderId) == SavedFor(rows, orderId) + (if row.OrderID == orderId then 1 else 0)
  {
  }

  /** What `orderId` may still come to: the orders saved for it, the fresh
      claims on it not yet used, and one more claim while it is unclaimed. */
  function Budget(w: World, orderId: string): nat {
    SavedFor(w.rows, orderId) + FreshFor(w.pending, orderId) + (if Claimed(w.db, orderId) then 0 else 1)
  }

  /** No step raises the budget of any order ID. */
  lemma StepKeepsBudget(w: World, c: Codec<ShippingOrder>, e: Event, orderId: string)
    ensures Budget(Step(w, c, e), orderId) <= Budget(w, orderId)
  {
    match e
    case Arrive(request, claimLink, readLink) =>
      var claim := Claim(w.db, c, request.OrderID, claimLink, readLink);
      var phase := Step(w, c, e).pending[|w.pending|];
      assert Step(w, c, e).pending == w.pending + [phase];
      FreshForAppend(w.pending, phase, orderId);
      assert Claimed(w.db, orderId) ==> Claimed(claim.db, orderId);
    case SaveStep(i, write) =>
      if i < |w.pending| && w.pending[i].Fresh? {
        var saving := Insert(w.rows, w.nextId, NewOrder(w.pending[i].request), write);
        FreshForUpdate(w.pending, i, Saved(saving.order, saving.err), orderId);
        if write == Committed || write == CommittedLate {
          SavedForAppend(w.rows, saving.order, orderId);
        }
      }
    case StoreStep(i, link) =>
      if i < |w.pending| && w.pending[i].Saved? {
        var order := w.pending[i].order;
        var publish := Publish(w.db, c, order.OrderID, order, link);
        FreshForUpdate(w.pending, i, Step(w, c, e).pending[i], orderId);
        assert Claimed(w.db, orderId) ==> Claimed(publish.db, orderId);
      }
  }

  lemma {:induction false} RunKeepsBudget(w: World, c: Codec<ShippingOrder>, events: seq<Event>, orderId: string)
    ensures Budget(Run(w, c, events), orderId) <= Budget(w, orderId)
    decreases |events|
  {
    if events != [] {
      StepKeepsBudget(w, c, events[0], orderId);
      RunKeepsBudget(Step(w, c, events[0]), c, events[1..], orderId);
    }
  }

  /** At-most-once execution under any interleaving of concurrent requests:
      at most one order is saved per business order ID, and none for an
      order ID that was already claimed, however the steps of the requests
      overlap and whichever calls fail. */
  lemma AtMostOneOrderPerKey(db: Db, rows: seq<ShippingOrder>, nextId: nat, c: Codec<ShippingOrder>, events: seq<Event>, orderId: string)
    ensures SavedFor(Run(World(db, rows, nextId, []), c, events).rows, orderId)
            <= SavedFor(rows, orderId) + (if Claimed(db, orderId) then 0 else 1)
  {
    RunKeepsBudget(World(db, rows, nextId, []), c, events, orderId);
  }

  /** Two requests for one order ID overlap: the second arrives while the
      first is in its pause. The second is refused with `redis.Nil`, the
      first goes on to save and publish, and the table gains one order. */
  lemma OverlappingDuplicateFails(db: Db, rows: seq<ShippingOrder>, nextId: nat, c: Codec<ShippingOrder>,
                                  first: PlaceShippingOrderRequest, second: PlaceShippingOrderRequest)
    requires first.OrderID == second.OrderID && !Claimed(db, first.OrderID) && !Published(db, first.OrderID)
    requires c.encode(NewOrder(first).(ID := nextId)).Ok?
    ensures var after := Run(World(db, rows, nextId, []), c,
                             [Arrive(first, Delivered, Delivered), Arrive(second, Delivered, Delivered),
                              SaveStep(0, Committed), StoreStep(0, Delivered)]);
            && after.pending == [Done(Json(201, Created(true, nextId))), Done(Failed(Nil))]
            && after.rows == rows + [NewOrder(first).(ID := nextId)]
  {
    var e := [Arrive(first, Delivered, Delivered), Arrive(second, Delivered, Delivered),
              SaveStep(0, Committed), StoreStep(0, Delivered)];
    var w0 := World(db, rows, nextId, []);
    var w1 := Step(w0, c, e[0]);
    var w2 := Step(w1, c, e[1]);
    assert e[1..] == [e[1], e[2], e[3]];
    RunThree(w1, c, e[1], e[2], e[3]);
    assert w1.pending == [Fresh(first)];
    assert w2.pending == [Fresh(first), Done(Failed(Nil))];
  }
}
