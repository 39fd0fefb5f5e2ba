/**
 The orders controller: the validators and existence guard that run in front
 of the order handlers, the status guard that makes `delivered` terminal, the
 handlers that change the in-memory store, and the exported routes that put
 them together.
 */
module Orders {
  import opened Js
  import opened Middleware

  const DeliverToMessage := "Order must include a deliverTo"
  const MobileNumberMessage := "Order must include a mobileNumber"
  const NoDishMessage := "Order must include a dish"
  const EmptyDishesMessage := "Order must include at least one dish"
  const StatusRequiredMessage := "Order must have a status of pending, preparing, out-for-delivery, delivered"
  const DeliveredMessage := "A delivered order cannot be changed"
  const InvalidStatusError := "Invalid status"
  const NotPendingMessage := "An order cannot be deleted unless it is pending"

  function QuantityMessage(i: nat): string
  {
    "Dish " + NatToString(i) + " must have a quantity that is an integer greater than 0"
  }

  function NotFoundMessage(orderId: string): string
  {
    "Order does not exist: " + orderId
  }

  function MismatchMessage(id: JsValue, orderId: string): string
  {
    "Order id does not match route id. Order: " + Show(id) + ", Route: " + orderId
  }

  /** The quantity message names its index: different indexes give different messages. */
  lemma QuantityMessageNamesIndex(i: nat, j: nat)
    ensures QuantityMessage(i) == QuantityMessage(j) ==> i == j
  {
    var prefix, suffix := "Dish ", " must have a quantity that is an integer greater than 0";
    if QuantityMessage(i) == QuantityMessage(j) {
      var m := QuantityMessage(i);
      assert NatToString(i) == m[|prefix|..|m| - |suffix|];
      assert NatToString(j) == m[|prefix|..|m| - |suffix|];
      NatToStringInjective(i, j);
    }
  }

  // ---- the status lifecycle ----

  datatype Status = Pending | Preparing | OutForDelivery | Delivered

  function StatusText(st: Status): string
  {
    match st
    case Pending => "pending"
    case Preparing => "preparing"
    case OutForDelivery => "out-for-delivery"
    case Delivered => "delivered"
  }

  /** One of the four enumerated statuses. */
  predicate IsStatus(v: JsValue)
  {
    exists st: Status :: v == Str(StatusText(st))
  }

  /** `validStatuses` in hasStatus. */
  const ValidStatuses: seq<string> := ["pending", "preparing", "out-for-delivery", "delivered"]

  // ---- the records and their abstract view ----

  /** An order of the store. `update` overwrites its fields in place; its id never changes. */
  class Order {
    const id: string
    var deliverTo: JsValue
    var mobileNumber: JsValue
    var status: JsValue
    var dishes: JsValue

    constructor (id: string, deliverTo: JsValue, mobileNumber: JsValue, status: JsValue, dishes: JsValue)
      ensures View() == OrderView(id, deliverTo, mobileNumber, status, dishes)
    {
      this.id := id;
      this.deliverTo := deliverTo;
      this.mobileNumber := mobileNumber;
      this.status := status;
      this.dishes := dishes;
    }

    ghost function View(): OrderView
      reads this
    {
      OrderView(id, deliverTo, mobileNumber, status, dishes)
    }
  }

  datatype OrderView = OrderView(id: string, deliverTo: JsValue, mobileNumber: JsValue, status: JsValue, dishes: JsValue)

  /** The contents of a store, record by record. */
  ghost function Views(s: seq<Order>): (r: seq<OrderView>)
    reads s
    ensures |r| == |s| && forall i :: 0 <= i < |s| ==> r[i] == s[i].View()
  {
    if s == [] then [] else [s[0].View()] + Views(s[1..])
  }

  /** The record `create` builds from the body's fields. */
  function Created(id: string, data: JsValue): OrderView
  {
    OrderView(id, Field(data, "deliverTo"), Field(data, "mobileNumber"), Field(data, "status"), Field(data, "dishes"))
  }

  /** The record `update` leaves: the four mutable fields from the body, the id kept. */
  function Overwritten(before: OrderView, data: JsValue): OrderView
  {
    OrderView(before.id, Field(data, "deliverTo"), Field(data, "mobileNumber"), Field(data, "status"), Field(data, "dishes"))
  }

  // ---- validators ----

  function HasDeliverTo(data: JsValue): (r: Step)
    ensures r == Continue <==> !data.Null? && TextPresent(Field(data, "deliverTo"))
    ensures r == Stop(Forwarded(400, DeliverToMessage)) <==> !data.Null? && TextMissing(Field(data, "deliverTo"))
    ensures r == Stop(Thrown) <==> data.Null? || (Truthy(Field(data, "deliverTo")) && !Field(data, "deliverTo").Str?)
  {
    TextField(data, "deliverTo", DeliverToMessage)
  }

  function HasMobileNumber(data: JsValue): (r: Step)
    ensures r == Continue <==> !data.Null? && TextPresent(Field(data, "mobileNumber"))
    ensures r == Stop(Forwarded(400, MobileNumberMessage)) <==> !data.Null? && TextMissing(Field(data, "mobileNumber"))
    ensures r == Stop(Thrown) <==> data.Null? || (Truthy(Field(data, "mobileNumber")) && !Field(data, "mobileNumber").Str?)
  {
    TextField(data, "mobileNumber", MobileNumberMessage)
  }

  function HasDishes(data: JsValue): (r: Step)
    ensures r == Continue <==> !data.Null? && Field(data, "dishes").Arr? && Field(data, "dishes").items != []
    ensures r == Stop(Forwarded(400, NoDishMessage)) <==> !data.Null? && !Truthy(Field(data, "dishes"))
    ensures r == Stop(Forwarded(400, EmptyDishesMessage)) <==>
      !data.Null? && Truthy(Field(data, "dishes")) && !(Field(data, "dishes").Arr? && Field(data, "dishes").items != [])
    ensures r == Stop(Thrown) <==> data.Null?
  {
    match FieldOf(data, "dishes")
    case None => Stop(Thrown)
    case Some(dishes) =>
      if !Truthy(dishes) then Stop(Forwarded(400, NoDishMessage))
      else if !dishes.Arr? || |dishes.items| == 0 then Stop(Forwarded(400, EmptyDishesMessage))
      else Continue
  }

  /** What the quantity loop visits: `dishes[i]` for `i < dishes.length`, after
      `const { data: { dishes = [] } = {} } = req.body`; `None` when this throws
      (`data` or `dishes` is `null`). A string is indexed character by character;
      a value without a `length` gives an empty loop. */
  function DishesToCheck(data: JsValue): (r: Option<seq<JsValue>>)
    ensures r.None? <==> data.Null? || Field(data, "dishes").Null?
    ensures !data.Null? && Field(data, "dishes").Arr? ==> r == Some(Field(data, "dishes").items)
  {
    if data.Null? then None
    else match Field(data, "dishes")
      case Null => None
      case Arr(items) => Some(items)
      case Str(s) => Some(seq(|s|, i requires 0 <= i < |s| => Str([s[i]])))
      case _ => Some([])
  }

  /** A dish entry whose quantity is a positive integer. */
  predicate PositiveQuantity(dish: JsValue)
  {
    dish.Obj? && "quantity" in dish.props && dish.props["quantity"].Num? && dish.props["quantity"].n > 0
  }

  /** One turn of the quantity loop, at index `i`. */
  function QuantityAt(i: nat, dish: JsValue): (r: Step)
    ensures r == Continue <==> PositiveQuantity(dish)
    ensures r == Stop(Thrown) <==> dish.Undefined? || dish.Null?
    ensures r != Continue && r != Stop(Thrown) ==> r == Stop(Forwarded(400, QuantityMessage(i)))
  {
    match Prop(dish, "quantity")
    case None => Stop(Thrown)
    case Some(quantity) =>
      if !Truthy(quantity) then Stop(Forwarded(400, QuantityMessage(i)))
      else if !quantity.Num? || quantity.n <= 0 then Stop(Forwarded(400, QuantityMessage(i)))
      else Continue
  }

  function QuantitySteps(dishes: seq<JsValue>): (r: seq<Step>)
    ensures |r| == |dishes| && forall i :: 0 <= i < |dishes| ==> r[i] == QuantityAt(i, dishes[i])
  {
    seq(|dishes|, i requires 0 <= i < |dishes| => QuantityAt(i, dishes[i]))
  }

  /** The verdict of hasDishQuantity: the loop stops at the first entry that fails. */
  function QuantityVerdict(data: JsValue): Step
  {
    match DishesToCheck(data)
    case None => Stop(Thrown)
    case Some(dishes) => Chain(QuantitySteps(dishes))
  }

  /** hasDishQuantity: the index loop with early return. */
  method HasDishQuantity(data: JsValue) returns (r: Step)
    ensures r == QuantityVerdict(data)
  {
    var dishes: seq<JsValue>;
    match DishesToCheck(data) {
      case None => return Stop(Thrown);
      case Some(ds) => dishes := ds;
    }
    var i := 0;
    while i < |dishes|
      invariant 0 <= i <= |dishes|
      invariant forall j :: 0 <= j < i ==> QuantityAt(j, dishes[j]) == Continue
    {
      var verdict := QuantityAt(i, dishes[i]);
      if verdict != Continue {
        ChainStopsAtFirst(QuantitySteps(dishes), i);
        return verdict;
      }
      i := i + 1;
    }
    return Continue;
  }

  /** An array of dishes passes the quantity check exactly when every entry has a positive integer quantity. */
  lemma QuantityAcceptsIff(data: JsValue)
    requires !data.Null? && Field(data, "dishes").Arr?
    ensures QuantityVerdict(data) == Continue <==>
      forall i :: 0 <= i < |Field(data, "dishes").items| ==> PositiveQuantity(Field(data, "dishes").items[i])
  {
  }

  /** The first entry without a positive integer quantity is the one reported, by its index. */
  lemma QuantityRejectsFirstBadEntry(data: JsValue, k: nat)
    requires !data.Null? && Field(data, "dishes").Arr?
    requires k < |Field(data, "dishes").items|
    requires forall j :: 0 <= j < k ==> PositiveQuantity(Field(data, "dishes").items[j])
    requires !PositiveQuantity(Field(data, "dishes").items[k])
    requires !Field(data, "dishes").items[k].Null? && !Field(data, "dishes").items[k].Undefined?
    ensures QuantityVerdict(data) == Stop(Forwarded(400, QuantityMessage(k)))
  {
    ChainStopsAtFirst(QuantitySteps(Field(data, "dishes").items), k);
  }

  /** Conversely, a quantity error names the first failing entry. */
  lemma QuantityErrorNamesFirstBadEntry(data: JsValue, k: nat)
    requires QuantityVerdict(data) == Stop(Forwarded(400, QuantityMessage(k)))
    ensures DishesToCheck(data).Some?
    ensures k < |DishesToCheck(data).value| && !PositiveQuantity(DishesToCheck(data).value[k])
    ensures forall j :: 0 <= j < k ==> PositiveQuantity(DishesToCheck(data).value[j])
  {
    var dishes := DishesToCheck(data).value;
    var steps := QuantitySteps(dishes);
    var i :| 0 <= i < |steps| && steps[i] == Chain(steps) && forall j :: 0 <= j < i ==> steps[j] == Continue;
    QuantityMessageNamesIndex(i, k);
  }

  /** hasStatus, given the body and the current status of the order orderExists resolved. */
  function HasStatus(data: JsValue, current: JsValue): (r: Step)
    ensures r == Stop(Thrown) <==> data.Null?
    ensures !data.Null? && !Truthy(Field(data, "status")) ==> r == Stop(Forwarded(400, StatusRequiredMessage))
    ensures !data.Null? && Truthy(Field(data, "status")) && current == Str("delivered") ==>
      r == Stop(Forwarded(400, DeliveredMessage))
    ensures !data.Null? && Truthy(Field(data, "status")) && current != Str("delivered") && !IsStatus(Field(data, "status")) ==>
      r == Stop(Direct(400, InvalidStatusError))
    ensures r == Continue <==> !data.Null? && current != Str("delivered") && IsStatus(Field(data, "status"))
  {
    match FieldOf(data, "status")
    case None => Stop(Thrown)
    case Some(status) =>
      if !Truthy(status) || status == Str("") then Stop(Forwarded(400, StatusRequiredMessage))
      else if current == Str("delivered") then Stop(Forwarded(400, DeliveredMessage))
      else if !(status.Str? && status.s in ValidStatuses) then Stop(Direct(400, InvalidStatusError))
      else
        assert status == Str(StatusText(Pending)) || status == Str(StatusText(Preparing))
            || status == Str(StatusText(OutForDelivery)) || status == Str(StatusText(Delivered));
        Continue
  }

  /** The guard at the top of `update`: a truthy body id must equal the route id. */
  function MatchesRoute(orderId: string, data: JsValue): (r: Step)
    ensures r == Continue <==> !data.Null? && (!Truthy(Field(data, "id")) || Field(data, "id") == Str(orderId))
    ensures r == Stop(Thrown) <==> data.Null?
    ensures r != Continue && r != Stop(Thrown) ==>
      r == Stop(Forwarded(400, MismatchMessage(Field(data, "id"), orderId)))
  {
    match FieldOf(data, "id")
    case None => Stop(Thrown)
    case Some(id) =>
      if Truthy(id) && id != Str(orderId) then Stop(Forwarded(400, MismatchMessage(id, orderId)))
      else Continue
  }

  /** orderExists: the first order with the route id, or a 404 naming it. */
  function OrderExists(orders: seq<Order>, orderId: string): (r: Lookup)
    ensures r.Found? ==> r.index < |orders| && orders[r.index].id == orderId
    ensures r.Found? ==> forall j :: 0 <= j < r.index ==> orders[j].id != orderId
    ensures r.NotFound? <==> forall j :: 0 <= j < |orders| ==> orders[j].id != orderId
    ensures r.NotFound? ==> r.failure == Forwarded(404, NotFoundMessage(orderId))
  {
    var index := FindIndex(orders, (o: Order) => o.id == orderId);
    if index >= 0 then Found(index) else NotFound(Forwarded(404, NotFoundMessage(orderId)))
  }

  // ---- the validation chains of create and update ----

  /** The field checks of both chains, in order: hasDeliverTo, hasMobileNumber, hasDishes,
      hasDishQuantity. */
  function FieldChecks(data: JsValue): Step
  {
    AndThen(HasDeliverTo(data), AndThen(HasMobileNumber(data), AndThen(HasDishes(data), QuantityVerdict(data))))
  }

  /** PUT /orders/:orderId between orderExists and the handler: the field checks, then hasStatus. */
  function UpdateChecks(data: JsValue, current: JsValue): Step
  {
    AndThen(FieldChecks(data), HasStatus(data, current))
  }

  /** The update chain after orderExists, the handler's id guard last. */
  function UpdateVerdict(orderId: string, data: JsValue, current: JsValue): Step
  {
    AndThen(UpdateChecks(data, current), MatchesRoute(orderId, data))
  }

  /** A body the field checks accept: the constraints every stored order is meant to meet. */
  predicate OrderPayload(data: JsValue)
  {
    && data.Obj?
    && TextPresent(Field(data, "deliverTo"))
    && TextPresent(Field(data, "mobileNumber"))
    && Field(data, "dishes").Arr? && Field(data, "dishes").items != []
    && forall i :: 0 <= i < |Field(data, "dishes").items| ==> PositiveQuantity(Field(data, "dishes").items[i])
  }

  /** The create chain lets a body through exactly when it is an order payload. */
  lemma CreateAcceptsIff(data: JsValue)
    ensures FieldChecks(data) == Continue <==> OrderPayload(data)
  {
    if !data.Null? && Field(data, "dishes").Arr? {
      QuantityAcceptsIff(data);
    }
  }

  /** The update chain, after orderExists, lets a body through exactly when it is an order
      payload with one of the four statuses, the current status is not `delivered`, and any
      truthy body id is the route id. In particular a delivered order never changes. */
  lemma UpdateAcceptsIff(orderId: string, data: JsValue, current: JsValue)
    ensures UpdateVerdict(orderId, data, current) == Continue <==>
      OrderPayload(data) && current != Str("delivered") && IsStatus(Field(data, "status"))
      && (!Truthy(Field(data, "id")) || Field(data, "id") == Str(orderId))
  {
    CreateAcceptsIff(data);
  }

  /** Any of the four statuses is accepted from an order that is not delivered. */
  lemma AnyStatusFromUndelivered(data: JsValue, current: JsValue, st: Status)
    requires !data.Null? && Field(data, "status") == Str(StatusText(st))
    requires current != Str("delivered")
    ensures HasStatus(data, current) == Continue
  {
    assert IsStatus(Field(data, "status"));
  }

  /** A delivered order rejects every update body, so the update route leaves it as it is. */
  lemma DeliveredIsTerminal(orderId: string, data: JsValue)
    ensures UpdateVerdict(orderId, data, Str("delivered")) != Continue
  {
    UpdateAcceptsIff(orderId, data, Str("delivered"));
  }

  /** The create chain never looks at `status`: a body whose status is not one of the four
      values is stored as it is. */
  lemma CreateIgnoresStatus(data: JsValue, status: JsValue)
    requires OrderPayload(data)
    ensures FieldChecks(Obj(data.props["status" := status])) == Continue
  {
    var other := Obj(data.props["status" := status]);
    assert Field(other, "deliverTo") == Field(data, "deliverTo");
    assert Field(other, "mobileNumber") == Field(data, "mobileNumber");
    assert Field(other, "dishes") == Field(data, "dishes");
    assert OrderPayload(other);
    CreateAcceptsIff(other);
  }

  // ---- the delete lookup as the source writes it ----

  /** `orders.findIndex((order) => order.id === order.id)` (orders.controller.js:176):
      the arrow's parameter shadows the resolved order, so each element is
      compared with itself. */
  function SelfMatchIndex(orders: seq<Order>): int
  {
    FindIndex(orders, (order: Order) => order.id == order.id)
  }

  /** The store `destroy` leaves, as the source is written. */
  function RemainingAsWritten(orders: seq<Order>, order: Order): seq<Order>
    reads order
  {
    if order.status != Str("pending") then orders else SpliceOne(orders, SelfMatchIndex(orders))
  }

  /** As written, deleting a pending order always removes the first entry of the store. */
  lemma DestroyAsWrittenRemovesFirstEntry(orders: seq<Order>, order: Order)
    requires order.status == Str("pending") && orders != []
    ensures SelfMatchIndex(orders) == 0
    ensures RemainingAsWritten(orders, order) == orders[1..]
  {
  }

  /** With two orders `a` and `b` in the store, deleting the pending `b` removes `a`
      and keeps `b`, where the intended removal keeps `a` and drops `b`. */
  lemma DestroyAsWrittenKeepsRequestedOrder(a: Order, b: Order)
    requires b.status == Str("pending") && a.id != b.id
    ensures RemainingAsWritten([a, b], b) == [b]
    ensures SpliceOne([a, b], FindIndex([a, b], (order: Order) => order.id == b.id)) == [a]
  {
    DestroyAsWrittenRemovesFirstEntry([a, b], b);
    assert [a, b][1..] == [b];
    assert [a, b][..1] + [a, b][2..] == [a];
  }

  // ---- the store and its handlers ----

  /** The module-level `orders` array and the handlers that read and change it. */
  class OrdersController {
    var orders: seq<Order>

    /** No record is stored twice: each entry is its own object. */
    ghost predicate Valid()
      reads this
    {
      forall i, j :: 0 <= i < j < |orders| ==> orders[i] != orders[j]
    }

    /** The store starts as the seed data, whatever it holds. */
    constructor (seed: seq<Order>)
      requires forall i, j :: 0 <= i < j < |seed| ==> seed[i] != seed[j]
      ensures Valid() && orders == seed
    {
      orders := seed;
    }

    /** list: the whole store, in insertion order. */
    method List() returns (r: Response<seq<Order>>)
      ensures r == Ok(200, orders)
    {
      r := Ok(200, orders);
    }

    /** create: a record with a fresh id and the body's four fields, pushed onto the store. */
    method Create(data: JsValue, newId: string) returns (r: Response<Order>)
      requires Valid()
      modifies this
      ensures Valid()
      ensures data.Null? ==> r == Err(Thrown) && orders == old(orders)
      ensures !data.Null? ==>
        r.Ok? && r.status == 201 && fresh(r.data)
        && orders == old(orders) + [r.data] && r.data.View() == Created(newId, data)
    {
      if data.Null? {
        return Err(Thrown);
      }
      var order := new Order(newId, Field(data, "deliverTo"), Field(data, "mobileNumber"),
                             Field(data, "status"), Field(data, "dishes"));
      orders := orders + [order];
      r := Ok(201, order);
    }

    /** update: the id guard, then the four mutable fields overwritten on the resolved record. */
    method Update(orderId: string, data: JsValue, order: Order) returns (r: Response<Order>)
      modifies order
      ensures MatchesRoute(orderId, data) != Continue ==>
        r == Err(MatchesRoute(orderId, data).failure) && unchanged(order)
      ensures MatchesRoute(orderId, data) == Continue ==>
        r == Ok(200, order) && order.View() == Overwritten(old(order.View()), data)
    {
      var guard := MatchesRoute(orderId, data);
      if guard != Continue {
        return Err(guard.failure);
      }
      order.deliverTo := Field(data, "deliverTo");
      order.mobileNumber := Field(data, "mobileNumber");
      order.dishes := Field(data, "dishes");
      order.status := Field(data, "status");
      r := Ok(200, order);
    }

    /** destroy, with the lookup the source intends: only a pending order is removed,
        and it is removed from its own position. */
    method Destroy(order: Order) returns (r: Response<Order>)
      requires Valid() && order in orders
      modifies this
      ensures Valid()
      ensures order.status != Str("pending") ==>
        r == Err(Forwarded(400, NotPendingMessage)) && orders == old(orders)
      ensures order.status == Str("pending") ==>
        var k := OrderExists(old(orders), order.id).index;
        r == NoContent && orders == old(orders)[..k] + old(orders)[k + 1..]
    {
      if order.status != Str("pending") {
        return Err(Forwarded(400, NotPendingMessage));
      }
      var index := FindIndex(orders, (o: Order) => o.id == order.id);
      ghost var before := orders;
      orders := SpliceOne(orders, index);
      forall i, j | 0 <= i < j < |orders| ensures orders[i] != orders[j] {
        var i', j' := if i < index then i else i + 1, if j < index then j else j + 1;
        assert orders[i] == before[i'] && orders[j] == before[j'];
      }
      r := NoContent;
    }

    // ---- the exported routes ----

    /** The field validators that both the create and the update chain run, one after
        the other, stopping at the first that does not continue. */
    method CheckFields(data: JsValue) returns (s: Step)
      ensures s == FieldChecks(data)
    {
      s := HasDeliverTo(data);
      if s != Continue { return; }
      s := HasMobileNumber(data);
      if s != Continue { return; }
      s := HasDishes(data);
      if s != Continue { return; }
      s := HasDishQuantity(data);
    }

    /** POST /orders: hasDeliverTo, hasMobileNumber, hasDishes, hasDishQuantity, then create. */
    method CreateRequest(data: JsValue, newId: string) returns (r: Response<Order>)
      requires Valid()
      modifies this
      ensures Valid()
      ensures FieldChecks(data) != Continue ==>
        r == Err(FieldChecks(data).failure) && orders == old(orders)
      ensures FieldChecks(data) == Continue ==>
        r.Ok? && r.status == 201 && fresh(r.data)
        && orders == old(orders) + [r.data] && r.data.View() == Created(newId, data)
    {
      var s := CheckFields(data);
      if s != Continue { return Err(s.failure); }
      r := Create(data, newId);
    }

    /** GET /orders/:orderId: orderExists, then read. */
    method ReadRequest(orderId: string) returns (r: Response<Order>)
      ensures OrderExists(orders, orderId).NotFound? ==> r == Err(Forwarded(404, NotFoundMessage(orderId)))
      ensures OrderExists(orders, orderId).Found? ==> r == Ok(200, orders[OrderExists(orders, orderId).index])
    {
      var found := OrderExists(orders, orderId);
      if found.NotFound? {
        return Err(found.failure);
      }
      r := Ok(200, orders[found.index]);
    }

    /** PUT /orders/:orderId once orderExists has resolved `order`: hasDeliverTo, hasMobileNumber,
        hasDishes, hasDishQuantity, hasStatus, then update. */
    method UpdateResolved(orderId: string, data: JsValue, order: Order) returns (r: Response<Order>)
      modifies order
      ensures UpdateVerdict(orderId, data, old(order.status)) != Continue ==>
        r == Err(UpdateVerdict(orderId, data, old(order.status)).failure) && unchanged(order)
      ensures UpdateVerdict(orderId, data, old(order.status)) == Continue ==>
        r == Ok(200, order) && order.View() == Overwritten(old(order.View()), data)
    {
      var s := CheckFields(data);
      if s != Continue { return Err(s.failure); }
      s := HasStatus(data, order.status);
      if s != Continue { return Err(s.failure); }
      r := Update(orderId, data, order);
    }

    /** The rest of the update chain on the order at position `k`, the one orderExists
        resolved: only that record can change. */
    method UpdateAt(k: nat, orderId: string, data: JsValue) returns (r: Response<Order>)
      requires Valid() && k < |orders|
      modifies orders
      ensures orders == old(orders)
      ensures var verdict := UpdateVerdict(orderId, data, old(orders[k].status));
        if verdict == Continue then
          r == Ok(200, orders[k]) && Views(orders) == old(Views(orders))[k := Overwritten(old(orders[k].View()), data)]
        else
          r == Err(verdict.failure) && Views(orders) == old(Views(orders))
    {
      var order := orders[k];
      ghost var before := Views(orders);
      r := UpdateResolved(orderId, data, order);
      forall i | 0 <= i < |orders| && i != k ensures Views(orders)[i] == before[i] {
        assert orders[i] != order;
      }
      SameExceptAt(before, Views(orders), k);
    }

    /** PUT /orders/:orderId: orderExists, then the rest of the chain on the order it resolves.
        Only that record can change. */
    method UpdateRequest(orderId: string, data: JsValue) returns (r: Response<Order>)
      requires Valid()
      modifies orders
      ensures orders == old(orders) && Valid()
      ensures OrderExists(orders, orderId).NotFound? ==>
        r == Err(Forwarded(404, NotFoundMessage(orderId))) && Views(orders) == old(Views(orders))
      ensures OrderExists(orders, orderId).Found? ==>
        var k := OrderExists(orders, orderId).index;
        var verdict := UpdateVerdict(orderId, data, old(orders[k].status));
        if verdict == Continue then
          r == Ok(200, orders[k]) && Views(orders) == old(Views(orders))[k := Overwritten(old(orders[k].View()), data)]
        else
          r == Err(verdict.failure) && Views(orders) == old(Views(orders))
    {
      var found := OrderExists(orders, orderId);
      if found.NotFound? {
        return Err(found.failure);
      }
      r := UpdateAt(found.index, orderId, data);
    }

    /** DELETE /orders/:orderId: orderExists, then destroy. */
    method DeleteRequest(orderId: string) returns (r: Response<Order>)
      requires Valid()
      modifies this
      ensures Valid()
      ensures OrderExists(old(orders), orderId).NotFound? ==>
        r == Err(Forwarded(404, NotFoundMessage(orderId))) && orders == old(orders)
      ensures OrderExists(old(orders), orderId).Found? ==>
        var k := OrderExists(old(orders), orderId).index;
        if old(orders)[k].status == Str("pending") then
          r == NoContent && orders == old(orders)[..k] + old(orders)[k + 1..]
        else
          r == Err(Forwarded(400, NotPendingMessage)) && orders == old(orders)
    {
      var found := OrderExists(orders, orderId);
      if found.NotFound? {
        return Err(found.failure);
      }
      r := Destroy(orders[found.index]);
    }
  }
}
