# GrubDash controllers in Dafny

This project models the two resource controllers of the GrubDash restaurant-ordering API, the orders
controller and the dishes controller. Each controller keeps an in-memory store of records and puts a
fail-fast chain of Express middleware in front of its handlers.

- `js.dfy` (module `Js`) holds the JavaScript values a JSON request body can carry, plus the pieces
  of JavaScript the controllers rely on:
  - truthiness;
  - property access and `const { data: { x } = {} } = req.body` destructuring;
  - `String.prototype.trim`;
  - template-literal text;
  - `Array.prototype.findIndex` and `splice(start, 1)`.
- `middleware.dfy` (module `Middleware`) holds the signalling convention. A step either continues
  (`next()`) or stops the request. Stopping can mean forwarding `{ status, message }` to the error
  handler, answering directly with `res.status(..).json(..)`, or throwing a TypeError. It also holds
  the fail-fast composition of steps and the shared "missing or blank string" validator.
- `orders.dfy` (module `Orders`) holds:
  - the order validators and the `orderExists` guard;
  - the status state machine `hasStatus`, in which `delivered` is terminal;
  - an `OrdersController` class that owns the store (`orders: seq<Order>`);
  - the `create`, `read`, `update` and `destroy` handlers, and the exported routes as methods that
    run the chain and then the handler.
- `dishes.dfy` (module `Dishes`) does the same for dishes:
  - the string validators and the two-message price validator;
  - the `dishExists` guard;
  - a `DishesController` with `create`, `read` and `update`.

Records are classes, because `update` overwrites the fields of the stored record in place. The
stores are controller classes. A store method states its whole new state, through the records'
`View()`s. The validators are functions with if-and-only-if contracts. The per-index loop of
`hasDishQuantity` is a method, proved against the fail-fast fold of the per-index checks.

Three behaviours of the code look unintended. The model keeps each as the code has it:

- A price of `0` is falsy, so it gets "Dish must include a price". It does not get the
  integer-greater-than-0 message. `Dishes.InvalidPriceMessages` gives the message for several
  invalid prices.
- The order `create` chain does not validate `status`, so a new order can carry any status value,
  or none (`Orders.CreateIgnoresStatus`). Only an accepted update is sure to set one of the four
  values.
- "Invalid status" is answered directly (`Direct(400, "Invalid status")`) and not forwarded.
  The model keeps this distinction.

## Model

| member | source | states |
|---|---|---|
| Js.FieldOf | src/orders/orders.controller.js:10 | destructuring `data` throws exactly when `data` is null; otherwise it yields the field, or undefined when absent |
| Js.Prop | src/orders/orders.controller.js:53 | `dishes[i].quantity` throws exactly on null or undefined; on an object it yields the own property |
| Js.TrimEmptyIffBlank | src/orders/orders.controller.js:12 | `s.trim() === ""` holds exactly when every character of `s` is ECMAScript whitespace |
| Js.FindIndex | src/orders/orders.controller.js:176 | the result is -1 exactly when nothing matches, otherwise the first matching position |
| Js.SpliceOne | src/orders/orders.controller.js:177 | `splice(k, 1)` removes position `k` when in range, the last element for -1, and nothing past the end |
| Middleware.NonBlankText | src/orders/orders.controller.js:12-14 | continues exactly on a non-blank string, forwards 400 with the message exactly on a falsy or blank value, and throws exactly on a truthy non-string |
| Middleware.TextField | src/dishes/dishes.controller.js:9-17 | the same three-way verdict for a destructured field; a null `data` throws |
| Middleware.Chain | src/orders/orders.controller.js:52-70 | a fail-fast run continues exactly when every step continues; otherwise its answer is some step that stops, with every earlier step continuing |
| Middleware.ChainStopsAtFirst | src/orders/orders.controller.js:55-66 | the first stopping step is the answer of the whole run |
| Orders.QuantityMessageNamesIndex | src/orders/orders.controller.js:56-59 | different indexes give different quantity messages, so the message identifies the entry |
| Orders.HasDeliverTo | src/orders/orders.controller.js:9-17 | continues exactly when `deliverTo` is a non-blank string; fails 400 "Order must include a deliverTo" exactly when it is missing, falsy or blank; throws exactly on null `data` or a truthy non-string |
| Orders.HasMobileNumber | src/orders/orders.controller.js:20-28 | the same three outcomes for `mobileNumber`, with its own message |
| Orders.HasDishes | src/orders/orders.controller.js:31-46 | "must include a dish" exactly when `dishes` is falsy; "at least one dish" exactly when it is truthy but not a non-empty array; continues exactly on a non-empty array; throws exactly on null `data` |
| Orders.DishesToCheck | src/orders/orders.controller.js:50-53 | the loop throws exactly when `data` or `dishes` is null, and visits an array's own entries |
| Orders.QuantityAt | src/orders/orders.controller.js:53-67 | one loop turn continues exactly on a positive integer quantity, throws exactly on a null or undefined entry, and otherwise fails with the message naming `i` |
| Orders.HasDishQuantity | src/orders/orders.controller.js:49-71 | the loop with early return computes the fail-fast verdict over the entries |
| Orders.QuantityAcceptsIff | src/orders/orders.controller.js:52-70 | an array of dishes passes exactly when every entry has a positive integer quantity |
| Orders.QuantityRejectsFirstBadEntry | src/orders/orders.controller.js:55-67 | when entry `k` is the first without a positive integer quantity, the answer is the 400 naming `k` |
| Orders.QuantityErrorNamesFirstBadEntry | src/orders/orders.controller.js:56-66 | conversely, a quantity error naming `k` means entry `k` is bad and all earlier entries are good |
| Orders.HasStatus | src/orders/orders.controller.js:87-119 | the checks run in order: a missing status gives "must have a status"; then a current status of `delivered` gives "cannot be changed"; then a value outside the four gives a direct "Invalid status"; it continues exactly on an allowed value from a non-delivered order |
| Orders.AnyStatusFromUndelivered | src/orders/orders.controller.js:106-118 | any of the four statuses is accepted from an order that is not delivered |
| Orders.DeliveredIsTerminal | src/orders/orders.controller.js:99-104 | every update body is rejected once the order is delivered |
| Orders.MatchesRoute | src/orders/orders.controller.js:150-155 | continues exactly when the body `id` is falsy or equals the route id; otherwise 400 with the mismatch message naming both ids |
| Orders.OrderExists | src/orders/orders.controller.js:74-84 | resolves the first order with the route id; misses exactly when no order has it, with 404 "Order does not exist: {id}" |
| Orders.CreateAcceptsIff | src/orders/orders.controller.js:185 | the create chain continues exactly on an object body with non-blank `deliverTo` and `mobileNumber`, and a non-empty `dishes` array of positive integer quantities |
| Orders.CreateIgnoresStatus | src/orders/orders.controller.js:185 | the create chain accepts such a body whatever its `status` holds |
| Orders.UpdateAcceptsIff | src/orders/orders.controller.js:187-195 | after `orderExists`, the update chain continues exactly on such a body with one of the four statuses, a current status other than `delivered`, and a matching or falsy id |
| Orders.DestroyAsWrittenRemovesFirstEntry | src/orders/orders.controller.js:176-177 | as written, the self-comparing `findIndex` returns 0, so deleting a pending order removes the first store entry |
| Orders.DestroyAsWrittenKeepsRequestedOrder | src/orders/orders.controller.js:176-177 | with the store `[a, b]`, deleting the pending `b` as written leaves `[b]`, while the intended removal leaves `[a]` |
| Orders.Order.constructor | src/orders/orders.controller.js:125-131 | the new record has the given id and the four body fields |
| Orders.OrdersController.constructor | src/orders/orders.controller.js:2 | the store starts as the seed, on which no record appears twice |
| Orders.OrdersController.List | src/orders/orders.controller.js:6 | answers 200 with the whole store |
| Orders.OrdersController.Create | src/orders/orders.controller.js:122-135 | pushes exactly one fresh record built from the body and the new id, answering 201; earlier entries are unchanged; a null body throws and leaves the store as it was |
| Orders.OrdersController.Update | src/orders/orders.controller.js:144-163 | on an id mismatch it answers the 400 and leaves the record unchanged; otherwise it overwrites exactly `deliverTo`, `mobileNumber`, `dishes` and `status`, keeping the id |
| Orders.OrdersController.Destroy | src/orders/orders.controller.js:166-180 | a non-pending order gives 400 and leaves the store unchanged; a pending order gives 204 and the first position holding its id is removed, with no other change (corrected lookup) |
| Orders.OrdersController.CheckFields | src/orders/orders.controller.js:185 | the four field validators run in order, and the first that stops is the answer |
| Orders.OrdersController.CreateRequest | src/orders/orders.controller.js:183-185 | a failing chain answers its first failure and leaves the store unchanged; otherwise the store grows by exactly the new record |
| Orders.OrdersController.ReadRequest | src/orders/orders.controller.js:138-141 | 404 when `orderExists` misses; otherwise 200 with the resolved order |
| Orders.OrdersController.UpdateResolved | src/orders/orders.controller.js:189-194 | the field checks, `hasStatus` and the id guard decide; on failure the record is unchanged; on success its four fields are overwritten |
| Orders.OrdersController.UpdateAt | src/orders/orders.controller.js:189-194 | run on the order at a store position: only that record can change, and only when the chain continues; every other record keeps its view |
| Orders.OrdersController.UpdateRequest | src/orders/orders.controller.js:187-195 | `orderExists` runs first (404 on a miss); only the resolved record can change, and only when the whole chain continues; the store's other records are untouched |
| Orders.OrdersController.DeleteRequest | src/orders/orders.controller.js:196 | 404 on a miss; otherwise the resolved order, if pending, is removed from the first position holding its id (204), and any other order gives 400 with the store unchanged (corrected lookup) |
| Dishes.HasName | src/dishes/dishes.controller.js:9-17 | continues exactly when `name` is a non-blank string; fails 400 "Dish must include a name" exactly when it is missing, falsy or blank; throws exactly on null `data` or a truthy non-string |
| Dishes.HasDescription | src/dishes/dishes.controller.js:20-28 | the same three outcomes for `description`, with its own message |
| Dishes.HasPrice | src/dishes/dishes.controller.js:31-46 | "must include a price" exactly when the price is falsy (0 included); the integer message exactly when it is truthy but not a positive integer; continues exactly on a positive integer; throws exactly on null `data` |
| Dishes.InvalidPriceMessages | src/dishes/dishes.controller.js:34-43 | 0 and null get "must include a price"; -1, 1.5, "abc" and an infinite number get the integer message; 3 passes |
| Dishes.HasImage | src/dishes/dishes.controller.js:49-57 | the same three outcomes as `hasName` for `image_url`, with its own message |
| Dishes.MatchesDish | src/dishes/dishes.controller.js:99-104 | continues exactly when the body `id` is falsy or equals the resolved dish's id; otherwise 400 with the mismatch message |
| Dishes.DishExists | src/dishes/dishes.controller.js:60-70 | resolves the first dish with the route id; misses exactly when no dish has it, with 404 "Dish does not exist: {id}" |
| Dishes.CreateAcceptsIff | src/dishes/dishes.controller.js:117 | the chain continues exactly on an object body with non-blank `name`, `description` and `image_url` and a positive integer `price` |
| Dishes.FirstFailureWins | src/dishes/dishes.controller.js:117-119 | the first validator that stops decides the answer, whatever the later fields hold |
| Dishes.Dish.constructor | src/dishes/dishes.controller.js:76-82 | the new record has the given id and the four body fields |
| Dishes.DishesController.constructor | src/dishes/dishes.controller.js:2 | the store starts as the seed, on which no record appears twice |
| Dishes.DishesController.List | src/dishes/dishes.controller.js:6 | answers 200 with the whole store |
| Dishes.DishesController.Create | src/dishes/dishes.controller.js:73-86 | pushes exactly one fresh record built from the body and the new id, answering 201; earlier entries are unchanged; a null body throws and leaves the store as it was |
| Dishes.DishesController.Update | src/dishes/dishes.controller.js:95-112 | on an id mismatch it answers the 400 and leaves the record unchanged; otherwise it overwrites exactly the four mutable fields, keeping the id |
| Dishes.DishesController.CheckFields | src/dishes/dishes.controller.js:117 | the four validators run in order, and the first that stops is the answer |
| Dishes.DishesController.CreateRequest | src/dishes/dishes.controller.js:117 | a failing chain answers its first failure and leaves the store unchanged; otherwise the store grows by exactly the new record |
| Dishes.DishesController.ReadRequest | src/dishes/dishes.controller.js:89-92 | 404 when `dishExists` misses; otherwise 200 with the resolved dish |
| Dishes.DishesController.UpdateResolved | src/dishes/dishes.controller.js:119 | the validators and the id guard decide; on failure the dish is unchanged; on success its four fields are overwritten |
| Dishes.DishesController.UpdateAt | src/dishes/dishes.controller.js:119 | run on the dish at a store position: only that record can change, and only when the chain continues; every other record keeps its view |
| Dishes.DishesController.UpdateRequest | src/dishes/dishes.controller.js:119 | `dishExists` runs first (404 on a miss); only the resolved dish can change, and only when the whole chain continues; the other records are untouched |

## Left out

- src/utils/nextId.js is not part of this model. It draws random bytes. The new id is a parameter of
  `Create` and `CreateRequest`, and nothing assumes it is unique, since the code never checks the
  store for it.
- The routers and `app.js` are not part of this model: Express wiring, CORS, body parsing, and
  the `notFound`/`methodNotAllowed` handlers. A route is a method of the controller class.
- The error handler is not part of this model. A forwarded failure, a direct answer and a thrown
  TypeError are returned as values (`Forwarded`, `Direct`, `Thrown`), and the response body is not
  formatted. The 204 of a delete is `NoContent`; its ignored JSON body is not modelled.
- The seed data files are not part of this model. A store starts as any sequence in which no record
  appears twice.
- Numbers are not IEEE binary64 values. An integral number is `Num(n)` with unbounded `n`. Any
  other number is `Frac`, carrying only its text. This includes the `Infinity` and `-Infinity`
  that `JSON.parse` makes of an out-of-range literal such as `1e400`. NaN cannot come from a JSON
  body. Rounding is not modelled, and neither is the exponent notation that `${n}` uses for very
  large integers.
- A body value is a JSON value. An object with its own `length` property, and prototype
  properties (such as a `quantity` reached through an array's prototype), are not modelled.
  A quantity loop over a non-array visits a string's characters and nothing for other values.
- A store that holds the same record object twice is excluded by `Valid()`. The source cannot
  create such a store.
- Orders.OrdersController.Destroy: removes the first position holding the resolved order's id. The
  source, as written, removes the first entry of the store (see Findings). The as-written behaviour is modelled by
  `Orders.SelfMatchIndex` and `Orders.RemainingAsWritten`.
- Orders.OrdersController.DeleteRequest: runs the corrected `Destroy`. The route as written removes
  the store's first entry, not the resolved order (see Findings).

## Findings

| source | as written | input that shows it | evidently intended | confidence | as-written member | corrected member |
|---|---|---|---|---|---|---|
| src/orders/orders.controller.js:176 | `orders.findIndex((order) => order.id === order.id)`: the arrow's parameter shadows the resolved order, so every element matches and the index is always 0 | store `[a, b]` with `b.status == "pending"` and different ids; `DELETE /orders/b` removes `a` and keeps `b` | remove the resolved order: `findIndex((o) => o.id === order.id)` | high; not executed | Orders.DestroyAsWrittenKeepsRequestedOrder | Orders.OrdersController.Destroy |
