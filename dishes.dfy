/**
 The dishes controller: the field validators and existence guard in front of
 the dish handlers, the handlers that change the in-memory store, and the
 exported routes that put them together.
 */
module Dishes {
  import opened Js
  import opened Middleware

  const NameMessage := "Dish must include a name"
  const DescriptionMessage := "Dish must include a description"
  const MissingPriceMessage := "Dish must include a price"
  const BadPriceMessage := "Dish must have a price that is an integer greater than 0"
  const ImageMessage := "Dish must include a image_url"

  function NotFoundMessage(dishId: string): string
  {
    "Dish does not exist: " + dishId
  }

  function MismatchMessage(id: JsValue, dishId: string): string
  {
    "Dish id does not match route id. Dish: " + Show(id) + ", Route: " + dishId
  }

  // ---- the records and their abstract view ----

  /** A dish of the store. `update` overwrites its fields in place; its id never changes. */
  class Dish {
    const id: string
    var name: JsValue
    var description: JsValue
    var price: JsValue
    var imageUrl: JsValue

    constructor (id: string, name: JsValue, description: JsValue, price: JsValue, imageUrl: JsValue)
      ensures View() == DishView(id, name, description, price, imageUrl)
    {
      this.id := id;
      this.name := name;
      this.description := description;
      this.price := price;
      this.imageUrl := imageUrl;
    }

    ghost function View(): DishView
      reads this
    {
      DishView(id, name, description, price, imageUrl)
    }
  }

  datatype DishView = DishView(id: string, name: JsValue, description: JsValue, price: JsValue, imageUrl: JsValue)

  /** The contents of a store, record by record. */
  ghost function Views(s: seq<Dish>): (r: seq<DishView>)
    reads s
    ensures |r| == |s| && forall i :: 0 <= i < |s| ==> r[i] == s[i].View()
  {
    if s == [] then [] else [s[0].View()] + Views(s[1..])
  }

  /** The record `create` builds from the body's fields. */
  function Created(id: string, data: JsValue): DishView
  {
    DishView(id, Field(data, "name"), Field(data, "description"), Field(data, "price"), Field(data, "image_url"))
  }

  /** The record `update` leaves: the four mutable fields from the body, the id kept. */
  function Overwritten(before: DishView, data: JsValue): DishView
  {
    DishView(before.id, Field(data, "name"), Field(data, "description"), Field(data, "price"), Field(data, "image_url"))
  }

  // ---- validators ----

  function HasName(data: JsValue): (r: Step)
    ensures r == Continue <==> !data.Null? && TextPresent(Field(data, "name"))
    ensures r == Stop(Forwarded(400, NameMessage)) <==> !data.Null? && TextMissing(Field(data, "name"))
    ensures r == Stop(Thrown) <==> data.Null? || (Truthy(Field(data, "name")) && !Field(data, "name").Str?)
  {
    TextField(data, "name", NameMessage)
  }

  function HasDescription(data: JsValue): (r: Step)
    ensures r == Continue <==> !data.Null? && TextPresent(Field(data, "description"))
    ensures r == Stop(Forwarded(400, DescriptionMessage)) <==> !data.Null? && TextMissing(Field(data, "description"))
    ensures r == Stop(Thrown) <==> data.Null? || (Truthy(Field(data, "description")) && !Field(data, "description").Str?)
  {
    TextField(data, "description", DescriptionMessage)
  }

  function HasImage(data: JsValue): (r: Step)
    ensures r == Continue <==> !data.Null? && TextPresent(Field(data, "image_url"))
    ensures r == Stop(Forwarded(400, ImageMessage)) <==> !data.Null? && TextMissing(Field(data, "image_url"))
    ensures r == Stop(Thrown) <==> data.Null? || (Truthy(Field(data, "image_url")) && !Field(data, "image_url").Str?)
  {
    TextField(data, "image_url", ImageMessage)
  }

  /** A number whose value is a positive integer. */
  predicate PositiveInteger(v: JsValue)
  {
    v.Num? && v.n > 0
  }

  /** hasPrice. A falsy price (0 among them) is "missing"; any other price that is
      not a positive integer gets the second message. */
  function HasPrice(data: JsValue): (r: Step)
    ensures r == Continue <==> !data.Null? && PositiveInteger(Field(data, "price"))
    ensures r == Stop(Forwarded(400, MissingPriceMessage)) <==> !data.Null? && !Truthy(Field(data, "price"))
    ensures r == Stop(Forwarded(400, BadPriceMessage)) <==>
      !data.Null? && Truthy(Field(data, "price")) && !PositiveInteger(Field(data, "price"))
    ensures r == Stop(Thrown) <==> data.Null?
  {
    match FieldOf(data, "price")
    case None => Stop(Thrown)
    case Some(price) =>
      if !Truthy(price) then Stop(Forwarded(400, MissingPriceMessage))
      // `isNaN(price) || price <= 0 || !Number.isInteger(price)`: Number.isInteger holds
      // only of integral numbers, and for those isNaN is false
      else if !price.Num? || price.n <= 0 then Stop(Forwarded(400, BadPriceMessage))
      else Continue
  }

  /** Prices that are not positive integers. 0 and null are falsy, so they get the
      "must include a price" message, not the integer message; an infinite number is
      not an integer. */
  lemma InvalidPriceMessages()
    ensures HasPrice(Obj(map["price" := Num(0)])) == Stop(Forwarded(400, MissingPriceMessage))
    ensures HasPrice(Obj(map["price" := Null])) == Stop(Forwarded(400, MissingPriceMessage))
    ensures HasPrice(Obj(map["price" := Num(-1)])) == Stop(Forwarded(400, BadPriceMessage))
    ensures HasPrice(Obj(map["price" := Frac("1.5")])) == Stop(Forwarded(400, BadPriceMessage))
    ensures HasPrice(Obj(map["price" := Str("abc")])) == Stop(Forwarded(400, BadPriceMessage))
    ensures HasPrice(Obj(map["price" := Frac("Infinity")])) == Stop(Forwarded(400, BadPriceMessage))
    ensures HasPrice(Obj(map["price" := Num(3)])) == Continue
  {
  }

  /** The guard at the top of `update`: a truthy body id must equal the resolved dish's id. */
  function MatchesDish(dishId: string, data: JsValue): (r: Step)
    ensures r == Continue <==> !data.Null? && (!Truthy(Field(data, "id")) || Field(data, "id") == Str(dishId))
    ensures r == Stop(Thrown) <==> data.Null?
    ensures r != Continue && r != Stop(Thrown) ==>
      r == Stop(Forwarded(400, MismatchMessage(Field(data, "id"), dishId)))
  {
    match FieldOf(data, "id")
    case None => Stop(Thrown)
    case Some(id) =>
      if Truthy(id) && id != Str(dishId) then Stop(Forwarded(400, MismatchMessage(id, dishId)))
      else Continue
  }

  /** dishExists: the first dish with the route id, or a 404 naming it. */
  function DishExists(dishes: seq<Dish>, dishId: string): (r: Lookup)
    ensures r.Found? ==> r.index < |dishes| && dishes[r.index].id == dishId
    ensures r.Found? ==> forall j :: 0 <= j < r.index ==> dishes[j].id != dishId
    ensures r.NotFound? <==> forall j :: 0 <= j < |dishes| ==> dishes[j].id != dishId
    ensures r.NotFound? ==> r.failure == Forwarded(404, NotFoundMessage(dishId))
  {
    var index := FindIndex(dishes, (d: Dish) => d.id == dishId);
    if index >= 0 then Found(index) else NotFound(Forwarded(404, NotFoundMessage(dishId)))
  }

  // ---- the validation chains of create and update ----

  /** The field checks of both chains, in order: hasName, hasDescription, hasPrice, hasImage. */
  function FieldChecks(data: JsValue): Step
  {
    AndThen(HasName(data), AndThen(HasDescription(data), AndThen(HasPrice(data), HasImage(data))))
  }

  /** The update chain after dishExists, the handler's id guard last. */
  function UpdateVerdict(dishId: string, data: JsValue): Step
  {
    AndThen(FieldChecks(data), MatchesDish(dishId, data))
  }

  /** A body the field checks accept: the constraints every stored dish is meant to meet. */
  predicate DishPayload(data: JsValue)
  {
    && data.Obj?
    && TextPresent(Field(data, "name"))
    && TextPresent(Field(data, "description"))
    && PositiveInteger(Field(data, "price"))
    && TextPresent(Field(data, "image_url"))
  }

  /** The create chain lets a body through exactly when it is a dish payload. */
  lemma CreateAcceptsIff(data: JsValue)
    ensures FieldChecks(data) == Continue <==> DishPayload(data)
  {
  }

  /** The first failing validator decides the answer, whatever the later fields hold. */
  lemma FirstFailureWins(data: JsValue)
    ensures HasName(data) != Continue ==> FieldChecks(data) == HasName(data)
    ensures HasName(data) == Continue && HasDescription(data) != Continue ==> FieldChecks(data) == HasDescription(data)
    ensures HasName(data) == Continue && HasDescription(data) == Continue && HasPrice(data) != Continue ==>
      FieldChecks(data) == HasPrice(data)
    ensures HasName(data) == Continue && HasDescription(data) == Continue && HasPrice(data) == Continue ==>
      FieldChecks(data) == HasImage(data)
  {
  }

  // ---- the store and its handlers ----

  /** The module-level `dishes` array and the handlers that read and change it. */
  class DishesController {
    var dishes: seq<Dish>

    /** No record is stored twice: each entry is its own object. */
    ghost predicate Valid()
      reads this
    {
      forall i, j :: 0 <= i < j < |dishes| ==> dishes[i] != dishes[j]
    }

    /** The store starts as the seed data, whatever it holds. */
    constructor (seed: seq<Dish>)
      requires forall i, j :: 0 <= i < j < |seed| ==> seed[i] != seed[j]
      ensures Valid() && dishes == seed
    {
      dishes := seed;
    }

    /** list: the whole store, in insertion order. */
    method List() returns (r: Response<seq<Dish>>)
      ensures r == Ok(200, dishes)
    {
      r := Ok(200, dishes);
    }

    /** create: a record with a fresh id and the body's four fields, pushed onto the store. */
    method Create(data: JsValue, newId: string) returns (r: Response<Dish>)
      requires Valid()
      modifies this
      ensures Valid()
      ensures data.Null? ==> r == Err(Thrown) && dishes == old(dishes)
      ensures !data.Null? ==>
        r.Ok? && r.status == 201 && fresh(r.data)
        && dishes == old(dishes) + [r.data] && r.data.View() == Created(newId, data)
    {
      if data.Null? {
        return Err(Thrown);
      }
      var dish := new Dish(newId, Field(data, "name"), Field(data, "description"),
                           Field(data, "price"), Field(data, "image_url"));
      dishes := dishes + [dish];
      r := Ok(201, dish);
    }

    /** update: the id guard against the resolved dish, then its four mutable fields overwritten. */
    method Update(data: JsValue, dish: Dish) returns (r: Response<Dish>)
      modifies dish
      ensures MatchesDish(dish.id, data) != Continue ==>
        r == Err(MatchesDish(dish.id, data).failure) && unchanged(dish)
      ensures MatchesDish(dish.id, data) == Continue ==>
        r == Ok(200, dish) && dish.View() == Overwritten(old(dish.View()), data)
    {
      var guard := MatchesDish(dish.id, data);
      if guard != Continue {
        return Err(guard.failure);
      }
      dish.name := Field(data, "name");
      dish.description := Field(data, "description");
      dish.price := Field(data, "price");
      dish.imageUrl := Field(data, "image_url");
      r := Ok(200, dish);
    }

    // ---- the exported routes ----

    /** The field validators both chains run, one after the other, stopping at the first
        that does not continue. */
    method CheckFields(data: JsValue) returns (s: Step)
      ensures s == FieldChecks(data)
    {
      s := HasName(data);
      if s != Continue { return; }
      s := HasDescription(data);
      if s != Continue { return; }
      s := HasPrice(data);
      if s != Continue { return; }
      s := HasImage(data);
    }

    /** POST /dishes: hasName, hasDescription, hasPrice, hasImage, then create. */
    method CreateRequest(data: JsValue, newId: string) returns (r: Response<Dish>)
      requires Valid()
      modifies this
      ensures Valid()
      ensures FieldChecks(data) != Continue ==>
        r == Err(FieldChecks(data).failure) && dishes == old(dishes)
      ensures FieldChecks(data) == Continue ==>
        r.Ok? && r.status == 201 && fresh(r.data)
        && dishes == old(dishes) + [r.data] && r.data.View() == Created(newId, data)
    {
      var s := CheckFields(data);
      if s != Continue { return Err(s.failure); }
      r := Create(data, newId);
    }

    /** GET /dishes/:dishId: dishExists, then read. */
    method ReadRequest(dishId: string) returns (r: Response<Dish>)
      ensures DishExists(dishes, dishId).NotFound? ==> r == Err(Forwarded(404, NotFoundMessage(dishId)))
      ensures DishExists(dishes, dishId).Found? ==> r == Ok(200, dishes[DishExists(dishes, dishId).index])
    {
      var found := DishExists(dishes, dishId);
      if found.NotFound? {
        return Err(found.failure);
      }
      r := Ok(200, dishes[found.index]);
    }

    /** PUT /dishes/:dishId once dishExists has resolved `dish`: hasName, hasDescription,
        hasPrice, hasImage, then update. */
    method UpdateResolved(data: JsValue, dish: Dish) returns (r: Response<Dish>)
      modifies dish
      ensures UpdateVerdict(dish.id, data) != Continue ==>
        r == Err(UpdateVerdict(dish.id, data).failure) && unchanged(dish)
      ensures UpdateVerdict(dish.id, data) == Continue ==>
        r == Ok(200, dish) && dish.View() == Overwritten(old(dish.View()), data)
    {
      var s := CheckFields(data);
      if s != Continue { return Err(s.failure); }
      r := Update(data, dish);
    }

    /** The rest of the update chain on the dish at position `k`, the one dishExists
        resolved: only that record can change. */
    method UpdateAt(k: nat, data: JsValue) returns (r: Response<Dish>)
      requires Valid() && k < |dishes|
      modifies dishes
      ensures dishes == old(dishes)
      ensures var verdict := UpdateVerdict(dishes[k].id, data);
        if verdict == Continue then
          r == Ok(200, dishes[k]) && Views(dishes) == old(Views(dishes))[k := Overwritten(old(dishes[k].View()), data)]
        else
          r == Err(verdict.failure) && Views(dishes) == old(Views(dishes))
    {
      var dish := dishes[k];
      ghost var before := Views(dishes);
      r := UpdateResolved(data, dish);
      forall i | 0 <= i < |dishes| && i != k ensures Views(dishes)[i] == before[i] {
        assert dishes[i] != dish;
      }
      SameExceptAt(before, Views(dishes), k);
    }

    /** PUT /dishes/:dishId: dishExists, then the rest of the chain on the dish it resolves.
        Only that record can change. */
    method UpdateRequest(dishId: string, data: JsValue) returns (r: Response<Dish>)
      requires Valid()
      modifies dishes
      ensures dishes == old(dishes) && Valid()
      ensures DishExists(dishes, dishId).NotFound? ==>
        r == Err(Forwarded(404, NotFoundMessage(dishId))) && Views(dishes) == old(Views(dishes))
      ensures DishExists(dishes, dishId).Found? ==>
        var k := DishExists(dishes, dishId).index;
        var verdict := UpdateVerdict(dishId, data);
        if verdict == Continue then
          r == Ok(200, dishes[k]) && Views(dishes) == old(Views(dishes))[k := Overwritten(old(dishes[k].View()), data)]
        else
          r == Err(verdict.failure) && Views(dishes) == old(Views(dishes))
    {
      var found := DishExists(dishes, dishId);
      if found.NotFound? {
        return Err(found.failure);
      }
      r := UpdateAt(found.index, data);
    }
  }
}
