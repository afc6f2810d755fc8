/** The in-memory store of practice-05-swagger/app.js. POST refuses a body
    without name, category or price (`price === undefined`, so 0 is accepted);
    PATCH refuses a body that supplies no field ("Nothing to update"). */
module SwaggerApi {
  import opened Wrappers
  import opened Text
  import opened Catalog

  /** The POST guard `!name || !category || price === undefined`. */
  predicate CreateRejected(b: Body) {
    b.name.None? || b.name.value == "" || b.category.None? || b.category.value == "" || b.price.None?
  }

  /** The ten records the module starts with; their ids come from `nanoid(6)`. */
  function Seed(ids: seq<string>): (cars: seq<Car>)
    requires |ids| == 10
    ensures |cars| == 10
    ensures forall i :: 0 <= i < 10 ==> cars[i].id == ids[i] && WellFormed(cars[i])
    ensures Seqs.DistinctBy(ids, (x: string) => x) ==> DistinctIds(cars)
  {
    [ Car(ids[0], "Toyota Camry", "Седан", "Надёжный семейный седан", 2500000, 5),
      Car(ids[1], "BMW X5", "Внедорожник", "Мощный премиальный внедорожник", 6800000, 3),
      Car(ids[2], "Tesla Model 3", "Электромобиль", "Электрический седан с автопилотом", 4200000, 7),
      Car(ids[3], "Ford Mustang", "Спорткар", "Легендарный американский маслкар", 3900000, 2),
      Car(ids[4], "Volkswagen Golf", "Хэтчбек", "Популярный городской хэтчбек", 1800000, 10),
      Car(ids[5], "Mercedes GLE", "Внедорожник", "Люксовый полноразмерный SUV", 7500000, 4),
      Car(ids[6], "Audi A4", "Седан", "Спортивный бизнес-седан с quattro", 3200000, 6),
      Car(ids[7], "Hyundai Tucson", "Кроссовер", "Стильный кроссовер", 2100000, 8),
      Car(ids[8], "Porsche 911", "Спорткар", "Культовый спортивный автомобиль", 12000000, 1),
      Car(ids[9], "Lada Vesta", "Седан", "Доступный российский седан", 900000, 15) ]
  }

  class Store {
    /** The module-level `cars` array, in insertion order. */
    var cars: seq<Car>

    constructor (ids: seq<string>)
      requires |ids| == 10
      ensures cars == Seed(ids)
    {
      cars := Seed(ids);
    }

    /** GET /api/cars. */
    method List() returns (r: seq<Car>)
      ensures r == cars
    {
      r := cars;
    }

    /** GET /api/cars/:id: the first record with the id, or 404. */
    method Get(id: string) returns (r: Reply)
      ensures r.Ok? || r == NotFound
      ensures r.Ok? <==> HasId(cars, id)
      ensures r.Ok? ==> r.car == cars[Find(cars, id).value] && r.car.id == id
    {
      var found := Find(cars, id);
      if found.None? {
        return NotFound;
      }
      r := Ok(cars[found.value]);
    }

    /** POST /api/cars with a fresh id standing for `nanoid(6)`. */
    method Create(body: Body, freshId: string) returns (r: Reply)
      modifies this
      ensures CreateRejected(body) ==> r == BadRequest(MissingFields) && cars == old(cars)
      ensures !CreateRejected(body) ==> r == Created(NewCar(freshId, body)) && cars == old(cars) + [r.car]
      ensures DistinctIds(old(cars)) && !HasId(old(cars), freshId) ==> DistinctIds(cars)
    {
      if body.name.None? || body.name.value == "" || body.category.None? || body.category.value == "" || body.price.None? {
        return BadRequest(MissingFields);
      }
      var car := Car(
        id := freshId,
        name := Trim(body.name.value),
        category := Trim(body.category.value),
        description := if body.description.Some? then Trim(body.description.value) else "",
        price := body.price.value,
        stock := if body.stock.Some? then body.stock.value else 0);
      if DistinctIds(cars) && !HasId(cars, freshId) { DistinctAfterCreate(cars, car); }
      cars := cars + [car];
      r := Created(car);
    }

    /** PATCH /api/cars/:id: 404 first, then 400 for an empty body, then the
        field assignments in the order the handler makes them. */
    method Patch(id: string, body: Body) returns (r: Reply)
      modifies this
      ensures !HasId(old(cars), id) ==> r == NotFound && cars == old(cars)
      ensures HasId(old(cars), id) && NothingSupplied(body) ==>
        r == BadRequest(NothingToUpdate) && cars == old(cars)
      ensures HasId(old(cars), id) && !NothingSupplied(body) ==>
        var i := Find(old(cars), id).value;
        cars == old(cars)[i := Patched(old(cars)[i], body)] && r == Ok(cars[i])
      ensures |cars| == |old(cars)|
      ensures DistinctIds(old(cars)) ==> DistinctIds(cars)
    {
      var found := Find(cars, id);
      if found.None? {
        return NotFound;
      }
      var i := found.value;
      if body.name.None? && body.category.None? && body.price.None? && body.stock.None? && body.description.None? {
        return BadRequest(NothingToUpdate);
      }
      var car := cars[i];
      if body.name.Some? { car := car.(name := Trim(body.name.value)); }
      if body.category.Some? { car := car.(category := Trim(body.category.value)); }
      if body.description.Some? { car := car.(description := Trim(body.description.value)); }
      if body.price.Some? { car := car.(price := body.price.value); }
      if body.stock.Some? { car := car.(stock := body.stock.value); }
      assert car == Patched(cars[i], body);
      if DistinctIds(cars) { DistinctAfterPatch(cars, i, body); }
      cars := cars[i := car];
      r := Ok(car);
    }

    /** DELETE /api/cars/:id: 404 when no record has the id, otherwise every
        record with it is dropped and 204 is sent. */
    method Delete(id: string) returns (r: Reply)
      modifies this
      ensures !HasId(old(cars), id) ==> r == NotFound && cars == old(cars)
      ensures HasId(old(cars), id) ==> r == NoContent && cars == WithoutId(old(cars), id)
      ensures DistinctIds(old(cars)) ==> DistinctIds(cars)
    {
      if !HasId(cars, id) {
        return NotFound;
      }
      if DistinctIds(cars) { DistinctAfterDelete(cars, id); }
      cars := WithoutId(cars, id);
      r := NoContent;
    }
  }

  // ----- What the handlers accept -----

  /** A price of 0 passes the POST guard, as long as name and category are non-empty. */
  lemma ZeroPriceAccepted(name: string, category: string)
    requires name != "" && category != ""
    ensures !CreateRejected(Body(Some(name), Some(category), None, Some(0), None))
  {
  }

  /** The guard looks at the untrimmed name: a blank name passes and is stored
      empty, so the records do not keep the non-empty-name invariant. */
  lemma BlankNameStoredEmpty(id: string)
    ensures var b := Body(Some(" "), Some("Седан"), None, Some(1), None);
      !CreateRejected(b) && NewCar(id, b).name == "" && !WellFormed(NewCar(id, b))
  {
    assert AllSpace(" ");
  }

  /** Nothing checks the sign of the price: a negative one is stored. */
  lemma NegativePriceStored(id: string)
    ensures var b := Body(Some("Lada"), Some("Седан"), None, Some(-1), None);
      !CreateRejected(b) && NewCar(id, b).price == -1 && !WellFormed(NewCar(id, b))
  {
  }
}
