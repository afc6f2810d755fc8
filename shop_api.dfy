/** The in-memory store of practice-04-car-shop/server/app.js. POST refuses a
    body whose name, category or price is falsy (so a price of 0 is refused);
    PATCH has no empty-body check: a body that supplies nothing returns the
    record as it is. */
module ShopApi {
  import opened Wrappers
  import opened Text
  import opened Catalog

  /** The POST guard `!name || !category || !price`. */
  predicate CreateRejected(b: Body) {
    b.name.None? || b.name.value == "" || b.category.None? || b.category.value == ""
    || b.price.None? || b.price.value == 0
  }

  /** The ten records the server starts with; their ids come from the hex `nanoid`. */
  function Seed(ids: seq<string>): (cars: seq<Car>)
    requires |ids| == 10
    ensures |cars| == 10
    ensures forall i :: 0 <= i < 10 ==> cars[i].id == ids[i] && WellFormed(cars[i])
    ensures Seqs.DistinctBy(ids, (x: string) => x) ==> DistinctIds(cars)
  {
    [ Car(ids[0], "Toyota Camry", "Седан", "Надёжный и комфортный семейный седан", 2500000, 5),
      Car(ids[1], "BMW X5", "Внедорожник", "Мощный премиальный внедорожник", 6800000, 3),
      Car(ids[2], "Tesla Model 3", "Электромобиль", "Электрический седан с автопилотом", 4200000, 7),
      Car(ids[3], "Ford Mustang", "Спорткар", "Легендарный американский маслкар", 3900000, 2),
      Car(ids[4], "Volkswagen Golf", "Хэтчбек", "Популярный городской хэтчбек", 1800000, 10),
      Car(ids[5], "Mercedes GLE", "Внедорожник", "Люксовый полноразмерный SUV", 7500000, 4),
      Car(ids[6], "Audi A4", "Седан", "Спортивный бизнес-седан с quattro", 3200000, 6),
      Car(ids[7], "Hyundai Tucson", "Кроссовер", "Стильный кроссовер с богатой комплектацией", 2100000, 8),
      Car(ids[8], "Porsche 911", "Спорткар", "Культовый спортивный автомобиль", 12000000, 1),
      Car(ids[9], "Lada Vesta", "Седан", "Доступный российский седан", 900000, 15) ]
  }

  class Store {
    /** The module-level `cars` array, in insertion order. */
    var cars: seq<Car>

    constructor (ids: seq<string>)
      requires |ids| == 10
      ensures cars == Seed(ids)
    {
      cars := Seed(ids);
    }

    /** GET /api/cars. */
    method List() returns (r: seq<Car>)
      ensures r == cars
    {
      r := cars;
    }

    /** GET /api/cars/:id: the first record with the id, or 404. */
    method Get(id: string) returns (r: Reply)
      ensures r.Ok? || r == NotFound
      ensures r.Ok? <==> HasId(cars, id)
      ensures r.Ok? ==> r.car == cars[Find(cars, id).value] && r.car.id == id
    {
      var found := Find(cars, id);
      if found.None? {
        return NotFound;
      }
      r := Ok(cars[found.value]);
    }

    /** POST /api/cars with a fresh id standing for `nanoid(6)`. */
    method Create(body: Body, freshId: string) returns (r: Reply)
      modifies this
      ensures CreateRejected(body) ==> r == BadRequest(MissingFields) && cars == old(cars)
      ensures !CreateRejected(body) ==> r == Created(NewCar(freshId, body)) && cars == old(cars) + [r.car]
      ensures DistinctIds(old(cars)) && !HasId(old(cars), freshId) ==> DistinctIds(cars)
    {
      if body.name.None? || body.name.value == "" || body.category.None? || body.category.value == ""
        || body.price.None? || body.price.value == 0
      {
        return BadRequest(MissingFields);
      }
      var car := Car(
        id := freshId,
        name := Trim(body.name.value),
        category := Trim(body.category.value),
        description := if body.description.Some? then Trim(body.description.value) else "",
        price := body.price.value,
        stock := if body.stock.Some? then body.stock.value else 0);
      if DistinctIds(cars) && !HasId(cars, freshId) { DistinctAfterCreate(cars, car); }
      cars := cars + [car];
      r := Created(car);
    }

    /** PATCH /api/cars/:id: 404, or the field assignments in the order the
        handler makes them; an empty body changes nothing and still succeeds. */
    method Patch(id: string, body: Body) returns (r: Reply)
      modifies this
      ensures !HasId(old(cars), id) ==> r == NotFound && cars == old(cars)
      ensures HasId(old(cars), id) ==>
        var i := Find(old(cars), id).value;
        cars == old(cars)[i := Patched(old(cars)[i], body)] && r == Ok(cars[i])
      ensures HasId(old(cars), id) && NothingSupplied(body) ==>
        cars == old(cars) && r == Ok(old(cars)[Find(old(cars), id).value])
      ensures |cars| == |old(cars)|
      ensures DistinctIds(old(cars)) ==> DistinctIds(cars)
    {
      var found := Find(cars, id);
      if found.None? {
        return NotFound;
      }
      var i := found.value;
      var car := cars[i];
      if body.name.Some? { car := car.(name := Trim(body.name.value)); }
      if body.category.Some? { car := car.(category := Trim(body.category.value)); }
      if body.description.Some? { car := car.(description := Trim(body.description.value)); }
      if body.price.Some? { car := car.(price := body.price.value); }
      if body.stock.Some? { car := car.(stock := body.stock.value); }
      assert car == Patched(cars[i], body);
      if DistinctIds(cars) { DistinctAfterPatch(cars, i, body); }
      cars := cars[i := car];
      r := Ok(car);
    }

    /** DELETE /api/cars/:id: 404 when no record has the id, otherwise every
        record with it is dropped and 204 is sent. */
    method Delete(id: string) returns (r: Reply)
      modifies this
      ensures !HasId(old(cars), id) ==> r == NotFound && cars == old(cars)
      ensures HasId(old(cars), id) ==> r == NoContent && cars == WithoutId(old(cars), id)
      ensures DistinctIds(old(cars)) ==> DistinctIds(cars)
    {
      if !HasId(cars, id) {
        return NotFound;
      }
      if DistinctIds(cars) { DistinctAfterDelete(cars, id); }
      cars := WithoutId(cars, id);
      r := NoContent;
    }
  }
}
