/** The store of practice-02-car-api/app.js: records of id, name and price with
    no validation at all. Ids are numbers (`Date.now()` for new records) and are
    compared with the path parameter by loose equality, that is with
    `Number(param)`; a parameter that is not a number matches nothing. */
module CarApi {
  import opened Wrappers
  import opened Text
  import opened JsNumber
  import Seqs

  /** A record; `name` and `price` are whatever the body held, `undefined` included. */
  datatype Car = Car(id: int, name: Option<string>, price: Option<int>)

  datatype Body = Body(name: Option<string>, price: Option<int>)

  /** 200 with a record, 201 with the new record, the 404 text, or the 'Ok' text of DELETE. */
  datatype Reply = Ok(car: Car) | Created(car: Car) | NotFound | Deleted

  /** `c => c.id == param`, given `key == Number(param)`. */
  function Matches(key: Option<int>): Car -> bool {
    (c: Car) => key == Some(c.id)
  }

  /** `c => c.id != param`, given `key == Number(param)`. */
  function Differs(key: Option<int>): Car -> bool {
    (c: Car) => key != Some(c.id)
  }

  function CarId(c: Car): int {
    c.id
  }

  predicate DistinctIds(cars: seq<Car>) {
    Seqs.DistinctBy(cars, CarId)
  }

  /** The three starting records. */
  function Seed(): (cars: seq<Car>)
    ensures |cars| == 3 && DistinctIds(cars)
    ensures cars[0].id == 1 && cars[1].id == 2 && cars[2].id == 3
  {
    [ Car(1, Some("BMW M3"), Some(5500000)),
      Car(2, Some("Audi RS6"), Some(7200000)),
      Car(3, Some("Lada Vesta Sport"), Some(1400000)) ]
  }

  /** The PATCH assignments: a supplied name or price is copied as it is. */
  function Patched(c: Car, b: Body): (r: Car)
    ensures r.id == c.id
    ensures r.name == if b.name.Some? then b.name else c.name
    ensures r.price == if b.price.Some? then b.price else c.price
  {
    Car(c.id, if b.name.Some? then b.name else c.name, if b.price.Some? then b.price else c.price)
  }

  class Store {
    var cars: seq<Car>

    constructor ()
      ensures cars == Seed()
    {
      cars := Seed();
    }

    /** GET /cars. */
    method List() returns (r: seq<Car>)
      ensures r == cars
    {
      r := cars;
    }

    /** GET /cars/:id: the first matching record, or 404. */
    method Get(param: string) returns (r: Reply)
      ensures r.Ok? || r == NotFound
      ensures r == NotFound <==> forall i :: 0 <= i < |cars| ==> ToNumber(param) != Some(cars[i].id)
      ensures r.Ok? ==> var i := Seqs.FindFirst(cars, Matches(ToNumber(param))).value;
        r.car == cars[i] && ToNumber(param) == Some(r.car.id)
    {
      var found := Seqs.FindFirst(cars, Matches(ToNumber(param)));
      if found.None? {
        return NotFound;
      }
      r := Ok(cars[found.value]);
    }

    /** POST /cars: always appends `{id: now, name, price}`, copied unchecked. */
    method Create(body: Body, now: int) returns (r: Reply)
      modifies this
      ensures r == Created(Car(now, body.name, body.price))
      ensures cars == old(cars) + [r.car]
      ensures DistinctIds(old(cars)) && (forall i :: 0 <= i < |old(cars)| ==> old(cars)[i].id != now) ==>
        DistinctIds(cars)
    {
      var car := Car(now, body.name, body.price);
      if DistinctIds(cars) && forall i :: 0 <= i < |cars| ==> cars[i].id != now {
        Seqs.DistinctByAppend(cars, car, CarId);
      }
      cars := cars + [car];
      r := Created(car);
    }

    /** PATCH /cars/:id: 404, or overwrite the supplied name and price of the first match. */
    method Patch(param: string, body: Body) returns (r: Reply)
      modifies this
      ensures Seqs.FindFirst(old(cars), Matches(ToNumber(param))).None? ==> r == NotFound && cars == old(cars)
      ensures Seqs.FindFirst(old(cars), Matches(ToNumber(param))).Some? ==>
        var i := Seqs.FindFirst(old(cars), Matches(ToNumber(param))).value;
        cars == old(cars)[i := Patched(old(cars)[i], body)] && r == Ok(cars[i])
      ensures DistinctIds(old(cars)) ==> DistinctIds(cars)
    {
      var found := Seqs.FindFirst(cars, Matches(ToNumber(param)));
      if found.None? {
        return NotFound;
      }
      var i := found.value;
      var car := cars[i];
      if body.name.Some? { car := car.(name := body.name); }
      if body.price.Some? { car := car.(price := body.price); }
      assert car == Patched(cars[i], body);
      if DistinctIds(cars) { Seqs.DistinctByUpdate(cars, i, car, CarId); }
      cars := cars[i := car];
      r := Ok(car);
    }

    /** DELETE /cars/:id: drops every matching record and always answers 'Ok'. */
    method Delete(param: string) returns (r: Reply)
      modifies this
      ensures r == Deleted
      ensures cars == Seqs.Filter(old(cars), Differs(ToNumber(param)))
      ensures DistinctIds(old(cars)) ==> DistinctIds(cars)
    {
      if DistinctIds(cars) { Seqs.DistinctByFilter(cars, Differs(ToNumber(param)), CarId); }
      cars := Seqs.Filter(cars, Differs(ToNumber(param)));
      r := Deleted;
    }
  }

  // ----- Properties of the operations -----

  /** Delete removes every matching record and keeps every other one. */
  lemma DeleteRemovesMatches(cars: seq<Car>, key: Option<int>)
    ensures var r := Seqs.Filter(cars, Differs(key));
      (forall i :: 0 <= i < |r| ==> key != Some(r[i].id) && r[i] in cars)
      && (forall i :: 0 <= i < |cars| && key != Some(cars[i].id) ==> cars[i] in r)
  {
  }

  /** Deleting with no match changes nothing, which is why no 404 is needed. */
  lemma DeleteNoMatch(cars: seq<Car>, key: Option<int>)
    requires forall i :: 0 <= i < |cars| ==> key != Some(cars[i].id)
    ensures Seqs.Filter(cars, Differs(key)) == cars
  {
    Seqs.FilterKeepsAll(cars, Differs(key));
  }

  /** Deleting the same id twice gives the collection deleting it once gives. */
  lemma DeleteIdempotent(cars: seq<Car>, key: Option<int>)
    ensures Seqs.Filter(Seqs.Filter(cars, Differs(key)), Differs(key)) == Seqs.Filter(cars, Differs(key))
  {
    Seqs.FilterIdempotent(cars, Differs(key));
  }

  /** The path `String(n)` reaches exactly the records whose id is `n`: the
      first one, or none when no record has that id. */
  lemma PathOfId(cars: seq<Car>, n: int)
    ensures var r := Seqs.FindFirst(cars, Matches(ToNumber(ToString(n))));
      && (r.None? <==> forall i :: 0 <= i < |cars| ==> cars[i].id != n)
      && (r.Some? ==> r.value < |cars| && cars[r.value].id == n)
      && (r.Some? ==> forall j :: 0 <= j < r.value ==> cars[j].id != n)
  {
    NumberOfString(n);
  }

  /** A path starting with neither whitespace, a sign nor a digit is `NaN` and
      matches no record. */
  lemma NaNPathMatchesNothing(cars: seq<Car>, param: string)
    requires param != [] && !IsSpace(param[0])
    requires !IsDigit(param[0]) && param[0] != '-' && param[0] != '+'
    ensures Seqs.FindFirst(cars, Matches(ToNumber(param))) == None
  {
    NotANumber(param);
  }
}
