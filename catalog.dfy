/** The car record and the request shapes shared by the two full servers
    (practice-05-swagger and practice-04-car-shop/server), whose record layout,
    create normalisation and patch assignments are line for line the same. */
module Catalog {
  import opened Wrappers
  import opened Text
  import Seqs

  datatype Car = Car(id: string, name: string, category: string, description: string, price: int, stock: int)

  /** The fields destructured from a POST or PATCH body; `None` is `undefined`. */
  datatype Body = Body(
    name: Option<string>,
    category: Option<string>,
    description: Option<string>,
    price: Option<int>,
    stock: Option<int>)

  datatype Reason = MissingFields | NothingToUpdate

  /** A handler's response: 200 with a car, 201 with the new car, 204, 404 or 400. */
  datatype Reply = Ok(car: Car) | Created(car: Car) | NoContent | NotFound | BadRequest(reason: Reason)

  function CarId(c: Car): string {
    c.id
  }

  /** `c => c.id === id`. */
  function IdIs(id: string): Car -> bool {
    (c: Car) => c.id == id
  }

  /** `c => c.id !== id`. */
  function IdIsNot(id: string): Car -> bool {
    (c: Car) => c.id != id
  }

  /** `cars.some(c => c.id === id)`. */
  predicate HasId(cars: seq<Car>, id: string) {
    exists i :: 0 <= i < |cars| && cars[i].id == id
  }

  /** The position `cars.find(c => c.id === id)` returns (`findCarOr404`):
      the first record with that id, or none when no record has it. */
  function Find(cars: seq<Car>, id: string): (r: Option<nat>)
    ensures r.Some? <==> HasId(cars, id)
    ensures r.Some? ==> r.value < |cars| && cars[r.value].id == id
    ensures r.Some? ==> forall j :: 0 <= j < r.value ==> cars[j].id != id
  {
    Seqs.FindFirst(cars, IdIs(id))
  }

  /** `cars.filter(c => c.id !== id)`. */
  function WithoutId(cars: seq<Car>, id: string): (r: seq<Car>)
    ensures !HasId(r, id)
    ensures forall i :: 0 <= i < |r| ==> r[i] in cars
    ensures forall i :: 0 <= i < |cars| && cars[i].id != id ==> cars[i] in r
  {
    Seqs.Filter(cars, IdIsNot(id))
  }

  /** Ids are pairwise distinct. */
  predicate DistinctIds(cars: seq<Car>) {
    Seqs.DistinctBy(cars, CarId)
  }

  /** The record the POST handler builds once the body passed its check:
      trimmed name and category, trimmed description or '', price as given, and
      `Number(stock) || 0`, that is the stock given or 0. */
  function NewCar(id: string, b: Body): (c: Car)
    requires b.name.Some? && b.category.Some? && b.price.Some?
    ensures c.id == id && c.price == b.price.value
    ensures c.name == Trim(b.name.value) && c.category == Trim(b.category.value)
    ensures b.description.Some? ==> c.description == Trim(b.description.value)
    ensures b.description.None? ==> c.description == ""
    ensures b.stock.Some? ==> c.stock == b.stock.value
    ensures b.stock.None? ==> c.stock == 0
  {
    Car(
      id := id,
      name := Trim(b.name.value),
      category := Trim(b.category.value),
      description := if b.description.Some? then Trim(b.description.value) else "",
      price := b.price.value,
      stock := b.stock.GetOr(0))
  }

  /** The body names none of the five updatable fields. */
  predicate NothingSupplied(b: Body) {
    b.name.None? && b.category.None? && b.description.None? && b.price.None? && b.stock.None?
  }

  /** The PATCH handler's assignments to the found record: each supplied field
      overwrites its own (text trimmed), and nothing else changes. */
  function Patched(c: Car, b: Body): (r: Car)
    ensures r.id == c.id
    ensures b.name.None? ==> r.name == c.name
    ensures b.category.None? ==> r.category == c.category
    ensures b.description.None? ==> r.description == c.description
    ensures b.price.None? ==> r.price == c.price
    ensures b.stock.None? ==> r.stock == c.stock
    ensures b.name.Some? ==> r.name == Trim(b.name.value)
    ensures b.category.Some? ==> r.category == Trim(b.category.value)
    ensures b.description.Some? ==> r.description == Trim(b.description.value)
    ensures b.price.Some? ==> r.price == b.price.value
    ensures b.stock.Some? ==> r.stock == b.stock.value
    ensures NothingSupplied(b) ==> r == c
  {
    Car(
      id := c.id,
      name := if b.name.Some? then Trim(b.name.value) else c.name,
      category := if b.category.Some? then Trim(b.category.value) else c.category,
      description := if b.description.Some? then Trim(b.description.value) else c.description,
      price := b.price.GetOr(c.price),
      stock := b.stock.GetOr(c.stock))
  }

  /** Non-empty name and category and a price that is not negative: what the
      seed records satisfy and the Swagger schema marks as required. The handlers
      do not enforce it (see the lemmas in the variant modules). */
  predicate WellFormed(c: Car) {
    c.name != "" && c.category != "" && c.price >= 0
  }

  // ----- Properties of the record operations -----

  /** Every text field of a created record is trimmed. */
  lemma NewCarIsTrimmed(id: string, b: Body)
    requires b.name.Some? && b.category.Some? && b.price.Some?
    ensures var c := NewCar(id, b);
      c.id == id && Clean(c.name) && Clean(c.category) && Clean(c.description)
  {
  }

  /** Applying the same patch twice is applying it once. */
  lemma PatchIdempotent(c: Car, b: Body)
    ensures Patched(Patched(c, b), b) == Patched(c, b)
  {
    var once := Patched(c, b);
    var twice := Patched(once, b);
    if b.name.Some? { TrimIdempotent(b.name.value); }
    assert twice.name == once.name;
    if b.category.Some? { TrimIdempotent(b.category.value); }
    assert twice.category == once.category;
    if b.description.Some? { TrimIdempotent(b.description.value); }
    assert twice.description == once.description;
  }

  /** Find looks only at ids: two collections whose ids agree position by
      position find the same position. */
  lemma {:induction false} FindSameIds(s: seq<Car>, t: seq<Car>, id: string)
    requires |s| == |t| && forall j :: 0 <= j < |s| ==> s[j].id == t[j].id
    ensures Find(s, id) == Find(t, id)
  {
    if s != [] {
      FindSameIds(s[1..], t[1..], id);
    }
  }

  /** After a create, the new id is found at the end (freshness assumed). */
  lemma FindAppended(cars: seq<Car>, c: Car)
    requires !HasId(cars, c.id)
    ensures Find(cars + [c], c.id) == Some(|cars|)
  {
    var s := cars + [c];
    assert s[|cars|].id == c.id;
    forall j | 0 <= j < |cars| ensures s[j].id != c.id { assert s[j] == cars[j]; }
  }

  /** Appending a record does not change where an existing id is found. */
  lemma FindAppendedOther(cars: seq<Car>, c: Car, id: string)
    requires HasId(cars, id)
    ensures Find(cars + [c], id) == Find(cars, id)
  {
    var k := Find(cars, id).value;
    var s := cars + [c];
    assert s[k].id == id;
    var r := Find(s, id).value;
    assert r <= k;
    assert cars[r].id == id;
  }

  /** After a patch of the record found at `i`, that id is still found at `i`,
      and the record there is the patched one. */
  lemma FindPatched(cars: seq<Car>, id: string, b: Body)
    requires HasId(cars, id)
    ensures var i := Find(cars, id).value;
      var after := cars[i := Patched(cars[i], b)];
      Find(after, id) == Some(i) && after[i] == Patched(cars[i], b)
  {
    var i := Find(cars, id).value;
    FindSameIds(cars, cars[i := Patched(cars[i], b)], id);
  }

  /** After a delete, the id is not found any more. */
  lemma FindDeleted(cars: seq<Car>, id: string)
    ensures Find(WithoutId(cars, id), id) == None
  {
  }

  /** Deleting an id that no record has leaves the collection as it is. */
  lemma DeleteAbsent(cars: seq<Car>, id: string)
    requires !HasId(cars, id)
    ensures WithoutId(cars, id) == cars
  {
    forall j | 0 <= j < |cars| ensures IdIsNot(id)(cars[j]) { }
    Seqs.FilterKeepsAll(cars, IdIsNot(id));
  }

  /** With distinct ids, deleting a present id removes exactly one record. */
  lemma DeleteRemovesOne(cars: seq<Car>, id: string)
    requires DistinctIds(cars) && HasId(cars, id)
    ensures |WithoutId(cars, id)| == |cars| - 1
  {
    var k := Find(cars, id).value;
    forall j | 0 <= j < |cars| && j != k ensures IdIsNot(id)(cars[j]) {
      if j < k {
        assert CarId(cars[j]) != CarId(cars[k]);
      } else {
        assert CarId(cars[k]) != CarId(cars[j]);
      }
    }
    Seqs.FilterDropsOne(cars, IdIsNot(id), k);
  }

  /** Delete keeps the other records in their relative order: the remaining
      record that was at `i` is at `|WithoutId(cars[..i], id)|`, and that index
      grows strictly from one remaining record to the next. */
  lemma DeleteKeepsOrder(cars: seq<Car>, id: string, i: nat, j: nat)
    requires i < j < |cars| && cars[i].id != id && cars[j].id != id
    ensures var r := WithoutId(cars, id);
      var pi, pj := |WithoutId(cars[..i], id)|, |WithoutId(cars[..j], id)|;
      pi < pj < |r| && r[pi] == cars[i] && r[pj] == cars[j]
  {
    Seqs.FilterPosition(cars, IdIsNot(id), i);
    Seqs.FilterPosition(cars, IdIsNot(id), j);
    Seqs.FilterRankMonotone(cars, IdIsNot(id), i, j);
  }

  /** Deleting the same id twice leaves what deleting it once left. */
  lemma DeleteIdempotent(cars: seq<Car>, id: string)
    ensures WithoutId(WithoutId(cars, id), id) == WithoutId(cars, id)
  {
    Seqs.FilterIdempotent(cars, IdIsNot(id));
  }

  /** Create with a fresh id, patch and delete each keep ids pairwise distinct. */
  lemma DistinctAfterCreate(cars: seq<Car>, c: Car)
    requires DistinctIds(cars) && !HasId(cars, c.id)
    ensures DistinctIds(cars + [c])
  {
    Seqs.DistinctByAppend(cars, c, CarId);
  }

  lemma DistinctAfterPatch(cars: seq<Car>, i: nat, b: Body)
    requires DistinctIds(cars) && i < |cars|
    ensures DistinctIds(cars[i := Patched(cars[i], b)])
  {
    Seqs.DistinctByUpdate(cars, i, Patched(cars[i], b), CarId);
  }

  lemma DistinctAfterDelete(cars: seq<Car>, id: string)
    requires DistinctIds(cars)
    ensures DistinctIds(WithoutId(cars, id))
  {
    Seqs.DistinctByFilter(cars, IdIsNot(id), CarId);
  }
}
