# Car inventory: a Dafny model

This project models the in-memory car inventory behind the repository's teaching
exercises. A server holds a sequence of car records. `GET` lists the records or
fetches one by id. `POST` validates a body and appends a record. `PATCH`
overwrites the supplied fields of the found record. `DELETE` removes every
record with an id. There are three server variants, each modelled as its own
class over a `seq` of records:

- `SwaggerApi.Store` (practice-05-swagger). `POST` refuses a missing or empty
  name or category, and a missing price, so a price of 0 is accepted. `PATCH`
  refuses a body that supplies none of the five fields ("Nothing to update").
- `ShopApi.Store` (practice-04-car-shop/server). `POST` refuses any falsy name,
  category or price, so a price of 0 is refused. `PATCH` accepts an empty body
  and returns the record unchanged.
- `CarApi.Store` (practice-02-car-api). Records hold only id, name and price.
  Nothing is validated and `DELETE` always answers `Ok`. Ids are numbers that
  are compared with the path text by loose equality, which converts the text
  with `Number`.

Two pieces of the browser client are modelled too:

- `CarForm`: the car modal. `Sync` is the effect that fills the five text
  inputs when the modal opens. `HandleSubmit` checks name, category and price
  in that order and builds the payload.
- `CarsPage`: the catalogue page. The `Page` class holds the local list and
  the modal state. Its handlers reconcile the local list with the server's
  answer.

The shared modules are:

- `Text`: JavaScript `trim`.
- `JsNumber`: `String(n)`, and `Number(s)` on integer literals.
- `Seqs`: `find` and `filter` over sequences, with the lemmas that say
  `filter` keeps order.
- `Catalog`: the record, the request body, the replies, and the create and
  patch normalisation. The two full servers use it; their normalisation lines
  are the same.

Inputs from outside the model are method parameters. The fresh id (`nanoid(6)`,
`Date.now()`) is one. So are the user's answer to the delete confirmation and
the server's responses that the page receives (`None` is a request that threw).
The code never checks ids for collisions, so "ids are pairwise distinct" is
proved only for a caller-supplied fresh id. Create keeps it when the id is
fresh; patch and delete always keep it.

`Variants.CamryScenario` replays a request sequence against the swagger store's
contracts alone: create, fetch, patch of `stock`, delete, fetch. The fetch
after the delete is a 404.

What the code keeps and does not keep:

- One might expect every record to keep a non-empty name and category and a
  non-negative price. The seeds at practice-05-swagger/app.js:26-35 do, and the
  Swagger schema at practice-05-swagger/app.js:62-65 marks the three fields
  required. The handlers do not keep this. The `POST` guard tests the name
  before trimming it, so `" "` is stored as `""`
  (`SwaggerApi.BlankNameStoredEmpty`). No variant checks the sign of the price
  (`SwaggerApi.NegativePriceStored`). `PATCH` can set any field to any value.
- `POST` stores `Number(stock) || 0` (practice-05-swagger/app.js:203), while
  `PATCH` stores plain `Number(stock)` (practice-05-swagger/app.js:264). On the
  integers modelled here the two agree whenever a stock is supplied.

## Model

| member | source | states |
|---|---|---|
| Text.Trim | practice-05-swagger/app.js:199-201 | `trim` returns a string with no whitespace at either end; the result is empty exactly when the input is all whitespace, and it is never longer than the input |
| Text.TrimSlice | practice-05-swagger/app.js:199-201 | `trim` removes only the surrounding whitespace: its result is the slice of the input that follows the leading whitespace run, and only whitespace comes after it |
| JsNumber.ToString | practice-04-car-shop/client/src/components/CarModal.jsx:15-16 | `String(n)` is non-empty and has no surrounding whitespace |
| JsNumber.ToNumber | practice-04-car-shop/client/src/components/CarModal.jsx:27 | `Number(s)` of an empty or blank string is 0 |
| JsNumber.NotANumber | practice-04-car-shop/client/src/components/CarModal.jsx:27-28 | a string that starts with no whitespace, sign or digit is `NaN` and fails the finite check, whatever follows that first character |
| JsNumber.DecimalRoundTrip | practice-04-car-shop/client/src/components/CarModal.jsx:15-16 | reading back the decimal digits of `n` gives `n` |
| JsNumber.NumberOfString | practice-04-car-shop/client/src/components/CarModal.jsx:15-27 | `Number(String(n)) == n`: a price loaded into the form parses back to itself |
| Seqs.FindFirst | practice-05-swagger/app.js:96 | `find` returns the first index whose element satisfies the predicate, and returns none exactly when no element does |
| Seqs.Filter | practice-05-swagger/app.js:291 | `filter` keeps only elements that pass the predicate, drops no element that passes, and takes every element from the input |
| Seqs.FilterAppend | practice-05-swagger/app.js:291 | filtering a concatenation is the concatenation of the filtered parts |
| Seqs.FilterKeepsAll | practice-02-car-api/app.js:64 | a filter that rejects nothing returns its input unchanged |
| Seqs.FilterIdempotent | practice-02-car-api/app.js:64 | filtering twice by the same predicate equals filtering once |
| Seqs.FilterPosition | practice-05-swagger/app.js:291 | a kept element `s[i]` is at index `|Filter(s[..i])|` of the result |
| Seqs.FilterRankMonotone | practice-05-swagger/app.js:291 | that index never decreases with `i`, and it increases strictly past each kept element, so relative order is kept |
| Seqs.FilterDropsOne | practice-05-swagger/app.js:291 | when exactly one element fails the predicate, the result is one shorter |
| Seqs.DistinctByAppend | practice-05-swagger/app.js:205 | appending an element with an unused key keeps keys distinct |
| Seqs.DistinctByUpdate | practice-05-swagger/app.js:260-264 | replacing an element with one that has the same key keeps keys distinct |
| Seqs.DistinctByFilter | practice-05-swagger/app.js:291 | every filter keeps keys distinct |
| Catalog.Find | practice-05-swagger/app.js:95-102 | `findCarOr404` finds a record exactly when some record has the id; the found record has the id and no earlier record does |
| Catalog.WithoutId | practice-05-swagger/app.js:291 | after the delete filter no record has the id; every remaining record was in the collection, and every record with another id remains |
| Catalog.HasId | practice-05-swagger/app.js:289 | `cars.some(c => c.id === id)`: some record carries the id (also practice-04-car-shop/server/app.js:100) |
| Catalog.NewCar | practice-05-swagger/app.js:197-204 | the created record has the fresh id, the trimmed name and category, the trimmed description or '' when it is missing, the given price, and the given stock or 0 when it is missing (the same lines as practice-04-car-shop/server/app.js:71-78) |
| Catalog.NothingSupplied | practice-05-swagger/app.js:256 | the body leaves all five updatable fields undefined |
| Catalog.Patched | practice-05-swagger/app.js:260-264 | a patch never changes the id; a supplied name, category or description becomes the trimmed supplied text, and a supplied price or stock becomes the supplied value; every field the body leaves out keeps its value; a body that supplies nothing leaves the record unchanged |
| Catalog.NewCarIsTrimmed | practice-05-swagger/app.js:197-204 | a created record carries the fresh id, and its name, category and description have no surrounding whitespace |
| Catalog.PatchIdempotent | practice-05-swagger/app.js:260-264 | applying the same patch twice equals applying it once |
| Catalog.FindSameIds | practice-05-swagger/app.js:96 | two collections whose ids match position by position give the same lookup result |
| Catalog.FindAppended | practice-05-swagger/app.js:205 | after a create with a fresh id, lookup by that id finds the new last record |
| Catalog.FindAppendedOther | practice-05-swagger/app.js:205 | a create does not change where an existing id is found |
| Catalog.FindPatched | practice-05-swagger/app.js:260-266 | after a patch, looking up the same id finds the patched record at the same index |
| Catalog.FindDeleted | practice-05-swagger/app.js:291 | after a delete, looking up the id finds nothing |
| Catalog.DeleteAbsent | practice-05-swagger/app.js:289-291 | deleting an id that no record has leaves the collection unchanged |
| Catalog.DeleteRemovesOne | practice-05-swagger/app.js:291 | with distinct ids, deleting a present id shortens the collection by exactly one |
| Catalog.DeleteKeepsOrder | practice-05-swagger/app.js:291 | two remaining records keep their relative order, at the indexes given by the filtered prefixes |
| Catalog.DeleteIdempotent | practice-05-swagger/app.js:291 | deleting the same id twice gives the same collection as deleting it once |
| Catalog.DistinctAfterCreate | practice-05-swagger/app.js:198-205 | appending a record with a fresh id keeps ids distinct |
| Catalog.DistinctAfterPatch | practice-05-swagger/app.js:260-264 | patching a record keeps ids distinct |
| Catalog.DistinctAfterDelete | practice-05-swagger/app.js:291 | deleting keeps ids distinct |
| SwaggerApi.CreateRejected | practice-05-swagger/app.js:194 | the POST guard refuses a missing or empty name or category, or a price that is `undefined` (0 passes) |
| SwaggerApi.Seed | practice-05-swagger/app.js:25-36 | there are ten starting records, each carries its supplied id and is well formed, and the ids are distinct when the supplied ids are |
| SwaggerApi.Store.constructor | practice-05-swagger/app.js:25-36 | the store starts with the ten seed records |
| SwaggerApi.Store.List | practice-05-swagger/app.js:122-124 | the list route returns the whole collection in order and changes nothing |
| SwaggerApi.Store.Get | practice-05-swagger/app.js:149-153 | the reply is 200 exactly when a record has the id, and in that case it is the first such record; otherwise 404; nothing changes |
| SwaggerApi.Store.Create | practice-05-swagger/app.js:192-207 | a missing or empty name or category, or a missing price, gives 400 and no change; otherwise exactly the normalised record is appended and returned with 201; distinct ids are kept when the id is fresh |
| SwaggerApi.Store.Patch | practice-05-swagger/app.js:251-267 | an unknown id gives 404 and no change; then an empty body gives 400 and no change; otherwise only the found record is replaced by its patched form and returned; the length stays the same and distinct ids are kept |
| SwaggerApi.Store.Delete | practice-05-swagger/app.js:288-293 | an unknown id gives 404 and no change; otherwise 204, and the collection becomes the filter without that id; distinct ids are kept |
| SwaggerApi.ZeroPriceAccepted | practice-05-swagger/app.js:194 | a price of 0 passes the create guard |
| SwaggerApi.BlankNameStoredEmpty | practice-05-swagger/app.js:194-199 | a whitespace-only name passes the guard and is stored empty, which breaks the non-empty-name invariant |
| SwaggerApi.NegativePriceStored | practice-05-swagger/app.js:194-202 | a negative price passes the guard and is stored |
| ShopApi.CreateRejected | practice-04-car-shop/server/app.js:68 | the POST guard refuses a falsy name, category or price: missing or empty text, or a missing or zero price |
| ShopApi.Seed | practice-04-car-shop/server/app.js:30-41 | there are ten starting records, each carries its supplied id and is well formed, and the ids are distinct when the supplied ids are |
| ShopApi.Store.constructor | practice-04-car-shop/server/app.js:30-41 | the store starts with the ten seed records |
| ShopApi.Store.List | practice-04-car-shop/server/app.js:54-56 | the list route returns the whole collection and changes nothing |
| ShopApi.Store.Get | practice-04-car-shop/server/app.js:59-63 | the reply is the first record with the id, or 404 when there is none; nothing changes |
| ShopApi.Store.Create | practice-04-car-shop/server/app.js:66-81 | a falsy name, category or price (including 0) gives 400 and no change; otherwise exactly the normalised record is appended; distinct ids are kept when the id is fresh |
| ShopApi.Store.Patch | practice-04-car-shop/server/app.js:84-96 | an unknown id gives 404 and no change; otherwise only the found record is replaced by its patched form; an empty body succeeds and returns the record unchanged |
| ShopApi.Store.Delete | practice-04-car-shop/server/app.js:99-104 | an unknown id gives 404 and no change; otherwise 204, and the records with the id are filtered out |
| Variants.CreateGuardsDiffer | practice-04-car-shop/server/app.js:68 | the car-shop guard refuses exactly what the swagger guard (practice-05-swagger/app.js:194) refuses, plus a price of 0 |
| CarApi.Seed | practice-02-car-api/app.js:6-10 | there are three starting records with the distinct ids 1, 2 and 3 |
| CarApi.Patched | practice-02-car-api/app.js:55-57 | a supplied name or price is copied without trimming; the id and any field left out keep their values |
| CarApi.Store.constructor | practice-02-car-api/app.js:6-10 | the store starts with the three seed records |
| CarApi.Store.List | practice-02-car-api/app.js:35-37 | the list route returns the whole collection |
| CarApi.Store.Get | practice-02-car-api/app.js:40-46 | the reply is 404 exactly when no id equals `Number(param)`; otherwise it is the first record whose id does |
| CarApi.Store.Create | practice-02-car-api/app.js:21-32 | the create route never fails: it appends exactly `{id: now, name, price}` as given and returns it |
| CarApi.Store.Patch | practice-02-car-api/app.js:49-60 | no match gives 404 and no change; otherwise only the first match gets the supplied name and price |
| CarApi.Store.Delete | practice-02-car-api/app.js:63-66 | the delete route always answers `Ok`, and the collection becomes the filter that drops every matching record |
| CarApi.DeleteRemovesMatches | practice-02-car-api/app.js:64 | no remaining record matches, every remaining record was there before, and every non-matching record remains |
| CarApi.DeleteNoMatch | practice-02-car-api/app.js:64 | deleting with no match leaves the collection unchanged |
| CarApi.DeleteIdempotent | practice-02-car-api/app.js:64 | deleting twice gives the same collection as deleting once |
| CarApi.PathOfId | practice-02-car-api/app.js:41 | for every collection and every integer `n`, the path `String(n)` finds, through loose equality, the first record whose id is `n`, and finds nothing exactly when no record has id `n` |
| CarApi.NaNPathMatchesNothing | practice-02-car-api/app.js:41 | a path starting with neither whitespace, a sign nor a digit is `NaN` and matches no record of any collection |
| CarForm.Loaded | practice-04-car-shop/client/src/components/CarModal.jsx:12-16 | with no `initialCar` every input is ''; otherwise a missing field loads as '' and a present name, category or description loads as it is |
| CarForm.ValidPrice | practice-04-car-shop/client/src/components/CarModal.jsx:28 | the parsed price is a finite number above 0 |
| CarForm.HandleSubmit | practice-04-car-shop/client/src/components/CarModal.jsx:23-40 | a blank name is refused first, then a blank category, then a price that is not a number above 0; an accepted payload has the trimmed, non-empty name and category, the trimmed description, the parsed price (> 0), `Number(stock)` or 0, and `initialCar`'s id |
| CarForm.CarModal.constructor | practice-04-car-shop/client/src/components/CarModal.jsx:4-8 | all five inputs start empty |
| CarForm.CarModal.Sync | practice-04-car-shop/client/src/components/CarModal.jsx:10-17 | while the modal is closed nothing changes; when it opens each input is loaded from `initialCar`, or set to '' when missing, with price and stock passed through `String` |
| CarForm.EditRoundTrip | practice-04-car-shop/client/src/components/CarModal.jsx:10-39 | opening the modal on a trimmed car with a positive price and submitting without edits sends back that car's id and fields unchanged |
| CarForm.MissingStockSubmitsZero | practice-04-car-shop/client/src/components/CarModal.jsx:38 | a blank stock input is submitted as 0 |
| CarForm.NonPositivePriceRefused | practice-04-car-shop/client/src/components/CarModal.jsx:27-31 | once name and category pass, a blank, zero or negative price is refused |
| CarsPage.Replaced | practice-06-final/client/src/pages/CarsPage/CarsPage.jsx:51 | the update `map` keeps the length; entries with the payload id become the server record and every other entry stays unchanged in place |
| CarsPage.Page.constructor | practice-06-final/client/src/pages/CarsPage/CarsPage.jsx:8-12 | the page starts with an empty list, loading, the modal closed in create mode, and no car being edited |
| CarsPage.Page.LoadCars | practice-06-final/client/src/pages/CarsPage/CarsPage.jsx:16-27 | a fetched list replaces the local one and a failed fetch keeps it; loading ends either way; the modal state is untouched |
| CarsPage.Page.OpenCreate | practice-06-final/client/src/pages/CarsPage/CarsPage.jsx:29 | sets create mode and no edited car, and opens the modal |
| CarsPage.Page.OpenEdit | practice-06-final/client/src/pages/CarsPage/CarsPage.jsx:30 | sets edit mode with the given car, and opens the modal |
| CarsPage.Page.CloseModal | practice-06-final/client/src/pages/CarsPage/CarsPage.jsx:31 | closes the modal and clears the edited car; the mode and the list are kept |
| CarsPage.Page.HandleDelete | practice-06-final/client/src/pages/CarsPage/CarsPage.jsx:33-42 | a request goes out exactly when the user confirms; the id leaves the list only after a successful delete, and the other entries keep their order; otherwise nothing changes |
| CarsPage.Page.HandleSubmitModal | practice-06-final/client/src/pages/CarsPage/CarsPage.jsx:44-58 | the mode chooses create or update; on success the server record is appended, or replaces the entries with the payload id, and the modal closes with no edited car; on failure the list and the modal state are unchanged |
| CarsPage.ReplacedDistinct | practice-06-final/client/src/pages/CarsPage/CarsPage.jsx:51 | with distinct ids, the update map rewrites exactly the one position that holds the id |
| CarsPage.UpdateMatchesServer | practice-06-final/client/src/pages/CarsPage/CarsPage.jsx:51 | when client and server start from the same list with distinct ids, mapping the server's PATCH answer gives exactly the server's new list |
| CarsPage.ReplacedWithoutId | practice-06-final/client/src/pages/CarsPage/CarsPage.jsx:51 | a payload without an id matches no entry and leaves the list unchanged |
| CarsPage.ReplacedKeepsDistinct | practice-06-final/client/src/pages/CarsPage/CarsPage.jsx:51 | an answer that keeps the id keeps the list's ids distinct |

## Left out

- Express wiring is not modelled: middleware, CORS, JSON parsing, `app.listen`, the catch-all 404 and 500 handlers, and the `GET /` text route of practice-02. It is framework set-up, not inventory logic.
- Request logging and all `console` output are I/O.
- The Swagger document generation and UI (practice-05-swagger/app.js:38-92) use a foreign library.
- Id generation (`nanoid`, `randomBytes`, `Date.now()`) is randomness or a clock. The fresh id is a parameter.
- Body fields are typed in the model: text fields are `Option<string>` and numbers are `Option<int>`. A non-string field would make `.trim()` throw, giving a 500; that is not modelled. JSON `null` is not told apart from a missing field. The server's `Number(price)` is the identity on integers. Fractional prices are not modelled.
- JsNumber.ToNumber: covers blank strings and optional-sign decimal integers. Other strings that JavaScript reads as numbers (fractions, exponents, hexadecimal, `Infinity`) come out as not-a-number here. This has three consequences. The form may refuse a price it would accept (`"2.5e3"`). A stock input such as `"2.5"` submits 2.5 in the code (CarModal.jsx:38) but 0 in the model. And in practice-02 the loose `==` at app.js:41, 50 and 64 converts the path with `Number`, so `/cars/1.0` or `/cars/0x1` reach the record with id 1 in the code, while in the model `Get` and `Patch` answer 404 and `Delete` keeps the record.
- CarForm.Loaded: the contract does not state that a present price or stock is loaded as `String(n)`. The body does this, and `CarForm.EditRoundTrip` proves the load-then-submit round trip that depends on it.
- JsNumber.ToString: gives the decimal form of integers only. The `String` forms of non-integers are not modelled.
- Records are values, so a patch replaces the record at the found index in place of mutating a shared object. No reference to a record outlives a request in the code, so the observable behaviour is the same.
- The client's HTTP layer (practice-04-car-shop/client/src/api/index.js) is not modelled. Whether a request succeeded, and what it returned, are parameters.
- Rendering is not modelled: JSX, `CarItem`, `CarsList`, the modal title, the input `onChange` setters, `window.confirm` (a parameter) and `alert` (the rejection reason). `HandleSubmit` takes any input values, which stands for the user's edits.
- Concurrency is not modelled: `async`/`await`, and React batching state updates. Each handler's updates are applied in the order they are written.
