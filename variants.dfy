/** How the two full servers differ, and a request sequence run against the
    swagger store's contracts. */
module Variants {
  import opened Wrappers
  import opened Catalog
  import SwaggerApi
  import ShopApi

  /** The car-shop POST guard refuses exactly what the swagger guard refuses,
      plus a price of 0. */
  lemma CreateGuardsDiffer(b: Body)
    ensures ShopApi.CreateRejected(b) <==> SwaggerApi.CreateRejected(b) || b.price == Some(0)
  {
  }

  /** Create, fetch, patch the stock, delete, fetch again: the record comes back
      as created, with description '' and stock 0, the patch changes the stock
      only, and after the delete the id is gone. Name and category are taken
      already trimmed, as in the request `{"name":"Toyota Camry","category":"Sedan","price":2500000}`. */
  method CamryScenario(store: SwaggerApi.Store, freshId: string, name: string, category: string, price: int)
    requires !HasId(store.cars, freshId)
    requires Text.Clean(name) && name != "" && Text.Clean(category) && category != ""
    modifies store
  {
    ghost var before := store.cars;
    Text.TrimClean(name);
    Text.TrimClean(category);
    var body := Body(Some(name), Some(category), None, Some(price), None);
    var camry := Car(freshId, name, category, "", price, 0);
    var created := store.Create(body, freshId);
    assert created == Created(camry);
    FindAppended(before, camry);

    var fetched := store.Get(freshId);
    assert fetched == Ok(camry);

    var patched := store.Patch(freshId, Body(None, None, None, None, Some(5)));
    assert patched == Ok(camry.(stock := 5));

    var deleted := store.Delete(freshId);
    assert deleted == NoContent;
    var gone := store.Get(freshId);
    assert gone == NotFound;
  }
}
