/** The catalogue page of practice-06-final/client/src/pages/CarsPage/CarsPage.jsx:
    the local copy of the car list, the modal's state, and how each handler
    reconciles the list with what the server answered. Server answers are
    parameters: `None` is a request that threw. */
module CarsPage {
  import opened Wrappers
  import opened Catalog
  import CarForm
  import Seqs

  datatype Mode = CreateMode | EditMode

  /** The API call `handleSubmitModal` makes. */
  datatype Request = CreateCar(payload: CarForm.Payload) | UpdateCar(id: Option<string>, payload: CarForm.Payload)

  /** `prev.map(c => c.id === id ? updated : c)`: every entry whose id is `id`
      becomes `updated`, every other entry stays where and what it is. */
  function Replaced(prev: seq<Car>, id: Option<string>, updated: Car): (r: seq<Car>)
    ensures |r| == |prev|
    ensures forall i :: 0 <= i < |prev| && Some(prev[i].id) == id ==> r[i] == updated
    ensures forall i :: 0 <= i < |prev| && Some(prev[i].id) != id ==> r[i] == prev[i]
  {
    if prev == [] then []
    else [if Some(prev[0].id) == id then updated else prev[0]] + Replaced(prev[1..], id, updated)
  }

  class Page {
    var cars: seq<Car>
    var loading: bool
    var modalOpen: bool
    var modalMode: Mode
    var editingCar: Option<Car>

    /** The `useState` initial values. */
    constructor ()
      ensures cars == [] && loading && !modalOpen && modalMode == CreateMode && editingCar == None
    {
      cars, loading, modalOpen, modalMode, editingCar := [], true, false, CreateMode, None;
    }

    /** `loadCars`: the fetched list replaces the local one; a failed fetch
        keeps it; loading ends either way. */
    method LoadCars(data: Option<seq<Car>>)
      modifies this
      ensures cars == if data.Some? then data.value else old(cars)
      ensures !loading
      ensures modalOpen == old(modalOpen) && modalMode == old(modalMode) && editingCar == old(editingCar)
    {
      loading := true;
      if data.Some? {
        cars := data.value;
      }
      loading := false;
    }

    /** `openCreate`. */
    method OpenCreate()
      modifies this
      ensures modalMode == CreateMode && editingCar == None && modalOpen
      ensures cars == old(cars) && loading == old(loading)
    {
      modalMode := CreateMode;
      editingCar := None;
      modalOpen := true;
    }

    /** `openEdit(car)`. */
    method OpenEdit(car: Car)
      modifies this
      ensures modalMode == EditMode && editingCar == Some(car) && modalOpen
      ensures cars == old(cars) && loading == old(loading)
    {
      modalMode := EditMode;
      editingCar := Some(car);
      modalOpen := true;
    }

    /** `closeModal`: the mode is left as it was. */
    method CloseModal()
      modifies this
      ensures !modalOpen && editingCar == None
      ensures modalMode == old(modalMode) && cars == old(cars) && loading == old(loading)
    {
      modalOpen := false;
      editingCar := None;
    }

    /** `handleDelete(id)`: nothing is sent unless the user confirms; the entry
        leaves the list only when the server call succeeded. */
    method HandleDelete(id: string, confirmed: bool, succeeded: bool) returns (sent: bool)
      modifies this
      ensures sent == confirmed
      ensures cars == if confirmed && succeeded then WithoutId(old(cars), id) else old(cars)
      ensures modalOpen == old(modalOpen) && modalMode == old(modalMode) && editingCar == old(editingCar)
      ensures loading == old(loading)
    {
      if !confirmed {
        return false;
      }
      sent := true;
      if succeeded {
        cars := WithoutId(cars, id);
      }
    }

    /** `handleSubmitModal(payload)`: the mode chooses between create and
        update; on success the server's record is appended or replaces the
        entries with the payload's id, and the modal closes; on failure nothing
        changes. */
    method HandleSubmitModal(payload: CarForm.Payload, response: Option<Car>) returns (request: Request)
      modifies this
      ensures request == if old(modalMode) == CreateMode then CreateCar(payload) else UpdateCar(payload.id, payload)
      ensures response.None? ==>
        cars == old(cars) && modalOpen == old(modalOpen) && editingCar == old(editingCar)
      ensures response.Some? && old(modalMode) == CreateMode ==> cars == old(cars) + [response.value]
      ensures response.Some? && old(modalMode) == EditMode ==> cars == Replaced(old(cars), payload.id, response.value)
      ensures response.Some? ==> !modalOpen && editingCar == None
      ensures modalMode == old(modalMode) && loading == old(loading)
    {
      if modalMode == CreateMode {
        request := CreateCar(payload);
        if response.None? {
          return;
        }
        cars := cars + [response.value];
      } else {
        request := UpdateCar(payload.id, payload);
        if response.None? {
          return;
        }
        cars := Replaced(cars, payload.id, response.value);
      }
      CloseModal();
    }
  }

  // ----- Reconciliation against the server -----

  /** With distinct ids, replacing by the id of the record at `i` rewrites that
      one position and nothing else. */
  lemma ReplacedDistinct(prev: seq<Car>, i: nat, updated: Car)
    requires DistinctIds(prev) && i < |prev|
    ensures Replaced(prev, Some(prev[i].id), updated) == prev[i := updated]
  {
    var r := Replaced(prev, Some(prev[i].id), updated);
    forall j | 0 <= j < |prev| && j != i ensures prev[j].id != prev[i].id {
      if j < i {
        assert CarId(prev[j]) != CarId(prev[i]);
      } else {
        assert CarId(prev[i]) != CarId(prev[j]);
      }
    }
  }

  /** The client keeps the server's list: starting from the same list with
      distinct ids, mapping the PATCH answer over the local list gives exactly
      the list the server holds after patching the found record. */
  lemma UpdateMatchesServer(cars: seq<Car>, id: string, b: Body)
    requires DistinctIds(cars) && HasId(cars, id)
    ensures var i := Find(cars, id).value;
      Replaced(cars, Some(id), Patched(cars[i], b)) == cars[i := Patched(cars[i], b)]
  {
    ReplacedDistinct(cars, Find(cars, id).value, Patched(cars[Find(cars, id).value], b));
  }

  /** A payload without an id (create mode) matches no entry, so an update with
      it leaves the list as it is. */
  lemma ReplacedWithoutId(prev: seq<Car>, updated: Car)
    ensures Replaced(prev, None, updated) == prev
  {
  }

  /** An update whose answer keeps the id keeps the ids distinct. */
  lemma ReplacedKeepsDistinct(prev: seq<Car>, updated: Car)
    requires DistinctIds(prev)
    ensures DistinctIds(Replaced(prev, Some(updated.id), updated))
  {
    var r := Replaced(prev, Some(updated.id), updated);
    if HasId(prev, updated.id) {
      ReplacedDistinct(prev, Find(prev, updated.id).value, updated);
      Seqs.DistinctByUpdate(prev, Find(prev, updated.id).value, updated, CarId);
    } else {
      assert r == prev;
    }
  }
}
