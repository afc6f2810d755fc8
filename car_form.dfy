/** The car form of practice-04-car-shop/client/src/components/CarModal.jsx:
    five text inputs loaded from `initialCar` when the modal opens, and the
    submit handler that checks them in order and builds the payload. */
module CarForm {
  import opened Wrappers
  import opened Text
  import opened JsNumber
  import Catalog

  /** The five input values, all text. */
  datatype Form = Form(name: string, category: string, description: string, price: string, stock: string)

  /** `initialCar` as the modal reads it: each field may be missing (`null` or `undefined`). */
  datatype InitialCar = InitialCar(
    id: Option<string>,
    name: Option<string>,
    category: Option<string>,
    description: Option<string>,
    price: Option<int>,
    stock: Option<int>)

  /** What `onSubmit` receives. */
  datatype Payload = Payload(id: Option<string>, name: string, category: string, description: string, price: int, stock: int)

  /** Which alert stops the submission. */
  datatype Rejection = EmptyName | EmptyCategory | InvalidPrice

  datatype Submission = Submitted(payload: Payload) | Rejected(reason: Rejection)

  const Blank := Form("", "", "", "", "")

  /** A server record handed to the modal as `initialCar`. */
  function FromCar(c: Catalog.Car): InitialCar {
    InitialCar(Some(c.id), Some(c.name), Some(c.category), Some(c.description), Some(c.price), Some(c.stock))
  }

  /** The values the opening effect loads: each field of `initialCar`, or ''
      when it (or `initialCar` itself) is missing; numbers go through `String`. */
  function Loaded(initialCar: Option<InitialCar>): (f: Form)
    ensures initialCar.None? ==> f == Blank
    ensures initialCar.Some? ==>
      && (initialCar.value.name.None? ==> f.name == "")
      && (initialCar.value.category.None? ==> f.category == "")
      && (initialCar.value.description.None? ==> f.description == "")
      && (initialCar.value.price.None? ==> f.price == "")
      && (initialCar.value.stock.None? ==> f.stock == "")
    ensures initialCar.Some? && initialCar.value.name.Some? ==> f.name == initialCar.value.name.value
    ensures initialCar.Some? && initialCar.value.category.Some? ==> f.category == initialCar.value.category.value
    ensures initialCar.Some? && initialCar.value.description.Some? ==>
      f.description == initialCar.value.description.value
  {
    match initialCar
    case None => Blank
    case Some(c) =>
      Form(
        c.name.GetOr(""),
        c.category.GetOr(""),
        c.description.GetOr(""),
        if c.price.Some? then ToString(c.price.value) else "",
        if c.stock.Some? then ToString(c.stock.value) else "")
  }

  /** A price the handler takes: `Number(price)` is finite and above 0. */
  predicate ValidPrice(n: Option<int>) {
    n.Some? && n.value > 0
  }

  /** `handleSubmit`: the checks run name, category, price, and the first that
      fails decides the alert; otherwise the payload carries the trimmed text,
      the parsed price and `Number(stock) || 0`. */
  function HandleSubmit(f: Form, initialCar: Option<InitialCar>): (r: Submission)
    ensures r == Rejected(EmptyName) <==> AllSpace(f.name)
    ensures r == Rejected(EmptyCategory) <==> !AllSpace(f.name) && AllSpace(f.category)
    ensures r == Rejected(InvalidPrice) <==>
      !AllSpace(f.name) && !AllSpace(f.category) && !ValidPrice(ToNumber(f.price))
    ensures r.Submitted? ==>
      && r.payload.id == (if initialCar.Some? then initialCar.value.id else None)
      && r.payload.name == Trim(f.name) && r.payload.name != ""
      && r.payload.category == Trim(f.category) && r.payload.category != ""
      && r.payload.description == Trim(f.description)
      && ToNumber(f.price) == Some(r.payload.price) && r.payload.price > 0
      && r.payload.stock == ToNumber(f.stock).GetOr(0)
  {
    if Trim(f.name) == "" then Rejected(EmptyName)
    else if Trim(f.category) == "" then Rejected(EmptyCategory)
    else
      var parsedPrice := ToNumber(f.price);
      if !ValidPrice(parsedPrice) then Rejected(InvalidPrice)
      else Submitted(Payload(
        id := if initialCar.Some? then initialCar.value.id else None,
        name := Trim(f.name),
        category := Trim(f.category),
        description := Trim(f.description),
        price := parsedPrice.value,
        stock := ToNumber(f.stock).GetOr(0)))
  }

  /** The modal's form state. */
  class CarModal {
    var name: string
    var category: string
    var description: string
    var price: string
    var stock: string

    function Fields(): Form
      reads this
    {
      Form(name, category, description, price, stock)
    }

    /** The five `useState('')` initial values. */
    constructor ()
      ensures Fields() == Blank
    {
      name, category, description, price, stock := "", "", "", "", "";
    }

    /** The effect run when `open` or `initialCar` changes: nothing while
        closed, otherwise the five fields are loaded one after another. */
    method Sync(open: bool, initialCar: Option<InitialCar>)
      modifies this
      ensures Fields() == if open then Loaded(initialCar) else old(Fields())
    {
      if !open {
        return;
      }
      match initialCar {
        case None =>
          name, category, description, price, stock := "", "", "", "", "";
        case Some(c) =>
          name := c.name.GetOr("");
          category := c.category.GetOr("");
          description := c.description.GetOr("");
          price := if c.price.Some? then ToString(c.price.value) else "";
          stock := if c.stock.Some? then ToString(c.stock.value) else "";
      }
    }
  }

  // ----- Properties of the form -----

  /** Opening the modal on a saved car and submitting without edits sends the
      car back as it is, provided its text is trimmed, its name and category are
      non-empty and its price is above 0. */
  lemma EditRoundTrip(c: Catalog.Car)
    requires Clean(c.name) && c.name != "" && Clean(c.category) && c.category != ""
    requires Clean(c.description) && c.price > 0
    ensures HandleSubmit(Loaded(Some(FromCar(c))), Some(FromCar(c)))
      == Submitted(Payload(Some(c.id), c.name, c.category, c.description, c.price, c.stock))
  {
    TrimClean(c.name);
    TrimClean(c.category);
    TrimClean(c.description);
    NumberOfString(c.price);
    NumberOfString(c.stock);
  }

  /** A car with no stock loads an empty stock input, which submits as 0. */
  lemma MissingStockSubmitsZero(f: Form, initialCar: Option<InitialCar>)
    requires HandleSubmit(f, initialCar).Submitted? && AllSpace(f.stock)
    ensures HandleSubmit(f, initialCar).payload.stock == 0
  {
  }

  /** A price that is blank, zero or negative is refused, once name and category pass. */
  lemma NonPositivePriceRefused(f: Form, initialCar: Option<InitialCar>)
    requires !AllSpace(f.name) && !AllSpace(f.category)
    requires AllSpace(f.price) || (ToNumber(f.price).Some? && ToNumber(f.price).value <= 0)
    ensures HandleSubmit(f, initialCar) == Rejected(InvalidPrice)
  {
  }
}
