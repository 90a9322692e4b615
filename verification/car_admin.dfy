/** The admin's car-management page: the search box over the car list, the add/edit modal
    with its form, and the requests it sends. */
module CarAdmin {
  import opened Seqs
  import opened Text
  import opened Domain
  import opened UserAdmin

  /** The test `filteredCars` applies, given the lower-cased search term. */
  function CarMatches(needle: string): Car -> bool
  {
    (c: Car) => Contains(Lower(c.name), needle) || Contains(Lower(c.brand), needle) ||
                Contains(Lower(c.model), needle)
  }

  /** `filteredCars`: the cars whose name, brand or model contains the term, ignoring case,
      in list order. */
  function FilteredCars(cars: seq<Car>, term: string): (r: seq<Car>)
    ensures Subseq(r, cars)
    ensures forall i :: 0 <= i < |r| ==>
      Contains(Lower(r[i].name), Lower(term)) || Contains(Lower(r[i].brand), Lower(term)) ||
      Contains(Lower(r[i].model), Lower(term))
    ensures forall j :: (0 <= j < |cars| &&
      (Contains(Lower(cars[j].name), Lower(term)) || Contains(Lower(cars[j].brand), Lower(term)) ||
       Contains(Lower(cars[j].model), Lower(term)))) ==> cars[j] in r
  {
    FilterIsSubseq(cars, CarMatches(Lower(term)));
    Filter(cars, CarMatches(Lower(term)))
  }

  /** An empty search lists every car, in order. */
  lemma EmptySearchKeepsAllCars(cars: seq<Car>)
    ensures FilteredCars(cars, "") == cars
  {
    forall c | c in cars
      ensures CarMatches(Lower(""))(c)
    {
      ContainsEmpty(Lower(c.name));
    }
    FilterAll(cars, CarMatches(Lower("")));
  }

  /** Two search terms that lower-case alike select the same cars. */
  lemma CarSearchIgnoresCase(cars: seq<Car>, t1: string, t2: string)
    requires Lower(t1) == Lower(t2)
    ensures FilteredCars(cars, t1) == FilteredCars(cars, t2)
  {
  }

  /** Searching for a car's exact brand, in any case, finds that car. */
  lemma SearchByBrandFindsCar(cars: seq<Car>, j: nat, term: string)
    requires j < |cars| && Lower(term) == Lower(cars[j].brand)
    ensures cars[j] in FilteredCars(cars, term)
  {
    ContainsSelf(Lower(cars[j].brand));
  }

  /** The modal's form. */
  datatype CarForm = CarForm(
    name: string,
    brand: string,
    model: string,
    image: string,
    rating: real,
    fuelType: string,
    passengerCapacity: int,
    color: string,
    condition: string)

  /** The form for a new car. */
  function NewCarForm(): (f: CarForm)
    ensures f.fuelType == "Petrol" && f.passengerCapacity == 5 && f.condition == "New" && f.rating == 0.0
    ensures f.name == "" && f.brand == "" && f.model == "" && f.image == "" && f.color == ""
  {
    CarForm("", "", "", "", 0.0, "Petrol", 5, "", "New")
  }

  /** The form for editing `c`: its fields, a missing rating as 0. */
  function EditCarForm(c: Car): (f: CarForm)
    ensures f.name == c.name && f.brand == c.brand && f.model == c.model && f.image == c.image
    ensures f.fuelType == c.fuelType && f.passengerCapacity == c.passengerCapacity
    ensures f.color == c.color && f.condition == c.condition
    ensures f.rating == RatingOrZero(c.rating)
  {
    CarForm(c.name, c.brand, c.model, c.image, RatingOrZero(c.rating), c.fuelType,
            c.passengerCapacity, c.color, c.condition)
  }

  /** The car a form describes, under the id `id`. */
  function CarOfForm(id: string, f: CarForm): (c: Car)
    ensures c.id == id && c.name == f.name && c.brand == f.brand && c.rating == Some(f.rating)
  {
    Car(id, f.name, f.brand, f.model, f.image, Some(f.rating), f.fuelType, f.passengerCapacity,
        f.color, f.condition)
  }

  /** Opening a rated car for editing and saving it unchanged describes the same car; an
      unrated one comes back with rating 0. */
  lemma EditFormRoundTrip(c: Car)
    ensures c.rating.Some? ==> CarOfForm(c.id, EditCarForm(c)) == c
    ensures c.rating.None? ==> CarOfForm(c.id, EditCarForm(c)) == c.(rating := Some(0.0))
  {
  }

  /** The body of `createCar` and `updateCar`: the whole form. */
  function CarBody(f: CarForm): (b: Body)
    ensures b.Keys == {"name", "brand", "model", "image", "rating", "fuelType", "passengerCapacity",
                       "color", "condition"}
    ensures b["rating"] == Number(f.rating) && b["passengerCapacity"] == Number(f.passengerCapacity as real)
  {
    map["name" := Text(f.name), "brand" := Text(f.brand), "model" := Text(f.model),
        "image" := Text(f.image), "rating" := Number(f.rating), "fuelType" := Text(f.fuelType),
        "passengerCapacity" := Number(f.passengerCapacity as real), "color" := Text(f.color),
        "condition" := Text(f.condition)]
  }

  /** What the modal's submit sends. */
  datatype CarRequest = CreateCar(body: Body) | UpdateCar(id: string, body: Body)

  /** The page's modal and search state. */
  class CarsPage {
    var showModal: bool
    var isEditing: bool
    var selectedCar: Option<Car>
    var searchTerm: string
    var form: CarForm

    constructor ()
      ensures !showModal && !isEditing && selectedCar == None && searchTerm == "" && form == NewCarForm()
    {
      showModal := false;
      isEditing := false;
      selectedCar := None;
      searchTerm := "";
      form := NewCarForm();
    }

    /** `handleOpenModal(car?)`: edit a given car, or start a new one. */
    method OpenModal(car: Option<Car>)
      modifies this
      ensures showModal && isEditing == car.Some? && selectedCar == car
      ensures form == if car.Some? then EditCarForm(car.value) else NewCarForm()
      ensures searchTerm == old(searchTerm)
    {
      if car.Some? {
        isEditing := true;
        selectedCar := car;
        form := EditCarForm(car.value);
      } else {
        isEditing := false;
        selectedCar := None;
        form := NewCarForm();
      }
      showModal := true;
    }

    /** `handleCloseModal` */
    method CloseModal()
      modifies this
      ensures !showModal && !isEditing && selectedCar == None
      ensures form == old(form) && searchTerm == old(searchTerm)
    {
      showModal := false;
      isEditing := false;
      selectedCar := None;
    }

    /** `handleSubmit` up to its await: an update when editing a selected car, else a create. */
    method Submit() returns (req: CarRequest)
      ensures isEditing && selectedCar.Some? ==> req == UpdateCar(selectedCar.value.id, CarBody(form))
      ensures !(isEditing && selectedCar.Some?) ==> req == CreateCar(CarBody(form))
    {
      if isEditing && selectedCar.Some? {
        req := UpdateCar(selectedCar.value.id, CarBody(form));
      } else {
        req := CreateCar(CarBody(form));
      }
    }

    /** `handleSubmit` after its await: only a fulfilled request closes the modal and
        refetches the cars. */
    method SubmitSettled(fulfilled: bool) returns (refetch: bool)
      modifies this
      ensures refetch == fulfilled
      ensures fulfilled ==> !showModal && !isEditing && selectedCar == None
      ensures !fulfilled ==>
        showModal == old(showModal) && isEditing == old(isEditing) && selectedCar == old(selectedCar)
      ensures form == old(form) && searchTerm == old(searchTerm)
    {
      refetch := false;
      if fulfilled {
        CloseModal();
        refetch := true;
      }
    }

    /** The search box. */
    method SetSearch(term: string)
      modifies this
      ensures searchTerm == term
      ensures showModal == old(showModal) && isEditing == old(isEditing)
      ensures selectedCar == old(selectedCar) && form == old(form)
    {
      searchTerm := term;
    }
  }

  /** A new car submitted untouched is created with the form's defaults, not updated. */
  method NewCarDefaults() returns (req: CarRequest)
    ensures req.CreateCar?
    ensures req.body.Keys == CarBody(NewCarForm()).Keys
    ensures req.body["fuelType"] == Text("Petrol") && req.body["condition"] == Text("New")
    ensures req.body["passengerCapacity"] == Number(5.0) && req.body["rating"] == Number(0.0)
  {
    var page := new CarsPage();
    page.OpenModal(None);
    req := page.Submit();
  }
}
