/** The rent form: pick a car (possibly preselected by the `carId` query parameter), give a
    starting point and a destination, and submit a pending rent. */
module RentForm {
  import opened Seqs
  import opened Domain
  import opened AuthSession
  import opened FormRules

  const CarRequired: string := "Please select a car"
  const StartingPointRequired: string := "Starting point is required"
  const StartingPointShort: string := "Starting point must be at least 3 characters"
  const DestinationRequired: string := "Destination is required"
  const DestinationShort: string := "Destination must be at least 3 characters"

  datatype RentFields = RentFields(car: string, startingPoint: string, destination: string)

  /** The validation errors, field name to message. */
  function RentErrors(f: RentFields): (errs: map<string, string>)
    ensures "car" in errs <==> f.car == ""
    ensures "startingPoint" in errs <==> JsLength(f.startingPoint) < 3
    ensures "destination" in errs <==> JsLength(f.destination) < 3
    ensures errs.Keys <= {"car", "startingPoint", "destination"}
    ensures "car" in errs ==> errs["car"] == CarRequired
    ensures "startingPoint" in errs ==>
      errs["startingPoint"] == if f.startingPoint == "" then StartingPointRequired else StartingPointShort
    ensures "destination" in errs ==>
      errs["destination"] == if f.destination == "" then DestinationRequired else DestinationShort
  {
    var car := if f.car == "" then map["car" := CarRequired] else map[];
    var start := RequiredMinLength(f.startingPoint, 3, StartingPointRequired, StartingPointShort);
    var dest := RequiredMinLength(f.destination, 3, DestinationRequired, DestinationShort);
    var withStart := if start.Some? then car["startingPoint" := start.value] else car;
    if dest.Some? then withStart["destination" := dest.value] else withStart
  }

  /** What a submit does: show the errors, go to the login page, or create a rent. */
  datatype SubmitStep = Invalid(errors: map<string, string>) | ToLogin | Create(body: Body)

  /** The body `createRent` is called with. */
  function RentBody(f: RentFields): (b: Body)
    ensures b.Keys == {"car", "startingPoint", "destination", "rentStatus"}
    ensures b["rentStatus"] == Text(StatusPending)
    ensures b["car"] == Text(f.car) && b["startingPoint"] == Text(f.startingPoint)
    ensures b["destination"] == Text(f.destination)
  {
    map["car" := Text(f.car), "startingPoint" := Text(f.startingPoint),
        "destination" := Text(f.destination), "rentStatus" := Text(StatusPending)]
  }

  /** `handleSubmit(onSubmit)` up to the await: validation runs first; a valid form without
      an initialized session or a user goes to the login page; otherwise a pending rent is
      created from the form. */
  function RentSubmit(f: RentFields, initialized: bool, user: Option<Profile>): (step: SubmitStep)
    ensures step.Invalid? <==> RentErrors(f) != map[]
    ensures step.Invalid? ==> step.errors == RentErrors(f)
    ensures step.ToLogin? <==> RentErrors(f) == map[] && (!initialized || user.None?)
    ensures step.Create? <==> RentErrors(f) == map[] && initialized && user.Some?
    ensures step.Create? ==>
      step.body == RentBody(f) && f.car != "" && JsLength(f.startingPoint) >= 3 && JsLength(f.destination) >= 3
  {
    var errs := RentErrors(f);
    if errs != map[] then Invalid(errs)
    else if !initialized || user.None? then ToLogin
    else
      assert "car" !in errs && "startingPoint" !in errs && "destination" !in errs;
      Create(RentBody(f))
  }

  /** Before the session is initialized, or signed out, no submit creates a rent. */
  lemma NoSessionNoRent(f: RentFields, initialized: bool, user: Option<Profile>)
    requires !initialized || user.None?
    ensures !RentSubmit(f, initialized, user).Create?
  {
  }

  /** The form's values and the select's own `selectedCar` state. */
  class RentCarPage {
    var selectedCar: string
    var car: string
    var startingPoint: string
    var destination: string

    /** The select shows the form's car value. */
    predicate InSync()
      reads this
    {
      selectedCar == car
    }

    function Fields(): RentFields
      reads this
    {
      RentFields(car, startingPoint, destination)
    }

    constructor ()
      ensures InSync() && Fields() == RentFields("", "", "")
    {
      selectedCar := "";
      car := "";
      startingPoint := "";
      destination := "";
    }

    /** The `carId` query parameter, when present and non-empty, preselects that car. */
    method ApplyQuery(carId: Option<string>)
      modifies this
      requires InSync()
      ensures InSync()
      ensures Truthy(carId) ==> car == carId.value
      ensures !Truthy(carId) ==> car == old(car)
      ensures startingPoint == old(startingPoint) && destination == old(destination)
    {
      if Truthy(carId) {
        car := carId.value;
        selectedCar := carId.value;
      }
    }

    /** The select's onChange: both the state and the form value follow. */
    method SelectCar(v: string)
      modifies this
      ensures InSync() && car == v
      ensures startingPoint == old(startingPoint) && destination == old(destination)
    {
      selectedCar := v;
      car := v;
    }

    method SetStartingPoint(v: string)
      modifies this
      requires InSync()
      ensures InSync() && Fields() == old(Fields()).(startingPoint := v)
    {
      startingPoint := v;
    }

    method SetDestination(v: string)
      modifies this
      requires InSync()
      ensures InSync() && Fields() == old(Fields()).(destination := v)
    {
      destination := v;
    }

    /** Submitting the form as it stands. */
    method Submit(initialized: bool, user: Option<Profile>) returns (step: SubmitStep)
      ensures step == RentSubmit(Fields(), initialized, user)
    {
      step := RentSubmit(RentFields(car, startingPoint, destination), initialized, user);
    }
  }

  /** A car preselected from the query and two valid places, submitted by a signed-in user,
      creates a pending rent for exactly that car. */
  method PreselectedRent(carId: string, from: string, to: string, profile: Profile) returns (step: SubmitStep)
    requires carId != "" && JsLength(from) >= 3 && JsLength(to) >= 3
    ensures step.Create? && step.body == RentBody(RentFields(carId, from, to))
    ensures step.body["car"] == Text(carId) && step.body["rentStatus"] == Text(StatusPending)
  {
    var page := new RentCarPage();
    page.ApplyQuery(Some(carId));
    page.SetStartingPoint(from);
    page.SetDestination(to);
    step := page.Submit(true, Some(profile));
  }
}
