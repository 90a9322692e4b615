/** The admin's rent-management page and the rentals table: editing the route, changing the
    status and deleting a rental, each behind a confirmation, with a busy marker on the row
    while the request is out. `confirmed` is the answer to `window.confirm`. */
module AdminRents {
  import opened Seqs
  import opened Domain

  const StartingPointField: string := "startingPoint"
  const DestinationField: string := "destination"
  const RentStatusField: string := "rentStatus"

  /** The argument of `updateRent`: the rent's id and the fields to change. */
  datatype RentUpdate = RentUpdate(id: string, data: map<string, string>)

  /** The edit form's request: the route fields and nothing else. */
  function EditRequest(id: string, startingPoint: string, destination: string): (u: RentUpdate)
    ensures u.id == id && u.data.Keys == {StartingPointField, DestinationField}
    ensures u.data[StartingPointField] == startingPoint && u.data[DestinationField] == destination
  {
    RentUpdate(id, map[StartingPointField := startingPoint, DestinationField := destination])
  }

  /** The status dropdown's request: `rentStatus` and nothing else. */
  function StatusRequest(id: string, status: string): (u: RentUpdate)
    ensures u.id == id && u.data.Keys == {RentStatusField} && u.data[RentStatusField] == status
  {
    RentUpdate(id, map[RentStatusField := status])
  }

  /** The client checks no transition: whatever the rent's current status, the status
      request carries exactly the chosen status, a route edit carries no status, and a
      status change carries no route. */
  lemma AnyStatusFromAnyStatus(r: Rent, status: string, startingPoint: string, destination: string)
    ensures StatusRequest(r.id, status).data == map[RentStatusField := status]
    ensures RentStatusField !in EditRequest(r.id, startingPoint, destination).data
    ensures StartingPointField !in StatusRequest(r.id, status).data
    ensures DestinationField !in StatusRequest(r.id, status).data
  {
  }

  /** The rent-management page's local state. */
  class RentAdminPage {
    var updatingId: Option<string>
    var deletingId: Option<string>
    var editingRent: Option<Rent>
    var editStartingPoint: string
    var editDestination: string

    constructor ()
      ensures updatingId == None && deletingId == None && editingRent == None
      ensures editStartingPoint == "" && editDestination == ""
    {
      updatingId := None;
      deletingId := None;
      editingRent := None;
      editStartingPoint := "";
      editDestination := "";
    }

    /** `handleEditClick`: open the form on the rent's current route. */
    method EditClick(rent: Rent)
      modifies this
      ensures editingRent == Some(rent)
      ensures editStartingPoint == rent.startingPoint && editDestination == rent.destination
      ensures updatingId == old(updatingId) && deletingId == old(deletingId)
    {
      editingRent := Some(rent);
      editStartingPoint := rent.startingPoint;
      editDestination := rent.destination;
    }

    /** Typing in the form's two fields. */
    method EditForm(startingPoint: string, destination: string)
      modifies this
      ensures editStartingPoint == startingPoint && editDestination == destination
      ensures editingRent == old(editingRent)
      ensures updatingId == old(updatingId) && deletingId == old(deletingId)
    {
      editStartingPoint := startingPoint;
      editDestination := destination;
    }

    /** The form's cancel buttons. */
    method EditCancel()
      modifies this
      ensures editingRent == None
      ensures editStartingPoint == old(editStartingPoint) && editDestination == old(editDestination)
      ensures updatingId == old(updatingId) && deletingId == old(deletingId)
    {
      editingRent := None;
    }

    /** `handleEditSubmit` up to its await: without an open form or a confirmation nothing
        happens; otherwise the row is marked busy and the route fields are sent. */
    method EditSubmit(confirmed: bool) returns (req: Option<RentUpdate>)
      modifies this
      ensures req.Some? <==> old(editingRent).Some? && confirmed
      ensures req.Some? ==>
        req.value == EditRequest(old(editingRent).value.id, old(editStartingPoint), old(editDestination)) &&
        updatingId == Some(old(editingRent).value.id)
      ensures req.None? ==> updatingId == old(updatingId)
      ensures editingRent == old(editingRent) && deletingId == old(deletingId)
      ensures editStartingPoint == old(editStartingPoint) && editDestination == old(editDestination)
    {
      if editingRent.None? || !confirmed {
        return None;
      }
      updatingId := Some(editingRent.value.id);
      req := Some(EditRequest(editingRent.value.id, editStartingPoint, editDestination));
    }

    /** `handleEditSubmit` after its await, whatever the outcome (the dispatch does not
        throw): refetch, close the form, clear the busy marker. */
    method EditSettled() returns (refetch: bool)
      modifies this
      ensures refetch && editingRent == None && updatingId == None
      ensures deletingId == old(deletingId)
      ensures editStartingPoint == old(editStartingPoint) && editDestination == old(editDestination)
    {
      refetch := true;
      editingRent := None;
      updatingId := None;
    }

    /** `handleStatusUpdate` up to its await. The dropdown offers only the three statuses. */
    method StatusUpdate(rentId: string, newStatus: string, confirmed: bool) returns (req: Option<RentUpdate>)
      requires ValidRentStatus(newStatus)
      modifies this
      ensures confirmed ==> req == Some(StatusRequest(rentId, newStatus)) && updatingId == Some(rentId)
      ensures !confirmed ==> req.None? && updatingId == old(updatingId)
      ensures editingRent == old(editingRent) && deletingId == old(deletingId)
      ensures editStartingPoint == old(editStartingPoint) && editDestination == old(editDestination)
    {
      if !confirmed {
        return None;
      }
      updatingId := Some(rentId);
      req := Some(StatusRequest(rentId, newStatus));
    }

    /** `handleStatusUpdate` after its await, whatever the outcome. */
    method StatusSettled() returns (refetch: bool)
      modifies this
      ensures refetch && updatingId == None
      ensures editingRent == old(editingRent) && deletingId == old(deletingId)
      ensures editStartingPoint == old(editStartingPoint) && editDestination == old(editDestination)
    {
      refetch := true;
      updatingId := None;
    }

    /** `handleDelete` up to its await: the id to delete, only when confirmed. */
    method Delete(rentId: string, confirmed: bool) returns (req: Option<string>)
      modifies this
      ensures confirmed ==> req == Some(rentId) && deletingId == Some(rentId)
      ensures !confirmed ==> req.None? && deletingId == old(deletingId)
      ensures editingRent == old(editingRent) && updatingId == old(updatingId)
      ensures editStartingPoint == old(editStartingPoint) && editDestination == old(editDestination)
    {
      if !confirmed {
        return None;
      }
      deletingId := Some(rentId);
      req := Some(rentId);
    }

    /** `handleDelete` after its await, whatever the outcome. */
    method DeleteSettled() returns (refetch: bool)
      modifies this
      ensures refetch && deletingId == None
      ensures editingRent == old(editingRent) && updatingId == old(updatingId)
      ensures editStartingPoint == old(editStartingPoint) && editDestination == old(editDestination)
    {
      refetch := true;
      deletingId := None;
    }
  }

  /** An edit that is confirmed and then settles, successfully or not, leaves no busy row
      and no open form. */
  method EditRoundTrip(rent: Rent, startingPoint: string, destination: string)
    returns (req: Option<RentUpdate>, busyAfter: Option<string>, formAfter: Option<Rent>)
    ensures req == Some(EditRequest(rent.id, startingPoint, destination))
    ensures busyAfter == None && formAfter == None
  {
    var page := new RentAdminPage();
    page.EditClick(rent);
    page.EditForm(startingPoint, destination);
    req := page.EditSubmit(true);
    var _ := page.EditSettled();
    busyAfter, formAfter := page.updatingId, page.editingRent;
  }

  /** The rentals table's delete button. */
  class RentalsTablePage {
    var deletingId: Option<string>

    constructor ()
      ensures deletingId == None
    {
      deletingId := None;
    }

    /** `handleDelete` up to its await: only a confirmed delete is sent. */
    method Delete(rentId: string, confirmed: bool) returns (req: Option<string>)
      modifies this
      ensures confirmed ==> req == Some(rentId) && deletingId == Some(rentId)
      ensures !confirmed ==> req.None? && deletingId == old(deletingId)
    {
      if !confirmed {
        return None;
      }
      deletingId := Some(rentId);
      req := Some(rentId);
    }

    /** After the await the list is refetched and the marker cleared, whatever the outcome. */
    method DeleteSettled() returns (refetch: bool)
      modifies this
      ensures refetch && deletingId == None
    {
      refetch := true;
      deletingId := None;
    }
  }
}
