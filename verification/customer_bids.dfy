/** The customer's "my rentals" page: their rents, the bids on each, and the accept and
    reject buttons that settle a bid. */
module CustomerBids {
  import opened Seqs
  import opened Domain
  import opened Visibility
  import opened RecordStore

  const BidStatusField: string := "bidStatus"

  /** The argument of `updateBid`: the bid's id and the fields to change. */
  datatype BidUpdate = BidUpdate(id: string, data: map<string, string>)

  /** `handleAcceptBid`'s request: this bid, `bidStatus` accepted, nothing else. */
  function AcceptRequest(bidId: string): (u: BidUpdate)
    ensures u.id == bidId && u.data.Keys == {BidStatusField} && u.data[BidStatusField] == StatusAccepted
  {
    BidUpdate(bidId, map[BidStatusField := StatusAccepted])
  }

  /** `handleRejectBid`'s request: this bid, `bidStatus` rejected, nothing else. */
  function RejectRequest(bidId: string): (u: BidUpdate)
    ensures u.id == bidId && u.data.Keys == {BidStatusField} && u.data[BidStatusField] == StatusRejected
  {
    BidUpdate(bidId, map[BidStatusField := StatusRejected])
  }

  /** The record a server that applies `u` to bid `b` would send back: only the fields in
      the request change. */
  function Patched(b: Bid, u: BidUpdate): (r: Bid)
    ensures r.id == b.id && r.rentId == b.rentId && r.driverId == b.driverId
    ensures r.bidAmount == b.bidAmount && r.driverLocation == b.driverLocation
    ensures BidStatusField in u.data ==> r.bidStatus == u.data[BidStatusField]
    ensures BidStatusField !in u.data ==> r.bidStatus == b.bidStatus
  {
    if BidStatusField in u.data then b.(bidStatus := u.data[BidStatusField]) else b
  }

  /** Accepting a bid moves that bid alone to accepted once the answer is stored: its rent
      and the other bids on the same rent keep their status, because the page sends no
      other request. */
  lemma AcceptTouchesOneBid(bids: seq<Bid>, k: nat)
    requires k < |bids| && forall j :: 0 <= j < k ==> bids[j].id != bids[k].id
    ensures var stored := ReplaceFirst(bids, BidId, Patched(bids[k], AcceptRequest(bids[k].id)));
      stored[k].bidStatus == StatusAccepted &&
      forall j :: 0 <= j < |bids| && j != k ==> stored[j] == bids[j]
  {
    var rec := Patched(bids[k], AcceptRequest(bids[k].id));
    var idx := FirstIndex(bids, BidId, BidId(rec));
    assert idx.Some? && idx.value == k;
  }

  /** `getStatusConfig(status).label` for a rent on this page. */
  function RentStatusLabel(status: string): (text: string)
    ensures status == StatusPending ==> text == "Pending"
    ensures status == StatusOngoing ==> text == "Ongoing"
    ensures status == StatusCompleted ==> text == "Completed"
    ensures !ValidRentStatus(status) ==> text == "Unknown"
  {
    if status == StatusPending then "Pending"
    else if status == StatusOngoing then "Ongoing"
    else if status == StatusCompleted then "Completed"
    else "Unknown"
  }

  /** The "View bids" button on a rent card. */
  predicate ShowsViewBids(rent: Rent, bids: seq<Bid>)
  {
    rent.rentStatus == StatusPending && |BidsForRent(bids, rent.id)| > 0
  }

  /** The "Waiting for driver bids..." text on a rent card. */
  predicate ShowsWaiting(rent: Rent, bids: seq<Bid>)
  {
    rent.rentStatus == StatusPending && |BidsForRent(bids, rent.id)| == 0
  }

  /** A pending rent shows exactly one of the two; any other rent shows neither. The button
      appears exactly when some bid refers to the rent. */
  lemma CardFooterExclusive(rent: Rent, bids: seq<Bid>)
    ensures rent.rentStatus == StatusPending ==> (ShowsViewBids(rent, bids) != ShowsWaiting(rent, bids))
    ensures rent.rentStatus != StatusPending ==> !ShowsViewBids(rent, bids) && !ShowsWaiting(rent, bids)
    ensures ShowsViewBids(rent, bids) <==>
      rent.rentStatus == StatusPending && exists j :: 0 <= j < |bids| && RefersTo(bids[j].rentId, rent.id)
  {
    var r := BidsForRent(bids, rent.id);
    if |r| > 0 {
      assert r[0] in bids;
      var j :| 0 <= j < |bids| && bids[j] == r[0];
      assert RefersTo(bids[j].rentId, rent.id);
    }
    if exists j :: 0 <= j < |bids| && RefersTo(bids[j].rentId, rent.id) {
      var j :| 0 <= j < |bids| && RefersTo(bids[j].rentId, rent.id);
      assert bids[j] in r;
    }
  }

  /** `pendingBids`: the pending bids on one rent, in store order. */
  function PendingBidsOn(bids: seq<Bid>, rentId: string): (r: seq<Bid>)
    ensures Subseq(r, BidsForRent(bids, rentId))
    ensures forall i :: 0 <= i < |r| ==> RefersTo(r[i].rentId, rentId) && r[i].bidStatus == StatusPending
    ensures forall j :: (0 <= j < |bids| && RefersTo(bids[j].rentId, rentId) &&
      bids[j].bidStatus == StatusPending) ==> bids[j] in r
  {
    var onRent := BidsForRent(bids, rentId);
    var r := Filter(onRent, KeyIs(BidStatusOf, StatusPending));
    FilterIsSubseq(onRent, KeyIs(BidStatusOf, StatusPending));
    forall i | 0 <= i < |r|
      ensures RefersTo(r[i].rentId, rentId) && r[i].bidStatus == StatusPending
    {
      KeyIsApplied(BidStatusOf, StatusPending, r[i]);
      var k :| 0 <= k < |onRent| && onRent[k] == r[i];
    }
    forall j | 0 <= j < |bids| && RefersTo(bids[j].rentId, rentId) && bids[j].bidStatus == StatusPending
      ensures bids[j] in r
    {
      var k :| 0 <= k < |onRent| && onRent[k] == bids[j];
      KeyIsApplied(BidStatusOf, StatusPending, onRent[k]);
    }
    r
  }

  /** A pending bid on the rent, as one predicate over the whole store. */
  function PendingOn(rentId: string): Bid -> bool
  {
    (b: Bid) => RefersTo(b.rentId, rentId) && b.bidStatus == StatusPending
  }

  /** Filtering the rent's bids by status is one filter of the whole store: the pending
      bids on the rent, in store order. */
  lemma PendingBidsOnIsOneFilter(bids: seq<Bid>, rentId: string)
    ensures PendingBidsOn(bids, rentId) == Filter(bids, PendingOn(rentId))
  {
    forall x: Bid
      ensures PendingOn(rentId)(x) == (OnRent(rentId)(x) && KeyIs(BidStatusOf, StatusPending)(x))
    {
      KeyIsApplied(BidStatusOf, StatusPending, x);
    }
    FilterFilterConj(bids, OnRent(rentId), KeyIs(BidStatusOf, StatusPending), PendingOn(rentId));
  }

  /** The bid badge on a rent card: the number of pending bids on it, shown only when positive. */
  function PendingBadge(bids: seq<Bid>, rentId: string): (badge: Option<nat>)
    ensures badge.Some? ==> badge.value > 0 && badge.value <= |BidsForRent(bids, rentId)|
    ensures badge.Some? ==> badge.value == |PendingBidsOn(bids, rentId)|
    ensures badge.Some? ==> badge.value == Count(bids, PendingOn(rentId))
    ensures badge.None? <==> Count(bids, PendingOn(rentId)) == 0
  {
    PendingBidsOnIsOneFilter(bids, rentId);
    var n := |PendingBidsOn(bids, rentId)|;
    if n > 0 then Some(n) else None
  }

  /** The badge is hidden exactly when no bid on the rent is pending. */
  lemma PendingBadgeHiddenIffNonePending(bids: seq<Bid>, rentId: string)
    ensures PendingBadge(bids, rentId).None? <==>
      forall j :: 0 <= j < |bids| && RefersTo(bids[j].rentId, rentId) ==> bids[j].bidStatus != StatusPending
  {
    var onRent := BidsForRent(bids, rentId);
    var pending := PendingBidsOn(bids, rentId);
    if |pending| > 0 {
      assert pending[0] in onRent;
      var k :| 0 <= k < |onRent| && onRent[k] == pending[0];
      assert onRent[k] in bids;
      var j :| 0 <= j < |bids| && bids[j] == onRent[k];
      KeyIsApplied(BidStatusOf, StatusPending, pending[0]);
      assert RefersTo(bids[j].rentId, rentId) && bids[j].bidStatus == StatusPending;
    } else {
      forall j | 0 <= j < |bids| && RefersTo(bids[j].rentId, rentId)
        ensures bids[j].bidStatus != StatusPending
      {
        assert bids[j] in onRent;
        var k :| 0 <= k < |onRent| && onRent[k] == bids[j];
        KeyIsApplied(BidStatusOf, StatusPending, onRent[k]);
      }
    }
  }

  /** Accept and Reject are offered on a bid in the modal exactly when it is pending. */
  predicate OffersDecision(b: Bid)
  {
    b.bidStatus == StatusPending
  }

  /** A bid that has been accepted or rejected is no longer offered a decision, so the
      buttons cannot resend a request for it. */
  lemma DecidedBidOffersNothing(b: Bid)
    ensures !OffersDecision(Patched(b, AcceptRequest(b.id)))
    ensures !OffersDecision(Patched(b, RejectRequest(b.id)))
  {
  }

  /** The page's modal state. */
  class RentalsPage {
    var selectedRent: Option<Rent>
    var showBidsModal: bool

    constructor ()
      ensures selectedRent == None && !showBidsModal
    {
      selectedRent := None;
      showBidsModal := false;
    }

    /** The bids the modal lists: those of the selected rent, while it is open. */
    function ModalBids(bids: seq<Bid>): (r: Option<seq<Bid>>)
      reads this
      ensures r.Some? <==> showBidsModal && selectedRent.Some?
      ensures r.Some? ==> r.value == BidsForRent(bids, selectedRent.value.id)
    {
      if showBidsModal && selectedRent.Some? then Some(BidsForRent(bids, selectedRent.value.id)) else None
    }

    /** The "View bids" button. */
    method OpenBids(rent: Rent)
      modifies this
      ensures selectedRent == Some(rent) && showBidsModal
    {
      selectedRent := Some(rent);
      showBidsModal := true;
    }

    /** The modal's close button. */
    method CloseModal()
      modifies this
      ensures selectedRent == None && !showBidsModal
    {
      showBidsModal := false;
      selectedRent := None;
    }

    /** `handleAcceptBid` after its await: only a fulfilled update refetches rents and bids
      and closes the modal; a rejected one leaves the page as it was. */
    method AcceptSettled(fulfilled: bool) returns (refetchRents: bool, refetchBids: bool)
      modifies this
      ensures refetchRents == fulfilled && refetchBids == fulfilled
      ensures fulfilled ==> selectedRent == None && !showBidsModal
      ensures !fulfilled ==> selectedRent == old(selectedRent) && showBidsModal == old(showBidsModal)
    {
      refetchRents, refetchBids := false, false;
      if fulfilled {
        refetchRents, refetchBids := true, true;
        showBidsModal := false;
        selectedRent := None;
      }
    }

    /** `handleRejectBid` after its await: only bids are refetched, only on success, and the
      modal stays open. */
    method RejectSettled(fulfilled: bool) returns (refetchRents: bool, refetchBids: bool)
      ensures !refetchRents && refetchBids == fulfilled
    {
      refetchRents := false;
      refetchBids := fulfilled;
    }
  }
}
