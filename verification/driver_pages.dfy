/** The three driver pages: the job board where a driver bids on open rents, the driver
    dashboard's figures, and the "my bids" page grouped by status. */
module DriverPages {
  import opened Seqs
  import opened Domain
  import opened Visibility

  /** `bid.bidStatus === status` */
  function StatusIs(status: string): Bid -> bool
  {
    KeyIs(BidStatusOf, status)
  }

  /** One status group of a driver's bids, e.g. `myBids.filter(b => b.bidStatus === 'accepted')`. */
  function BidGroup(bids: seq<Bid>, me: Option<string>, status: string): (r: seq<Bid>)
    ensures Subseq(r, MyBids(bids, me))
    ensures forall i :: 0 <= i < |r| ==> r[i].bidStatus == status && RefId(r[i].driverId) == me
    ensures forall j :: 0 <= j < |bids| && RefId(bids[j].driverId) == me && bids[j].bidStatus == status ==>
      bids[j] in r
  {
    var mine := MyBids(bids, me);
    FilterIsSubseq(mine, StatusIs(status));
    var r := Filter(mine, StatusIs(status));
    forall i | 0 <= i < |r|
      ensures r[i].bidStatus == status && RefId(r[i].driverId) == me
    {
      assert StatusIs(status)(r[i]);
      assert BidStatusOf(r[i]) == status;
      var k :| 0 <= k < |mine| && mine[k] == r[i];
    }
    forall j | 0 <= j < |bids| && RefId(bids[j].driverId) == me && bids[j].bidStatus == status
      ensures bids[j] in r
    {
      var k :| 0 <= k < |mine| && mine[k] == bids[j];
      KeyIsApplied(BidStatusOf, status, mine[k]);
    }
    r
  }

  /** Two groups for different statuses share no bid. */
  lemma GroupsDisjoint(bids: seq<Bid>, me: Option<string>, s1: string, s2: string)
    requires s1 != s2
    ensures forall i, j :: 0 <= i < |BidGroup(bids, me, s1)| && 0 <= j < |BidGroup(bids, me, s2)| ==>
      BidGroup(bids, me, s1)[i] != BidGroup(bids, me, s2)[j]
  {
  }

  /** The pending, accepted and rejected groups never hold more bids than `myBids`, and
      exactly as many when every one of this driver's bids has one of the three statuses. */
  lemma GroupsPartitionMyBids(bids: seq<Bid>, me: Option<string>)
    ensures |BidGroup(bids, me, StatusPending)| + |BidGroup(bids, me, StatusAccepted)| +
            |BidGroup(bids, me, StatusRejected)| <= |MyBids(bids, me)|
    ensures (forall j :: 0 <= j < |bids| && RefId(bids[j].driverId) == me ==> ValidBidStatus(bids[j].bidStatus)) ==>
      |BidGroup(bids, me, StatusPending)| + |BidGroup(bids, me, StatusAccepted)| +
      |BidGroup(bids, me, StatusRejected)| == |MyBids(bids, me)|
  {
    var mine := MyBids(bids, me);
    CountThreeKeysBound(mine, BidStatusOf, StatusPending, StatusAccepted, StatusRejected);
    if forall j :: 0 <= j < |bids| && RefId(bids[j].driverId) == me ==> ValidBidStatus(bids[j].bidStatus) {
      forall x | x in mine
        ensures BidStatusOf(x) == StatusPending || BidStatusOf(x) == StatusAccepted || BidStatusOf(x) == StatusRejected
      {
        var k :| 0 <= k < |mine| && mine[k] == x;
        assert x in bids;
        var j :| 0 <= j < |bids| && bids[j] == x;
        assert RefId(bids[j].driverId) == me;
      }
      CountThreeKeys(mine, BidStatusOf, StatusPending, StatusAccepted, StatusRejected);
    }
  }

  /** `getStatusConfig(status).label` on the "my bids" page. */
  function BidStatusLabel(status: string): (text: string)
    ensures status == StatusAccepted ==> text == "Accepted"
    ensures status == StatusRejected ==> text == "Rejected"
    ensures status != StatusAccepted && status != StatusRejected ==> text == "Pending"
  {
    if status == StatusAccepted then "Accepted"
    else if status == StatusRejected then "Rejected"
    else "Pending"
  }

  /** A bid with a status the server never uses is labelled "Pending" on its card, yet it is
      counted in none of the three groups. */
  lemma UnknownStatusLabelledPendingButUngrouped(b: Bid, me: string)
    requires b.driverId == Populated(me) && !ValidBidStatus(b.bidStatus)
    ensures BidStatusLabel(b.bidStatus) == "Pending"
    ensures b in MyBids([b], Some(me))
    ensures b !in BidGroup([b], Some(me), StatusPending)
    ensures b !in BidGroup([b], Some(me), StatusAccepted)
    ensures b !in BidGroup([b], Some(me), StatusRejected)
  {
  }

  /** `totalEarnings`: the amounts of this driver's accepted bids, a missing amount as 0. */
  function TotalEarnings(bids: seq<Bid>, me: Option<string>): (total: int)
    ensures (forall j :: 0 <= j < |bids| ==> AmountOrZero(bids[j]) >= 0) ==> total >= 0
  {
    var accepted := BidGroup(bids, me, StatusAccepted);
    SubseqTrans(accepted, MyBids(bids, me), bids);
    SumOfSubseqNonNegative(accepted, bids, AmountOrZero);
    Sum(accepted, AmountOrZero)
  }

  /** Earnings grow by a stored bid's amount exactly when the bid is this driver's and
      accepted; with no accepted bid of this driver they are 0. */
  lemma EarningsSnoc(bids: seq<Bid>, b: Bid, me: Option<string>)
    ensures TotalEarnings(bids + [b], me) ==
      TotalEarnings(bids, me) + (if RefId(b.driverId) == me && b.bidStatus == StatusAccepted then AmountOrZero(b) else 0)
  {
    SumFilterFilterSnoc(bids, b, ByDriver(me), StatusIs(StatusAccepted), AmountOrZero);
    KeyIsApplied(BidStatusOf, StatusAccepted, b);
  }

  /** With no accepted bid of this driver the earnings are 0. */
  lemma NoAcceptedNoEarnings(bids: seq<Bid>, me: Option<string>)
    requires forall j :: 0 <= j < |bids| && RefId(bids[j].driverId) == me ==> bids[j].bidStatus != StatusAccepted
    ensures TotalEarnings(bids, me) == 0
  {
  }

  /** What the driver dashboard shows: the earnings, its two bid lists (the first five of
      each) and the open jobs. */
  datatype DashboardView = DashboardView(
    totalEarnings: int,
    activeJobs: seq<Bid>,
    pendingBids: seq<Bid>,
    availableCount: nat)

  function DriverDashboard(rents: seq<Rent>, bids: seq<Bid>, me: Option<string>): (v: DashboardView)
    ensures v.totalEarnings == TotalEarnings(bids, me)
    ensures var accepted := BidGroup(bids, me, StatusAccepted);
      |v.activeJobs| == (if |accepted| < 5 then |accepted| else 5) &&
      v.activeJobs == accepted[..|v.activeJobs|]
    ensures var pending := BidGroup(bids, me, StatusPending);
      |v.pendingBids| == (if |pending| < 5 then |pending| else 5) &&
      v.pendingBids == pending[..|v.pendingBids|]
    ensures v.availableCount == |DashboardAvailable(rents, bids, me)|
  {
    DashboardView(
      TotalEarnings(bids, me),
      Take(BidGroup(bids, me, StatusAccepted), 5),
      Take(BidGroup(bids, me, StatusPending), 5),
      |DashboardAvailable(rents, bids, me)|)
  }

  /** The body `createBid` posts. `driverId` is absent when there is no user (JSON drops
      undefined); `bidAmount` is the form's text, which the page converts with parseFloat. */
  datatype BidRequest = BidRequest(
    rentId: string,
    driverId: Option<string>,
    bidAmount: string,
    driverLocation: string,
    bidStatus: string)

  /** The guard and payload of `handleBidSubmit`: nothing is sent without a selected rent,
      an amount and a location. */
  function BidRequestFor(selected: Option<Rent>, amount: string, location: string,
                         me: Option<string>): (req: Option<BidRequest>)
    ensures req.Some? <==> selected.Some? && amount != "" && location != ""
    ensures req.Some? ==>
      req.value.bidStatus == StatusPending && req.value.rentId == selected.value.id &&
      req.value.driverId == me && req.value.bidAmount == amount && req.value.driverLocation == location
  {
    if selected.Some? && amount != "" && location != "" then
      Some(BidRequest(selected.value.id, me, amount, location, StatusPending))
    else None
  }

  /** Once the created bid is stored with this driver populated as its driver, the rent it
      was placed on is no longer offered on the job board. */
  lemma SubmittedBidClosesJob(rents: seq<Rent>, bids: seq<Bid>, req: BidRequest, created: Bid, me: string)
    requires RefersTo(created.rentId, req.rentId) && created.driverId == Populated(me)
    ensures forall i :: 0 <= i < |AvailableJobs(rents, bids + [created], Some(me))| ==>
      AvailableJobs(rents, bids + [created], Some(me))[i].id != req.rentId
  {
    var all := bids + [created];
    assert all[|bids|] == created;
  }

  /** A created bid stored with the bare driver id the client sent has no `driverId._id`,
      so it is not among this driver's bids and the job board is unchanged until the
      refetch replaces it. */
  lemma RawEchoKeepsJobOpen(rents: seq<Rent>, bids: seq<Bid>, created: Bid, me: string)
    requires created.driverId == Raw(me)
    ensures AvailableJobs(rents, bids + [created], Some(me)) == AvailableJobs(rents, bids, Some(me))
  {
    FilterConcat(bids, [created], ByDriver(Some(me)));
    assert Filter([created], ByDriver(Some(me))) == [];
    assert MyBids(bids + [created], Some(me)) == MyBids(bids, Some(me));
  }

  const BidSuccessMessage: string := "Bid submitted successfully!"

  /** The job board's form state. */
  class JobBoard {
    var selectedRent: Option<Rent>
    var bidAmount: string
    var driverLocation: string
    var isSubmitting: bool
    var successMessage: string

    constructor ()
      ensures selectedRent == None && bidAmount == "" && driverLocation == ""
      ensures !isSubmitting && successMessage == ""
    {
      selectedRent := None;
      bidAmount := "";
      driverLocation := "";
      isSubmitting := false;
      successMessage := "";
    }

    /** The "Place Bid" button on a rent card. */
    method Select(rent: Rent)
      modifies this
      ensures selectedRent == Some(rent)
      ensures bidAmount == old(bidAmount) && driverLocation == old(driverLocation)
      ensures isSubmitting == old(isSubmitting) && successMessage == old(successMessage)
    {
      selectedRent := Some(rent);
    }

    /** The form's Cancel button. */
    method Cancel()
      modifies this
      ensures selectedRent == None && bidAmount == "" && driverLocation == ""
      ensures isSubmitting == old(isSubmitting) && successMessage == old(successMessage)
    {
      selectedRent := None;
      bidAmount := "";
      driverLocation := "";
    }

    /** `handleBidSubmit` up to its await: the guard, then `isSubmitting` and the request. */
    method SubmitBid(me: Option<string>) returns (req: Option<BidRequest>)
      modifies this
      ensures req == BidRequestFor(old(selectedRent), old(bidAmount), old(driverLocation), me)
      ensures isSubmitting == (old(isSubmitting) || req.Some?)
      ensures selectedRent == old(selectedRent) && bidAmount == old(bidAmount)
      ensures driverLocation == old(driverLocation) && successMessage == old(successMessage)
    {
      if selectedRent.None? || bidAmount == "" || driverLocation == "" {
        return None;
      }
      isSubmitting := true;
      req := Some(BidRequest(selectedRent.value.id, me, bidAmount, driverLocation, StatusPending));
    }

    /** `handleBidSubmit` after its await: on success the form is cleared, the message shown
      and both lists refetched; `isSubmitting` is reset either way. */
    method SubmitSettled(fulfilled: bool) returns (refetch: bool)
      modifies this
      ensures refetch == fulfilled && !isSubmitting
      ensures fulfilled ==>
        selectedRent == None && bidAmount == "" && driverLocation == "" &&
        successMessage == BidSuccessMessage
      ensures !fulfilled ==>
        selectedRent == old(selectedRent) && bidAmount == old(bidAmount) &&
        driverLocation == old(driverLocation) && successMessage == old(successMessage)
    {
      if fulfilled {
        successMessage := BidSuccessMessage;
        selectedRent := None;
        bidAmount := "";
        driverLocation := "";
      }
      refetch := fulfilled;
      isSubmitting := false;
    }
  }
}
