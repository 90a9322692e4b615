/** The role-scoped selections the dashboard pages compute from the rent and bid lists:
    a driver's own bids, the jobs still open to a driver, a customer's own rents and the
    bids on one rent. `me` is the signed-in user's `_id` (None when there is no user). */
module Visibility {
  import opened Seqs
  import opened Domain

  /** `bid.driverId?._id === user?._id` */
  function ByDriver(me: Option<string>): Bid -> bool
  {
    (b: Bid) => RefId(b.driverId) == me
  }

  /** `myBids`: this driver's bids, in store order. A bid whose driver is a raw id has no
      `_id`, so it matches only when there is no signed-in user either. */
  function MyBids(bids: seq<Bid>, me: Option<string>): (r: seq<Bid>)
    ensures Subseq(r, bids)
    ensures forall i :: 0 <= i < |r| ==> RefId(r[i].driverId) == me
    ensures forall j :: 0 <= j < |bids| && RefId(bids[j].driverId) == me ==> bids[j] in r
  {
    FilterIsSubseq(bids, ByDriver(me));
    Filter(bids, ByDriver(me))
  }

  /** Some bid in `bids` refers to the rent, by a populated `rentId` or a raw one. */
  predicate AnyBidOn(bids: seq<Bid>, rentId: string)
  {
    exists k :: 0 <= k < |bids| && RefersTo(bids[k].rentId, rentId)
  }

  /** Some bid in `bids` refers to the rent through a populated `rentId._id`. */
  predicate AnyPopulatedBidOn(bids: seq<Bid>, rentId: string)
  {
    exists k :: 0 <= k < |bids| && RefId(bids[k].rentId) == Some(rentId)
  }

  /** Reference definition over the whole bid list: no bid by `me` refers to the rent. */
  predicate NoBidBy(bids: seq<Bid>, me: Option<string>, rentId: string)
  {
    forall j :: 0 <= j < |bids| && RefId(bids[j].driverId) == me ==> !RefersTo(bids[j].rentId, rentId)
  }

  /** Reference definition over the whole bid list: no bid by `me` has a populated `rentId`
      naming the rent. */
  predicate NoPopulatedBidBy(bids: seq<Bid>, me: Option<string>, rentId: string)
  {
    forall j :: 0 <= j < |bids| && RefId(bids[j].driverId) == me ==> RefId(bids[j].rentId) != Some(rentId)
  }

  /** Looking for a bid among `myBids` is looking for a bid by `me` among all bids. */
  lemma NoBidByIffNoneInMyBids(bids: seq<Bid>, me: Option<string>, rentId: string)
    ensures NoBidBy(bids, me, rentId) <==> !AnyBidOn(MyBids(bids, me), rentId)
  {
    var mine := MyBids(bids, me);
    if !NoBidBy(bids, me, rentId) {
      var j :| 0 <= j < |bids| && RefId(bids[j].driverId) == me && RefersTo(bids[j].rentId, rentId);
      assert bids[j] in mine;
      var k :| 0 <= k < |mine| && mine[k] == bids[j];
      assert RefersTo(mine[k].rentId, rentId);
    }
    if AnyBidOn(mine, rentId) {
      var k :| 0 <= k < |mine| && RefersTo(mine[k].rentId, rentId);
      assert mine[k] in bids;
      var j :| 0 <= j < |bids| && bids[j] == mine[k];
      assert RefId(bids[j].driverId) == me;
    }
  }

  /** The same correspondence for the populated-only test of the driver dashboard. */
  lemma NoPopulatedBidByIffNoneInMyBids(bids: seq<Bid>, me: Option<string>, rentId: string)
    ensures NoPopulatedBidBy(bids, me, rentId) <==> !AnyPopulatedBidOn(MyBids(bids, me), rentId)
  {
    var mine := MyBids(bids, me);
    if !NoPopulatedBidBy(bids, me, rentId) {
      var j :| 0 <= j < |bids| && RefId(bids[j].driverId) == me && RefId(bids[j].rentId) == Some(rentId);
      assert bids[j] in mine;
      var k :| 0 <= k < |mine| && mine[k] == bids[j];
      assert RefId(mine[k].rentId) == Some(rentId);
    }
    if AnyPopulatedBidOn(mine, rentId) {
      var k :| 0 <= k < |mine| && RefId(mine[k].rentId) == Some(rentId);
      assert mine[k] in bids;
      var j :| 0 <= j < |bids| && bids[j] == mine[k];
      assert RefId(bids[j].driverId) == me;
    }
  }

  /** The test `availableRents` applies on the jobs page. */
  function OpenJob(mine: seq<Bid>): Rent -> bool
  {
    (r: Rent) => r.rentStatus == StatusPending && !AnyBidOn(mine, r.id)
  }

  /** The test `availableRents` applies on the driver dashboard: only populated refs count. */
  function OpenJobOnDashboard(mine: seq<Bid>): Rent -> bool
  {
    (r: Rent) => r.rentStatus == StatusPending && !AnyPopulatedBidOn(mine, r.id)
  }

  /** `availableRents` on the jobs page: pending rents this driver has not bid on, whether
      the bid's `rentId` is populated or raw, in store order. */
  function AvailableJobs(rents: seq<Rent>, bids: seq<Bid>, me: Option<string>): (r: seq<Rent>)
    ensures Subseq(r, rents)
    ensures forall i :: 0 <= i < |r| ==> r[i].rentStatus == StatusPending && NoBidBy(bids, me, r[i].id)
    ensures forall i :: (0 <= i < |rents| && rents[i].rentStatus == StatusPending &&
      NoBidBy(bids, me, rents[i].id)) ==> rents[i] in r
  {
    var mine := MyBids(bids, me);
    FilterIsSubseq(rents, OpenJob(mine));
    var r := Filter(rents, OpenJob(mine));
    forall i | 0 <= i < |r|
      ensures NoBidBy(bids, me, r[i].id)
    {
      NoBidByIffNoneInMyBids(bids, me, r[i].id);
    }
    forall i | 0 <= i < |rents| && rents[i].rentStatus == StatusPending && NoBidBy(bids, me, rents[i].id)
      ensures rents[i] in r
    {
      NoBidByIffNoneInMyBids(bids, me, rents[i].id);
      assert OpenJob(mine)(rents[i]);
    }
    r
  }

  /** `availableRents` on the driver dashboard: pending rents with no bid by this driver
      whose `rentId` is populated with the rent's id. */
  function DashboardAvailable(rents: seq<Rent>, bids: seq<Bid>, me: Option<string>): (r: seq<Rent>)
    ensures Subseq(r, rents)
    ensures forall i :: 0 <= i < |r| ==> r[i].rentStatus == StatusPending && NoPopulatedBidBy(bids, me, r[i].id)
    ensures forall i :: (0 <= i < |rents| && rents[i].rentStatus == StatusPending &&
      NoPopulatedBidBy(bids, me, rents[i].id)) ==> rents[i] in r
  {
    var mine := MyBids(bids, me);
    FilterIsSubseq(rents, OpenJobOnDashboard(mine));
    var r := Filter(rents, OpenJobOnDashboard(mine));
    forall i | 0 <= i < |r|
      ensures NoPopulatedBidBy(bids, me, r[i].id)
    {
      NoPopulatedBidByIffNoneInMyBids(bids, me, r[i].id);
    }
    forall i | 0 <= i < |rents| && rents[i].rentStatus == StatusPending &&
      NoPopulatedBidBy(bids, me, rents[i].id)
      ensures rents[i] in r
    {
      NoPopulatedBidByIffNoneInMyBids(bids, me, rents[i].id);
      assert OpenJobOnDashboard(mine)(rents[i]);
    }
    r
  }

  /** Bids by other drivers never take a job away: only this driver's bids are consulted. */
  lemma OtherDriversDoNotExclude(rents: seq<Rent>, bids: seq<Bid>, others: seq<Bid>, me: Option<string>)
    requires forall j :: 0 <= j < |others| ==> RefId(others[j].driverId) != me
    ensures AvailableJobs(rents, bids + others, me) == AvailableJobs(rents, bids, me)
  {
    FilterConcat(bids, others, ByDriver(me));
    FilterNone(others, ByDriver(me));
    assert MyBids(bids + others, me) == MyBids(bids, me);
  }

  /** Every job open on the jobs page is also listed on the dashboard, in the same order. */
  lemma JobsPageWithinDashboard(rents: seq<Rent>, bids: seq<Bid>, me: Option<string>)
    ensures Subseq(AvailableJobs(rents, bids, me), DashboardAvailable(rents, bids, me))
  {
    var mine := MyBids(bids, me);
    forall i | 0 <= i < |rents| && OpenJob(mine)(rents[i])
      ensures OpenJobOnDashboard(mine)(rents[i])
    {
    }
    FilterStronger(rents, OpenJob(mine), OpenJobOnDashboard(mine));
  }

  /** The two pages disagree on a bid whose `rentId` is a raw id: the jobs page hides the
      rent, the dashboard still offers it. */
  lemma RawRentRefOnlyHidesOnJobsPage(rent: Rent, bid: Bid, me: string)
    requires rent.rentStatus == StatusPending
    requires bid.driverId == Populated(me) && bid.rentId == Raw(rent.id)
    ensures AvailableJobs([rent], [bid], Some(me)) == []
    ensures DashboardAvailable([rent], [bid], Some(me)) == [rent]
  {
    var mine := MyBids([bid], Some(me));
    assert mine == [bid];
    assert AnyBidOn(mine, rent.id);
    assert !AnyPopulatedBidOn(mine, rent.id);
  }

  /** Available jobs for a driver with three rents: one pending and untouched, one pending
      that the driver has bid on, one ongoing. Only the first is offered. */
  lemma ThreeRentScenario(r1: Rent, r2: Rent, r3: Rent, bid: Bid, me: string)
    requires r1.rentStatus == StatusPending && r2.rentStatus == StatusPending && r3.rentStatus == StatusOngoing
    requires r1.id != r2.id
    requires bid.driverId == Populated(me) && RefersTo(bid.rentId, r2.id)
    ensures AvailableJobs([r1, r2, r3], [bid], Some(me)) == [r1]
  {
    var mine := MyBids([bid], Some(me));
    assert mine == [bid];
    assert !AnyBidOn(mine, r1.id);
    assert AnyBidOn(mine, r2.id);
    var rents := [r1, r2, r3];
    var open := OpenJob(mine);
    assert open(r1) && !open(r2) && !open(r3);
    assert rents[1..] == [r2, r3];
    assert rents[1..][1..] == [r3];
    assert Filter([r3], open) == [];
    assert Filter([r2, r3], open) == [];
    assert Filter(rents, open) == [r1];
  }

  /** `rent.user?._id === user?._id` */
  function ByCustomer(me: Option<string>): Rent -> bool
  {
    (r: Rent) => RefId(r.user) == me
  }

  /** `myRents`: the rents whose populated `user._id` is the signed-in user's id. */
  function MyRents(rents: seq<Rent>, me: Option<string>): (r: seq<Rent>)
    ensures Subseq(r, rents)
    ensures forall i :: 0 <= i < |r| ==> RefId(r[i].user) == me
    ensures forall j :: 0 <= j < |rents| && RefId(rents[j].user) == me ==> rents[j] in r
  {
    FilterIsSubseq(rents, ByCustomer(me));
    Filter(rents, ByCustomer(me))
  }

  /** `bid.rentId?._id === rentId || bid.rentId === rentId` */
  function OnRent(rentId: string): Bid -> bool
  {
    (b: Bid) => RefersTo(b.rentId, rentId)
  }

  /** `getBidsForRent`: the bids on one rent, populated or raw, in store order. */
  function BidsForRent(bids: seq<Bid>, rentId: string): (r: seq<Bid>)
    ensures Subseq(r, bids)
    ensures forall i :: 0 <= i < |r| ==> RefersTo(r[i].rentId, rentId)
    ensures forall j :: 0 <= j < |bids| && RefersTo(bids[j].rentId, rentId) ==> bids[j] in r
  {
    FilterIsSubseq(bids, OnRent(rentId));
    Filter(bids, OnRent(rentId))
  }

  /** Every bid is listed under exactly one rent: the one its `rentId` names. */
  lemma BidsForRentPartition(bids: seq<Bid>, j: nat, rentId: string)
    requires j < |bids|
    ensures bids[j] in BidsForRent(bids, rentId) <==> RefKey(bids[j].rentId) == rentId
  {
    var r := BidsForRent(bids, rentId);
    if bids[j] in r {
      var k :| 0 <= k < |r| && r[k] == bids[j];
    }
  }
}
