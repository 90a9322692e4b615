/** The figures the admin dashboard, the rent-management page and the rentals table show:
    role and status counts, revenue, distinct customers and the share of active rentals. */
module AdminStats {
  import opened Seqs
  import opened Domain
  import opened Visibility
  import opened DriverPages

  /** The number of records whose key is `k`, e.g. `users.filter(u => u.role === 'admin').length`. */
  function CountKey<T>(s: seq<T>, f: T -> string, k: string): (n: nat)
    ensures n <= |s|
  {
    Count(s, KeyIs(f, k))
  }

  /** The pending, ongoing and completed counts of a rent list. */
  datatype StatusCounts = StatusCounts(pending: nat, ongoing: nat, completed: nat)

  function RentStatusCounts(rents: seq<Rent>): (c: StatusCounts)
    ensures c.pending + c.ongoing + c.completed <= |rents|
  {
    CountThreeKeysBound(rents, RentStatusOf, StatusPending, StatusOngoing, StatusCompleted);
    StatusCounts(
      CountKey(rents, RentStatusOf, StatusPending),
      CountKey(rents, RentStatusOf, StatusOngoing),
      CountKey(rents, RentStatusOf, StatusCompleted))
  }

  /** When every rent has one of the three statuses, the counts add up to the rent count. */
  lemma RentStatusCountsCover(rents: seq<Rent>)
    requires forall i :: 0 <= i < |rents| ==> ValidRentStatus(rents[i].rentStatus)
    ensures var c := RentStatusCounts(rents); c.pending + c.ongoing + c.completed == |rents|
  {
    forall x | x in rents
      ensures RentStatusOf(x) == StatusPending || RentStatusOf(x) == StatusOngoing ||
              RentStatusOf(x) == StatusCompleted
    {
      var i :| 0 <= i < |rents| && rents[i] == x;
    }
    CountThreeKeys(rents, RentStatusOf, StatusPending, StatusOngoing, StatusCompleted);
  }

  /** The admin, driver and customer counts of a user list. */
  datatype RoleCounts = RoleCounts(admins: nat, drivers: nat, customers: nat)

  function UserRoleCounts(users: seq<User>): (c: RoleCounts)
    ensures c.admins + c.drivers + c.customers <= |users|
  {
    CountThreeKeysBound(users, RoleOf, RoleAdmin, RoleDriver, RoleUser);
    RoleCounts(
      CountKey(users, RoleOf, RoleAdmin),
      CountKey(users, RoleOf, RoleDriver),
      CountKey(users, RoleOf, RoleUser))
  }

  /** `totalRevenue`: the amounts of all accepted bids, a missing amount as 0. */
  function TotalRevenue(bids: seq<Bid>): (total: int)
    ensures (forall j :: 0 <= j < |bids| ==> AmountOrZero(bids[j]) >= 0) ==> total >= 0
  {
    var accepted := Filter(bids, StatusIs(StatusAccepted));
    FilterIsSubseq(bids, StatusIs(StatusAccepted));
    SumOfSubseqNonNegative(accepted, bids, AmountOrZero);
    Sum(accepted, AmountOrZero)
  }

  /** Revenue grows by a stored bid's amount exactly when that bid is accepted. */
  lemma RevenueSnoc(bids: seq<Bid>, b: Bid)
    ensures TotalRevenue(bids + [b]) ==
      TotalRevenue(bids) + (if b.bidStatus == StatusAccepted then AmountOrZero(b) else 0)
  {
    SumFilterSnoc(bids, b, StatusIs(StatusAccepted), AmountOrZero);
    KeyIsApplied(BidStatusOf, StatusAccepted, b);
  }

  /** With no accepted bid the revenue is 0. */
  lemma NoAcceptedNoRevenue(bids: seq<Bid>)
    requires forall j :: 0 <= j < |bids| ==> bids[j].bidStatus != StatusAccepted
    ensures TotalRevenue(bids) == 0
  {
    var acc := Filter(bids, StatusIs(StatusAccepted));
    if acc != [] {
      assert acc[0] in bids;
      KeyIsApplied(BidStatusOf, StatusAccepted, acc[0]);
    }
  }

  /** With no negative amounts, one driver's earnings never exceed the platform's revenue. */
  lemma EarningsWithinRevenue(bids: seq<Bid>, me: Option<string>)
    requires forall j :: 0 <= j < |bids| ==> AmountOrZero(bids[j]) >= 0
    ensures TotalEarnings(bids, me) <= TotalRevenue(bids)
  {
    var acc := Filter(bids, StatusIs(StatusAccepted));
    FilterFilterSubseq(bids, ByDriver(me), StatusIs(StatusAccepted));
    forall x | x in acc
      ensures AmountOrZero(x) >= 0
    {
      assert x in bids;
    }
    SumSubseq(BidGroup(bids, me, StatusAccepted), acc, AmountOrZero);
  }

  /** What the admin dashboard shows. */
  datatype Overview = Overview(
    loading: bool,
    totalCars: nat,
    totalUsers: nat,
    roles: RoleCounts,
    totalRents: nat,
    rentStatuses: StatusCounts,
    totalBids: nat,
    pendingBids: nat,
    acceptedBids: nat,
    totalRevenue: int,
    recentRents: seq<Rent>,
    recentBids: seq<Bid>)

  /** The admin dashboard's figures from the four slices. */
  function AdminOverview(carsLoading: bool, usersLoading: bool, rentsLoading: bool, bidsLoading: bool,
                         cars: seq<Car>, users: seq<User>, rents: seq<Rent>, bids: seq<Bid>): (v: Overview)
    ensures v.loading <==> carsLoading || usersLoading || rentsLoading || bidsLoading
    ensures v.totalUsers == |users| && v.roles == UserRoleCounts(users)
    ensures v.totalRents == |rents| && v.rentStatuses == RentStatusCounts(rents)
    ensures v.totalCars == |cars|
    ensures v.pendingBids == CountKey(bids, BidStatusOf, StatusPending)
    ensures v.pendingBids + v.acceptedBids <= v.totalBids == |bids|
    ensures v.acceptedBids == |Filter(bids, StatusIs(StatusAccepted))|
    ensures v.totalRevenue == TotalRevenue(bids)
    ensures |v.recentRents| == (if |rents| < 5 then |rents| else 5) && v.recentRents == rents[..|v.recentRents|]
    ensures |v.recentBids| == (if |bids| < 5 then |bids| else 5) && v.recentBids == bids[..|v.recentBids|]
  {
    CountThreeKeysBound(bids, BidStatusOf, StatusPending, StatusAccepted, StatusRejected);
    Overview(
      carsLoading || usersLoading || rentsLoading || bidsLoading,
      |cars|,
      |users|,
      UserRoleCounts(users),
      |rents|,
      RentStatusCounts(rents),
      |bids|,
      CountKey(bids, BidStatusOf, StatusPending),
      |Filter(bids, StatusIs(StatusAccepted))|,
      TotalRevenue(bids),
      Take(rents, 5),
      Take(bids, 5))
  }

  /** The customers behind a rent list: `typeof user === 'object' ? user._id : user` for each. */
  function UserKeys(rents: seq<Rent>): (keys: set<string>)
    ensures |keys| <= |rents|
    ensures forall i :: 0 <= i < |rents| ==> RefKey(rents[i].user) in keys
    ensures forall k :: k in keys ==> exists i :: 0 <= i < |rents| && RefKey(rents[i].user) == k
  {
    Image(rents, CustomerKey)
  }

  /** The customer id of one rental. */
  function CustomerKey(r: Rent): string
  {
    RefKey(r.user)
  }

  /** `uniqueUsers`: the number of distinct customers, at most the number of rentals and at
      least one when there is any rental. */
  function UniqueUsers(rents: seq<Rent>): (n: nat)
    ensures n == |UserKeys(rents)|
    ensures n <= |rents|
    ensures |rents| > 0 ==> n >= 1
  {
    var keys := UserKeys(rents);
    if |rents| > 0 then
      assert RefKey(rents[0].user) in keys;
      |keys|
    else |keys|
  }

  /** Two rentals by the same customer, one populated and one raw, count once. */
  lemma SameCustomerCountsOnce(a: Rent, b: Rent, id: string)
    requires a.user == Populated(id) && b.user == Raw(id)
    ensures UniqueUsers([a, b]) == 1
  {
    assert [a, b][1..] == [b];
    assert UserKeys([a, b]) == {id};
  }

  /** Rentals by pairwise different customers count one customer each. */
  lemma DistinctCustomersCountEach(rents: seq<Rent>)
    requires forall i, j :: 0 <= i < j < |rents| ==> RefKey(rents[i].user) != RefKey(rents[j].user)
    ensures UniqueUsers(rents) == |rents|
  {
    ImageOfDistinctKeys(rents, CustomerKey);
  }

  /** Adding a rental by a customer already counted leaves the count unchanged; a new
      customer adds one. */
  lemma UniqueUsersSnoc(rents: seq<Rent>, r: Rent)
    ensures UniqueUsers(rents + [r]) ==
      UniqueUsers(rents) + (if exists i :: 0 <= i < |rents| && RefKey(rents[i].user) == RefKey(r.user) then 0 else 1)
  {
    ImageSnocSize(rents, r, CustomerKey);
    var before := UserKeys(rents);
    if exists i :: 0 <= i < |rents| && RefKey(rents[i].user) == RefKey(r.user) {
      var i :| 0 <= i < |rents| && RefKey(rents[i].user) == RefKey(r.user);
      assert CustomerKey(r) in before;
    } else {
      assert CustomerKey(r) !in before;
    }
  }

  /** `Math.round(x)` for a non-negative x: the nearest integer, halves rounded up. */
  function Round(x: real): (n: int)
    requires x >= 0.0
    ensures n as real <= x + 0.5 < n as real + 1.0
  {
    (x + 0.5).Floor
  }

  /** `Math.round((part / total) * 100)`: a share in percent, rounded. */
  function PercentRounded(part: nat, total: nat): (pct: int)
    requires 0 < total && part <= total
    ensures 0 <= pct <= 100
    ensures part == 0 ==> pct == 0
    ensures part == total ==> pct == 100
  {
    RatioBounds(part as real, total as real);
    Round(part as real / total as real * 100.0)
  }

  /** A part of a positive whole is a share between 0 and 1, and the whole is a share of 1. */
  lemma RatioBounds(part: real, total: real)
    requires 0.0 <= part <= total && total > 0.0
    ensures 0.0 <= part / total <= 1.0
    ensures part == total ==> part / total == 1.0
  {
    var ratio := part / total;
    assert ratio * total == part;
    assert (1.0 - ratio) * total == total - part;
    NonNegativeFactor(ratio, total);
    NonNegativeFactor(1.0 - ratio, total);
  }

  /** A product that is not negative, with a positive factor, has a non-negative other factor. */
  lemma NonNegativeFactor(a: real, b: real)
    requires b > 0.0 && a * b >= 0.0
    ensures a >= 0.0
  {
  }

  /** The active ratio: the rounded share of ongoing rentals in percent, 0 when there are none. */
  function ActiveRatio(rents: seq<Rent>): (pct: int)
    ensures |rents| == 0 ==> pct == 0
    ensures 0 <= pct <= 100
    ensures RentStatusCounts(rents).ongoing == 0 ==> pct == 0
    ensures |rents| > 0 && RentStatusCounts(rents).ongoing == |rents| ==> pct == 100
  {
    if |rents| > 0 then PercentRounded(RentStatusCounts(rents).ongoing, |rents|) else 0
  }

  /** `getStatusColor`, shared by the rent-management page and the rentals table. */
  function StatusColor(status: string): (css: string)
    ensures status == StatusCompleted ==> css == "bg-green-100 text-green-800"
    ensures status == StatusOngoing ==> css == "bg-blue-100 text-blue-800"
    ensures status == StatusPending ==> css == "bg-yellow-100 text-yellow-800"
    ensures !ValidRentStatus(status) ==> css == "bg-gray-100 text-gray-800"
  {
    match status
    case "completed" => "bg-green-100 text-green-800"
    case "ongoing" => "bg-blue-100 text-blue-800"
    case "pending" => "bg-yellow-100 text-yellow-800"
    case _ => "bg-gray-100 text-gray-800"
  }

  /** The three statuses get three different colours, and only an unknown status is gray. */
  lemma StatusColorDistinguishes(s: string, t: string)
    ensures StatusColor(s) == "bg-gray-100 text-gray-800" <==> !ValidRentStatus(s)
    ensures ValidRentStatus(s) && ValidRentStatus(t) ==> (StatusColor(s) == StatusColor(t) <==> s == t)
  {
  }

  /** The rentals table (`rents.map`): every rent in the store, whoever rented it. */
  function RentalsTable(rents: seq<Rent>): (rows: seq<Rent>)
    ensures |rows| == |rents|
    ensures forall i :: 0 <= i < |rents| ==> rows[i] == rents[i]
  {
    rents
  }

  /** The rentals table shows another customer's rent, which the customer's own rental list
      leaves out. */
  lemma RentalsTableShowsOthersRents(rent: Rent, me: string)
    requires RefId(rent.user) != Some(me)
    ensures rent in RentalsTable([rent]) && rent !in MyRents([rent], Some(me))
  {
  }
}
