/** The four slices as the store creates them: rents, bids and cars register only the
    getAll/getById pending and rejected cases; the user slice registers them for every thunk. */
module Stores {
  import opened Seqs
  import opened Domain
  import opened RecordStore

  method NewRentSlice() returns (s: Slice<Rent>)
    ensures fresh(s) && s.key == RentId && !s.tracksMutations
    ensures s.items == [] && s.current == None && !s.loading && s.error == None
  {
    s := new Slice<Rent>(RentId, false);
  }

  method NewBidSlice() returns (s: Slice<Bid>)
    ensures fresh(s) && s.key == BidId && !s.tracksMutations
    ensures s.items == [] && s.current == None && !s.loading && s.error == None
  {
    s := new Slice<Bid>(BidId, false);
  }

  method NewCarSlice() returns (s: Slice<Car>)
    ensures fresh(s) && s.key == CarId && !s.tracksMutations
    ensures s.items == [] && s.current == None && !s.loading && s.error == None
  {
    s := new Slice<Car>(CarId, false);
  }

  method NewUserSlice() returns (s: Slice<User>)
    ensures fresh(s) && s.key == UserId && s.tracksMutations
    ensures s.items == [] && s.current == None && !s.loading && s.error == None
  {
    s := new Slice<User>(UserId, true);
  }

  /** In the user slice a create, update or delete that succeeds leaves `loading` set by its
      pending case: the fulfilled cases never reset it. */
  method UserMutationLeavesLoading(t: Thunk, u: User) returns (stillLoading: bool)
    requires t == Create || t == Update || t == Delete
    ensures stillLoading
  {
    var s := NewUserSlice();
    s.Pending(t);
    match t {
      case Create => s.CreateFulfilled(u);
      case Update => s.UpdateFulfilled(u);
      case Delete => s.DeleteFulfilled(u.id);
    }
    stillLoading := s.loading;
  }

  /** In the rent slice a rejected create is not registered: the failure never reaches
      `error`, so the rent form has no error to show for it. */
  method RentCreateFailureNotRecorded(message: string) returns (recorded: Option<string>)
    ensures recorded == None
  {
    var s := NewRentSlice();
    s.Pending(Create);
    s.Rejected(Create, message);
    recorded := s.error;
  }

  /** Accepting one bid through the bid slice changes that bid only: a pending sibling on
      the same rent stays pending after the accepted copy is stored. */
  method AcceptDoesNotCascade(rentId: string, a: Bid, b: Bid) returns (siblingStatus: string)
    requires a.id != b.id && a.rentId == Raw(rentId) && b.rentId == Raw(rentId)
    requires a.bidStatus == StatusPending && b.bidStatus == StatusPending
    ensures siblingStatus == StatusPending
  {
    var s := NewBidSlice();
    s.GetAllFulfilled([a, b]);
    s.UpdateFulfilled(a.(bidStatus := StatusAccepted));
    ReplaceFirstOnlyFirstMatch([a, b], BidId, a.(bidStatus := StatusAccepted));
    siblingStatus := s.items[1].bidStatus;
  }
}
