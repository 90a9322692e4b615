/** The four record slices of the Redux store (rents, bids, cars, users). They share one
    shape: a list of records keyed by `_id`, a "current" record, and `loading`/`error`
    flags. The slice class below is that shape, instantiated per record type in Stores. */
module RecordStore {
  import opened Seqs

  /** The five async thunks every slice defines. */
  datatype Thunk = GetAll | GetById | Create | Update | Delete

  /** `items.findIndex(x => key(x) === id)`, with -1 as None. */
  function FirstIndex<T>(items: seq<T>, key: T -> string, id: string): (r: Option<nat>)
    ensures r.Some? ==> r.value < |items| && key(items[r.value]) == id
    ensures r.Some? ==> forall j :: 0 <= j < r.value ==> key(items[j]) != id
    ensures r.None? ==> forall j :: 0 <= j < |items| ==> key(items[j]) != id
  {
    if items == [] then None
    else if key(items[0]) == id then Some(0)
    else
      match FirstIndex(items[1..], key, id)
      case None => None
      case Some(k) => Some(k + 1)
  }

  /** The update case: the first record with the payload's id is overwritten by the payload. */
  function ReplaceFirst<T>(items: seq<T>, key: T -> string, rec: T): (r: seq<T>)
    ensures |r| == |items|
  {
    match FirstIndex(items, key, key(rec))
    case None => items
    case Some(k) => items[k := rec]
  }

  /** The predicate "key(x) !== id" that the delete case filters by. */
  function KeyIsNot<T>(key: T -> string, id: string): T -> bool
  {
    x => key(x) != id
  }

  /** The delete case: `items.filter(x => key(x) !== id)`. */
  function RemoveId<T>(items: seq<T>, key: T -> string, id: string): (r: seq<T>)
  {
    Filter(items, KeyIsNot(key, id))
  }

  /** Only the first matching slot changes; with no match nothing changes. Records with
      another id are never touched, so updating one bid cascades to none of its siblings. */
  lemma ReplaceFirstOnlyFirstMatch<T>(items: seq<T>, key: T -> string, rec: T)
    ensures FirstIndex(items, key, key(rec)).None? ==> ReplaceFirst(items, key, rec) == items
    ensures FirstIndex(items, key, key(rec)).Some? ==>
      var k := FirstIndex(items, key, key(rec)).value;
      ReplaceFirst(items, key, rec)[k] == rec &&
      forall j :: 0 <= j < |items| && j != k ==> ReplaceFirst(items, key, rec)[j] == items[j]
    ensures forall j :: 0 <= j < |items| && key(items[j]) != key(rec) ==>
      ReplaceFirst(items, key, rec)[j] == items[j]
  {
  }

  /** The payload is in the list afterwards exactly when some record already had its id
      (or the payload itself was there): an update never inserts. */
  lemma ReplaceFirstContains<T>(items: seq<T>, key: T -> string, rec: T)
    ensures rec in ReplaceFirst(items, key, rec) <==>
      (rec in items || exists j :: 0 <= j < |items| && key(items[j]) == key(rec))
  {
    var r := ReplaceFirst(items, key, rec);
    match FirstIndex(items, key, key(rec))
    case None =>
    case Some(k) =>
      assert r[k] == rec;
  }

  /** Applying the same update twice is the same as applying it once. */
  lemma ReplaceFirstIdempotent<T>(items: seq<T>, key: T -> string, rec: T)
    ensures ReplaceFirst(ReplaceFirst(items, key, rec), key, rec) == ReplaceFirst(items, key, rec)
  {
    var r := ReplaceFirst(items, key, rec);
    match FirstIndex(items, key, key(rec))
    case None =>
    case Some(k) =>
      assert forall j :: 0 <= j < k ==> r[j] == items[j];
      assert key(r[k]) == key(rec);
      var k' := FirstIndex(r, key, key(rec));
      assert k'.Some?;
      assert k'.value == k;
  }

  /** Nothing with the deleted id survives, every other record does, and the survivors
      keep their order. */
  lemma RemoveIdCorrect<T>(items: seq<T>, key: T -> string, id: string)
    ensures forall j :: 0 <= j < |RemoveId(items, key, id)| ==> key(RemoveId(items, key, id)[j]) != id
    ensures forall j :: 0 <= j < |items| && key(items[j]) != id ==> items[j] in RemoveId(items, key, id)
    ensures Subseq(RemoveId(items, key, id), items)
  {
    FilterIsSubseq(items, KeyIsNot(key, id));
  }

  /** Deleting an id twice is deleting it once. */
  lemma RemoveIdIdempotent<T>(items: seq<T>, key: T -> string, id: string)
    ensures RemoveId(RemoveId(items, key, id), key, id) == RemoveId(items, key, id)
  {
    FilterIdempotent(items, KeyIsNot(key, id));
  }

  /** Exactly the records carrying the id are dropped. */
  lemma {:induction false} RemoveIdLength<T>(items: seq<T>, key: T -> string, id: string)
    ensures |RemoveId(items, key, id)| + Count(items, KeyIs(key, id)) == |items|
  {
    if items != [] {
      RemoveIdLength(items[1..], key, id);
    }
  }

  /** `Array.prototype.findIndex` as the update case runs it: a left-to-right scan. */
  method FindIndex<T>(items: seq<T>, key: T -> string, id: string) returns (r: Option<nat>)
    ensures r == FirstIndex(items, key, id)
  {
    var i := 0;
    while i < |items| && key(items[i]) != id
      invariant 0 <= i <= |items|
      invariant forall j :: 0 <= j < i ==> key(items[j]) != id
    {
      i := i + 1;
    }
    r := if i < |items| then Some(i) else None;
  }

  /** One slice of the store. `tracksMutations` is set for the user slice, the only one that
      registers pending and rejected cases for create, update and delete. */
  class Slice<T> {
    const key: T -> string
    const tracksMutations: bool
    var items: seq<T>
    var current: Option<T>
    var loading: bool
    var error: Option<string>

    /** The initial state: no records, no current record, not loading, no error. */
    constructor (key: T -> string, tracksMutations: bool)
      ensures this.key == key && this.tracksMutations == tracksMutations
      ensures items == [] && current == None && !loading && error == None
    {
      this.key := key;
      this.tracksMutations := tracksMutations;
      items := [];
      current := None;
      loading := false;
      error := None;
    }

    /** Whether the slice registers a pending/rejected case for thunk `t`. */
    predicate Handles(t: Thunk)
    {
      t == GetAll || t == GetById || tracksMutations
    }

    /** `clearError`: only `error` changes. */
    method ClearError()
      modifies this
      ensures error == None
      ensures items == old(items) && current == old(current) && loading == old(loading)
    {
      error := None;
    }

    /** `setCurrentX`: only the current record changes. */
    method SetCurrent(rec: Option<T>)
      modifies this
      ensures current == rec
      ensures items == old(items) && loading == old(loading) && error == old(error)
    {
      current := rec;
    }

    /** A registered pending case sets `loading` and clears `error`; an unregistered one is ignored. */
    method Pending(t: Thunk)
      modifies this
      ensures Handles(t) ==> loading && error == None
      ensures !Handles(t) ==> loading == old(loading) && error == old(error)
      ensures items == old(items) && current == old(current)
    {
      if Handles(t) {
        loading := true;
        error := None;
      }
    }

    /** A registered rejected case clears `loading` and stores the message; an unregistered one is ignored. */
    method Rejected(t: Thunk, message: string)
      modifies this
      ensures Handles(t) ==> !loading && error == Some(message)
      ensures !Handles(t) ==> loading == old(loading) && error == old(error)
      ensures items == old(items) && current == old(current)
    {
      if Handles(t) {
        loading := false;
        error := Some(message);
      }
    }

    /** getAll fulfilled: the list is replaced wholesale and `loading` cleared. */
    method GetAllFulfilled(payload: seq<T>)
      modifies this
      ensures items == payload && !loading
      ensures current == old(current) && error == old(error)
    {
      loading := false;
      items := payload;
    }

    /** getById fulfilled: the payload becomes the current record and `loading` is cleared. */
    method GetByIdFulfilled(rec: T)
      modifies this
      ensures current == Some(rec) && !loading
      ensures items == old(items) && error == old(error)
    {
      loading := false;
      current := Some(rec);
    }

    /** create fulfilled: the payload is pushed at the end; the flags are left alone. */
    method CreateFulfilled(rec: T)
      modifies this
      ensures items == old(items) + [rec]
      ensures current == old(current) && loading == old(loading) && error == old(error)
    {
      items := items + [rec];
    }

    /** update fulfilled: the first record with the payload's id is overwritten, and the
        current record follows only when its id matches. The flags are left alone. */
    method UpdateFulfilled(rec: T)
      modifies this
      ensures items == ReplaceFirst(old(items), key, rec)
      ensures current == if old(current).Some? && key(old(current).value) == key(rec)
                         then Some(rec) else old(current)
      ensures loading == old(loading) && error == old(error)
    {
      var index := FindIndex(items, key, key(rec));
      if index.Some? {
        items := items[index.value := rec];
      }
      if current.Some? && key(current.value) == key(rec) {
        current := Some(rec);
      }
    }

    /** delete fulfilled: every record with the id is filtered out, and a current record
        with that id is dropped. The flags are left alone. */
    method DeleteFulfilled(id: string)
      modifies this
      ensures items == RemoveId(old(items), key, id)
      ensures current == if old(current).Some? && key(old(current).value) == id
                         then None else old(current)
      ensures loading == old(loading) && error == old(error)
    {
      items := RemoveId(items, key, id);
      if current.Some? && key(current.value) == id {
        current := None;
      }
    }
  }
}
