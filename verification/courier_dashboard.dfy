/** The courier's dashboard: the list of the other couriers, the signed-in
    courier's full record, and the count of booked slots. */
module CourierDashboard {

  import opened Options
  import opened Js
  import opened Types
  import opened Lists
  import UserDashboard

  /** `item?.data || item`: a resource envelope is unwrapped to its payload. */
  function Unwrap(item: Value): (r: Value)
    ensures Truthy(Get(item, "data")) ==> r == Get(item, "data")
    ensures !Truthy(Get(item, "data")) ==> r == item
  {
    Or(Get(item, "data"), item)
  }

  /** `typeof v === "object"` for a truthy value. */
  predicate IsObjectLike(v: Value) {
    v.Obj? || v.Arr? || v.File?
  }

  /** The array the list is read from: `response.data` if it is an array, else
      `response.data.data`, else the response itself; otherwise nothing. */
  function RawCouriers(response: Value): (r: seq<Value>)
    ensures Get(response, "data").Arr? ==> r == Get(response, "data").items
    ensures !Get(response, "data").Arr? && Get(Get(response, "data"), "data").Arr? ==>
      r == Get(Get(response, "data"), "data").items
    ensures !Get(response, "data").Arr? && !Get(Get(response, "data"), "data").Arr? && response.Arr? ==>
      r == response.items
    ensures !Get(response, "data").Arr? && !Get(Get(response, "data"), "data").Arr? && !response.Arr? ==> r == []
  {
    if !(Truthy(response) && IsObjectLike(response)) then []
    else if Get(response, "data").Arr? then Get(response, "data").items
    else if Get(Get(response, "data"), "data").Arr? then Get(Get(response, "data"), "data").items
    else if response.Arr? then response.items
    else []
  }

  /** The filter on the unwrapped list: a courier record with an id or an
      email that is not the signed-in user's. */
  predicate IsOtherCourier(courier: Value, userId: Value) {
    && Truthy(courier)
    && (Truthy(Get(courier, "id")) || Truthy(Get(courier, "email")))
    && Get(courier, "userId") != userId
  }

  /** `loadOtherCouriers` for the signed-in user's id `userId` (`user?.id`). A
      failed request leaves the list empty. */
  function LoadOtherCouriers(response: UserDashboard.Response, userId: Value): (r: seq<Value>)
    ensures response.Failed? ==> r == []
    ensures forall i :: 0 <= i < |r| ==> IsOtherCourier(r[i], userId)
    ensures response.Responded? ==>
      forall i :: 0 <= i < |r| ==> exists k :: 0 <= k < |RawCouriers(response.raw)| && r[i] == Unwrap(RawCouriers(response.raw)[k])
    ensures response.Responded? ==>
      forall k :: 0 <= k < |RawCouriers(response.raw)| && IsOtherCourier(Unwrap(RawCouriers(response.raw)[k]), userId) ==>
        Unwrap(RawCouriers(response.raw)[k]) in r
  {
    if response.Failed? then []
    else
      var raw := RawCouriers(response.raw);
      var unwrapped := seq(|raw|, i requires 0 <= i < |raw| => Unwrap(raw[i]));
      var r := Filter(unwrapped, c => IsOtherCourier(c, userId));
      assert forall i :: 0 <= i < |r| ==> r[i] in unwrapped;
      assert forall k :: 0 <= k < |raw| && IsOtherCourier(Unwrap(raw[k]), userId) ==> unwrapped[k] in r;
      r
  }

  /** With nobody signed in (`user?.id` undefined), a courier record without a
      `userId` is dropped as well. */
  lemma UnlinkedDroppedWithoutUser(response: UserDashboard.Response, courier: Value)
    requires Get(courier, "userId") == Undefined
    ensures courier !in LoadOtherCouriers(response, Undefined)
  {
  }

  /** The three response shapes with the same elements give the same list. */
  lemma OtherCouriersShapesAgree(items: seq<Value>, userId: Value)
    ensures LoadOtherCouriers(UserDashboard.Responded(Obj(map["data" := Arr(items)])), userId)
         == LoadOtherCouriers(UserDashboard.Responded(Arr(items)), userId)
    ensures LoadOtherCouriers(UserDashboard.Responded(Obj(map["data" := Obj(map["data" := Arr(items)])])), userId)
         == LoadOtherCouriers(UserDashboard.Responded(Arr(items)), userId)
  {
    assert RawCouriers(Obj(map["data" := Arr(items)])) == items;
    assert RawCouriers(Obj(map["data" := Obj(map["data" := Arr(items)])])) == items;
    assert RawCouriers(Arr(items)) == items;
  }

  /** `loadFullCourierInfo`: the first element of `response.data.data ||
      response.data`, unwrapped, when that is a non-empty array. Reading
      `.data` of a null first element throws, and the error is swallowed, as
      is a failed request: `None` means the record is not set. */
  function LoadFullCourierInfo(response: UserDashboard.Response): (r: Option<Value>)
    ensures response.Failed? ==> r == None
    ensures r.Some? ==>
      var data := Or(Get(Get(response.raw, "data"), "data"), Get(response.raw, "data"));
      && data.Arr? && |data.items| > 0
      && r.value == Unwrap(data.items[0])
      && !(data.items[0].Null? || data.items[0].Undefined?)
    ensures response.Responded? ==>
      var data := Or(Get(Get(response.raw, "data"), "data"), Get(response.raw, "data"));
      data.Arr? && |data.items| > 0 && !(data.items[0].Null? || data.items[0].Undefined?) ==> r.Some?
  {
    if response.Failed? then None
    else
      var data := Or(Get(Get(response.raw, "data"), "data"), Get(response.raw, "data"));
      if data.Arr? && |data.items| > 0 then
        match Read(data.items[0], "data")
        case None => None
        case Some(inner) => Some(Or(inner, data.items[0]))
      else None
  }

  // ---------------------------------------------------------------------------
  // Booked slots
  // ---------------------------------------------------------------------------

  function IsBooked(slot: TimeSlot): bool {
    slot.isBooked
  }

  /** `bookings.filter((b) => b.isBooked)`. */
  function BookedSlots(bookings: seq<TimeSlot>): seq<TimeSlot> {
    Filter(bookings, IsBooked)
  }

  /** `getTotalBookings`, counted in one pass. */
  method GetTotalBookings(bookings: seq<TimeSlot>) returns (total: nat)
    ensures total == |BookedSlots(bookings)|
    ensures total <= |bookings|
  {
    total := 0;
    var i := 0;
    while i < |bookings|
      invariant 0 <= i <= |bookings|
      invariant total == |Filter(bookings[..i], IsBooked)|
    {
      assert bookings[..i + 1][..i] == bookings[..i];
      if bookings[i].isBooked {
        total := total + 1;
      }
      i := i + 1;
    }
    assert bookings[..i] == bookings;
  }

  /** The count adds up over a schedule split in two. */
  lemma TotalBookingsSplit(a: seq<TimeSlot>, b: seq<TimeSlot>)
    ensures |BookedSlots(a + b)| == |BookedSlots(a)| + |BookedSlots(b)|
  {
    FilterConcat(a, b, IsBooked);
  }
}
