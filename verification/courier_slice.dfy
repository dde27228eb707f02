/** The courier slice of the store: the courier list, the courier being
    viewed, its schedule and available slots, two loading flags and an error.
    Every reducer and every thunk case is a function from state to state. */
module CourierSlice {

  import opened Options
  import opened Js
  import opened Types
  import opened Thunks
  import opened Lists

  datatype CourierState = CourierState(
    couriers: seq<Value>,
    currentCourier: Value,
    courierSchedule: seq<TimeSlot>,
    availableTimeSlots: seq<TimeSlot>,
    loading: bool,
    error: Value,
    bookingLoading: bool)

  const InitialState := CourierState([], Null, [], [], false, Null, false)

  /** The async thunks of the slice. */
  datatype Thunk =
    | FetchCouriers
    | FetchCourierById
    | UpdateCourier
    | DeleteCourier
    | FetchCourierSchedule
    | BookCourier
    | FetchCourierByUserId
    | UpdateWorkingDays
    | GetAvailableTimeSlots
    | CancelBooking

  /** The message each thunk rejects with when the failure carries none. */
  function Fallback(t: Thunk): string {
    match t
    case FetchCouriers => "Failed to fetch couriers"
    case FetchCourierById => "Failed to fetch courier"
    case UpdateCourier => "Failed to update courier"
    case DeleteCourier => "Failed to delete courier"
    case FetchCourierSchedule => "Failed to fetch schedule"
    case BookCourier => "Failed to book courier"
    case FetchCourierByUserId => "Failed to fetch courier by user ID"
    case UpdateWorkingDays => "Failed to update working days"
    case GetAvailableTimeSlots => "Failed to get available time slots"
    case CancelBooking => "Failed to cancel booking"
  }

  /** How a thunk settles: `deleteCourier` and `cancelBooking` resolve to the
      id they were given, the others to the response body. */
  function Settle(t: Thunk, argument: string, http: Http): (r: Settled<Value>)
    ensures r.Rejected? <==> http.HttpError?
    ensures r.Rejected? ==> Truthy(r.reason)
    ensures r.Fulfilled? && (t == DeleteCourier || t == CancelBooking) ==> r.payload == Str(argument)
    ensures r.Fulfilled? && t != DeleteCourier && t != CancelBooking ==> r.payload == http.data
  {
    if t == DeleteCourier || t == CancelBooking then ReturnArgument(http, Str(argument), Fallback(t))
    else ReturnData(http, Fallback(t))
  }

  // ---------------------------------------------------------------------------
  // Pending and rejected cases
  // ---------------------------------------------------------------------------

  /** The pending case of a thunk. `bookCourier` raises its own flag, and
      `fetchCourierByUserId` has no pending case at all. */
  function PendingCase(s: CourierState, t: Thunk): (r: CourierState)
    ensures t == FetchCourierByUserId ==> r == s
    ensures t == BookCourier ==> r.bookingLoading && r.error == Null && r.loading == s.loading
    ensures t != BookCourier && t != FetchCourierByUserId ==>
      r.loading && r.error == Null && r.bookingLoading == s.bookingLoading
    ensures r.couriers == s.couriers && r.currentCourier == s.currentCourier
    ensures r.courierSchedule == s.courierSchedule && r.availableTimeSlots == s.availableTimeSlots
  {
    match t
    case FetchCourierByUserId => s
    case BookCourier => s.(bookingLoading := true, error := Null)
    case _ => s.(loading := true, error := Null)
  }

  /** The rejected case of a thunk: the error is recorded and the thunk's own
      flag is lowered (`fetchCourierByUserId` has none). */
  function RejectedCase(s: CourierState, t: Thunk, reason: Value): (r: CourierState)
    ensures r.error == reason
    ensures t == FetchCourierByUserId ==> r.loading == s.loading && r.bookingLoading == s.bookingLoading
    ensures t == BookCourier ==> !r.bookingLoading && r.loading == s.loading
    ensures t != BookCourier && t != FetchCourierByUserId ==> !r.loading && r.bookingLoading == s.bookingLoading
    ensures r.couriers == s.couriers && r.currentCourier == s.currentCourier
    ensures r.courierSchedule == s.courierSchedule && r.availableTimeSlots == s.availableTimeSlots
  {
    match t
    case FetchCourierByUserId => s.(error := reason)
    case BookCourier => s.(bookingLoading := false, error := reason)
    case _ => s.(loading := false, error := reason)
  }

  // ---------------------------------------------------------------------------
  // Fulfilled cases
  // ---------------------------------------------------------------------------

  /** `fetchCouriers.fulfilled`: the courier list is the `data` of each
      resource, in order. */
  function FetchCouriersFulfilled(s: CourierState, resources: seq<Value>): (r: CourierState)
    ensures |r.couriers| == |resources|
    ensures forall i :: 0 <= i < |resources| ==> r.couriers[i] == Get(resources[i], "data")
    ensures r == s.(loading := false, couriers := r.couriers)
  {
    s.(loading := false, couriers := seq(|resources|, i requires 0 <= i < |resources| => Get(resources[i], "data")))
  }

  /** `fetchCourierById.fulfilled`. */
  function FetchCourierByIdFulfilled(s: CourierState, courier: Value): (r: CourierState)
    ensures !r.loading && r.currentCourier == courier
    ensures r == s.(loading := false, currentCourier := courier)
  {
    s.(loading := false, currentCourier := courier)
  }

  /** `courier.id === id`. */
  function HasId(id: Value): Value -> bool {
    c => Get(c, "id") == id
  }

  /** `updateCourier.fulfilled`: the viewed courier becomes the payload, and so
      does the first listed courier with its id. */
  function UpdateCourierFulfilled(s: CourierState, updated: Value): (r: CourierState)
    ensures !r.loading && r.currentCourier == updated
    ensures |r.couriers| == |s.couriers|
    ensures (forall i :: 0 <= i < |s.couriers| ==> Get(s.couriers[i], "id") != Get(updated, "id")) ==>
      r.couriers == s.couriers
    ensures forall i :: 0 <= i < |s.couriers| && Get(s.couriers[i], "id") == Get(updated, "id")
                        && (forall k :: 0 <= k < i ==> Get(s.couriers[k], "id") != Get(updated, "id")) ==>
      r.couriers == s.couriers[i := updated]
    ensures r.courierSchedule == s.courierSchedule && r.error == s.error
    ensures r.availableTimeSlots == s.availableTimeSlots && r.bookingLoading == s.bookingLoading
  {
    s.(loading := false, currentCourier := updated, couriers := ReplaceFirst(s.couriers, HasId(Get(updated, "id")), _ => updated))
  }

  /** `deleteCourier.fulfilled`: every courier with the id goes, and the viewed
      courier is cleared only when it has that id. */
  function DeleteCourierFulfilled(s: CourierState, id: string): (r: CourierState)
    ensures !r.loading
    ensures forall i :: 0 <= i < |r.couriers| ==> Get(r.couriers[i], "id") != Str(id) && r.couriers[i] in s.couriers
    ensures forall i :: 0 <= i < |s.couriers| && Get(s.couriers[i], "id") != Str(id) ==> s.couriers[i] in r.couriers
    ensures Get(s.currentCourier, "id") == Str(id) ==> r.currentCourier == Null
    ensures Get(s.currentCourier, "id") != Str(id) ==> r.currentCourier == s.currentCourier
    ensures r.courierSchedule == s.courierSchedule && r.error == s.error
    ensures r.availableTimeSlots == s.availableTimeSlots && r.bookingLoading == s.bookingLoading
  {
    var couriers := Filter(s.couriers, c => Get(c, "id") != Str(id));
    s.(loading := false, couriers := couriers,
       currentCourier := if Get(s.currentCourier, "id") == Str(id) then Null else s.currentCourier)
  }

  lemma DeleteCourierIdempotent(s: CourierState, id: string)
    ensures DeleteCourierFulfilled(DeleteCourierFulfilled(s, id), id) == DeleteCourierFulfilled(s, id)
  {
    FilterIdempotent(s.couriers, c => Get(c, "id") != Str(id));
  }

  function FetchCourierScheduleFulfilled(s: CourierState, schedule: seq<TimeSlot>): (r: CourierState)
    ensures !r.loading && r.courierSchedule == schedule
    ensures r == s.(loading := false, courierSchedule := schedule)
  {
    s.(loading := false, courierSchedule := schedule)
  }

  /** `bookCourier.fulfilled`: the first slot with the booked slot's id is
      replaced by it; without such a slot the schedule stays. */
  function BookCourierFulfilled(s: CourierState, booked: TimeSlot): (r: CourierState)
    ensures !r.bookingLoading && r.loading == s.loading
    ensures |r.courierSchedule| == |s.courierSchedule|
    ensures (forall i :: 0 <= i < |s.courierSchedule| ==> s.courierSchedule[i].id != booked.id) ==>
      r.courierSchedule == s.courierSchedule
    ensures forall i :: 0 <= i < |s.courierSchedule| && s.courierSchedule[i].id == booked.id
                        && (forall k :: 0 <= k < i ==> s.courierSchedule[k].id != booked.id) ==>
      r.courierSchedule == s.courierSchedule[i := booked]
    ensures r.couriers == s.couriers && r.currentCourier == s.currentCourier
    ensures r.error == s.error && r.availableTimeSlots == s.availableTimeSlots
  {
    var schedule := ReplaceFirst(s.courierSchedule, (slot: TimeSlot) => slot.id == booked.id, _ => booked);
    s.(bookingLoading := false, courierSchedule := schedule)
  }

  /** `fetchCourierByUserId.fulfilled`: only the viewed courier changes. */
  function FetchCourierByUserIdFulfilled(s: CourierState, courier: Value): (r: CourierState)
    ensures r.currentCourier == courier
    ensures r == s.(currentCourier := courier)
  {
    s.(currentCourier := courier)
  }

  /** `updateWorkingDays.fulfilled`: the viewed courier, if any, takes the
      payload's working days; nothing else about it changes. */
  function UpdateWorkingDaysFulfilled(s: CourierState, payload: Value): (r: CourierState)
    ensures !r.loading
    ensures !Truthy(s.currentCourier) ==> r.currentCourier == s.currentCourier
    ensures s.currentCourier.Obj? ==>
      && r.currentCourier.Obj?
      && Get(r.currentCourier, "workingDays") == Get(payload, "workingDays")
      && forall k :: k != "workingDays" ==> Get(r.currentCourier, k) == Get(s.currentCourier, k)
    ensures r.couriers == s.couriers && r.courierSchedule == s.courierSchedule && r.error == s.error
    ensures r.availableTimeSlots == s.availableTimeSlots && r.bookingLoading == s.bookingLoading
  {
    var current := if Truthy(s.currentCourier) then SetField(s.currentCourier, "workingDays", Get(payload, "workingDays"))
                   else s.currentCourier;
    s.(loading := false, currentCourier := current)
  }

  function GetAvailableTimeSlotsFulfilled(s: CourierState, slots: seq<TimeSlot>): (r: CourierState)
    ensures !r.loading && r.availableTimeSlots == slots
    ensures r == s.(loading := false, availableTimeSlots := slots)
  {
    s.(loading := false, availableTimeSlots := slots)
  }

  /** `{...slot, isBooked: false, userId: undefined}` for the cancelled slot. */
  function Cancelled(slot: TimeSlot, id: string): (r: TimeSlot)
    ensures slot.id == id ==> r == slot.(isBooked := false, userId := None)
    ensures slot.id != id ==> r == slot
  {
    if slot.id == id then slot.(isBooked := false, userId := None) else slot
  }

  /** `cancelBooking.fulfilled`: every slot with the id is freed; the others and
      the order stay. */
  function CancelBookingFulfilled(s: CourierState, id: string): (r: CourierState)
    ensures !r.loading
    ensures |r.courierSchedule| == |s.courierSchedule|
    ensures forall i :: 0 <= i < |s.courierSchedule| ==>
      if s.courierSchedule[i].id == id then
        r.courierSchedule[i] == s.courierSchedule[i].(isBooked := false, userId := None)
      else r.courierSchedule[i] == s.courierSchedule[i]
    ensures r.couriers == s.couriers && r.currentCourier == s.currentCourier && r.error == s.error
    ensures r.availableTimeSlots == s.availableTimeSlots && r.bookingLoading == s.bookingLoading
  {
    var schedule := s.courierSchedule;
    s.(loading := false, courierSchedule := seq(|schedule|, i requires 0 <= i < |schedule| => Cancelled(schedule[i], id)))
  }

  lemma CancelBookingIdempotent(s: CourierState, id: string)
    ensures CancelBookingFulfilled(CancelBookingFulfilled(s, id), id) == CancelBookingFulfilled(s, id)
  {
  }

  // ---------------------------------------------------------------------------
  // Plain reducers
  // ---------------------------------------------------------------------------

  /** `updateCourierProfile`: spread the changes over the viewed courier, if
      there is one. */
  function UpdateCourierProfile(s: CourierState, changes: Value): (r: CourierState)
    ensures !Truthy(s.currentCourier) ==> r == s
    ensures Truthy(s.currentCourier) ==>
      && r.currentCourier.Obj?
      && (forall k :: k in Fields(changes) ==> Get(r.currentCourier, k) == Fields(changes)[k])
      && (forall k :: k !in Fields(changes) ==> Get(r.currentCourier, k) == Get(s.currentCourier, k))
    ensures r == s.(currentCourier := r.currentCourier)
  {
    if Truthy(s.currentCourier) then s.(currentCourier := Merge(s.currentCourier, changes)) else s
  }

  /** `addTimeSlot`: the slot goes at the end. */
  function AddTimeSlot(s: CourierState, slot: TimeSlot): (r: CourierState)
    ensures |r.courierSchedule| == |s.courierSchedule| + 1
    ensures r.courierSchedule[..|s.courierSchedule|] == s.courierSchedule
    ensures r.courierSchedule[|s.courierSchedule|] == slot
    ensures r == s.(courierSchedule := r.courierSchedule)
  {
    s.(courierSchedule := s.courierSchedule + [slot])
  }

  /** `removeTimeSlot`: every slot with the id goes. */
  function RemoveTimeSlot(s: CourierState, id: string): (r: CourierState)
    ensures forall i :: 0 <= i < |r.courierSchedule| ==> r.courierSchedule[i].id != id && r.courierSchedule[i] in s.courierSchedule
    ensures forall i :: 0 <= i < |s.courierSchedule| && s.courierSchedule[i].id != id ==> s.courierSchedule[i] in r.courierSchedule
    ensures r == s.(courierSchedule := r.courierSchedule)
  {
    s.(courierSchedule := Filter(s.courierSchedule, (slot: TimeSlot) => slot.id != id))
  }

  /** Removing by id undoes adding a slot with that id. */
  lemma RemoveUndoesAdd(s: CourierState, slot: TimeSlot)
    ensures RemoveTimeSlot(AddTimeSlot(s, slot), slot.id) == RemoveTimeSlot(s, slot.id)
  {
    var keep := (t: TimeSlot) => t.id != slot.id;
    FilterConcat(s.courierSchedule, [slot], keep);
    assert [slot][..0] == [];
  }

  function ClearSchedule(s: CourierState): (r: CourierState)
    ensures r.courierSchedule == []
    ensures r == s.(courierSchedule := [])
  {
    s.(courierSchedule := [])
  }

  // ---------------------------------------------------------------------------
  // The reducer
  // ---------------------------------------------------------------------------

  datatype Action =
    | ClearError
    | SetCurrentCourier(courier: Value)
    | ClearCurrentCourier
    | UpdateCourierProfileAction(changes: Value)
    | AddTimeSlotAction(slot: TimeSlot)
    | RemoveTimeSlotAction(id: string)
    | ClearScheduleAction
    | Pending(thunk: Thunk)
    | Rejected(thunk: Thunk, reason: Value)
    | CouriersFetched(resources: seq<Value>)
    | CourierFetched(courier: Value)
    | CourierUpdated(updated: Value)
    | CourierDeleted(id: string)
    | ScheduleFetched(schedule: seq<TimeSlot>)
    | CourierBooked(booked: TimeSlot)
    | CourierOfUserFetched(courier: Value)
    | WorkingDaysUpdated(payload: Value)
    | AvailableSlotsFetched(slots: seq<TimeSlot>)
    | BookingCancelled(id: string)

  /** The slice's reducer. Only a pending `bookCourier` raises the booking
      flag; the error changes only through `clearError`, a pending case or a
      rejected case; the schedule and the courier list each change only
      through the actions that are about them. */
  function Reduce(s: CourierState, a: Action): (r: CourierState)
    ensures a == Pending(BookCourier) ==> r.bookingLoading
    ensures a != Pending(BookCourier) && r.bookingLoading ==> s.bookingLoading
    ensures !(a.ClearError? || a.Pending? || a.Rejected?) ==> r.error == s.error
    ensures !(a.AddTimeSlotAction? || a.RemoveTimeSlotAction? || a.ClearScheduleAction? || a.ScheduleFetched? || a.CourierBooked? || a.BookingCancelled?) ==>
      r.courierSchedule == s.courierSchedule
    ensures !(a.CouriersFetched? || a.CourierUpdated? || a.CourierDeleted?) ==> r.couriers == s.couriers
  {
    match a
    case ClearError => s.(error := Null)
    case SetCurrentCourier(c) => s.(currentCourier := c)
    case ClearCurrentCourier => s.(currentCourier := Null)
    case UpdateCourierProfileAction(changes) => UpdateCourierProfile(s, changes)
    case AddTimeSlotAction(slot) => AddTimeSlot(s, slot)
    case RemoveTimeSlotAction(id) => RemoveTimeSlot(s, id)
    case ClearScheduleAction => ClearSchedule(s)
    case Pending(t) => PendingCase(s, t)
    case Rejected(t, reason) => RejectedCase(s, t, reason)
    case CouriersFetched(resources) => FetchCouriersFulfilled(s, resources)
    case CourierFetched(c) => FetchCourierByIdFulfilled(s, c)
    case CourierUpdated(c) => UpdateCourierFulfilled(s, c)
    case CourierDeleted(id) => DeleteCourierFulfilled(s, id)
    case ScheduleFetched(schedule) => FetchCourierScheduleFulfilled(s, schedule)
    case CourierBooked(slot) => BookCourierFulfilled(s, slot)
    case CourierOfUserFetched(c) => FetchCourierByUserIdFulfilled(s, c)
    case WorkingDaysUpdated(payload) => UpdateWorkingDaysFulfilled(s, payload)
    case AvailableSlotsFetched(slots) => GetAvailableTimeSlotsFulfilled(s, slots)
    case BookingCancelled(id) => CancelBookingFulfilled(s, id)
  }

  /** A booking in flight never touches the general loading flag, so it does
      not hide the list behind a spinner, and its failure leaves the schedule
      as it was. */
  lemma FailedBookingKeepsSchedule(s: CourierState, http: Http)
    requires http.HttpError?
    ensures var r := Reduce(Reduce(s, Pending(BookCourier)), Action.Rejected(BookCourier, Settle(BookCourier, "", http).reason));
      && r.loading == s.loading && !r.bookingLoading
      && r.courierSchedule == s.courierSchedule
      && Truthy(r.error)
  {
  }

  /** The booking spinner shows only after a booking was started: a run
      without a pending `bookCourier` never raises it. */
  lemma {:induction false} BookingSpinnerOnlyFromBooking(s: CourierState, actions: seq<Action>)
    requires !s.bookingLoading
    requires forall i :: 0 <= i < |actions| ==> actions[i] != Pending(BookCourier)
    ensures !Replay(Reduce, s, actions).bookingLoading
  {
    ReplayPreserves(Reduce, (x: CourierState) => !x.bookingLoading, (a: Action) => a != Pending(BookCourier), s, actions);
  }
}
