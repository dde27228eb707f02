/** The booking and availability logic of the user dashboard: half-hour slots
    of a courier's working day, the end time of a booking, the slot-taken and
    double-booking checks, the guard in front of a booking request, the
    normalisation of the courier list and the user's own bookings. */
module UserDashboard {

  import opened Options
  import opened Text
  import opened Js
  import opened Types

  // ---------------------------------------------------------------------------
  // Slot generation
  // ---------------------------------------------------------------------------

  /** `s.split(":")[0]`: the text before the first colon. */
  function BeforeColon(s: string): (r: string)
    ensures |r| <= |s| && r == s[..|r|]
    ensures ':' !in r
    ensures |r| < |s| ==> s[|r|] == ':'
  {
    if |s| == 0 || s[0] == ':' then "" else [s[0]] + BeforeColon(s[1..])
  }

  /** `parseInt(time.split(":")[0])`; `None` is NaN. */
  function HourOf(time: string): Option<int> {
    ParseIntPrefix(BeforeColon(time))
  }

  /** The k-th half-hour label counted from hour `s`. */
  function Slot(s: int, k: int): string {
    FormatHM(s + k / 2, 30 * (k % 2))
  }

  /** Reference definition: every half hour from `s`:00 up to, not including,
      `e`:00. */
  function SlotTimes(s: int, e: int): seq<string> {
    if s < e then SlotPrefix(s, 2 * (e - s)) else []
  }

  /** The slots offered for a working day. A NaN hour makes the loop condition
      false at once, so no slot is offered. */
  function SlotsOf(w: WorkingDay): seq<string> {
    match (HourOf(w.startHours), HourOf(w.endHours))
    case (Some(s), Some(e)) => SlotTimes(s, e)
    case _ => []
  }

  /** The first `n` slots counted from hour `s`. */
  function SlotPrefix(s: int, n: nat): (r: seq<string>)
    ensures |r| == n
    ensures forall k :: 0 <= k < n ==> r[k] == Slot(s, k)
  {
    seq(n, k => Slot(s, k))
  }

  lemma SlotPrefixExtend(s: int, n: nat)
    ensures SlotPrefix(s, n + 1) == SlotPrefix(s, n) + [Slot(s, n)]
  {
  }

  lemma SlotOfHalfHour(start: int, hour: int, minute: int)
    requires start <= hour && (minute == 0 || minute == 30)
    ensures Slot(start, 2 * (hour - start) + minute / 30) == FormatHM(hour, minute)
  {
    var n := 2 * (hour - start) + minute / 30;
    assert n / 2 == hour - start && n % 2 == minute / 30;
  }

  /** The inner loop of `generateTimeSlots`: the labels `hour`:00 and
      `hour`:30 appended to the slots of the earlier hours. */
  method AppendHourSlots(start: int, hour: int, prefix: seq<string>) returns (slots: seq<string>)
    requires start <= hour
    requires prefix == SlotPrefix(start, 2 * (hour - start))
    ensures slots == SlotPrefix(start, 2 * (hour - start) + 2)
  {
    slots := prefix;
    var minute := 0;
    while minute < 60
      invariant minute == 0 || minute == 30 || minute == 60
      invariant slots == SlotPrefix(start, 2 * (hour - start) + minute / 30)
      decreases 60 - minute
    {
      SlotPrefixExtend(start, 2 * (hour - start) + minute / 30);
      SlotOfHalfHour(start, hour, minute);
      slots := slots + [FormatHM(hour, minute)];
      minute := minute + 30;
    }
  }

  /** `generateTimeSlots`: a loop over the hours from the start hour up to the
      end hour, each contributing its :00 and :30 labels. */
  method GenerateTimeSlots(w: WorkingDay) returns (slots: seq<string>)
    ensures slots == SlotsOf(w)
  {
    slots := [];
    var startHour := HourOf(w.startHours);
    var endHour := HourOf(w.endHours);
    if startHour.None? || endHour.None? {
      return;
    }
    var start, end := startHour.value, endHour.value;
    var hour := start;
    while hour < end
      invariant start <= hour
      invariant hour == start || hour <= end
      invariant slots == SlotPrefix(start, 2 * (hour - start))
      decreases end - hour
    {
      slots := AppendHourSlots(start, hour, slots);
      hour := hour + 1;
    }
    assert start < end ==> hour == end;
  }

  lemma SlotLabel(s: nat, k: nat)
    requires s + k / 2 < 24
    ensures IsClockLabel(Slot(s, k))
    ensures MinuteOfDay(Slot(s, k)) == 60 * s + 30 * k
  {
    FormatHMSmall(s + k / 2, 30 * (k % 2));
  }

  /** For whole hours 0 <= s < e <= 24 the slots are 2·(e−s) zero-padded
      labels, starting at s:00, half an hour apart, strictly ascending in
      JavaScript's string order and so free of duplicates. */
  lemma SlotTimesShape(s: nat, e: nat)
    requires s < e <= 24
    ensures |SlotTimes(s, e)| == 2 * (e - s)
    ensures SlotTimes(s, e)[0] == FormatHM(s, 0)
    ensures forall k :: 0 <= k < |SlotTimes(s, e)| ==>
      IsClockLabel(SlotTimes(s, e)[k]) && MinuteOfDay(SlotTimes(s, e)[k]) == 60 * s + 30 * k
    ensures forall i, j :: 0 <= i < j < |SlotTimes(s, e)| ==> Less(SlotTimes(s, e)[i], SlotTimes(s, e)[j])
    ensures forall i, j :: 0 <= i < j < |SlotTimes(s, e)| ==> SlotTimes(s, e)[i] != SlotTimes(s, e)[j]
  {
    var r := SlotTimes(s, e);
    assert r == SlotPrefix(s, 2 * (e - s));
    assert r[0] == Slot(s, 0) == FormatHM(s, 0);
    forall k | 0 <= k < |r|
      ensures IsClockLabel(r[k]) && MinuteOfDay(r[k]) == 60 * s + 30 * k
    {
      assert r[k] == Slot(s, k) && k / 2 < e - s;
      SlotLabel(s, k);
    }
    forall i, j | 0 <= i < j < |r|
      ensures Less(r[i], r[j]) && r[i] != r[j]
    {
      assert r[i] == Slot(s, i) && i / 2 < e - s;
      assert r[j] == Slot(s, j) && j / 2 < e - s;
      SlotLabel(s, i);
      SlotLabel(s, j);
      assert MinuteOfDay(r[i]) < MinuteOfDay(r[j]);
      ClockLabelOrder(r[i], r[j]);
      if r[i] == r[j] {
        LessIrreflexive(r[i]);
      }
    }
  }

  /** `parseInt` of the hour part of a well-formed label is its hour. */
  lemma HourOfLabel(t: string)
    requires IsHHMM(t)
    ensures HourOf(t) == Some(HoursOf(t) as int)
  {
    assert t == [t[0]] + t[1..];
    assert BeforeColon(t[2..]) == "";
    assert BeforeColon(t[1..]) == [t[1]] + BeforeColon(t[2..]);
    var b := BeforeColon(t);
    assert b == t[..2];
    DigitRunExact(b, 2);
    assert b[..2] == b;
    assert b[..1] == [t[0]];
    assert DigitsValue(b[..1]) == DigitValue(t[0]) by {
      assert b[..1][..0] == [];
    }
  }

  /** Only the hour parts of the working-day bounds are used: the minutes are
      ignored, and an end hour not after the start hour yields no slot. */
  lemma WorkingDaySlots(w: WorkingDay)
    requires IsHHMM(w.startHours) && IsHHMM(w.endHours)
    ensures SlotsOf(w) == SlotTimes(HoursOf(w.startHours), HoursOf(w.endHours))
    ensures HoursOf(w.startHours) >= HoursOf(w.endHours) ==> SlotsOf(w) == []
  {
    HourOfLabel(w.startHours);
    HourOfLabel(w.endHours);
  }

  /** A 09:00–17:00 day and a 09:30–17:00 day offer the same 16 slots, from
      "09:00" to "16:30". */
  lemma NineToFiveSlots(d: WeekDay, active: bool)
    ensures SlotsOf(WorkingDay(d, "09:30", "17:00", active)) == SlotsOf(WorkingDay(d, "09:00", "17:00", active))
    ensures |SlotsOf(WorkingDay(d, "09:00", "17:00", active))| == 16
    ensures SlotsOf(WorkingDay(d, "09:00", "17:00", active))[0] == "09:00"
    ensures SlotsOf(WorkingDay(d, "09:00", "17:00", active))[15] == "16:30"
  {
    NineToFiveHours();
    WorkingDaySlots(WorkingDay(d, "09:30", "17:00", active));
    WorkingDaySlots(WorkingDay(d, "09:00", "17:00", active));
    FirstAndLastOfNineToFive();
  }

  lemma NineToFiveHours()
    ensures IsHHMM("09:30") && IsHHMM("09:00") && IsHHMM("17:00")
    ensures HoursOf("09:30") == 9 && HoursOf("09:00") == 9 && HoursOf("17:00") == 17
  {
  }

  lemma FirstAndLastOfNineToFive()
    ensures |SlotTimes(9, 17)| == 16
    ensures SlotTimes(9, 17)[0] == "09:00" && SlotTimes(9, 17)[15] == "16:30"
  {
    assert SlotTimes(9, 17)[0] == FormatHM(9, 0);
    assert SlotTimes(9, 17)[15] == FormatHM(16, 30);
    LabelDigits(9, 0);
    LabelDigits(16, 30);
  }

  // ---------------------------------------------------------------------------
  // add30Minutes
  // ---------------------------------------------------------------------------

  /** Splitting a minute count into hours modulo 24 and minutes gives its
      minute of the day. */
  lemma MinuteOfDaySplit(t: nat)
    ensures 60 * ((t / 60) % 24) + t % 60 == t % 1440
  {
    var q, r := t / 60, t % 60;
    var a, b := q / 24, q % 24;
    assert t == 60 * q + r;
    assert q == 24 * a + b;
    assert t == 1440 * a + (60 * b + r);
    assert 0 <= 60 * b + r < 1440;
  }

  /** `add30Minutes`: the label half an hour later, wrapping past midnight. */
  function Add30Minutes(time: string): (r: string)
    requires IsHHMM(time)
    ensures IsClockLabel(r)
    ensures MinuteOfDay(r) == (MinuteOfDay(time) + 30) % 1440
  {
    var total := HoursOf(time) * 60 + MinutesOf(time) + 30;
    var newHours := (total / 60) % 24;
    var newMinutes := total % 60;
    FormatHMSmall(newHours, newMinutes);
    MinuteOfDaySplit(total);
    FormatHM(newHours, newMinutes)
  }

  /** A label's successor by `add30Minutes` is the clock label whose minute of
      the day is half an hour later. */
  lemma Add30MinutesOfLabel(t: string, u: string)
    requires IsClockLabel(t) && IsClockLabel(u)
    requires MinuteOfDay(u) == (MinuteOfDay(t) + 30) % 1440
    ensures Add30Minutes(t) == u
  {
    var r := Add30Minutes(t);
    MinuteFields(HoursOf(r), MinutesOf(r), HoursOf(u), MinutesOf(u));
    FormatHMOfLabel(r);
    FormatHMOfLabel(u);
  }

  /** Slot k + 1 lies half an hour after slot k. */
  lemma NextSlotMinute(s: nat, k: nat)
    requires s + (k + 1) / 2 < 24
    ensures IsClockLabel(Slot(s, k)) && IsClockLabel(Slot(s, k + 1))
    ensures MinuteOfDay(Slot(s, k + 1)) == (MinuteOfDay(Slot(s, k)) + 30) % 1440
  {
    NextSlotBound(s, k);
    SlotLabel(s, k);
    SlotLabel(s, k + 1);
  }

  lemma NextSlotBound(s: nat, k: nat)
    requires s + (k + 1) / 2 < 24
    ensures s + k / 2 < 24
    ensures (60 * s + 30 * k + 30) % 1440 == 60 * s + 30 * (k + 1)
  {
    var q := (k + 1) / 2;
    assert k + 1 <= 2 * q + 1;
    assert 60 * s + 30 * (k + 1) <= 60 * (s + q) + 30 < 1440;
  }

  /** The end of a booking that starts at a slot is the next slot of the day. */
  lemma Add30MinutesNextSlot(s: nat, k: nat)
    requires s + (k + 1) / 2 < 24
    ensures Add30Minutes(Slot(s, k)) == Slot(s, k + 1)
  {
    NextSlotMinute(s, k);
    Add30MinutesOfLabel(Slot(s, k), Slot(s, k + 1));
  }

  /** The clock arithmetic of half an hour later, on numbers. */
  lemma HalfHourLater(h: nat, m: nat)
    requires h < 24 && m < 60
    ensures var t := (60 * h + m + 30) % 1440;
      && t == 60 * (if m < 30 then h else (h + 1) % 24) + (m + 30) % 60
      && (m + 30) % 60 < 60
  {
    if m < 30 {
      assert (m + 30) % 60 == m + 30;
      assert 60 * h + m + 30 < 1440;
    } else if h < 23 {
      assert (m + 30) % 60 == m - 30;
      assert 60 * h + m + 30 == 60 * (h + 1) + (m - 30) < 1440;
    } else {
      assert (m + 30) % 60 == m - 30;
      assert 60 * h + m + 30 == 1440 + (m - 30);
    }
  }

  /** Field by field: the minutes move half an hour round the clock face, and
      the hour advances, past 23 to 0, exactly when they pass the hour; a
      time off the half hour stays off it. */
  lemma Add30MinutesFields(t: string)
    requires IsClockLabel(t)
    ensures MinutesOf(Add30Minutes(t)) == (MinutesOf(t) + 30) % 60
    ensures HoursOf(Add30Minutes(t)) == if MinutesOf(t) < 30 then HoursOf(t) else (HoursOf(t) + 1) % 24
  {
    var r := Add30Minutes(t);
    var h, m := HoursOf(t), MinutesOf(t);
    HalfHourLater(h, m);
    MinuteFields(HoursOf(r), MinutesOf(r), if m < 30 then h else (h + 1) % 24, (m + 30) % 60);
  }

  /** The last slot of the day wraps round to midnight. */
  lemma Add30MinutesMidnight()
    ensures Add30Minutes("23:30") == "00:00"
  {
    Add30MinutesOfLabel("23:30", "00:00");
  }

  // ---------------------------------------------------------------------------
  // Slot-taken and double-booking checks
  // ---------------------------------------------------------------------------

  /** `courier.booking`: the courier's single current booking. */
  function BookingOf(courier: Value): Value {
    Get(courier, "booking")
  }

  /** `isSlotBooked`: the courier's booking starts at `time` on the selected day. */
  predicate IsSlotBooked(courier: Value, time: string, selectedDay: string) {
    Get(BookingOf(courier), "start") == Str(time) && Get(BookingOf(courier), "day") == Str(selectedDay)
  }

  /** A slot counts as booked exactly when the courier carries a booking object
      whose start is the slot and whose day is the selected day; a courier
      without a booking never has a booked slot. */
  lemma IsSlotBookedIff(courier: Value, time: string, selectedDay: string)
    ensures IsSlotBooked(courier, time, selectedDay) <==>
      courier.Obj? && "booking" in courier.fields
      && var b := courier.fields["booking"];
         b.Obj? && "start" in b.fields && b.fields["start"] == Str(time)
         && "day" in b.fields && b.fields["day"] == Str(selectedDay)
    ensures BookingOf(courier) == Undefined || BookingOf(courier) == Null ==> !IsSlotBooked(courier, time, selectedDay)
  {
  }

  /** One courier that makes the selected slot a double booking. */
  predicate Conflicts(c: Value, selectedId: Value, email: Value, slot: string, day: string) {
    && Get(c, "id") != selectedId
    && Get(BookingOf(c), "bookedBy") == email
    && Get(BookingOf(c), "start") == Str(slot)
    && Get(BookingOf(c), "day") == Str(day)
  }

  /** `userHasConflict`: `couriers.some(...)` over every courier other than the
      selected one. */
  function UserHasConflict(couriers: seq<Value>, selected: Value, email: Value, slot: string, day: string): (r: bool)
    ensures r <==> exists i :: 0 <= i < |couriers| && Conflicts(couriers[i], Get(selected, "id"), email, slot, day)
    decreases |couriers|
  {
    if |couriers| == 0 then false
    else if Conflicts(couriers[0], Get(selected, "id"), email, slot, day) then true
    else
      var rest := UserHasConflict(couriers[1..], selected, email, slot, day);
      assert forall i :: 1 <= i < |couriers| ==> couriers[i] == couriers[1..][i - 1];
      rest
  }

  // ---------------------------------------------------------------------------
  // Booking submission
  // ---------------------------------------------------------------------------

  /** What `handleBookingSubmit` does: nothing, the conflict alert, or the PUT
      of the courier resource with the new booking embedded. */
  datatype BookingOutcome =
    | NotSubmitted
    | ConflictAlert
    | BookingRequest(courierId: Value, body: Value)

  /** The booking record sent to the backend. */
  function BookingRecord(slot: string, day: string, email: Value): (r: Value)
    requires IsHHMM(slot)
    ensures Get(r, "start") == Str(slot) && Get(r, "end") == Str(Add30Minutes(slot))
    ensures Get(r, "day") == Str(day) && Get(r, "bookedBy") == email
  {
    Obj(map["start" := Str(slot), "end" := Str(Add30Minutes(slot)), "day" := Str(day), "bookedBy" := email])
  }

  /** The body of `PUT /resource/couriers/{id}`: the courier, marked
      unavailable, with the booking embedded. */
  function BookingBody(courier: Value, booking: Value): (r: Value)
    ensures Get(r, "data").Obj?
    ensures Get(Get(r, "data"), "isAvailable") == Bool(false) && Get(Get(r, "data"), "booking") == booking
    ensures forall k :: k in Fields(courier) && k != "isAvailable" && k != "booking" ==>
      Get(Get(r, "data"), k) == Fields(courier)[k]
  {
    Obj(map["data" := Merge(courier, Obj(map["isAvailable" := Bool(false), "booking" := booking]))])
  }

  /** `handleBookingSubmit`. The slot comes from the slot menu, so it is either
      unselected or a label. */
  function BookingSubmit(couriers: seq<Value>, selected: Value, slot: string, day: string, email: Value): (r: BookingOutcome)
    requires slot == "" || IsHHMM(slot)
    ensures r.NotSubmitted? <==> !Truthy(Get(selected, "id")) || slot == "" || day == ""
    ensures r.ConflictAlert? <==> !r.NotSubmitted? && exists i :: 0 <= i < |couriers| && Conflicts(couriers[i], Get(selected, "id"), email, slot, day)
    ensures r.BookingRequest? ==>
      && r.courierId == Get(selected, "id")
      && Get(r.body, "data").Obj?
      && Get(Get(r.body, "data"), "isAvailable") == Bool(false)
      && var b := Get(Get(r.body, "data"), "booking");
         Get(b, "start") == Str(slot) && Get(b, "end") == Str(Add30Minutes(slot))
         && Get(b, "day") == Str(day) && Get(b, "bookedBy") == email
    ensures r.BookingRequest? ==> forall k :: k in Fields(selected) && k != "isAvailable" && k != "booking" ==>
      Get(Get(r.body, "data"), k) == Fields(selected)[k]
  {
    if !Truthy(Get(selected, "id")) || slot == "" || day == "" then NotSubmitted
    else if UserHasConflict(couriers, selected, email, slot, day) then ConflictAlert
    else BookingRequest(Get(selected, "id"), BookingBody(selected, BookingRecord(slot, day, email)))
  }

  /** The double-booking scenario: a user who holds Monday 10:00 with courier A
      is refused Monday 10:00 with courier B, and nothing is sent. */
  lemma DoubleBookingRefused(a: Value, b: Value, email: string)
    requires Get(a, "id") != Get(b, "id") && Truthy(Get(b, "id"))
    requires BookingOf(a) == Obj(map["start" := Str("10:00"), "end" := Str("10:30"), "day" := Str("monday"), "bookedBy" := Str(email)])
    ensures BookingSubmit([a, b], b, "10:00", "monday", Str(email)) == ConflictAlert
  {
    assert Conflicts([a, b][0], Get(b, "id"), Str(email), "10:00", "monday");
  }

  // ---------------------------------------------------------------------------
  // Courier list normalisation
  // ---------------------------------------------------------------------------

  /** The outcome of an HTTP call: the axios response, or a thrown error. */
  datatype Response = Responded(raw: Value) | Failed

  const EnvelopeKeys: set<string> := {"id", "resource", "createdAt", "updatedAt", "booking"}

  /** An envelope field of a list element; the id falls back to the payload's. */
  function EnvelopeField(item: Value, data: Value, k: string): Value {
    if k == "id" then Or(Get(item, "id"), Get(data, "id")) else Get(item, k)
  }

  /** One list element: the resource envelope fields, overridden by the fields
      of the wrapped `data` payload. */
  function NormaliseCourier(item: Value): (r: Value)
    ensures r.Obj?
    ensures r.fields.Keys == EnvelopeKeys + Fields(Or(Get(item, "data"), Obj(map[]))).Keys
    ensures forall k :: k in Fields(Get(item, "data")) && Truthy(Get(item, "data")) ==> r.fields[k] == Fields(Get(item, "data"))[k]
    ensures forall k :: k in EnvelopeKeys - {"id"} && k !in Fields(Get(item, "data")) ==> r.fields[k] == Get(item, k)
    ensures "id" !in Fields(Get(item, "data")) ==> r.fields["id"] == Or(Get(item, "id"), Undefined)
  {
    var data := Or(Get(item, "data"), Obj(map[]));
    Merge(Obj(map k | k in EnvelopeKeys :: EnvelopeField(item, data, k)), data)
  }

  /** The list the dashboard reads: `raw?.data?.data || raw?.data || raw || []`. */
  function CourierList(raw: Value): Value {
    Or(Get(Get(raw, "data"), "data"), Or(Get(raw, "data"), Or(raw, Arr([]))))
  }

  /** `loadCouriers`: a non-array list makes `.map` throw, and any thrown error
      leaves the list empty. */
  function LoadCouriers(response: Response): (r: seq<Value>)
    ensures response.Failed? ==> r == []
    ensures response.Responded? && CourierList(response.raw).Arr? ==>
      |r| == |CourierList(response.raw).items|
      && forall i :: 0 <= i < |r| ==> r[i] == NormaliseCourier(CourierList(response.raw).items[i])
    ensures response.Responded? && !CourierList(response.raw).Arr? ==> r == []
  {
    if response.Failed? then []
    else
      var list := CourierList(response.raw);
      if list.Arr? then seq(|list.items|, i requires 0 <= i < |list.items| => NormaliseCourier(list.items[i]))
      else []
  }

  /** A flat element, one without a truthy `data`, keeps only the five envelope
      fields: its own other fields are dropped. */
  lemma FlatElementKeepsEnvelopeOnly(item: Value)
    requires !Truthy(Get(item, "data"))
    ensures NormaliseCourier(item).fields.Keys == EnvelopeKeys
    ensures NormaliseCourier(item).fields["id"] == (if Truthy(Get(item, "id")) then Get(item, "id") else Undefined)
  {
  }

  /** A bare array, `{data: array}` and `{data: {data: array}}` with the same
      elements normalise to the same list. */
  lemma ResponseShapesAgree(items: seq<Value>)
    ensures LoadCouriers(Responded(Obj(map["data" := Arr(items)]))) == LoadCouriers(Responded(Arr(items)))
    ensures LoadCouriers(Responded(Obj(map["data" := Obj(map["data" := Arr(items)])]))) == LoadCouriers(Responded(Arr(items)))
  {
  }

  // ---------------------------------------------------------------------------
  // The user's own bookings
  // ---------------------------------------------------------------------------

  predicate BookedBy(c: Value, email: Value) {
    Get(BookingOf(c), "bookedBy") == email
  }

  /** `myBookings`: the couriers whose booking was made with the current email. */
  function MyBookings(couriers: seq<Value>, email: Value): (r: seq<Value>)
    ensures |r| <= |couriers|
    ensures forall c :: c in r ==> c in couriers && BookedBy(c, email)
    ensures forall i :: 0 <= i < |couriers| && BookedBy(couriers[i], email) ==> couriers[i] in r
    decreases |couriers|
  {
    if |couriers| == 0 then []
    else
      var rest := MyBookings(couriers[1..], email);
      assert forall i :: 1 <= i < |couriers| ==> couriers[i] == couriers[1..][i - 1];
      if BookedBy(couriers[0], email) then [couriers[0]] + rest else rest
  }

  /** The filter keeps the order of the list: it distributes over concatenation. */
  lemma {:induction false} MyBookingsAppend(a: seq<Value>, b: seq<Value>, email: Value)
    ensures MyBookings(a + b, email) == MyBookings(a, email) + MyBookings(b, email)
    decreases |a|
  {
    if |a| > 0 {
      assert (a + b)[1..] == a[1..] + b;
      MyBookingsAppend(a[1..], b, email);
    } else {
      assert a + b == b;
    }
  }

  /** With a known email every listed courier holds a booking object made with
      that email. */
  lemma MyBookingsHaveBookings(couriers: seq<Value>, email: string)
    ensures forall c :: c in MyBookings(couriers, Str(email)) ==>
      BookingOf(c).Obj? && "bookedBy" in BookingOf(c).fields && BookingOf(c).fields["bookedBy"] == Str(email)
  {
  }

  /** Without an email in the session (`undefined`), every courier without a
      booking is listed as the user's own booking. */
  lemma MyBookingsWithoutEmail(couriers: seq<Value>)
    ensures forall i :: 0 <= i < |couriers| && BookingOf(couriers[i]) == Undefined ==>
      couriers[i] in MyBookings(couriers, Undefined)
  {
  }
}
