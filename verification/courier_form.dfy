/** The courier registration form: the half-hour time options, the working-day
    rules (5 to 7 entries, no repeated weekday, start before end), the add and
    remove controls, and the submission sequence. */
module CourierForm {

  import opened Options
  import opened Text
  import opened Js
  import opened Types
  import UserDashboard

  // ---------------------------------------------------------------------------
  // Time options
  // ---------------------------------------------------------------------------

  /** An entry of the start/end time menus. */
  datatype TimeOption = TimeOption(value: string, labelText: string)

  /** One menu entry per label, its value equal to its text. */
  function OptionsOf(labels: seq<string>): (r: seq<TimeOption>)
    ensures |r| == |labels|
    ensures forall k :: 0 <= k < |r| ==> r[k] == TimeOption(labels[k], labels[k])
  {
    seq(|labels|, i requires 0 <= i < |labels| => TimeOption(labels[i], labels[i]))
  }

  /** `timeOptions`: every half hour of the day, built by the same two loops as
      the dashboard's slots, over the hours 0 to 23. */
  function TimeOptions(): seq<TimeOption> {
    OptionsOf(UserDashboard.SlotTimes(0, 24))
  }

  lemma OptionsOfSlots(s: nat, e: nat)
    requires s < e <= 24
    ensures |OptionsOf(UserDashboard.SlotTimes(s, e))| == 2 * (e - s)
    ensures forall k :: 0 <= k < |OptionsOf(UserDashboard.SlotTimes(s, e))| ==>
      IsClockLabel(OptionsOf(UserDashboard.SlotTimes(s, e))[k].value)
      && MinuteOfDay(OptionsOf(UserDashboard.SlotTimes(s, e))[k].value) == 60 * s + 30 * k
    ensures forall i, j :: 0 <= i < j < |OptionsOf(UserDashboard.SlotTimes(s, e))| ==>
      Less(OptionsOf(UserDashboard.SlotTimes(s, e))[i].value, OptionsOf(UserDashboard.SlotTimes(s, e))[j].value)
  {
    UserDashboard.SlotTimesShape(s, e);
  }

  /** The menu holds exactly the 48 labels "00:00", "00:30", …, "23:30", in
      ascending order, each with its value equal to its label. */
  lemma TimeOptionsShape()
    ensures |TimeOptions()| == 48
    ensures forall k :: 0 <= k < 48 ==> TimeOptions()[k].value == TimeOptions()[k].labelText
    ensures forall k :: 0 <= k < 48 ==> IsClockLabel(TimeOptions()[k].value) && MinuteOfDay(TimeOptions()[k].value) == 30 * k
    ensures forall i, j :: 0 <= i < j < 48 ==> Less(TimeOptions()[i].value, TimeOptions()[j].value)
  {
    OptionsOfSlots(0, 24);
  }

  /** The menu runs from "00:00" to "23:30". */
  lemma TimeOptionsEnds()
    ensures |TimeOptions()| == 48
    ensures TimeOptions()[0].value == "00:00" && TimeOptions()[47].value == "23:30"
  {
    OptionsOfSlots(0, 24);
    FirstAndLastOption();
  }

  lemma FirstAndLastOption()
    ensures UserDashboard.SlotTimes(0, 24)[0] == "00:00"
    ensures UserDashboard.SlotTimes(0, 24)[47] == "23:30"
  {
    assert UserDashboard.SlotTimes(0, 24)[0] == FormatHM(0, 0);
    assert UserDashboard.SlotTimes(0, 24)[47] == FormatHM(23, 30);
    LabelDigits(0, 0);
    LabelDigits(23, 30);
  }

  predicate IsTimeOption(t: string) {
    exists k :: 0 <= k < |TimeOptions()| && TimeOptions()[k].value == t
  }

  /** Every menu value is a clock label. */
  lemma TimeOptionIsLabel(t: string)
    requires IsTimeOption(t)
    ensures IsClockLabel(t)
  {
    var k :| 0 <= k < |TimeOptions()| && TimeOptions()[k].value == t;
    OptionsOfSlots(0, 24);
  }

  /** On the menu's values, the string comparison `start >= end` the form uses
      is the chronological comparison. */
  lemma TimeOptionComparison(start: string, end: string)
    requires IsTimeOption(start) && IsTimeOption(end)
    ensures IsClockLabel(start) && IsClockLabel(end)
    ensures AtLeast(start, end) <==> MinuteOfDay(start) >= MinuteOfDay(end)
  {
    TimeOptionIsLabel(start);
    TimeOptionIsLabel(end);
    ClockLabelOrder(start, end);
  }

  // ---------------------------------------------------------------------------
  // Working days
  // ---------------------------------------------------------------------------

  /** The entry `addWorkingDay` appends. */
  const DefaultWorkingDay := WorkingDay(Monday, "09:00", "17:00", true)

  /** `addWorkingDay`: one default entry at the end, the others untouched. */
  function AddWorkingDay(days: seq<WorkingDay>): (r: seq<WorkingDay>)
    ensures |r| == |days| + 1
    ensures r[..|days|] == days
    ensures r[|days|] == WorkingDay(Monday, "09:00", "17:00", true)
  {
    days + [DefaultWorkingDay]
  }

  /** `remove(index)` of the field array. */
  function RemoveWorkingDay(days: seq<WorkingDay>, index: nat): (r: seq<WorkingDay>)
    requires index < |days|
    ensures |r| == |days| - 1
    ensures r[..index] == days[..index] && r[index..] == days[index + 1..]
  {
    days[..index] + days[index + 1..]
  }

  /** The Add button is disabled from 7 entries on. */
  predicate AddEnabled(count: nat) {
    !(count >= 7)
  }

  /** Each Delete button is disabled at 5 entries or fewer. */
  predicate RemoveEnabled(count: nat) {
    !(count <= 5)
  }

  datatype Control = Add | Remove(index: nat)

  /** A click on a control; a disabled control does nothing, and so does a
      Delete for an entry that is not shown. */
  function Click(days: seq<WorkingDay>, c: Control): seq<WorkingDay> {
    match c
    case Add => if AddEnabled(|days|) then AddWorkingDay(days) else days
    case Remove(i) => if RemoveEnabled(|days|) && i < |days| then RemoveWorkingDay(days, i) else days
  }

  function ClickAll(days: seq<WorkingDay>, cs: seq<Control>): seq<WorkingDay>
    decreases |cs|
  {
    if |cs| == 0 then days else ClickAll(Click(days, cs[0]), cs[1..])
  }

  /** Through the controls the count never exceeds 7 and, once it has reached
      5, never drops below 5. */
  lemma {:induction false} ClickAllBounds(days: seq<WorkingDay>, cs: seq<Control>)
    ensures |days| <= 7 ==> |ClickAll(days, cs)| <= 7
    ensures |days| >= 5 ==> |ClickAll(days, cs)| >= 5
    decreases |cs|
  {
    if |cs| > 0 {
      ClickAllBounds(Click(days, cs[0]), cs[1..]);
    }
  }

  /** `validateWorkingDay`: the message when both times are set and the start is
      not before the end; `None` stands for `true`. */
  function ValidateWorkingDay(day: Option<WorkingDay>): (r: Option<string>)
    ensures r.Some? ==> r.value == "End time must be after start time"
    ensures r.Some? <==> day.Some? && day.value.startHours != "" && day.value.endHours != ""
                         && !Less(day.value.startHours, day.value.endHours)
  {
    if day.Some? && day.value.startHours != "" && day.value.endHours != ""
       && AtLeast(day.value.startHours, day.value.endHours)
    then Some("End time must be after start time")
    else None
  }

  /** On menu values the per-entry check fails exactly when the end is not later
      in the day than the start. */
  lemma ValidateWorkingDayChronological(w: WorkingDay)
    requires IsTimeOption(w.startHours) && IsTimeOption(w.endHours)
    ensures IsClockLabel(w.startHours) && IsClockLabel(w.endHours)
    ensures ValidateWorkingDay(Some(w)).Some? <==> MinuteOfDay(w.startHours) >= MinuteOfDay(w.endHours)
  {
    TimeOptionComparison(w.startHours, w.endHours);
  }

  /** `new Set(days.map(d => d.day))`. */
  function DaySet(days: seq<WorkingDay>): set<WeekDay> {
    set i | 0 <= i < |days| :: days[i].day
  }

  predicate DistinctDays(days: seq<WorkingDay>) {
    forall i, j :: 0 <= i < j < |days| ==> days[i].day != days[j].day
  }

  lemma DaySetAppend(init: seq<WorkingDay>, w: WorkingDay)
    ensures DaySet(init + [w]) == DaySet(init) + {w.day}
  {
    var days := init + [w];
    forall d | d in DaySet(days) ensures d in DaySet(init) + {w.day} {
      var i :| 0 <= i < |days| && days[i].day == d;
      if i < |init| {
        assert init[i].day == d;
      }
    }
    forall d | d in DaySet(init) ensures d in DaySet(days) {
      var i :| 0 <= i < |init| && init[i].day == d;
      assert days[i].day == d;
    }
    assert days[|init|].day == w.day;
  }

  lemma DistinctAppend(init: seq<WorkingDay>, w: WorkingDay)
    ensures DistinctDays(init + [w]) <==> DistinctDays(init) && w.day !in DaySet(init)
  {
    var days := init + [w];
    if w.day in DaySet(init) {
      var i :| 0 <= i < |init| && init[i].day == w.day;
      assert days[i].day == days[|init|].day;
    } else if DistinctDays(init) {
      forall i, j | 0 <= i < j < |days| ensures days[i].day != days[j].day {
        if j == |init| {
          assert init[i].day in DaySet(init);
        } else {
          assert init[i] == days[i] && init[j] == days[j];
        }
      }
    }
    if DistinctDays(days) {
      forall i, j | 0 <= i < j < |init| ensures init[i].day != init[j].day {
        assert init[i] == days[i] && init[j] == days[j];
      }
    }
  }

  /** The set of weekdays is as large as the list exactly when no weekday is
      repeated. */
  lemma {:induction false} DaySetSize(days: seq<WorkingDay>)
    ensures |DaySet(days)| <= |days|
    ensures |DaySet(days)| == |days| <==> DistinctDays(days)
    decreases |days|
  {
    if |days| == 0 {
      assert DaySet(days) == {};
    } else {
      var init, w := days[..|days| - 1], days[|days| - 1];
      assert days == init + [w];
      DaySetSize(init);
      DaySetAppend(init, w);
      DistinctAppend(init, w);
    }
  }

  lemma {:induction false} SubsetSize<T>(a: set<T>, b: set<T>)
    requires a <= b
    ensures |a| <= |b|
    decreases |a|
  {
    if a != {} {
      var x :| x in a;
      SubsetSize(a - {x}, b - {x});
    }
  }

  /** Some entry whose start is not before its end (`invalidTimes.length > 0`). */
  function HasInvalidTimes(days: seq<WorkingDay>): (r: bool)
    ensures r <==> exists i :: 0 <= i < |days| && AtLeast(days[i].startHours, days[i].endHours)
    decreases |days|
  {
    if |days| == 0 then false
    else if AtLeast(days[0].startHours, days[0].endHours) then true
    else
      var rest := HasInvalidTimes(days[1..]);
      assert forall i :: 1 <= i < |days| ==> days[i] == days[1..][i - 1];
      rest
  }

  /** The schedule checks of `handleFormSubmit`, in order; the first failure
      is the message shown. */
  function ScheduleError(days: seq<WorkingDay>): (r: Option<string>)
    ensures |days| < 5 ==> r == Some("Minimum 5 working days required")
    ensures |days| >= 5 && !DistinctDays(days) ==> r == Some("Duplicate days are not allowed")
    ensures |days| >= 5 && DistinctDays(days) && (exists i :: 0 <= i < |days| && AtLeast(days[i].startHours, days[i].endHours)) ==>
      r == Some("End time must be after start time")
    ensures r.None? <==> |days| >= 5 && DistinctDays(days) && forall i :: 0 <= i < |days| ==> Less(days[i].startHours, days[i].endHours)
  {
    DaySetSize(days);
    if |days| < 5 then Some("Minimum 5 working days required")
    else if |DaySet(days)| != |days| then Some("Duplicate days are not allowed")
    else if HasInvalidTimes(days) then Some("End time must be after start time")
    else None
  }

  /** Every accepted schedule has 5 to 7 entries: with no weekday repeated there
      is room for at most seven. */
  lemma AcceptedScheduleSize(days: seq<WorkingDay>)
    requires ScheduleError(days).None?
    ensures 5 <= |days| <= 7
  {
    DaySetSize(days);
    assert DaySet(days) <= AllWeekDays by {
      forall d | d in DaySet(days) ensures d in AllWeekDays {
        AllWeekDaysComplete(d);
      }
    }
    AllWeekDaysComplete(Monday);
    SubsetSize(DaySet(days), AllWeekDays);
  }

  // ---------------------------------------------------------------------------
  // Submission
  // ---------------------------------------------------------------------------

  datatype CourierFormData = CourierFormData(
    firstName: string,
    lastName: string,
    pid: string,
    phoneNumber: string,
    email: string,
    password: string,
    vehicle: string,
    workingDays: seq<WorkingDay>,
    profileImage: Value)

  datatype SubmitOutcome =
    | ScheduleRejected(message: string)
    | UploadRejected(message: string)
    | Submitted(data: CourierFormData)

  /** `handleFormSubmit`: the schedule checks, then the image upload, then
      `onSubmit` with the uploaded URL (or null) as the image. */
  function HandleFormSubmit(data: CourierFormData, upload: UploadResult): (r: SubmitOutcome)
    ensures r.ScheduleRejected? <==> ScheduleError(data.workingDays).Some?
    ensures r.ScheduleRejected? ==> r.message == ScheduleError(data.workingDays).value
    ensures r.UploadRejected? <==> ScheduleError(data.workingDays).None? && data.profileImage.File? && upload.UploadFailed?
    ensures r.UploadRejected? ==> r.message == "Image upload failed. Please try again."
    ensures r.Submitted? ==>
      && 5 <= |r.data.workingDays| <= 7
      && r.data == data.(profileImage := r.data.profileImage)
      && r.data.profileImage == (if data.profileImage.File? && Truthy(upload.secureUrl) then upload.secureUrl else Null)
  {
    match ScheduleError(data.workingDays)
    case Some(message) => ScheduleRejected(message)
    case None =>
      AcceptedScheduleSize(data.workingDays);
      match SubmittedImage(data.profileImage, upload)
      case None => UploadRejected("Image upload failed. Please try again.")
      case Some(image) => Submitted(data.(profileImage := image))
  }
}
