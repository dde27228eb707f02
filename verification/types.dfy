/** The entities of the front end's domain: roles, weekdays, a courier's
    working day and a schedule time slot. */
module Types {

  import opened Options
  import opened Js

  /** The three account roles. */
  datatype Role = Admin | User | Courier

  function RoleName(r: Role): string {
    match r
    case Admin => "admin"
    case User => "user"
    case Courier => "courier"
  }

  datatype WeekDay = Monday | Tuesday | Wednesday | Thursday | Friday | Saturday | Sunday

  function WeekDayName(d: WeekDay): string {
    match d
    case Monday => "monday"
    case Tuesday => "tuesday"
    case Wednesday => "wednesday"
    case Thursday => "thursday"
    case Friday => "friday"
    case Saturday => "saturday"
    case Sunday => "sunday"
  }

  const AllWeekDays: set<WeekDay> := {Monday, Tuesday, Wednesday, Thursday, Friday, Saturday, Sunday}

  lemma AllWeekDaysComplete(d: WeekDay)
    ensures d in AllWeekDays && |AllWeekDays| == 7
  {
  }

  /** One recurring availability window of a courier; the hours are the
      "HH:MM" strings the time pickers produce. */
  datatype WorkingDay = WorkingDay(day: WeekDay, startHours: string, endHours: string, isActive: bool)

  function WorkingDayValue(w: WorkingDay): Value {
    Obj(map["day" := Str(WeekDayName(w.day)), "startHours" := Str(w.startHours),
            "endHours" := Str(w.endHours), "isActive" := Bool(w.isActive)])
  }

  function WorkingDaysValue(ws: seq<WorkingDay>): Value {
    Arr(seq(|ws|, i requires 0 <= i < |ws| => WorkingDayValue(ws[i])))
  }

  /** A slot of a courier's schedule. `userId` is absent once a booking is
      cancelled. */
  datatype TimeSlot = TimeSlot(
    id: string,
    start: string,
    end: string,
    courierId: string,
    userId: Option<string>,
    isBooked: bool,
    date: string)

  /** The outcome of the direct image upload to the hosting service: the
      `secure_url` of the uploaded image, or a failure (a rejected request or a
      non-OK response). */
  datatype UploadResult = Uploaded(secureUrl: Value) | UploadFailed

  /** The image step shared by the registration forms: a chosen File is
      uploaded and replaced by its URL (`imageUrl || null`); anything else
      becomes null. `None` means the upload failed and submission stops. */
  function SubmittedImage(profileImage: Value, upload: UploadResult): (r: Option<Value>)
    ensures r.None? <==> profileImage.File? && upload.UploadFailed?
    ensures r.Some? && !profileImage.File? ==> r.value == Null
    ensures r.Some? && profileImage.File? ==> r.value == (if Truthy(upload.secureUrl) then upload.secureUrl else Null)
  {
    if profileImage.File? then
      match upload
      case Uploaded(url) => Some(Or(url, Null))
      case UploadFailed => None
    else Some(Null)
  }
}
