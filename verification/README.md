# IgnisExpress booking front end, in Dafny

IgnisExpress is a courier-booking web application: users book half-hour slots with couriers, couriers publish a weekly working schedule, and administrators manage accounts. Its React/Redux front end holds the sequential logic modelled here:

- the booking rules of the user dashboard: slot generation, `add30Minutes`, the double-booking check, the guard in front of a booking, and normalisation of the courier list;
- the form validators: the courier schedule rules, the user and admin registration checks, and the field-rule table with its three regular expressions;
- the three Redux slices (`auth`, `couriers`, `users`), each as a pure `State × Action → State` function. Browser storage is a `map<string, string>`. Each async thunk becomes its pending, fulfilled and rejected actions;
- role-based routing: `ProtectedRoute`, `DashboardRedirect`, the login page's redirect effect and the route table;
- the payloads the registration page builds, and the list shaping of the courier dashboard.

Loosely typed data (backend responses, user and courier records) is the JavaScript value datatype `Js.Value`. Its helpers model truthiness, `||`, optional chaining, object spread and `String(v)`. Typed records (`WorkingDay`, `TimeSlot`, form data) are Dafny datatypes. HTTP results, image uploads, and `JSON.stringify`/`JSON.parse` are parameters of the functions that use them.

One module per source file: `UserDashboard`, `CourierForm`, `UserForm`, `AdminForm`, `Validation`, `AuthSlice`, `CourierSlice`, `UserSlice`, `CourierDashboard`, `RegistrationForm`, `Login`, `DashboardRedirect`, `ProtectedRoute`, `AppRoutes`. The shared modules are `Js`/`BrowserStorage` (js.dfy), `Text` (digits, `padStart`, `parseInt`, JavaScript string order), `Types`, `Thunks`, `Lists` and `Options`.

## Model

| member | source | states |
|---|---|---|
| UserDashboard.GenerateTimeSlots | src/components/dashboard/UserDashboard.tsx:92-106 | The nested hour/minute loops produce exactly the reference list `SlotsOf`: every half hour from the start hour up to, not including, the end hour. |
| UserDashboard.AppendHourSlots | src/components/dashboard/UserDashboard.tsx:96-103 | One pass of the inner loop extends the slots of the previous hours by the `:00` and `:30` labels of the current hour. |
| UserDashboard.SlotTimesShape | src/components/dashboard/UserDashboard.tsx:92-106 | For whole hours 0 ≤ s < e ≤ 24 there are exactly 2·(e−s) slots. The first is s:00, the k-th is a clock label at minute 60·s+30·k, and they ascend strictly with no duplicates. |
| UserDashboard.WorkingDaySlots | src/components/dashboard/UserDashboard.tsx:94-97 | For "HH:MM" bounds only the hour parts count. A start hour at or after the end hour gives no slots. |
| UserDashboard.HourOfLabel | src/components/dashboard/UserDashboard.tsx:94-95 | `parseInt` of the text before the colon of an "HH:MM" label is its hour. |
| UserDashboard.NineToFiveSlots | src/components/dashboard/UserDashboard.tsx:94-97 | A 09:30–17:00 day offers the same slots as 09:00–17:00: 16 of them, from "09:00" to "16:30". |
| UserDashboard.BeforeColon | src/components/dashboard/UserDashboard.tsx:94 | `split(":")[0]` is the longest colon-free prefix of the string. |
| Text.Pad2IsPadStart | src/components/dashboard/UserDashboard.tsx:129-131 | The two-digit spelling used by the labels equals `toString().padStart(2, "0")` for every integer. |
| UserDashboard.Add30Minutes | src/components/dashboard/UserDashboard.tsx:124-132 | The result is a zero-padded clock label whose minute of the day is (60·HH + MM + 30) mod 1440. |
| UserDashboard.Add30MinutesNextSlot | src/components/dashboard/UserDashboard.tsx:124-132 | Half an hour after any generated slot is the next slot, so a booking ends where the next slot begins. |
| UserDashboard.Add30MinutesMidnight | src/components/dashboard/UserDashboard.tsx:127-128 | "23:30" wraps to "00:00". |
| UserDashboard.Add30MinutesFields | src/components/dashboard/UserDashboard.tsx:124-132 | Field by field: the minutes become (MM + 30) mod 60, and the hour advances, 23 wrapping to 0, exactly when MM ≥ 30. A time off the half hour stays off it. |
| UserDashboard.Add30MinutesOfLabel | src/components/dashboard/UserDashboard.tsx:124-132 | The result is the unique clock label half an hour later in the day: any label with that minute of the day is it. |
| UserDashboard.IsSlotBookedIff | src/components/dashboard/UserDashboard.tsx:108-112 | A slot is booked exactly when the courier's booking is an object whose start is the slot and whose day is the selected day. A courier with no booking has no booked slot. |
| UserDashboard.UserHasConflict | src/components/dashboard/UserDashboard.tsx:114-122 | True exactly when some courier with an id other than the selected one holds a booking by the current email at the selected slot and day. |
| UserDashboard.BookingBody | src/components/dashboard/UserDashboard.tsx:146-153 | The PUT body marks the courier unavailable and carries the booking. Every other field of the courier is kept. |
| UserDashboard.BookingRecord | src/components/dashboard/UserDashboard.tsx:150-155 | The booking starts at the chosen slot, ends half an hour later, is on the chosen day and is made by the current email. |
| UserDashboard.BookingSubmit | src/components/dashboard/UserDashboard.tsx:141-155 | Nothing is sent without a courier id, a slot and a day. A conflict raises the alert instead of a request. Otherwise the booking sent is {start: slot, end: slot + 30 min, day, bookedBy: email}. |
| UserDashboard.DoubleBookingRefused | src/components/dashboard/UserDashboard.tsx:114-122 | A user who holds Monday 10:00 with one courier is refused Monday 10:00 with another. |
| UserDashboard.NormaliseCourier | src/components/dashboard/UserDashboard.tsx:73-88 | Each element has the five envelope keys plus the keys of its inner `data`. Inner fields win; `resource`, `createdAt`, `updatedAt` and `booking` otherwise come from the envelope. Without an inner `id`, the id is the envelope's when truthy and undefined otherwise, so an envelope id of 0 or "" is lost. |
| UserDashboard.LoadCouriers | src/components/dashboard/UserDashboard.tsx:67-90 | The list is `raw.data.data`, else `raw.data`, else `raw`, normalised element by element. A non-array list or a failed request leaves it empty. |
| UserDashboard.FlatElementKeepsEnvelopeOnly | src/components/dashboard/UserDashboard.tsx:74-86 | An element without a truthy `data` keeps only id, resource, createdAt, updatedAt and booking. |
| UserDashboard.ResponseShapesAgree | src/components/dashboard/UserDashboard.tsx:71 | A bare array, `{data: array}` and `{data: {data: array}}` give the same list. |
| UserDashboard.MyBookings | src/components/dashboard/UserDashboard.tsx:167-169 | Exactly the listed couriers whose booking was made with the current email, and no more of them than are listed. |
| UserDashboard.MyBookingsAppend | src/components/dashboard/UserDashboard.tsx:167-169 | The filter distributes over concatenation, so it keeps list order. |
| UserDashboard.MyBookingsHaveBookings | src/components/dashboard/UserDashboard.tsx:167-169 | With a known email, every courier listed holds a booking made with that email. |
| UserDashboard.MyBookingsWithoutEmail | src/components/dashboard/UserDashboard.tsx:167-169 | Without an email in the session, every courier without a booking is counted as the user's booking (`undefined === undefined`). |
| CourierForm.OptionsOf | src/components/forms/CourierForm.tsx:44-49 | One menu entry per label, with value equal to label. |
| CourierForm.OptionsOfSlots | src/components/forms/CourierForm.tsx:40-53 | The time menu is the slot list of the user dashboard, with a value equal to each label. |
| CourierForm.TimeOptionsShape | src/components/forms/CourierForm.tsx:40-53 | Exactly 48 options, each with value = label. The k-th is the clock label at minute 30·k, in strictly ascending string order. |
| CourierForm.TimeOptionsEnds | src/components/forms/CourierForm.tsx:40-53 | The menu runs from "00:00" to "23:30". |
| CourierForm.TimeOptionComparison | src/components/forms/CourierForm.tsx:144-146 | On menu values the string comparison `start >= end` is the chronological comparison. |
| CourierForm.AddWorkingDay | src/components/forms/CourierForm.tsx:134-140 | Appends {monday, "09:00", "17:00", active} and leaves the earlier entries unchanged. |
| CourierForm.RemoveWorkingDay | src/components/forms/CourierForm.tsx:345-347 | Removes exactly the entry at the index and keeps the order of the rest. |
| CourierForm.ClickAllBounds | src/components/forms/CourierForm.tsx:347-368 | Through the enabled Add and Delete buttons the count never rises above 7. Once it is at least 5, it never drops below 5. |
| CourierForm.ValidateWorkingDay | src/components/forms/CourierForm.tsx:142-148 | Returns "End time must be after start time" exactly when both times are present and the start is not before the end. |
| CourierForm.ValidateWorkingDayChronological | src/components/forms/CourierForm.tsx:142-148 | On menu values the per-entry check fails exactly when the end is not later in the day than the start. |
| CourierForm.DaySetSize | src/components/forms/CourierForm.tsx:159-160 | The set of weekdays is as large as the list exactly when no weekday repeats, so the size test detects duplicates. |
| CourierForm.HasInvalidTimes | src/components/forms/CourierForm.tsx:168-170 | True exactly when some entry's start is not before its end. |
| CourierForm.ScheduleError | src/components/forms/CourierForm.tsx:151-177 | The checks run in order and the first failure wins: fewer than 5 days, then duplicate days, then a start not before its end. No error exactly when there are ≥ 5 distinct days, each with start < end. |
| CourierForm.AcceptedScheduleSize | src/components/forms/CourierForm.tsx:151-177 | Every accepted schedule has between 5 and 7 entries. |
| CourierForm.HandleFormSubmit | src/components/forms/CourierForm.tsx:150-209 | A schedule error stops submission with its message. An upload failure stops it with the upload message. Otherwise `onSubmit` gets the data with the uploaded URL, or null, as image. |
| Types.SubmittedImage | src/components/forms/UserForm.tsx:66-100 | A chosen File is replaced by its upload URL, or by null when the URL is empty. Anything else becomes null. Submission stops exactly when a File's upload fails. |
| UserForm.HandleChange | src/components/forms/UserForm.tsx:24-39 | The file input stores its first file. Any other input stores its text under its own name. Every other field is unchanged. |
| UserForm.FieldsError | src/components/forms/UserForm.tsx:45-64 | The first failing check gives the message: a missing required field, then a password under 6 characters, then a personal ID whose length is not 11. Lengths are JavaScript `.length`, in UTF-16 code units. No error exactly when all pass. |
| UserForm.HandleSubmit | src/components/forms/UserForm.tsx:41-112 | A failing check shows its message and submits nothing. A failed upload shows the upload message. Otherwise `onSubmit` gets the form data, with the image replaced by its URL or null, and the error stays cleared. |
| UserForm.OptionalFieldsUnchecked | src/components/forms/UserForm.tsx:45-54 | Emptying the address and last name never changes the outcome. |
| UserForm.PidLengthOnly | src/components/forms/UserForm.tsx:61-64 | An eleven-letter personal ID passes: the check is on length only. |
| UserForm.AstralPasswordAccepted | src/components/forms/UserForm.tsx:56-59 | A password of three emoji has `.length` 6 and passes; two emoji (length 4) are refused. |
| Text.Utf16Length | src/components/forms/UserForm.tsx:56-64 | `.length` lies between the character count and twice it. |
| Text.Utf16LengthAppend | src/components/forms/UserForm.tsx:56-64 | `.length` of a concatenation is the sum of the lengths. |
| Text.Utf16LengthBmp | src/components/forms/UserForm.tsx:56-64 | `.length` equals the character count exactly when no character lies outside the Basic Multilingual Plane. |
| AdminForm.HandleChange | src/components/forms/AdminForm.tsx:23-38 | The file input stores its first file, any other input only its own field. |
| AdminForm.HandleSubmit | src/components/forms/AdminForm.tsx:40-66 | The same three ordered checks as the user form. `onSubmit` receives the form data unchanged, raw File included, exactly when they pass. |
| AdminForm.SameChecksAsUserForm | src/components/forms/AdminForm.tsx:44-63 | The admin form accepts and refuses the same entries as the user form, with the same messages. |
| Validation.RequiredRule | src/utils/validation.ts:2-4 | A single `required` rule whose message defaults to "This field is required". |
| Validation.CreateValidation | src/utils/validation.ts:31-49 | `required: "<name> is required"` is present exactly when the field is required. "email", "phoneNumber", "pid" and "password" each add exactly their own rule, other names add none, and `required` is never overwritten. |
| Validation.LoginFieldRules | src/components/auth/Login.tsx:137-166 | The login form's role, email and password fields are required, and the latter two carry their format rules. |
| Validation.MatchPid | src/utils/validation.ts:17-22 | Accepts exactly strings of 11 ASCII digits. |
| Validation.MatchPhone | src/utils/validation.ts:11-16 | Accepts exactly an optional '+', a digit 1–9, then 6 to 14 more digits. |
| Validation.MatchEmailIff | src/utils/validation.ts:5-10 | The scanner accepts exactly a non-empty local part over [A-Z0-9._%+-], '@', a non-empty domain over [A-Z0-9.-], '.', and at least two letters, case-insensitively. |
| Validation.EmailCutIsUnique | src/utils/validation.ts:7 | A split of an accepted address is at its first '@' and its last '.'. |
| Validation.PatternExamples | src/utils/validation.ts:5-22 | Sample inputs accepted and refused by each pattern. |
| Thunks.RejectionMessage | src/store/slices/courierSlice.ts:35-37 | The rejection reason is the server's message when truthy, else the thunk's fallback message. |
| Thunks.ReturnData | src/store/slices/courierSlice.ts:29-41 | A thunk that returns `response.data` is fulfilled with the body exactly when the request succeeds. |
| Thunks.ReturnArgument | src/store/slices/courierSlice.ts:182-194 | A thunk that returns its argument is fulfilled with it exactly when the request succeeds. |
| AuthSlice.ClearError | src/store/slices/authSlice.ts:179-181 | Only the error changes, to null. |
| AuthSlice.Logout | src/store/slices/authSlice.ts:182-192 | User, token and role become null, the session is signed out and idle with no error, and the `token`, `user` and `role` keys are removed. No other key changes. |
| AuthSlice.LogoutIdempotent | src/store/slices/authSlice.ts:182-192 | Logging out twice is logging out once. |
| AuthSlice.InitializeAuthAsWritten | src/store/slices/authSlice.ts:194-209 | The reducer exactly as written. Without both keys nothing changes. An unparsable user removes both keys. A stored user that parses to null or undefined also removes both keys, but the session keeps the user, the stored token and the signed-in flag assigned before `user.role` throws, and the role stays. |
| AuthSlice.NullStoredUserAuthenticates | src/store/slices/authSlice.ts:200-204 | With token "t" and stored user "null", the as-written reducer drops both keys yet leaves the session signed in with a null user, which the corrected reducer never does. |
| AuthSlice.InitializeAuth | src/store/slices/authSlice.ts:194-209 | With non-empty `token` and `user` keys and a parsable object user, the session is restored with role = user.role. A failed parse removes `token` and `user` but not `role`, and leaves the state alone. Without both keys nothing happens. |
| AuthSlice.InitializeAuthAgrees | src/store/slices/authSlice.ts:194-209 | The corrected and as-written reducers agree on every storage except one whose user parses to null or undefined. |
| AuthSlice.Reduce | src/store/slices/authSlice.ts:175-285 | The slice's reducer, with `initializeAuth` as written. No action touches the user list. Only logout, `initializeAuth` and a fulfilled login touch storage. The "role" key is removed but never written. Only a fulfilled login or `initializeAuth` signs a session in. |
| AuthSlice.ReduceCorrected | src/store/slices/authSlice.ts:194-209 | The reducer with the corrected `initializeAuth` differs from the slice's only on that action, and it never turns a session with a user into one signed in without a user. |
| AuthSlice.RoleKeyNeverWritten | src/store/slices/authSlice.ts:175-285 | Over any run of actions, a "role" storage key present at the end holds what it held at the start. |
| AuthSlice.CorrectedRunKeepsSignedInUser | src/store/slices/authSlice.ts:194-209 | With the corrected reducer, no run from a reload reaches a signed-in session with a null or undefined user. |
| AuthSlice.LoginThunk | src/store/slices/authSlice.ts:130-162 | Fulfilled exactly when the request succeeds with a body carrying `credentials.accessToken`, and then with the token and the submitted role. A missing token gives "Login failed", and a failed request gives the server's message or "Login failed". |
| AuthSlice.CourierProfileBody | src/store/slices/authSlice.ts:63-80 | The courier resource posted after a courier registers: one element carrying the schedule, vehicle, personal ID, email, the name "first last" and the new user's id. |
| AuthSlice.RegisteredUser | src/store/slices/authSlice.ts:100-110 | The backend's user with the submitted role, phone, personal ID, address, vehicle, schedule and image written over it. All its other fields are kept. |
| AuthSlice.RegisterThunk | src/store/slices/authSlice.ts:26-127 | Rejected exactly on a failed request or an empty body. A body without both user and token gives `{user: null, token: null}`. The courier-resource request is made exactly for a courier with a schedule, and its outcome never affects the result. |
| AuthSlice.Pending | src/store/slices/authSlice.ts:215-218 | Loading, with the error cleared. Nothing else changes. |
| AuthSlice.RejectedCase | src/store/slices/authSlice.ts:229-232 | The reason becomes the error and loading stops. User, token, role, sign-in and storage are unchanged. |
| AuthSlice.RegisterFulfilled | src/store/slices/authSlice.ts:220-227 | Whatever the payload, the session is signed out with null user, token and role. |
| AuthSlice.FinalRole | src/store/slices/authSlice.ts:242-250 | The user's `role`, else `userRole`, else `type`, else `roleType`, else the role chosen at login. The result is truthy whenever a role was chosen. |
| AuthSlice.CompleteUser | src/store/slices/authSlice.ts:252-261 | The stored user has the settled role. Missing image, personal ID, phone, address and vehicle become "" and a missing schedule []. Other fields are kept. |
| AuthSlice.ProfileDefaults | src/store/slices/authSlice.ts:252-261 | Exactly the seven profile keys are written: the settled role, and each profile field of the user or its "" / [] default when falsy. |
| AuthSlice.LoginFulfilled | src/store/slices/authSlice.ts:239-279 | Signed in as the completed user with the token and settled role. `token` and `user` are persisted and no `role` key is written. |
| AuthSlice.FailedLoginKeepsSession | src/store/slices/authSlice.ts:280-283 | A failed login leaves user, token, role and sign-in as they were, with a truthy error. |
| AuthSlice.LoginThenReload | src/store/slices/authSlice.ts:194-209 | After a login, a reload's `initializeAuth` restores the same user, token and role. |
| AuthSlice.LogoutThenReload | src/store/slices/authSlice.ts:182-209 | After a logout, a reload stays signed out. |
| CourierSlice.Settle | src/store/slices/courierSlice.ts:29-194 | Each thunk rejects exactly on a failed request, with a truthy reason. `deleteCourier` and `cancelBooking` resolve to their argument and the others to the response body. |
| CourierSlice.PendingCase | src/store/slices/courierSlice.ts:229-358 | Every pending case sets loading and clears the error. `bookCourier` raises `bookingLoading` instead, and `fetchCourierByUserId` has no pending case. Lists are untouched. |
| CourierSlice.RejectedCase | src/store/slices/courierSlice.ts:239-381 | Every rejected case records the reason and clears its own loading flag. Lists are untouched. |
| CourierSlice.FetchCouriersFulfilled | src/store/slices/courierSlice.ts:233-238 | The courier list is each resource's `data`, same length and order. Nothing else but loading changes. |
| CourierSlice.FetchCourierByIdFulfilled | src/store/slices/courierSlice.ts:248-251 | The viewed courier is the payload. Nothing else but loading changes. |
| CourierSlice.UpdateCourierFulfilled | src/store/slices/courierSlice.ts:261-272 | The viewed courier is the payload and the first courier with its id is replaced. The length is unchanged, and so is the list when no id matches. Schedule, available slots, booking flag and error are unchanged. |
| CourierSlice.DeleteCourierFulfilled | src/store/slices/courierSlice.ts:282-291 | Every courier with the id goes and every other stays. The viewed courier is cleared exactly when it has that id. Schedule, available slots, booking flag and error are unchanged. |
| CourierSlice.DeleteCourierIdempotent | src/store/slices/courierSlice.ts:282-291 | Deleting twice is deleting once. |
| CourierSlice.FetchCourierScheduleFulfilled | src/store/slices/courierSlice.ts:301-304 | The schedule is the payload. Nothing else but loading changes. |
| CourierSlice.BookCourierFulfilled | src/store/slices/courierSlice.ts:314-324 | The first slot with the booked id is replaced, and the schedule is unchanged when none matches. Only `bookingLoading` is cleared: loading, the courier list, the viewed courier, available slots and the error are unchanged. |
| CourierSlice.FetchCourierByUserIdFulfilled | src/store/slices/courierSlice.ts:374-376 | Only the viewed courier changes. |
| CourierSlice.UpdateWorkingDaysFulfilled | src/store/slices/courierSlice.ts:334-339 | The viewed courier, when present, takes the payload's working days. Its other fields, the courier list, schedule, available slots, booking flag and error are unchanged, and the viewed courier stays as it was when there is none. |
| CourierSlice.GetAvailableTimeSlotsFulfilled | src/store/slices/courierSlice.ts:349-352 | The available slots are the payload. Nothing else but loading changes. |
| CourierSlice.Cancelled | src/store/slices/courierSlice.ts:364-368 | The cancelled slot is freed: not booked, no user. Any other slot is unchanged. |
| CourierSlice.CancelBookingFulfilled | src/store/slices/courierSlice.ts:362-369 | Every slot with the id is freed. All other slots, the order and the length are unchanged, and so are the courier list, viewed courier, available slots, booking flag and error. |
| CourierSlice.CancelBookingIdempotent | src/store/slices/courierSlice.ts:362-369 | Cancelling twice is cancelling once. |
| CourierSlice.UpdateCourierProfile | src/store/slices/courierSlice.ts:209-213 | The changes are spread over the viewed courier, with fields of the changes winning. A no-op when no courier is viewed. Only the viewed courier changes. |
| CourierSlice.AddTimeSlot | src/store/slices/courierSlice.ts:214-216 | The slot goes at the end and the rest is unchanged. |
| CourierSlice.RemoveTimeSlot | src/store/slices/courierSlice.ts:217-221 | Every slot with the id goes and every other stays. |
| CourierSlice.RemoveUndoesAdd | src/store/slices/courierSlice.ts:214-221 | Removing by id undoes adding a slot with that id. |
| CourierSlice.ClearSchedule | src/store/slices/courierSlice.ts:222-224 | The schedule is emptied and nothing else changes. |
| CourierSlice.FailedBookingKeepsSchedule | src/store/slices/courierSlice.ts:310-328 | A failed booking leaves schedule, lists and the general loading flag as they were, and records the error. |
| CourierSlice.Reduce | src/store/slices/courierSlice.ts:196-381 | The slice's reducer. Only a pending `bookCourier` raises the booking flag. The error changes only through `clearError`, a pending case or a rejected case. The schedule and the courier list each change only through the actions about them. |
| CourierSlice.BookingSpinnerOnlyFromBooking | src/store/slices/courierSlice.ts:310-328 | A run of actions with no pending `bookCourier` never raises the booking flag. |
| UserSlice.Settle | src/store/slices/userSlice.ts:23-94 | Each thunk rejects exactly on a failed request, with a truthy reason. `deleteUser` resolves to its argument, the others to the response body. |
| UserSlice.PendingCase | src/store/slices/userSlice.ts:118-121 | Loading, with the error cleared. Lists are untouched. |
| UserSlice.RejectedCase | src/store/slices/userSlice.ts:126-129 | The reason becomes the error and loading stops. Lists are untouched. |
| UserSlice.FetchUsersFulfilled | src/store/slices/userSlice.ts:122-125 | The list is the payload, and the viewed user and error are unchanged. |
| UserSlice.FetchUserByIdFulfilled | src/store/slices/userSlice.ts:135-141 | The payload is merged over the viewed user: payload fields win and all other fields keep their values. |
| UserSlice.MergeIntoFirst | src/store/slices/userSlice.ts:158-164 | The update is merged into the first listed user with its id. The length is unchanged, and so is the list when no id matches. |
| UserSlice.UpdateUserFulfilled | src/store/slices/userSlice.ts:151-165 | The update is merged into the viewed user and into the first listed user with its id: a merge, not a replace. |
| UserSlice.DeleteUserFulfilled | src/store/slices/userSlice.ts:175-182 | Every user with the id goes and every other stays. The viewed user is nulled exactly when it has that id. |
| UserSlice.CreateUserFulfilled | src/store/slices/userSlice.ts:192-195 | The payload is appended at the end of the list. |
| UserSlice.UpdateUserProfile | src/store/slices/userSlice.ts:109-113 | The changes are merged over the viewed user when there is one, and otherwise nothing changes. |
| UserSlice.DeleteUndoesCreate | src/store/slices/userSlice.ts:175-195 | Deleting by id a user just created with that id gives the list that deleting from the old list gives. |
| UserSlice.DeleteIdempotent | src/store/slices/userSlice.ts:175-182 | Deleting twice is deleting once. |
| UserSlice.FetchedUserKeepsStaleFields | src/store/slices/userSlice.ts:135-141 | A field missing from the fetched user keeps the value it had for the previously viewed user. |
| UserSlice.FailedRequestKeepsData | src/store/slices/userSlice.ts:118-196 | A failed request never changes the list or the viewed user, and always leaves a truthy error. |
| UserSlice.Reduce | src/store/slices/userSlice.ts:96-201 | The slice's reducer. Loading is raised only by, and always by, a pending case. The error changes only through `clearError`, a pending case or a rejected case. The list changes only through fetching, updating, deleting or creating users. |
| UserSlice.NoSpinnerWithoutPending | src/store/slices/userSlice.ts:115-200 | A run of actions with no pending case never raises the loading flag. |
| CourierDashboard.Unwrap | src/components/dashboard/CourierDashboard.tsx:70 | An element becomes its `data` when that is truthy, and otherwise stays as it is. |
| CourierDashboard.RawCouriers | src/components/dashboard/CourierDashboard.tsx:65-81 | `response.data` if it is an array, else `response.data.data` if it is one, else the response if it is one, else nothing. |
| CourierDashboard.LoadOtherCouriers | src/components/dashboard/CourierDashboard.tsx:60-95 | Every kept courier is a non-null unwrapped element with a truthy id or email and a `userId` other than the user's. Every unwrapped element meeting that test is kept, and a failed request gives []. |
| CourierDashboard.UnlinkedDroppedWithoutUser | src/components/dashboard/CourierDashboard.tsx:83-88 | With nobody signed in, a courier without a `userId` is dropped as well. |
| CourierDashboard.OtherCouriersShapesAgree | src/components/dashboard/CourierDashboard.tsx:65-81 | The three accepted response shapes with the same elements give the same list. |
| CourierDashboard.LoadFullCourierInfo | src/components/dashboard/CourierDashboard.tsx:39-49 | Set exactly when `data.data \|\| data` is a non-empty array whose first element is not null, to that element unwrapped. A failed request sets nothing. |
| CourierDashboard.GetTotalBookings | src/components/dashboard/CourierDashboard.tsx:97 | The one-pass count equals the number of booked slots, and is at most the schedule's length. |
| CourierDashboard.TotalBookingsSplit | src/components/dashboard/CourierDashboard.tsx:97 | The count adds up over a schedule split in two. |
| RegistrationForm.AdminRegisterData | src/components/forms/RegistrationForm.tsx:63-66 | The admin form's fields with role "admin". Fields the admin form lacks stay undefined. |
| RegistrationForm.HandleAdminSubmit | src/components/forms/RegistrationForm.tsx:61-72 | Registers that data and goes to /login exactly when registration is fulfilled. No courier resource is requested. |
| RegistrationForm.UserRegisterData | src/components/forms/RegistrationForm.tsx:78-83 | The whole user form, password included, with role "user". |
| RegistrationForm.UserResource | src/components/forms/RegistrationForm.tsx:92-100 | Exactly seven profile fields and never the password. A missing address or image becomes "". |
| RegistrationForm.HandleUserSubmit | src/components/forms/RegistrationForm.tsx:74-114 | On a fulfilled registration the token is stored only when one came back, and no other key changes. The user resource is posted with that bearer token. /login follows exactly when both steps succeed, and a rejection changes nothing. |
| RegistrationForm.UserWithoutCredentials | src/components/forms/RegistrationForm.tsx:87-108 | A registration answered without credentials still posts the resource, with the header "Bearer null". |
| RegistrationForm.CourierRegisterData | src/components/forms/RegistrationForm.tsx:118-130 | The courier form's fields with role "courier", "" for the address, and the schedule as an array. |
| RegistrationForm.HandleCourierSubmit | src/components/forms/RegistrationForm.tsx:116-143 | Registers that data and goes to /login exactly when registration is fulfilled. |
| RegistrationForm.CourierProfileAlwaysRequested | src/store/slices/authSlice.ts:56-80 | A courier registration answered with user and token always requests the courier resource, carrying the submitted schedule. |
| RegistrationForm.RejectedRegistrationStays | src/components/forms/RegistrationForm.tsx:67-142 | A rejected registration never leaves the page on any tab, and stores no token. |
| Login.NavigateBasedOnRole | src/components/auth/Login.tsx:41-55 | admin, courier and user go to their dashboards and anything else goes to "/". The result is not "/" exactly when the value is one of the three role names. |
| Login.RoleDashboards | src/components/auth/Login.tsx:41-55 | Each role goes to the dashboard named after it, and different roles go to different dashboards. |
| Login.LoginRedirect | src/components/auth/Login.tsx:56-100 | Never navigates while signed out. With a role, it uses the role mapping. Without one, it navigates exactly when the stored user exists, parses and has a truthy role, using that role. |
| Login.LoginLandsOnDashboard | src/components/auth/Login.tsx:56-100 | After a successful login the page always moves on, to the dashboard of the settled role. |
| DashboardRedirect.Destination | src/components/DashboardRedirect.tsx:10-23 | "/" when signed out. Otherwise the role's dashboard, and "/" for any other role, null included. |
| DashboardRedirect.AgreesWithLogin | src/components/DashboardRedirect.tsx:14-23 | For a signed-in session the redirect is the login page's role mapping. |
| ProtectedRoute.Guard | src/components/routes/ProtectedRoute.tsx:9-22 | The children render exactly when signed in and either no role is required or the role matches. Otherwise it redirects to the fallback path, "/" by default. |
| ProtectedRoute.SignedOutRedirected | src/components/routes/ProtectedRoute.tsx:14-16 | A signed-out session is redirected whatever role is required. |
| AppRoutes.Route | src/components/routes/AppRoutes.tsx:14-47 | "/", "/login" and "/register" show their pages unguarded, and "/dashboard" redirects like `DashboardRedirect`. Every redirect goes to "/" or a dashboard, and only "/dashboard" redirects anywhere but "/". |
| AppRoutes.SectionsDisjoint | src/components/routes/AppRoutes.tsx:20-45 | The three role sections do not overlap, and none contains a public path. |
| AppRoutes.RouteInSection | src/components/routes/AppRoutes.tsx:20-45 | A path in a role's section is served by that role's guarded dashboard. |
| AppRoutes.AccessControl | src/components/routes/AppRoutes.tsx:14-47 | A path shows a role's dashboard exactly when it lies in that role's section and the session is signed in with that role. |
| AppRoutes.RedirectsSettle | src/components/routes/AppRoutes.tsx:14-47 | Wherever a path redirects, the target shows a page for the same session: no redirect chain is longer than one step. |

## Left out

- Rendering, dialogs, snackbars and all MUI/react-hook-form/react-router machinery. `watch`/`setValue` are field reads and writes, and `navigate`/`<Navigate>` return a path.
- HTTP, the Cloudinary upload and the bearer-header interceptor: each request is an input, success with a body or failure with a response. Request URLs and the multipart body of the upload are not modelled.
- `JSON.stringify` and `JSON.parse`: a pair of functions passed in, where `parse` returns `None` where it would throw.
- Asynchrony: thunk scheduling, timeouts, stale updates after unmount, the re-fetch after a booking, and console logging.
- `loadBookings` and the other dashboard fetches that only store `response.data`: no logic beyond the request.
- `AdminDashboard`, `Navbar`, `LandingPage`, `BaseFormElement` and `EditCourierForm`: rendering, or code that is commented out.
- HTML `required` attributes and react-hook-form's evaluation of the rule tables: `Validation.CreateValidation` builds the table, and the patterns are decided separately. Enforcing them in the browser is not modelled.
- The `uploading` flags of the forms: they only disable buttons while a request is in flight.
- Router details: case-insensitive matching and trailing slashes are not modelled. A path is in a section when it starts with "/admin/", "/user/" or "/courier/", or equals the bare section name.
- Text.ParseIntPrefix: leading whitespace is not skipped, the "0x" hexadecimal prefix is not recognised and results are unbounded integers. Only labels built from ASCII digits reach it.
- Text.Less: characters are compared by code point. JavaScript compares UTF-16 code units, which orders characters from U+E000 to U+FFFF differently against characters outside the Basic Multilingual Plane. Only ASCII time labels are compared.
- Js.Value: JavaScript numbers are modelled as unbounded integers (`Num(int)`). Fractions, NaN, infinities and 64-bit floating-point rounding are not modelled, because the modelled code does no arithmetic on backend numbers.
- UserDashboard.Add30Minutes: defined for well-formed "HH:MM" labels only. `Number` of a malformed part gives NaN in the source, and that case is not modelled.
- UserDashboard.BookingSubmit: requires the selected slot to be empty or an "HH:MM" label, which holds because it comes from the generated slot menu.
- Js.Merge: object spread of strings and arrays (index keys) is not modelled. In the model any non-object contributes no fields.
- JavaScript `===` on objects is reference equality. The model compares values structurally, which agrees wherever a comparison involves strings, as every comparison in this code does.
- Reducers throwing on malformed payloads (for example `action.payload.id` of a null payload) are not modelled. The payload is taken as a value, and missing fields read as undefined.
- RegistrationForm.HandleUserSubmit: the second request's failure is an input (`resourceCreated`). Its error body is not modelled.

## Findings

| source | as written | input that shows it | evidently intended | confidence | as-written member | corrected member |
|---|---|---|---|---|---|---|
| src/store/slices/authSlice.ts:194-209 | `initializeAuth` assigns user, token and isAuthenticated on the draft before reading `user.role`. When that read throws, the catch removes the keys, but the draft assignments survive. | storage `token` = "t", `user` = "null" (parses to null) | a stored user that parses to null (no property to read) is treated like a parse failure: keys removed, state untouched | not executed | AuthSlice.NullStoredUserAuthenticates | AuthSlice.InitializeAuth |
