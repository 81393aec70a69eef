# Lead funnel core, modelled in Dafny

This project models the logic of an astrology-consultation lead funnel: a Next.js application
with a small Python/Flask remnant. The funnel collects leads and shows them a sales video. It
books consultations against a Google calendar, sends a chain of nurture e-mails and SMS
reminders, tracks each lead's funnel stage and engagement score, manages e-mail preferences
and unsubscribes, and issues invoices.

Each core source file becomes one Dafny module:

| file | module | form |
|---|---|---|
| `lib/google-calendar.ts` | `GoogleCalendar` (google_calendar.dfy) | slot loops as methods, `CalendarManager` class with its slot cache |
| `funnel/utils/google_calendar_auth.py` | `CalendarAuthSlots` (calendar_auth_slots.dfy) | the nested slot loops as a method |
| `app/api/appointment/save/route.ts` | `Booking` (booking.dfy) | the booking sequence as a method over the database and the scheduler |
| `lib/reminder-scheduler.ts` | `Reminders` (reminders.dfy), `ReminderScheduling` (reminder_scheduler.dfy) | the reminder table and its sweep as functions; `ReminderScheduler` class |
| `reminder_scheduler.ts` | `LegacyReminderScheduling` (legacy_reminder_scheduler.dfy) | the older `ReminderScheduler` class |
| `lib/status-manager.ts` | `StatusManagement` (status_manager.dfy) | table transitions as functions; methods over the shared `Database` |
| `lib/email-preferences.ts` | `EmailPreferences` (email_preferences.dfy) | `PreferencesStore` class; URL and footer as functions |
| `app/api/preferences/route.ts` | `PreferencesRoute` (preferences_route.dfy) | `GET`/`POST` as methods |
| `lib/invoice-manager.ts` | `Invoices` (invoices.dfy) | `InvoiceStore` class over the three invoice tables |
| `app/api/admin/invoices/create/route.ts` | `InvoiceCreateRoute` (invoice_create_route.dfy) | validation loop and handler methods |
| `lib/sms.ts` | `Sms` (sms.dfy) | phone formatting as a function; `SmsService` class |
| `lib/google-meet.ts` | `GoogleMeet` (google_meet.dfy) | generation loops as methods; validation and extraction as functions |
| `lib/email/utils/html-builder.ts` | `HtmlBuilder` (html_builder.dfy) | functions and lemmas |
| `lib/sqlite/middleware.ts` | `Middleware` (middleware.dfy) | functions and lemmas |
| `app/api/video-stream/route.ts` | `VideoStream` (video_stream.dfy) | functions and lemmas |
| `lib/videoUtils.ts` | `VideoUtils` (video_utils.dfy) | functions and lemmas |

`FunnelDb` (funnel_db.dfy) holds the `leads`, `appointments`, `status_history` and
`engagement_events` tables that several files share. `Wrappers` and `Text` (common.dfy) hold
`Option` and the string helpers: decimal numerals, padding, search and replace.

Conventions:
- Database tables are sequences whose row `i` has id `i + 1`, or maps keyed by e-mail.
- Times are integers: minutes from midnight for the calendar, and an absolute clock for reminders.
- Money and JavaScript numbers are exact `real`s.
- Clocks, random draws, HMAC digests and environment variables are parameters.
- So is the outcome of every foreign call: an e-mail send, a Twilio send, a calendar insert.

In three places the program's own components expect a behaviour that the code does not deliver.
The model follows the code:
- The booking form offers only the free slots that it fetches from the calendar
  (components/calendar-booking.tsx:39-58). The save route stores whatever date and time it receives
  (app/api/appointment/save/route.ts:276-292), with no availability or conflict check. The
  `appointments` table (lib/database.ts:76-91) has no unique constraint. Two bookings of the same
  date and time both succeed (`Booking.NoConflictCheck`).
- The route answers a token that does not match with 403 "Invalid token"
  (app/api/preferences/route.ts:36-42). A token of the wrong byte length never reaches that answer:
  `timingSafeEqual` (app/api/preferences/route.ts:15) throws, and the route's catch answers 500
  (app/api/preferences/route.ts:122-127) (`PreferencesRoute.Gate`).
- Two `CREATE TABLE` statements for the preferences table disagree, and the default of the SMS
  flags depends on which one ran first:
  - `lib/email-preferences.ts:95-97` defaults them off;
  - `app/api/preferences/route.ts:61-63` defaults them on.

  `PrefState.schema` records which one created the table.

  When the library created it, the table has no `unsubscribed_at` column. Both POST writes name
  that column, so every "all" or preferences request throws and answers 500
  (`PreferencesRoute.LibraryTableRefusesEveryWrite`).
- The preferences page posts a toggled checkbox as a JSON boolean. better-sqlite3 refuses to bind
  a boolean, so such a request also answers 500 (`PreferencesRoute.AllBind`).
- The confirmation SMS promises "a reminder 6 hours before". The reminder scheduler schedules
  the appointment reminder one hour before (`ReminderScheduling.ReminderScheduler.ScheduleAppointmentReminder`).

The exceptions are the defects listed under "## Findings". For each, one member models the code as
written and exhibits the defect, and the rest of the model uses the corrected behaviour. In
particular `CalendarAuthSlots.GetAvailableSlots` offers the slots of the corrected half-open
overlap test, not the slots the Python string comparison offers.

## Model

| member | source | states |
|---|---|---|
| GoogleCalendar.GenerateTimeSlots | lib/google-calendar.ts:39-48 | the nested hour and half-hour loops produce exactly the slot list `TimeSlots()` |
| GoogleCalendar.TimeSlots | lib/google-calendar.ts:39-51 | the half-hour labels "00:00" to "23:30", as `TIME_SLOTS` holds them (stated by the lemmas below) |
| GoogleCalendar.TimeSlotsShape | lib/google-calendar.ts:39-48 | there are 48 slots, and slot i is the label whose "HH:MM" reads back as 30·i minutes |
| GoogleCalendar.FirstAndLastSlot | lib/google-calendar.ts:39-48 | the first slot is "00:00" and the last is "23:30" |
| GoogleCalendar.TimeSlotsAscending | lib/google-calendar.ts:39-48 | the slots strictly ascend |
| GoogleCalendar.LabelRoundTrip | lib/google-calendar.ts:42-45 | a label built from an hour and a zero-padded minute parses back to hour·60 + minute |
| GoogleCalendar.CollectBusyTimes | lib/google-calendar.ts:336-345 | the busy list collects, in order, the events that have both a start and an end date-time |
| GoogleCalendar.AllDayEventsIgnored | lib/google-calendar.ts:336-345 | events without a start or end date-time (all-day events) give no busy interval |
| GoogleCalendar.HasConflict | lib/google-calendar.ts:351-369 | a slot start conflicts iff some busy interval has start <= t < end |
| GoogleCalendar.FilterFreeSlots | lib/google-calendar.ts:351-369 | the filter loop yields the order-preserving filter `FreeSlots` of the slot list |
| GoogleCalendar.FreeSlots | lib/google-calendar.ts:351-369 | the slots whose start lies in no busy interval, in list order (stated by the lemmas below) |
| GoogleCalendar.FreeSlotsMembership | lib/google-calendar.ts:351-369 | a slot is kept iff it is in the list and its start lies in no busy interval |
| GoogleCalendar.FreeSlotsAscending | lib/google-calendar.ts:351-369 | filtering an ascending list keeps it ascending |
| GoogleCalendar.NothingBlockedKeepsAll | lib/google-calendar.ts:351-369 | with no busy interval every slot is kept, in order |
| GoogleCalendar.SlotOffered | lib/google-calendar.ts:351-369 | a slot whose start is in no busy interval is offered |
| GoogleCalendar.SlotDropped | lib/google-calendar.ts:351-369 | a slot whose start is inside a busy interval is not offered |
| GoogleCalendar.OneEventExample | lib/google-calendar.ts:351-369 | with one event from 10:15 to 11:15, the 10:00 slot stays although it runs into the event; 10:30 and 11:00 go |
| GoogleCalendar.SlotRunningIntoEventIsOffered | lib/google-calendar.ts:351-389 | the same example through `getAvailableSlots`: 10:00 offered, 10:30 and 11:00 not |
| GoogleCalendar.CalendarManager.GetAvailableSlots | lib/google-calendar.ts:308-398 | without a calendar every slot comes back and the cache is untouched; a listing error, or no free slot, gives every slot; otherwise the free slots, cached under the date |
| GoogleCalendar.AvailableSlotsShape | lib/google-calendar.ts:387-397 | the answer is never empty, ascends, and holds only slots of the list |
| GoogleCalendar.AvailableSlotsIff | lib/google-calendar.ts:351-389 | when some slot is free, a slot is offered iff its start is in no busy interval; when none is free, all 48 come back |
| GoogleCalendar.AllDayOnlyCalendarOffersEverySlot | lib/google-calendar.ts:336-389 | a day with only all-day events offers all 48 slots |
| GoogleCalendar.EventFor | lib/google-calendar.ts:448-454 | the created event ends exactly 60 minutes after it starts, and names the client and the attendee |
| GoogleCalendar.CalendarManager.CreateAppointment | lib/google-calendar.ts:401-557 | without a calendar: success, no event id, "saved locally", nothing sent. With a calendar: success iff the start parses and the insert succeeds. An insert returns the provider's event id and HTML link, each none when empty (`|| undefined`), a non-empty id always coming back; the meet link and meeting id are the given ones, or the generated pair when no link was given; the cache is cleared on success. A thrown insert gives "Google Calendar error: " and its message, an unparsable start "Google Calendar error: Invalid time value" with nothing sent |
| GoogleCalendar.UpdateAppointment | lib/google-calendar.ts:560-630 | always reports success; no calendar or no event id: "Appointment updated locally"; a provider error: "Appointment updated locally (Google Calendar error)"; a successful update: the provider's non-empty id and link and no message; an event id only in that case |
| GoogleCalendar.DeleteAppointment | lib/google-calendar.ts:632-653 | always reports success with no event id; no calendar or no event id: "Appointment deleted locally"; a provider error: "Appointment deleted locally (Google Calendar error)"; no message exactly when the delete goes through |
| CalendarAuthSlots.GetAvailableSlots | funnel/utils/google_calendar_auth.py:222-287 | corrected definition (see "## Findings"): no service: failure and no slots; a listing error: failure with the error text; otherwise success, the working slots free under the half-open test `OpenSlots(events, duration, 36)`, and a message with their count |
| CalendarAuthSlots.OpenSlots | funnel/utils/google_calendar_auth.py:262-278 | corrected definition: the labels of the first n working slots whose meeting overlaps no event, in loop order; at most n of them |
| CalendarAuthSlots.IsSlotFree | funnel/utils/google_calendar_auth.py:268-275 | the event loop answers true iff the meeting overlaps no event (half-open test) |
| CalendarAuthSlots.OpenSlotsStep | funnel/utils/google_calendar_auth.py:262-278 | candidate i of the loops is the slot at the loop's hour and minute, appended iff free |
| CalendarAuthSlots.OpenSlotsMembership | funnel/utils/google_calendar_auth.py:262-278 | working slot i is offered iff it is among the first n and its meeting overlaps no event |
| CalendarAuthSlots.LabelsDistinct | funnel/utils/google_calendar_auth.py:264-265 | different working slots have different "HH:MM" labels |
| CalendarAuthSlots.OpenSlotsBounded | funnel/utils/google_calendar_auth.py:262-278 | at most n slots are offered, each one of the candidates 09:00 + 15·i minutes |
| CalendarAuthSlots.EmptyCalendarOffersAll | funnel/utils/google_calendar_auth.py:262-278 | with no events every candidate is offered |
| CalendarAuthSlots.AllDayEventBlocksAll | funnel/utils/google_calendar_auth.py:268-278 | an event spanning the whole day leaves no slot |
| CalendarAuthSlots.OneEventExample | funnel/utils/google_calendar_auth.py:268-278 | corrected definition: with one event from 11:00 to 12:00 and hour-long meetings, a slot is offered iff it starts at or before 10:00 or at or after 12:00 (the code as written also refuses 12:00, see `AsWrittenRefusesAtEventEnd`) |
| CalendarAuthSlots.OverlapsAsWritten | funnel/utils/google_calendar_auth.py:264-273 | the test as written: `slot_start < event_end and slot_end > event_start` on the slot texts without offset and the event texts with one, compared character by character (its contract is stated by `AsWrittenAsClocks`) |
| CalendarAuthSlots.TextLessCommonPrefix | funnel/utils/google_calendar_auth.py:272 | Python string order ignores a common prefix, here the date and "T" |
| CalendarAuthSlots.Pad2Less | funnel/utils/google_calendar_auth.py:264-265 | `{:02d}` fields below 100 compare as text as they compare as numbers |
| CalendarAuthSlots.ClockTextLess | funnel/utils/google_calendar_auth.py:264-265 | "HH:MM" texts with fields below 100 compare as clocks, equal clocks by what follows |
| CalendarAuthSlots.OffsetSortsLast | funnel/utils/google_calendar_auth.py:264-271 | the offset-free slot text sorts before the event text of the same clock |
| CalendarAuthSlots.AsWrittenAsClocks | funnel/utils/google_calendar_auth.py:264-273 | with fields below 100 the test as written is: slot start at or before the event end, and event start strictly before the slot end as its fields read |
| CalendarAuthSlots.AsWrittenMissesOverlap | funnel/utils/google_calendar_auth.py:265-273 | the comparison as written misses the overlap of a 90-minute meeting at 09:45 ("10:75") with an event at 11:00 |
| CalendarAuthSlots.AsWrittenRefusesAtEventEnd | funnel/utils/google_calendar_auth.py:264-273 | the comparison as written refuses an hour at 12:00 after an 11:00-12:00 event, which the half-open test allows |
| CalendarAuthSlots.AsWrittenDiffersOnlyAtEventEnd | funnel/utils/google_calendar_auth.py:264-273 | for whole-hour durations, including the default 60, the comparison as written equals the half-open test except that it also refuses a slot starting exactly when an event ends |
| Booking.MissingField | app/api/appointment/save/route.ts:31-39 | no field is reported missing iff name, email, date and time are all non-empty |
| Booking.Timezone | app/api/appointment/save/route.ts:42-44 | an absent or empty timezone becomes "Europe/Moscow"; a given one is kept |
| Booking.CalendarMirror | app/api/appointment/save/route.ts:46-184 | the mirror succeeds iff the credential files exist, the start parses and the insert succeeds; a failure carries no event id and a message; a sent event lasts 60 minutes |
| Booking.CalendarFailureNonFatal | app/api/appointment/save/route.ts:143-184 | a failed mirror still yields a "scheduled" appointment, with a null event id |
| Booking.UpsertLookup | app/api/appointment/save/route.ts:235-273 | after the upsert, looking the e-mail up finds the returned lead, which carries the new name |
| Booking.UpsertGrowth | app/api/appointment/save/route.ts:235-273 | an unknown e-mail appends one new lead; a known one changes only that lead's row |
| Booking.UpsertKeepsKnownContact | app/api/appointment/save/route.ts:258-270 | a null phone keeps the stored phone (COALESCE) |
| Booking.SaveAppointment | app/api/appointment/save/route.ts:22-404 | 500 "Internal server error" on a body that does not parse (before the calendar call) or a data directory that cannot be created (after it), 400 on a missing field, and 500 when the database does not open, each changing no table. Otherwise: the lead upsert, one "scheduled" appointment, the appointment-scheduled transition, the lead's pending reminders cancelled, the appointment reminder scheduled, and a 200 reply with the new id |
| Booking.NoConflictCheck | app/api/appointment/save/route.ts:276-292 | two bookings for the same date and time are both stored as "scheduled" |
| Booking.HasScheduledAppointment | lib/reminder-scheduler.ts:668-686 | an e-mail has a scheduled appointment iff some "scheduled" appointment belongs to a lead with that e-mail |
| Booking.AsWrittenStillRemindsBookedLead | lib/reminder-scheduler.ts:668-686 | for a lead with a scheduled appointment, the corrected check skips a nurture reminder; the check as written answers false and lets it through |
| Booking.BookingMarksEmailBooked | app/api/appointment/save/route.ts:276-349 | after a booking, the corrected check reports the booked e-mail as having a scheduled appointment |
| Booking.ScheduledEventKeepsEmails | lib/status-manager.ts:257-265 | the appointment-scheduled transition changes no lead's e-mail |
| Booking.ProcessRemindersForBookings | lib/reminder-scheduler.ts:402-644 | the sweep run with the corrected check skips exactly the e-mails that have a scheduled appointment |
| FunnelDb.NewLead | app/api/appointment/save/route.ts:240-254 | a new lead starts at stage new, step "vsl_optin", score 0, subscribed, with the given name and e-mail |
| FunnelDb.LeadIdByEmail | app/api/appointment/save/route.ts:235-237 | the lookup finds the first lead with that e-mail, or nothing iff no lead has it |
| Reminders.ChainDelay | lib/reminder-scheduler.ts:72-279 | every delay is at least 5 minutes; in test mode every chain delay is 5 minutes |
| Reminders.ProductionDelaysGrow | reminder_scheduler.ts:72-295 | in production each successor waits longer than its predecessor: 3 hours after the video, up to 14 days for testimonial 3 |
| Reminders.Successor | lib/reminder-scheduler.ts:446-576 | a successor always has a delay, and is never a video or content reminder |
| Reminders.ChainRankStep | lib/reminder-scheduler.ts:446-576 | each successor is one step further along the chain |
| Reminders.FollowUpsBounded | lib/reminder-scheduler.ts:446-576 | a sent reminder leads to at most six follow-ups |
| Reminders.VideoChain | lib/reminder-scheduler.ts:446-622 | the video reminder is followed by checking-in, direct offer, final, testimonials 1 to 3; appointment, testimonial 3, content and 24-hour video reminders are followed by nothing |
| Reminders.Insert | lib/reminder-scheduler.ts:60-92 | an insert appends one pending row with the next id and keeps every earlier row |
| Reminders.SetStatus | lib/reminder-scheduler.ts:356-399 | a status update rewrites only the row with that id, and only its status, sent time and error |
| Reminders.InsertKeepsAtMostOne | lib/reminder-scheduler.ts:60-92 | inserting a non-video reminder keeps at most one pending video reminder per e-mail |
| Reminders.SetStatusKeepsAtMostOne | lib/reminder-scheduler.ts:356-399 | marking a row sent, failed or cancelled keeps that invariant |
| Reminders.ScheduleVideoKeepsAtMostOne | lib/reminder-scheduler.ts:65-73 | scheduling a video reminder keeps the invariant and leaves one pending video reminder for the e-mail |
| Reminders.CancelPending | lib/reminder-scheduler.ts:689-709 | every pending row of that e-mail becomes cancelled; every other row is unchanged |
| Reminders.CancelPendingEffect | lib/reminder-scheduler.ts:689-709 | afterwards the e-mail has no pending row, other e-mails' rows are untouched, and the invariants hold |
| Reminders.NoPendingCountsZero | lib/reminder-scheduler.ts:693-703 | an e-mail without pending rows counts zero |
| Reminders.DueRows | lib/reminder-scheduler.ts:336-342 | only pending rows due at or before now are selected |
| Reminders.InsertByDue | lib/reminder-scheduler.ts:340 | the insertion step is a permutation of the rows plus the new one |
| Reminders.InsertByDueSorted | lib/reminder-scheduler.ts:340 | inserting into a list ordered by due time keeps it ordered |
| Reminders.SortByDue | lib/reminder-scheduler.ts:340 | the sort is an ordered permutation of its input |
| Reminders.PendingDue | lib/reminder-scheduler.ts:332-342 | the due pending rows sorted by due time and cut to 50 (stated by `PendingDueSpec`) |
| Reminders.PendingDueSpec | lib/reminder-scheduler.ts:336-342 | the batch is pending and due, ascending by due time, at most 50 rows, and no omitted due row is earlier than a selected one |
| Reminders.PendingDueWellFormed | lib/reminder-scheduler.ts:336-342 | the batch has distinct ids, each naming its own row of the table |
| Reminders.Step | lib/reminder-scheduler.ts:409-634 | one reminder of the sweep: cancelled when its lead is booked, otherwise sent or failed per the send outcome, with the next reminder of its chain on success; the table stays valid and never shrinks |
| Reminders.Run | lib/reminder-scheduler.ts:402-644 | `Step` over the batch in order; the table stays valid and never shrinks (stated further by the lemmas below) |
| Reminders.RunCounts | lib/reminder-scheduler.ts:637-643 | sent + failed + skipped equals the number processed |
| Reminders.RunWithoutBookingsCountsAll | reminder_scheduler.ts:619-625 | without cancellation, sent + failed equals the number processed |
| Reminders.StepFrame | lib/reminder-scheduler.ts:412-634 | one reminder's step sets its own row to its final status and touches no other row; any inserted row is a pending successor due later |
| Reminders.RunFrame | lib/reminder-scheduler.ts:402-644 | the sweep keeps every row's identity and adds only pending successors due after now |
| Reminders.RunUntouched | lib/reminder-scheduler.ts:402-644 | a row outside the batch is unchanged by the sweep |
| Reminders.RunFinalStatus | lib/reminder-scheduler.ts:412-634 | each batch row ends cancelled (booked, non-appointment), sent (delivered) or failed (rejected or thrown) |
| Reminders.RunKeepsAtMostOne | lib/reminder-scheduler.ts:402-644 | the sweep keeps at most one pending video reminder per e-mail |
| Reminders.AppointmentFieldsRoundTrip | lib/reminder-scheduler.ts:430-431 | the stored "date time" text splits back into its date and time |
| Reminders.SplitAtSpaceOf | lib/reminder-scheduler.ts:430-431 | splitting at the first space gives the date and the rest |
| ReminderScheduling.ReminderScheduler.HasExistingReminder | lib/reminder-scheduler.ts:647-665 | true iff a pending reminder of that kind exists for the e-mail |
| ReminderScheduling.ReminderScheduler.ScheduleVideoReminder | lib/reminder-scheduler.ts:60-92 | reports success; inserts a video reminder due after the test or production delay unless one is already pending |
| ReminderScheduling.ReminderScheduler.ScheduleAppointmentReminder | lib/reminder-scheduler.ts:95-120 | an unparsable time fails with "Invalid time value" and inserts nothing; otherwise the reminder is due one hour before the appointment |
| ReminderScheduling.ReminderScheduler.ScheduleReminder | lib/reminder-scheduler.ts:123-328 | each chain step inserts one pending reminder due after its delay |
| ReminderScheduling.ReminderScheduler.GetPendingReminders | lib/reminder-scheduler.ts:332-353 | returns the due batch `PendingDue`, with distinct ids of existing rows |
| ReminderScheduling.ReminderScheduler.MarkReminderSent | lib/reminder-scheduler.ts:356-376 | the row becomes sent, with the sent time |
| ReminderScheduling.ReminderScheduler.MarkReminderFailed | lib/reminder-scheduler.ts:379-399 | the row becomes failed, with the error message |
| ReminderScheduling.ReminderScheduler.MarkReminderCancelled | lib/reminder-scheduler.ts:412-419 | the row becomes cancelled |
| ReminderScheduling.ReminderScheduler.CancelAllReminders | lib/reminder-scheduler.ts:689-709 | cancels every pending row of the e-mail and returns how many there were |
| ReminderScheduling.ReminderScheduler.ProcessOne | lib/reminder-scheduler.ts:412-634 | one loop iteration performs exactly one `Step` of the sweep |
| ReminderScheduling.ReminderScheduler.ProcessPendingReminders | lib/reminder-scheduler.ts:402-644 | processes the due batch; counts and table equal `Run`; each batch row ends in its final status |
| LegacyReminderScheduling.LegacyReminderScheduler.HasExistingReminder | reminder_scheduler.ts:629-647 | true iff a pending reminder of that kind exists for the e-mail |
| LegacyReminderScheduling.LegacyReminderScheduler.ScheduleVideoReminder | reminder_scheduler.ts:60-90 | reports success; inserts a video reminder due in 3 hours unless one is already pending |
| LegacyReminderScheduling.LegacyReminderScheduler.ScheduleAppointmentReminder | reminder_scheduler.ts:93-118 | an unparsable time fails; otherwise the reminder is due one hour before the appointment |
| LegacyReminderScheduling.LegacyReminderScheduler.ScheduleReminder | reminder_scheduler.ts:121-315 | each chain step is due after its production delay (2, 3, 5, 7, 10, 14 or 21 days) |
| LegacyReminderScheduling.LegacyReminderScheduler.GetPendingReminders | reminder_scheduler.ts:318-339 | returns the due batch: pending, due, ascending, at most 50 |
| LegacyReminderScheduling.LegacyReminderScheduler.MarkReminderSent | reminder_scheduler.ts:342-362 | the row becomes sent |
| LegacyReminderScheduling.LegacyReminderScheduler.MarkReminderFailed | reminder_scheduler.ts:365-385 | the row becomes failed, with the error |
| LegacyReminderScheduling.LegacyReminderScheduler.SendOne | reminder_scheduler.ts:405-616 | one loop iteration performs one `Step` with no cancellation and production delays |
| LegacyReminderScheduling.LegacyReminderScheduler.SendAll | reminder_scheduler.ts:401-616 | the loop over the due batch: the new rows and the (sent, failed) tally are exactly those of running `Step` over the batch in order, each reminder either sent or marked failed |
| LegacyReminderScheduling.LegacyReminderScheduler.ProcessPendingReminders | reminder_scheduler.ts:388-627 | processes the due batch; sent + failed = processed; an empty batch changes nothing |
| StatusManagement.StageScore | lib/status-manager.ts:219-230 | scores lie in 0..100; 0 only for new, 100 only for paid_customer |
| StatusManagement.StageScoreIncreasing | lib/status-manager.ts:219-230 | the score strictly increases along the stage order |
| StatusManagement.StepMirrorsStage | lib/status-manager.ts:121-136 | the funnel step equals the stage name except for new and video_started |
| StatusManagement.AddScore | lib/status-manager.ts:205-216 | adds the amount to that lead's score only |
| StatusManagement.UpdateEngagementScore | lib/status-manager.ts:205-216 | the leads table becomes `AddScore`; the other tables are unchanged |
| StatusManagement.RecordStatusHistory | lib/status-manager.ts:161-179 | appends one history entry and changes nothing else |
| StatusManagement.UpdateLeadStatus | lib/status-manager.ts:111-158 | true iff the lead exists; the tables become `UpdateStatus` |
| StatusManagement.UnknownLeadUnchanged | lib/status-manager.ts:115-116 | an unknown lead changes nothing |
| StatusManagement.UpdateStatus | lib/status-manager.ts:111-158 | the tables after a status change: unchanged for an unknown lead (stated by the two lemmas below) |
| StatusManagement.UpdateStatusEffect | lib/status-manager.ts:118-151 | a known lead gets the new stage (even backwards), its step, and the stage's score added; one history entry (old, new, "funnel_stage"); no other row changes |
| StatusManagement.RecordEngagementEvent | lib/status-manager.ts:182-201 | reports the event recorded iff the lead exists; the tables become `Record` |
| StatusManagement.Record | lib/status-manager.ts:182-216 | the tables after an engagement event: unchanged for an unknown lead, whose insert the foreign key on `engagement_events.lead_id` refuses (stated by `RecordEffect` and `UnknownLeadRecordsNothing`) |
| StatusManagement.UnknownLeadRecordsNothing | lib/status-manager.ts:182-298 | for an unknown lead, recording an event, a stage event and a video-progress event each leave every table unchanged |
| StatusManagement.RecordEffect | lib/status-manager.ts:182-201 | one event appended; the score rises by the value only when it is positive; the stage is unchanged |
| StatusManagement.GetLeadStatus | lib/status-manager.ts:301-313 | returns the lead's row iff it exists |
| StatusManagement.ProgressPoints | lib/status-manager.ts:247 | the event score is floor(p/10); between 25 and 80 it is 2 to 7 |
| StatusManagement.HandleVideoCompletion | lib/status-manager.ts:233-254 | rejects iff the progress reaches 25 % and the lead is unknown; the tables become `VideoCompletion` |
| StatusManagement.VideoBelowQuarterIgnored | lib/status-manager.ts:233-254 | progress below 25 % changes nothing |
| StatusManagement.VideoCompletedEffect | lib/status-manager.ts:235-242 | 80 % or more sets video_completed and adds 25 + 25 points |
| StatusManagement.VideoProgressEffect | lib/status-manager.ts:243-253 | 25 % to 80 % moves only a new lead to video_started and adds floor(p/10) plus that stage's 10 |
| StatusManagement.HandleStageEvent | lib/status-manager.ts:257-298 | rejects iff the lead is unknown; the tables become `StageEvent` |
| StatusManagement.StageEventEffect | lib/status-manager.ts:257-298 | the stage is set; the score rises by stage score + event points; one history and one event entry |
| StatusManagement.HandleAppointmentScheduled | lib/status-manager.ts:257-265 | the appointment-scheduled transition; rejects iff the lead is unknown |
| StatusManagement.AppointmentScheduledWorth100 | lib/status-manager.ts:257-265 | stage appointment_scheduled, score + 100 |
| StatusManagement.HandleAppointmentAttended | lib/status-manager.ts:268-276 | the appointment-attended transition; rejects iff the lead is unknown |
| StatusManagement.AppointmentAttendedWorth100 | lib/status-manager.ts:268-276 | stage appointment_attended, score + 100 |
| StatusManagement.HandleInvoiceSent | lib/status-manager.ts:279-287 | the invoice-sent transition; rejects iff the lead is unknown |
| StatusManagement.InvoiceSentWorth95 | lib/status-manager.ts:279-287 | stage invoice_sent, score + 95 |
| StatusManagement.HandlePaymentCompleted | lib/status-manager.ts:290-298 | the payment transition; rejects iff the lead is unknown |
| StatusManagement.PaymentWorth200 | lib/status-manager.ts:290-298 | stage paid_customer, score + 200 |
| StatusManagement.CountOf | lib/status-manager.ts:392-395 | a stage's count comes from its statistics row, and is 0 when the stage is missing |
| StatusManagement.RateMeaning | lib/status-manager.ts:397 | 0 when the previous count is 0; otherwise rate·previous = 100·current, at most 100 iff current <= previous |
| StatusManagement.PairKeysDistinct | lib/status-manager.ts:390-399 | keys of different stage pairs differ |
| StatusManagement.WrittenSpec | lib/status-manager.ts:390-399 | writing n distinct keys in order leaves n entries, each key holding the value written under it |
| StatusManagement.WrittenRates | lib/status-manager.ts:390-399 | after the six writes the map has exactly the six pair keys, each holding its pair's rate |
| StatusManagement.CalculateConversionRates | lib/status-manager.ts:386-401 | six entries, one per consecutive stage pair and no other key, each mapped to that pair's rate |
| EmailPreferences.DefaultPrefs | lib/email-preferences.ts:95-118 | a fresh row has the four e-mail flags on, unsubscribed_all off, and the SMS flags at the table's default |
| EmailPreferences.EnsureRow | lib/email-preferences.ts:84-118 | a missing row is created with the defaults; an existing row and the log are untouched |
| EmailPreferences.EnsureRowIdempotent | lib/email-preferences.ts:84-118 | asking twice equals asking once |
| EmailPreferences.EnsureRowLeavesOthers | lib/email-preferences.ts:84-118 | other e-mails' rows are untouched |
| EmailPreferences.PreferencesStore.GetPreferences | lib/email-preferences.ts:80-138 | the state becomes `EnsureRow` and the row is returned |
| EmailPreferences.EmailAllowed | lib/email-preferences.ts:141-159 | no record allows; unsubscribed_all denies; any other type is denied |
| EmailPreferences.EmailAllowedReadsFlag | lib/email-preferences.ts:147-158 | otherwise each of the four types reads its own flag |
| EmailPreferences.SmsAllowed | lib/email-preferences.ts:162-178 | no record allows; unsubscribed_all denies; any other type is denied |
| EmailPreferences.FreshRowDecisions | lib/email-preferences.ts:95-178 | under this file's table a fresh row allows the four e-mail types and denies every SMS |
| EmailPreferences.PreferencesStore.CanSendEmail | lib/email-preferences.ts:141-159 | creates the row if needed and answers `EmailAllowed` |
| EmailPreferences.PreferencesStore.CanSendSms | lib/email-preferences.ts:162-178 | creates the row if needed and answers `SmsAllowed` |
| EmailPreferences.EncodeUriComponent | lib/email-preferences.ts:185 | the encoding holds only unreserved characters and '%' |
| EmailPreferences.EncodeUnreservedIdentity | lib/email-preferences.ts:185 | text of unreserved characters is left as it is |
| EmailPreferences.EncodedHasNoSeparator | lib/email-preferences.ts:185-189 | an encoded address holds no '&', '=' or '#' |
| EmailPreferences.UnsubscribeToken | lib/email-preferences.ts:74-77 | the token is the first 16 characters of the digest |
| EmailPreferences.UnsubscribeUrl | lib/email-preferences.ts:181-190 | the page for the link kind, the encoded address, "&token=" and the token (stated by `UrlQueryParses`) |
| EmailPreferences.BaseUrl | lib/email-preferences.ts:182 | a set, non-empty base URL is used; otherwise the default |
| EmailPreferences.UrlQueryParses | lib/email-preferences.ts:181-190 | after the page prefix the first '&' ends the encoded e-mail, and "&token=" + token follows |
| EmailPreferences.InsertFooter | lib/email-preferences.ts:211-216 | the footer before the first "</body>", or appended (stated by `InsertFooterPlacement`) |
| EmailPreferences.InsertFooterPlacement | lib/email-preferences.ts:193-217 | the footer goes right before the first "</body>", or at the end without one; the length grows by exactly the footer's |
| PreferencesRoute.VerifyToken | app/api/preferences/route.ts:7-16 | the check passes iff the tokens are equal; a length mismatch is a throw |
| PreferencesRoute.Gate | app/api/preferences/route.ts:29-42 | missing e-mail: 400; no token: pass; a token passes iff it equals the expected one; every refusal is 400, 403 or 500 |
| PreferencesRoute.RouteTables | app/api/preferences/route.ts:53-80 | creating the tables keeps rows and log |
| PreferencesRoute.SetSubscribed | app/api/preferences/route.ts:225-229 | sets is_subscribed on the leads with that e-mail and no others |
| PreferencesRoute.SetSubscribedEffect | app/api/preferences/route.ts:285-292 | each lead's flag changes iff its e-mail matches; nothing else in the row changes |
| PreferencesRoute.Resolve | app/api/preferences/route.ts:236-248 | missing flags default on; unsubscribed_all iff all four e-mail flags are off |
| PreferencesRoute.SmsFlagsIgnored | app/api/preferences/route.ts:248 | the SMS flags never affect unsubscribed_all |
| PreferencesRoute.UnsubscribedTypes | app/api/preferences/route.ts:263-271 | lists exactly the e-mail flags that are off, empty iff all are on |
| PreferencesRoute.UnsubscribeAllEffect | app/api/preferences/route.ts:208-233 | "all" denies every e-mail and SMS type, logs one "all" entry, and leaves other e-mails' rows alone |
| PreferencesRoute.PreferencesLogIff | app/api/preferences/route.ts:263-282 | a log entry is written iff some e-mail flag is off, and at most one |
| PreferencesRoute.HandleGet | app/api/preferences/route.ts:19-129 | a refusal changes nothing; otherwise the tables exist, the row is ensured, and the reply carries the row and the token |
| PreferencesRoute.HandlePost | app/api/preferences/route.ts:132-320 | refusal: nothing changes. "all": everything off and the lead unsubscribed. A preferences object: the resolved flags, with the lead subscribed iff not all off. Otherwise 400. A write on the library's table, or with a boolean flag, throws: 500 "Failed to update preferences" and nothing written |
| PreferencesRoute.WriteUnsubscribeAll | app/api/preferences/route.ts:209-227 | the "all" branch's three statements: the row all off, one "all" log entry, the lead unsubscribed |
| PreferencesRoute.WritePreferences | app/api/preferences/route.ts:237-287 | the preferences branch's statements: the resolved row, the log entry if any e-mail flag is off, the lead's flag |
| PreferencesRoute.InsertFits | app/api/preferences/route.ts:210-214 | an INSERT runs iff the table has every column it names |
| PreferencesRoute.PreferenceColumns | app/api/preferences/route.ts:53-67 | the columns of the route's table and of the library's (lib/email-preferences.ts:88-101) |
| PreferencesRoute.WritesFitOnlyRouteTable | app/api/preferences/route.ts:210-259 | both INSERTs fit the route's table and neither fits the library's, which lacks `unsubscribed_at` |
| PreferencesRoute.LibraryTableRefusesEveryWrite | app/api/preferences/route.ts:53-67 | once the library created the table, the route's CREATE TABLE IF NOT EXISTS keeps it and both writes fail |
| PreferencesRoute.AllBind | app/api/preferences/route.ts:255-260 | the INSERT binds only numbers and missing flags; a boolean from a toggled checkbox throws |
| Invoices.RandomPart | lib/invoice-manager.ts:162 | the random part is below 1000 |
| Invoices.InvoiceNumber | lib/invoice-manager.ts:160-164 | "INV-", the clock, "-" and a three-digit random part (stated by `InvoiceNumberParses`) |
| Invoices.InvoiceNumberParses | lib/invoice-manager.ts:160-164 | the number reads back as "INV-", the clock in decimal, "-", and exactly three digits whose value is the random part |
| Invoices.ThreeDigits | lib/invoice-manager.ts:162 | padding gives exactly three digits with the same value |
| Invoices.NumberOrNull | lib/invoice-manager.ts:198 | `n || null`: zero and absent become null |
| Invoices.NewInvoiceRow | lib/invoice-manager.ts:188-205 | status draft; currency "USD" unless given; access token iff content enabled; upload time iff an image |
| Invoices.ItemRows | lib/invoice-manager.ts:217-226 | one item row per input item, in order |
| Invoices.ContentRows | lib/invoice-manager.ts:236-249 | one content row per input entry, in order |
| Invoices.ItemsOf | lib/invoice-manager.ts:277-280 | selects exactly the item rows of that invoice |
| Invoices.ReadBack | lib/invoice-manager.ts:209-253 | reading a new invoice back gives exactly the item rows just inserted |
| Invoices.InvoiceStore.GetInvoiceById | lib/invoice-manager.ts:265-316 | the invoice with its items iff the id exists |
| Invoices.InvoiceStore.CreateInvoice | lib/invoice-manager.ts:167-262 | a database error changes nothing and reports it; otherwise the new row, its items and content are appended, and reading it back gives its items |
| Invoices.InvoiceStore.InsertItems | lib/invoice-manager.ts:217-226 | the item loop appends `ItemRows` |
| Invoices.InvoiceStore.InsertContent | lib/invoice-manager.ts:228-251 | the content loop appends `ContentRows` |
| Invoices.InvoiceStore.UpdateInvoiceStatus | lib/invoice-manager.ts:371-434 | the table becomes `SetStatus`; a paid, known invoice moves its lead to paid_customer; success is false exactly when that invoice's lead has no row and the payment event is refused |
| Invoices.Overwrite | lib/invoice-manager.ts:384-407 | a given, non-empty value overwrites; otherwise the stored value stays |
| Invoices.SetStatusEffect | lib/invoice-manager.ts:381-413 | the status is set; each optional column is written iff given; no other field or row changes |
| Invoices.PaymentPromotesLead | lib/invoice-manager.ts:416-425 | paying moves the lead to paid_customer with 200 more points |
| Invoices.UnpaidLeavesFunnel | lib/invoice-manager.ts:416 | any other status leaves the funnel tables alone |
| Invoices.InvoiceStore.MarkInvoiceViewed | lib/invoice-manager.ts:562-569 | the table becomes `MarkViewed` |
| Invoices.MarkViewed | lib/invoice-manager.ts:562-569 | only a sent invoice becomes viewed; every other row and status is unchanged |
| Invoices.InvoiceStore.CheckoutWithoutStripe | lib/invoice-manager.ts:437-461 | an unknown invoice fails with "Invoice not found"; otherwise it becomes sent and the demo URL is returned as success |
| Invoices.DemoUrl | lib/invoice-manager.ts:455 | base URL (or "undefined") + "/invoice/" + number + "?demo=true" |
| Invoices.DemoCheckoutReopensPaid | lib/invoice-manager.ts:445-450 | the demo checkout sends a paid invoice back to sent, keeping its paid time |
| Invoices.InvoiceStore.GetInvoiceStats | lib/invoice-manager.ts:640-668 | total = all rows; revenue = paid totals; pending = sent + viewed; overdue counted |
| Invoices.CountStatus | lib/invoice-manager.ts:654-657 | a count never exceeds the number of rows |
| Invoices.StatsPartition | lib/invoice-manager.ts:650-666 | paid + pending + overdue + draft + cancelled = total |
| Invoices.RevenueNonNegative | lib/invoice-manager.ts:655 | with no negative amount, revenue is not negative |
| Invoices.PaymentAddsRevenue | lib/invoice-manager.ts:655-656 | paying an unpaid invoice adds its amount to revenue and one to the paid count |
| Invoices.NewestFirst | lib/invoice-manager.ts:582-599 | only matching invoices, newest first |
| Invoices.NewestFirstComplete | lib/invoice-manager.ts:582-599 | every matching invoice is listed |
| Invoices.Page | lib/invoice-manager.ts:602-607 | a non-zero limit bounds the page; without one every match is returned |
| Invoices.PageOrder | lib/invoice-manager.ts:602-607 | a page of newest-first ids is still newest first |
| Invoices.AdminPage | lib/invoice-manager.ts:582-607 | with the filter on `i.status`, the listed ids are matching invoices, newest first, at most the limit of them, and every match when no limit is given |
| Invoices.CountResolvesListDoesNot | lib/invoice-manager.ts:582-598 | the unqualified `status` of the filter names one column in the count query over `invoices` and two in the list query that joins `leads` |
| Invoices.InvoiceStore.GetInvoicesForAdmin | lib/invoice-manager.ts:572-637 | as written: a status filter fails with "ambiguous column name: status"; with no filter, total counts every invoice and the list is the page, newest first, each with its lead's name and items |
| Invoices.InvoiceStore.GetInvoicesForAdminQualified | lib/invoice-manager.ts:572-637 | with the filter qualified as `i.status`: total counts every match; the list is the page of matches, newest first, each with its lead's name and items |
| InvoiceCreateRoute.ValidateItems | app/api/admin/invoices/create/route.ts:58-65 | accepts iff every item has a non-empty description and non-zero quantity and price |
| InvoiceCreateRoute.Priced | app/api/admin/invoices/create/route.ts:68-71 | an item's total is quantity × unit price |
| InvoiceCreateRoute.WithTotals | app/api/admin/invoices/create/route.ts:68-71 | one priced item per request item, in order |
| InvoiceCreateRoute.TotalAppend | app/api/admin/invoices/create/route.ts:73 | the invoice total splits over concatenation |
| InvoiceCreateRoute.TotalPositive | app/api/admin/invoices/create/route.ts:73 | with positive quantities and prices the total is positive |
| InvoiceCreateRoute.NegativeQuantityAccepted | app/api/admin/invoices/create/route.ts:58-73 | a negative quantity passes validation and gives a negative total |
| InvoiceCreateRoute.InputFor | app/api/admin/invoices/create/route.ts:76-92 | the manager gets the summed total, the lead, and "USD" unless a currency is given |
| InvoiceCreateRoute.CreateInvoiceHandler | app/api/admin/invoices/create/route.ts:35-119 | 500 "Failed to create invoice" for a body that is not JSON, 400 for missing fields or a bad item, 500 on a manager failure, each storing no invoice, item or content row; otherwise the new draft, its item rows and its digital-content rows are stored and the lead moves to invoice_sent, and the reply is 200 with the draft when the lead exists, 500 "Failed to create invoice" when its invoice_sent event is refused |
| Sms.Digits | lib/sms.ts:86 | keeps only digits |
| Sms.FormatPhoneNumber | lib/sms.ts:82-101 | a number iff at least ten digits; "+" then digits only; length is digits + 2 for ten digits, else + 1; it ends with the digits |
| Sms.FormatIdempotent | lib/sms.ts:82-101 | formatting a formatted number changes nothing |
| Sms.FormatSeesOnlyDigits | lib/sms.ts:86-98 | two numbers with the same digits format alike |
| Sms.CreateAppointmentReminderSms | lib/sms.ts:104-121 | the opening, " Join here: " + link only for a non-empty link, then the closing |
| Sms.CreateAppointmentConfirmationSms | lib/sms.ts:123-140 | the same shape with " Meeting link: " |
| Sms.SmsService.constructor | lib/sms.ts:23-40 | configured iff the account SID, token and phone number are all set and the SID starts with "AC" (the Twilio client throws otherwise); the sender is the phone number |
| Sms.SmsService.IsAvailable | lib/sms.ts:151-153 | whether the service is configured |
| Sms.SmsService.SendSms | lib/sms.ts:42-80 | unconfigured or unformattable: failure and no request. Otherwise the formatted number is sent the message. Success iff the client delivered |
| GoogleMeet.Letter | lib/google-meet.ts:30 | each draw picks a lower-case letter |
| GoogleMeet.GenerateGroup | lib/google-meet.ts:27-33 | four lower-case letters, one per draw |
| GoogleMeet.GenerateMeetingId | lib/google-meet.ts:24-36 | three groups of four letters joined by '-' |
| GoogleMeet.GenerateGoogleMeetLink | lib/google-meet.ts:10-22 | the link is the prefix + id, it is valid, and extraction gives the id back |
| GoogleMeet.FirstMatch | lib/google-meet.ts:46 | finds the leftmost match |
| GoogleMeet.ExtractMeetingId | lib/google-meet.ts:45-48 | returns a well-formed id; null iff no match anywhere |
| GoogleMeet.IsValidGoogleMeetLink | lib/google-meet.ts:39-42 | the prefix "https://meet.google.com/" followed by exactly an id of three groups of four lower-case letters |
| GoogleMeet.ValidLinkExtracts | lib/google-meet.ts:39-48 | a valid link yields the id it ends with |
| GoogleMeet.EmbeddedLinkStillExtracts | lib/google-meet.ts:39-48 | a link inside longer text is rejected as a link, yet its id is still extracted |
| HtmlBuilder.HtmlToPlainText | lib/email/utils/html-builder.ts:136-148 | style and script blocks removed, tags stripped, entities decoded, white space collapsed and trimmed (stated by the lemmas below) |
| HtmlBuilder.PlainTextTidy | lib/email/utils/html-builder.ts:136-148 | the plain text has no white space at either end and never two in a row |
| HtmlBuilder.CollapsedTrimmedTidy | lib/email/utils/html-builder.ts:146-147 | collapsing then trimming always gives tidy text |
| HtmlBuilder.Collapse | lib/email/utils/html-builder.ts:146 | white space becomes single spaces, never two in a row |
| HtmlBuilder.Trim | lib/email/utils/html-builder.ts:147 | a slice of the input with no white space at either end |
| HtmlBuilder.StripTags | lib/email/utils/html-builder.ts:140 | keeps only input characters; no complete tag survives |
| HtmlBuilder.RemoveBlocks | lib/email/utils/html-builder.ts:138-139 | never lengthens the text |
| HtmlBuilder.NoMarkupOnlyDecoded | lib/email/utils/html-builder.ts:136-148 | without '<' only the entities are decoded before tidying |
| HtmlBuilder.PlainInputOnlyTidied | lib/email/utils/html-builder.ts:136-148 | with neither '<' nor '&' the text is only collapsed and trimmed |
| HtmlBuilder.StyleBlockRemoved | lib/email/utils/html-builder.ts:138 | a style block is removed with its contents, and nothing else |
| HtmlBuilder.EscapedTagSurvives | lib/email/utils/html-builder.ts:140-145 | "&lt;b&gt;" comes out as the literal "<b>" |
| HtmlBuilder.DoubleEscapeDecodedTwice | lib/email/utils/html-builder.ts:143-144 | "&amp;lt;" is decoded twice, to "<" |
| HtmlBuilder.NbspMerges | lib/email/utils/html-builder.ts:141-146 | "&nbsp;" plus a space become one space |
| HtmlBuilder.Entries | lib/email/utils/html-builder.ts:89-94 | one entry per item, in order |
| HtmlBuilder.BulletList | lib/email/utils/html-builder.ts:88-97 | the list tag, one entry per item with the icon, and "</ul>" (stated by `BulletListOrder`) |
| HtmlBuilder.BulletListOrder | lib/email/utils/html-builder.ts:88-97 | item k's entry, with the icon ('⭐' by default), sits between those of earlier and later items |
| HtmlBuilder.JoinLength | lib/email/utils/html-builder.ts:89-94 | the list's length is one entry frame per item plus the items' text |
| HtmlBuilder.Header | lib/email/utils/html-builder.ts:38-52 | the header block with its title, and the subtitle paragraph when one is given (stated by `HeaderSubtitleDelta`) |
| HtmlBuilder.HeaderSubtitleDelta | lib/email/utils/html-builder.ts:38-52 | a subtitle changes only the title margin ("10px" for "0") and adds its paragraph; an empty one counts as none |
| HtmlBuilder.CreateFooter | lib/email/utils/html-builder.ts:114-131 | the footer with the manage-preferences and unsubscribe links (stated by `FooterLinkParses`) |
| HtmlBuilder.FooterLinkParses | lib/email/utils/html-builder.ts:114-131 | each footer link reads back: the encoded address, then "&token=" and the token |
| Middleware.UpdateSession | lib/sqlite/middleware.ts:10-49 | "/test-login" passes; protected without a token goes to "/auth/login"; an auth page with a token goes to "/admin/leads"; a redirect happens iff one of these holds |
| Middleware.ProtectedAndAuthDisjoint | lib/sqlite/middleware.ts:5-20 | no path is both protected and an auth route |
| Middleware.AdminNeedsToken | lib/sqlite/middleware.ts:37-40 | every path under "/admin" without a token is sent to log in |
| Middleware.RedirectTargetPasses | lib/sqlite/middleware.ts:37-48 | a redirect's target passes with the same cookie: no redirect loop |
| VideoStream.Get | app/api/video-stream/route.ts:5-52 | 404 iff no file; without Range: 200 and the file size; with Range: 500 when the stream refuses the parsed range, otherwise 206 with that range, Content-Range and end − start + 1 |
| VideoStream.StreamAccepts | app/api/video-stream/route.ts:24 | the stream takes the positions only as integers with 0 ≤ start ≤ end; otherwise it throws and the catch (lines 48-50) answers 500 |
| VideoStream.ParseRange | app/api/video-stream/route.ts:19-21 | start parses the text before the first '-'; end parses the next part, or is size − 1 when empty |
| VideoStream.ParseInt | app/api/video-stream/route.ts:20-21 | a number iff digits follow the optional white space and sign |
| VideoStream.ChunkSize | app/api/video-stream/route.ts:22 | NaN as soon as either side is NaN; otherwise end − start + 1 |
| VideoStream.ParseIntNumeral | app/api/video-stream/route.ts:20-21 | a numeral followed by a non-digit parses to its value |
| VideoStream.ClosedRangeServed | app/api/video-stream/route.ts:17-35 | "bytes=a-b" with a ≤ b is served as a..b with length b − a + 1, even when b lies beyond the file |
| VideoStream.ReversedRangeFails | app/api/video-stream/route.ts:17-24 | "bytes=a-b" with b < a is answered 500 with no stream |
| VideoStream.ClosedRangeContentRange | app/api/video-stream/route.ts:29 | Content-Range is "bytes a-b/size" |
| VideoStream.OpenRangeRunsToEnd | app/api/video-stream/route.ts:21-22 | "bytes=a-" with a inside the file runs to size − 1 |
| VideoStream.OpenRangePastEndFails | app/api/video-stream/route.ts:21-24 | "bytes=a-" with a at or past the end of the file (any such range of an empty file) is answered 500 |
| VideoStream.FirstOfSeveralRanges | app/api/video-stream/route.ts:19-21 | of several ranges only the first is served (when its start does not exceed its end) |
| VideoStream.SuffixRangeHasNoStart | app/api/video-stream/route.ts:19-24 | "bytes=-n" parses to a NaN start, which the stream refuses: 500 |
| VideoUtils.FormatTime | lib/videoUtils.ts:155-159 | minutes, ":" and the seconds padded to two digits, both floored (stated by the lemmas below) |
| VideoUtils.FormatTimeWhole | lib/videoUtils.ts:155-159 | for whole seconds the label is minutes, ':', and the seconds padded to two digits |
| VideoUtils.FormatTimeReadsBack | lib/videoUtils.ts:155-159 | the seconds field has exactly two digits and minutes·60 + seconds is the time |
| VideoUtils.FormatTimeDropsFraction | lib/videoUtils.ts:156-157 | fractions of a second are dropped, never rounded up |
| VideoUtils.JsRem | lib/videoUtils.ts:157 | the remainder takes the dividend's sign |
| VideoUtils.ClickFraction | lib/videoUtils.ts:171 | the fraction lies in [0, 1]; NaN only for a zero width clicked at its edge |
| VideoUtils.CalculateSeekTime | lib/videoUtils.ts:164-173 | the click's fraction of the bar, clamped to [0, 1], times the duration (stated by the lemmas below) |
| VideoUtils.SeekTimeWithinVideo | lib/videoUtils.ts:164-173 | on a real bar the seek time lies in [0, duration] |
| VideoUtils.SeekTimeEdges | lib/videoUtils.ts:169-172 | left of the bar gives 0, right of it gives the duration |
| VideoUtils.SeekTimeProportional | lib/videoUtils.ts:169-172 | inside the bar the time is proportional to the distance from its start |
| VideoUtils.SeekTimeMonotone | lib/videoUtils.ts:169-172 | clicking further right never seeks earlier |

## Left out

- E-mail composition and SMTP sending are not modelled. Each send is a parameter: delivered, rejected with an error, or thrown.
- The e-mail templates are not modelled, and neither are the preference check made before each send.
- The Google OAuth flow is not modelled: credential files, token refresh, the authorisation URL and the code exchange. The calendar's listing, insert, update and delete outcomes are parameters.
- The Python OAuth helpers (`get_credentials`, `get_service`, `test_connection`, `create_event`) are not modelled.
- CalendarAuthSlots.OverlapsAsWritten: only events on the requested date are modelled as text; an event from another date (the listing's window is in UTC) or one crossing midnight is not.
- Parsing ISO date-time strings and time zones is not modelled. Event and appointment instants are integer minutes given as inputs; an unparsable date is `None`.
- Stripe is not modelled: the Stripe branch of `createStripeCheckoutSession` and the webhook. The invoice e-mail (`sendInvoiceByEmail`) and `getInvoiceByNumber` are not modelled either.
- HMAC-SHA256, `crypto.randomBytes` and `Math.random` are inputs: a hex digest, a token string, draws in [0, 1).
- Concurrency is not modelled: the processing of overlapping requests and the interval timers that start the reminder sweep.
- The slot cache's five-minute expiry is not modelled; the cache is only written and cleared.
- Logging and `console` output are not modelled.
- `SMSService.sendTestSMS` and `getStatus` are not modelled. The first is `sendSMS` with a fixed text; the second only reads configuration.
- The other HTML builders are not modelled: `createEmailContainer`, `createContentSection`, `createButton`, `createInfoBox`, `createGreeting`, `createSignature`. They are fixed templates that only interpolate their arguments.
- The DOM fullscreen helpers in `lib/videoUtils.ts` are not modelled, since they are browser calls.
- StatusManagement.Record: the status manager opens its own connection without `PRAGMA foreign_keys`. The refusal of an unknown lead's event relies on better-sqlite3 enforcing foreign keys by default.
- The status manager's read-only SQL queries are not modelled: `getStatusHistory`, `getEngagementEvents`, `getLeadsByStage`, `getEngagementStats`.
- Booking.SaveAppointment: the exception handlers after the database opens (a failed insert or update) are not modelled. Only an unparsable body, a data directory that cannot be created and the failure to open give 500. The confirmation e-mail and the Meet link generation inside the route are not modelled; the e-mail cannot change the reply.
- PreferencesRoute.HandlePost: database errors other than the token comparison's throw, the missing `unsubscribed_at` column and a boolean flag are not modelled (a failing log insert or lead update, an unreadable file). Such an error gives 500 in the source. A flag that is neither a number nor a boolean (a string, say) is not modelled.
- PreferencesRoute.HandleGet: the same database errors are not modelled.
- VideoStream.StreamAccepts: positions above 2^53 − 1, which the stream also refuses, are not modelled; `parseInt` is exact here.
- VideoStream.Get: the bytes are not modelled, only the range asked of the stream.
- InvoiceCreateRoute.CreateInvoiceHandler: a JSON body that is not an object (`null`, say) is not modelled. Reading its fields throws, which also gives 500 "Failed to create invoice".
- Invoices.InvoiceStore.UpdateInvoiceStatus: a database error in the `UPDATE` itself is not modelled. Only the refused payment event gives `{ success: false }`.
- Invoices.InvoiceStore.CreateInvoice: a database error is modelled as happening before any row is written. Partial inserts are not modelled, because the source's statements are not in a transaction.
- Invoices.InvoiceStore.CreateInvoice: the foreign key on `invoices.lead_id` is not derived from the leads table, because the invoice store and the funnel tables are separate in the model. An invoice for an unknown lead that the key refuses is a `failure` input.
- EmailPreferences.InsertFooterPlacement: special `$` patterns in the replacement text of `String.replace` are not modelled. A footer whose base URL contains `$&` or `$'` would be expanded by JavaScript.
- EmailPreferences.EncodeUriComponent: lone surrogates, which make `encodeURIComponent` throw, are not modelled. Dafny characters are Unicode scalar values.
- StatusManagement.ProgressPoints: JavaScript floating point is not modelled; the percentage is an exact real.
- VideoUtils.FormatTime: JavaScript floating point is not modelled. `Infinity` and `NaN` times are not modelled.
- Reminders.DueRows: the database compares due times with `datetime('now')` at whole-second granularity; the model compares exact clock values.
- FunnelDb.Lead: the `status` column of `leads` (lib/database.ts:68, default 'active') is not modelled, because no modelled operation reads or writes it. Its only effect in the core is the clash with `invoices.status` in `Invoices.InvoiceStore.GetInvoicesForAdmin`, which `Invoices.LeadColumns` records.
- Invoices.InvoiceStore.GetInvoicesForAdmin: the 500 "Failed to fetch invoices" that app/api/admin/invoices/list/route.ts answers to the failure is not modelled; that route is not part of this model.
- Invoices.NewestFirst: `ORDER BY created_at DESC` leaves the order of rows created in the same second to SQLite; the model orders them by descending id.
- ReminderScheduling.ReminderScheduler.ProcessPendingReminders: the preference checks and template choices of each send are folded into the send outcome parameter.

## Findings

| source | as written | input that shows it | evidently intended | confidence | as-written member | corrected member |
|---|---|---|---|---|---|---|
| funnel/utils/google_calendar_auth.py:265-273 | The slot end is built as hour + duration // 60 and minute + duration % 60 without carrying past 59. It is compared as text with the event times. | A 90-minute meeting at 09:45 gives the end "10:75", which sorts before an event at "11:00", although the meeting runs until 11:15 and overlaps it. | The slot is refused when the meeting [start, start + duration) overlaps an event. | high; not executed | CalendarAuthSlots.AsWrittenMissesOverlap | CalendarAuthSlots.GetAvailableSlots |
| funnel/utils/google_calendar_auth.py:264-273 | `slot_start` is built without a UTC offset; the event `dateTime` it is compared with carries one ("Z" or "-05:00"). With equal clocks the slot text is a proper prefix of the event text and sorts first, so `slot_start < event_end` holds. | One event from 11:00 to 12:00 and a 60-minute meeting: "…T12:00:00" < "…T12:00:00-05:00", so the 12:00 slot is refused although it starts when the event ends. | A slot starting at an event's end is offered (half-open intervals). | high; not executed | CalendarAuthSlots.AsWrittenRefusesAtEventEnd | CalendarAuthSlots.GetAvailableSlots |
| lib/reminder-scheduler.ts:668-686 | `hasScheduledAppointment` queries `appointments.email`. The `appointments` table (lib/database.ts:76-91) has `lead_id` and no `email` column. The query throws, the catch answers false, and booked leads keep receiving nurture reminders. | A lead with a "scheduled" appointment and a pending checking-in reminder: the sweep sends the reminder instead of cancelling it. | Join through `lead_id` to the lead's e-mail, and cancel non-appointment reminders of booked leads. | medium (no migration in the repository adds the column); not executed | Booking.AsWrittenStillRemindsBookedLead | Booking.HasScheduledAppointment |
| lib/invoice-manager.ts:582-598 | The status filter is the unqualified `WHERE status = ?`. It is appended both to the count over `invoices` and to the list query `invoices i LEFT JOIN leads l`. Both tables have a `status` column (lib/database.ts:68 and app/api/admin/migrate-status-system/route.ts:105), so the list statement fails to prepare. | Any filtered call, such as the admin page's "paid" tab: the count runs, then preparing the list throws "ambiguous column name: status". | Filter on `i.status`, and list the page of matching invoices. | high; not executed | Invoices.InvoiceStore.GetInvoicesForAdmin | Invoices.InvoiceStore.GetInvoicesForAdminQualified |
