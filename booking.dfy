// app/api/appointment/save/route.ts, `POST`: validate the booking, mirror it to Google Calendar
// on a best-effort basis, upsert the lead by email, insert the appointment, then move the lead
// to appointment_scheduled, cancel the email's pending reminders and schedule the appointment
// reminder. There is no availability or conflict check. The end of the file connects bookings
// to the reminder sweep's "has a scheduled appointment" test.

module Booking {
  import opened Wrappers
  import opened Text
  import opened FunnelDb
  import GoogleCalendar
  import StatusManagement
  import Reminders
  import ReminderScheduling

  /** The JSON body (every field may be absent). */
  datatype BookingRequest = BookingRequest(
    name: Option<string>,
    email: Option<string>,
    phone: Option<string>,
    website: Option<string>,
    revenue: Option<string>,
    currentIncome: Option<string>,
    appointmentDate: Option<string>,
    appointmentTime: Option<string>,
    timezone: Option<string>,
    meetLink: Option<string>,
    meetingId: Option<string>)

  /** The first required field that is missing or empty, checked in the route's order. */
  function MissingField(req: BookingRequest): (r: Option<string>)
    ensures r.None? <==>
      Truthy(req.name) && Truthy(req.email) && Truthy(req.appointmentDate) && Truthy(req.appointmentTime)
  {
    if !Truthy(req.name) then Some("name")
    else if !Truthy(req.email) then Some("email")
    else if !Truthy(req.appointmentDate) then Some("appointment_date")
    else if !Truthy(req.appointmentTime) then Some("appointment_time")
    else None
  }

  /** The timezone stored with the appointment: "Europe/Moscow" unless one was given. */
  function Timezone(req: BookingRequest): (tz: string)
    ensures !Truthy(req.timezone) ==> tz == "Europe/Moscow"
    ensures Truthy(req.timezone) ==> tz == req.timezone.value
  {
    if Truthy(req.timezone) then req.timezone.value else "Europe/Moscow"
  }

  /** `currentIncome || revenue || null`. */
  function RevenueOf(req: BookingRequest): Option<string>
  {
    if Truthy(req.currentIncome) then req.currentIncome else OrNull(req.revenue)
  }

  // ---- the calendar mirror ----

  /**
   * What the direct calendar call meets: the credential files are missing, or they are present
   * and the insert call has this outcome.
   */
  datatype CalendarAttempt = FilesMissing | FilesPresent(insert: GoogleCalendar.InsertOutcome)

  /** `calendarResult` (its Meet link and meeting id are always null). */
  datatype CalendarResult = CalendarResult(
    success: bool, message: Option<string>, eventId: Option<string>, htmlLink: Option<string>)

  /**
   * The mirror and the event it sends. A date that does not parse makes `toISOString` throw
   * before anything is sent; every failure is caught and only recorded.
   */
  function CalendarMirror(attempt: CalendarAttempt, name: string, email: string, eventStart: Option<int>)
    : (r: (CalendarResult, Option<GoogleCalendar.EventBody>))
    ensures r.0.success <==> attempt.FilesPresent? && attempt.insert.Inserted? && eventStart.Some?
    ensures !r.0.success ==> r.0.eventId.None? && r.0.message.Some?
    ensures r.1.Some? ==> attempt.FilesPresent? && r.1.value.end - r.1.value.start == 60
  {
    match attempt
    case FilesMissing =>
      (CalendarResult(false, Some("Google Calendar files not found"), None, None), None)
    case FilesPresent(insert) =>
      if eventStart.None? then
        (CalendarResult(false, Some("Calendar error: Invalid time value"), None, None), None)
      else
        var event := GoogleCalendar.EventFor(name, email, eventStart.value);
        match insert
        case Inserted(id, link) => (CalendarResult(true, None, id, link), Some(event))
        case InsertThrew(message) => (CalendarResult(false, Some("Calendar error: " + message), None, None), Some(event))
  }

  // ---- the lead upsert and the appointment row ----

  /**
   * The lead upsert: a new row with the contact columns when the email is unknown; otherwise
   * the name is overwritten and phone, website and revenue keep their old values where the new
   * ones are null (`COALESCE`). Yields the table and the lead's id.
   */
  function Upsert(leads: seq<Lead>, name: string, email: string,
                  phone: Option<string>, website: Option<string>, revenue: Option<string>): (r: (seq<Lead>, nat))
    ensures HasLead(r.0, r.1)
  {
    match LeadIdByEmail(leads, email)
    case None => (leads + [NewLead(name, email, phone, website, revenue)], |leads| + 1)
    case Some(id) =>
      var l := leads[id - 1];
      var updated := l.(name := name,
                        phone := if phone.Some? then phone else l.phone,
                        website := if website.Some? then website else l.website,
                        revenue := if revenue.Some? then revenue else l.revenue);
      (leads[id - 1 := updated], id)
  }

  /** The lead the upsert returns is the one a later lookup by the same email finds. */
  lemma UpsertLookup(leads: seq<Lead>, name: string, email: string,
                     phone: Option<string>, website: Option<string>, revenue: Option<string>)
    ensures var r := Upsert(leads, name, email, phone, website, revenue);
      LeadIdByEmail(r.0, email) == Some(r.1) && r.0[r.1 - 1].email == email && r.0[r.1 - 1].name == name
  {
    var r := Upsert(leads, name, email, phone, website, revenue);
    match LeadIdByEmail(leads, email)
    case None =>
      assert forall k :: 0 <= k < |leads| ==> r.0[k].email != email;
      assert r.0[|leads|].email == email;
    case Some(id) =>
      assert forall k :: 0 <= k < |leads| ==> r.0[k].email == leads[k].email;
  }

  /** An unknown email adds one row; a known one adds none and keeps every other row. */
  lemma UpsertGrowth(leads: seq<Lead>, name: string, email: string,
                     phone: Option<string>, website: Option<string>, revenue: Option<string>)
    ensures var r := Upsert(leads, name, email, phone, website, revenue);
      (LeadIdByEmail(leads, email).None? ==> r.0 == leads + [NewLead(name, email, phone, website, revenue)])
      && (LeadIdByEmail(leads, email).Some? ==>
            |r.0| == |leads| && (forall k :: 0 <= k < |leads| && k != r.1 - 1 ==> r.0[k] == leads[k]))
  {
  }

  /** A null contact field never erases what the lead already had. */
  lemma UpsertKeepsKnownContact(leads: seq<Lead>, name: string, email: string, website: Option<string>, revenue: Option<string>)
    requires LeadIdByEmail(leads, email).Some?
    ensures var r := Upsert(leads, name, email, None, website, revenue);
      r.0[r.1 - 1].phone == leads[r.1 - 1].phone
  {
  }

  /** The inserted row: status "scheduled", the event id only when the mirror succeeded. */
  function AppointmentFor(req: BookingRequest, leadId: nat, cal: CalendarResult): Appointment
    requires Truthy(req.appointmentDate) && Truthy(req.appointmentTime)
  {
    Appointment(leadId, req.appointmentDate.value, req.appointmentTime.value, Timezone(req), "scheduled",
                OrNull(cal.eventId), OrNull(req.meetLink), OrNull(req.meetingId))
  }

  /** A failed mirror is still booked, with a null event id. */
  lemma CalendarFailureNonFatal(req: BookingRequest, leadId: nat, attempt: CalendarAttempt, eventStart: Option<int>)
    requires Truthy(req.name) && Truthy(req.email) && Truthy(req.appointmentDate) && Truthy(req.appointmentTime)
    requires !CalendarMirror(attempt, req.name.value, req.email.value, eventStart).0.success
    ensures AppointmentFor(req, leadId, CalendarMirror(attempt, req.name.value, req.email.value, eventStart).0).googleEventId.None?
    ensures AppointmentFor(req, leadId, CalendarMirror(attempt, req.name.value, req.email.value, eventStart).0).status == "scheduled"
  {
  }

  // ---- the reply ----

  /** The `google_calendar` part of the reply. */
  datatype CalendarInfo = CalendarInfo(eventId: Option<string>, htmlLink: Option<string>, meetLink: Option<string>,
                                       meetingId: Option<string>, message: string)

  function InfoOf(cal: CalendarResult): CalendarInfo
  {
    CalendarInfo(OrNull(cal.eventId), OrNull(cal.htmlLink), None, None,
                 if cal.success then "Event created successfully"
                 else if Truthy(cal.message) then cal.message.value else "Calendar not configured")
  }

  datatype BookingReply = BookingReply(status: nat, success: bool, text: string,
                                       appointmentId: Option<nat>, calendar: Option<CalendarInfo>)

  function Failure(status: nat, text: string): BookingReply
  {
    BookingReply(status, false, text, None, None)
  }

  /** The reminder rows after the hooks: pending ones cancelled, then the appointment reminder. */
  function RemindersAfter(rows: seq<Reminders.Reminder>, name: string, email: string, when: string,
                          reminderAt: Option<int>): seq<Reminders.Reminder>
  {
    var cancelled := Reminders.CancelPending(rows, email);
    if reminderAt.Some?
    then Reminders.Insert(cancelled, email, name, when, Reminders.AppointmentReminder, reminderAt.value - Reminders.HOUR)
    else cancelled
  }

  /** The database half of a booking: upsert the lead, insert the appointment, record the stage event. */
  method RecordBooking(db: Database, req: BookingRequest, cal: CalendarResult) returns (appointmentId: nat)
    requires MissingField(req).None?
    modifies db
    ensures var up := Upsert(old(db.leads), req.name.value, req.email.value, OrNull(req.phone), OrNull(req.website), RevenueOf(req));
      appointmentId == |old(db.appointments)| + 1
      && db.appointments == old(db.appointments) + [AppointmentFor(req, up.1, cal)]
      && StatusManagement.Snapshot(db)
         == StatusManagement.AppointmentScheduledEvent(StatusManagement.Tables(up.0, old(db.history), old(db.events)), up.1, appointmentId)
  {
    var up := Upsert(db.leads, req.name.value, req.email.value, OrNull(req.phone), OrNull(req.website), RevenueOf(req));
    db.leads := up.0;
    db.appointments := db.appointments + [AppointmentFor(req, up.1, cal)];
    appointmentId := |db.appointments|;
    var _ := StatusManagement.HandleAppointmentScheduled(db, up.1, appointmentId);
  }

  /** The scheduler half of a booking: cancel the lead's pending reminders, schedule the appointment reminder. */
  method RescheduleReminders(scheduler: ReminderScheduling.ReminderScheduler, name: string, email: string, when: string,
                             reminderAt: Option<int>)
    requires scheduler.Valid()
    modifies scheduler
    ensures scheduler.Valid()
    ensures scheduler.rows == RemindersAfter(old(scheduler.rows), name, email, when, reminderAt)
  {
    var _ := scheduler.CancelAllReminders(email);
    var _ := scheduler.ScheduleAppointmentReminder(email, name, when, reminderAt);
  }

  /**
   * `POST`. `bodyParses` stands for reading the JSON body, `attempt` and `eventStart` for the
   * calendar call and the parsed event start, `dataDirReady` for the data directory existing or
   * being created, `dbOpens` for opening the database file, `reminderAt` for parsing "date time"
   * in the reminder scheduler. A body that does not parse and a directory that cannot be created
   * throw to the outer handler: 500 "Internal server error". Mail sending is left out: its
   * failure never changes the reply.
   */
  method SaveAppointment(db: Database, scheduler: ReminderScheduling.ReminderScheduler, bodyParses: bool, req: BookingRequest,
                         attempt: CalendarAttempt, eventStart: Option<int>, dataDirReady: bool, dbOpens: bool,
                         reminderAt: Option<int>)
    returns (r: BookingReply, sent: Option<GoogleCalendar.EventBody>)
    requires scheduler.Valid()
    modifies db, scheduler
    ensures scheduler.Valid()
    ensures !bodyParses ==>
      r == Failure(500, "Internal server error") && sent.None?
      && StatusManagement.Snapshot(db) == old(StatusManagement.Snapshot(db)) && db.appointments == old(db.appointments)
      && scheduler.rows == old(scheduler.rows)
    ensures bodyParses && MissingField(req).Some? ==>
      r == Failure(400, "Missing required field: " + MissingField(req).value) && sent.None?
      && StatusManagement.Snapshot(db) == old(StatusManagement.Snapshot(db)) && db.appointments == old(db.appointments)
      && scheduler.rows == old(scheduler.rows)
    ensures bodyParses && MissingField(req).None? ==>
      sent == CalendarMirror(attempt, req.name.value, req.email.value, eventStart).1
    ensures bodyParses && MissingField(req).None? && !dataDirReady ==>
      r == Failure(500, "Internal server error")
      && StatusManagement.Snapshot(db) == old(StatusManagement.Snapshot(db)) && db.appointments == old(db.appointments)
      && scheduler.rows == old(scheduler.rows)
    ensures bodyParses && MissingField(req).None? && dataDirReady && !dbOpens ==>
      r == Failure(500, "Database connection failed")
      && StatusManagement.Snapshot(db) == old(StatusManagement.Snapshot(db)) && db.appointments == old(db.appointments)
      && scheduler.rows == old(scheduler.rows)
    ensures bodyParses && MissingField(req).None? && dataDirReady && dbOpens ==>
      var cal := CalendarMirror(attempt, req.name.value, req.email.value, eventStart).0;
      var up := Upsert(old(db.leads), req.name.value, req.email.value, OrNull(req.phone), OrNull(req.website), RevenueOf(req));
      var appointmentId := |old(db.appointments)| + 1;
      db.appointments == old(db.appointments) + [AppointmentFor(req, up.1, cal)]
      && StatusManagement.Snapshot(db)
         == StatusManagement.AppointmentScheduledEvent(StatusManagement.Tables(up.0, old(db.history), old(db.events)), up.1, appointmentId)
      && scheduler.rows == RemindersAfter(old(scheduler.rows), req.name.value, req.email.value,
                                          req.appointmentDate.value + " " + req.appointmentTime.value, reminderAt)
      && r == BookingReply(200, true, "Appointment saved successfully", Some(appointmentId), Some(InfoOf(cal)))
  {
    if !bodyParses {
      return Failure(500, "Internal server error"), None;
    }
    var missing := MissingField(req);
    if missing.Some? {
      return Failure(400, "Missing required field: " + missing.value), None;
    }
    var name, email := req.name.value, req.email.value;
    var mirror := CalendarMirror(attempt, name, email, eventStart);
    var cal := mirror.0;
    sent := mirror.1;
    if !dataDirReady {
      return Failure(500, "Internal server error"), sent;
    }
    if !dbOpens {
      return Failure(500, "Database connection failed"), sent;
    }
    var appointmentId := RecordBooking(db, req, cal);
    var when := req.appointmentDate.value + " " + req.appointmentTime.value;
    RescheduleReminders(scheduler, name, email, when, reminderAt);
    r := BookingReply(200, true, "Appointment saved successfully", Some(appointmentId), Some(InfoOf(cal)));
  }

  /** Two bookings of the same date and time both go in: nothing checks for a conflict. */
  lemma NoConflictCheck(appts: seq<Appointment>, req: BookingRequest, id1: nat, id2: nat, cal1: CalendarResult, cal2: CalendarResult)
    requires Truthy(req.appointmentDate) && Truthy(req.appointmentTime)
    ensures var twice := appts + [AppointmentFor(req, id1, cal1)] + [AppointmentFor(req, id2, cal2)];
      |twice| == |appts| + 2
      && twice[|appts|].date == twice[|appts| + 1].date && twice[|appts|].time == twice[|appts| + 1].time
      && twice[|appts|].status == "scheduled" && twice[|appts| + 1].status == "scheduled"
  {
  }

  // ---- "has a scheduled appointment" ----

  /** The emails of leads with an appointment in status "scheduled", joined through `lead_id`. */
  function ScheduledEmails(leads: seq<Lead>, appts: seq<Appointment>): set<string>
  {
    set k | 0 <= k < |appts| && appts[k].status == "scheduled" && HasLead(leads, appts[k].leadId)
      :: leads[appts[k].leadId - 1].email
  }

  /** `hasScheduledAppointment` corrected: the join through `lead_id`. */
  function HasScheduledAppointment(leads: seq<Lead>, appts: seq<Appointment>, email: string): (r: bool)
    ensures r <==> exists k :: (0 <= k < |appts| && appts[k].status == "scheduled" && HasLead(leads, appts[k].leadId)
                                && leads[appts[k].leadId - 1].email == email)
  {
    email in ScheduledEmails(leads, appts)
  }

  /**
   * `hasScheduledAppointment` as written: it filters `appointments` on an `email` column that
   * the table (lib/database.ts) does not have, so preparing the query throws and the catch
   * answers false for every email.
   */
  function HasScheduledAppointmentAsWritten(email: string): bool
  {
    false
  }

  /**
   * The counterexample: a lead with a scheduled appointment and a pending checking-in reminder.
   * The corrected test cancels the reminder in the sweep; the test as written lets it be sent.
   */
  lemma AsWrittenStillRemindsBookedLead(lead: Lead, appt: Appointment, r: Reminders.Reminder)
    requires appt.leadId == 1 && appt.status == "scheduled" && r.email == lead.email
    requires r.kind == Reminders.CheckingIn
    ensures HasScheduledAppointment([lead], [appt], r.email)
    ensures !HasScheduledAppointmentAsWritten(r.email)
    ensures Reminders.Skipped(r, ScheduledEmails([lead], [appt]))
    ensures !Reminders.Skipped(r, set e | e in ScheduledEmails([lead], [appt]) && HasScheduledAppointmentAsWritten(e))
  {
    var leads, appts := [lead], [appt];
    assert appts[0].status == "scheduled" && HasLead(leads, appts[0].leadId);
    assert leads[appts[0].leadId - 1].email == r.email;
    assert r.email in ScheduledEmails(leads, appts);
  }

  /** The stage change and event of a booking leave every lead's email in place. */
  lemma ScheduledEventKeepsEmails(t: StatusManagement.Tables, id: int, appointmentId: int)
    ensures var u := StatusManagement.AppointmentScheduledEvent(t, id, appointmentId);
      |u.leads| == |t.leads| && forall k :: 0 <= k < |t.leads| ==> u.leads[k].email == t.leads[k].email
  {
    var s := FunnelDb.AppointmentScheduled;
    var trigger := Some("appointment_booked_" + IntToString(appointmentId));
    var mid := StatusManagement.UpdateStatus(t, id, s, trigger);
    if HasLead(t.leads, id) {
      StatusManagement.UpdateStatusEffect(t, id, s, trigger);
    }
    assert |mid.leads| == |t.leads| && forall k :: 0 <= k < |t.leads| ==> mid.leads[k].email == t.leads[k].email;
  }

  /**
   * After a successful booking the corrected test sees the email as booked, so the sweep
   * cancels that lead's chain reminders from then on.
   */
  lemma BookingMarksEmailBooked(leads: seq<Lead>, appts: seq<Appointment>, history: seq<StatusChange>,
                                events: seq<EngagementEvent>, req: BookingRequest, cal: CalendarResult)
    requires Truthy(req.name) && Truthy(req.email) && Truthy(req.appointmentDate) && Truthy(req.appointmentTime)
    ensures var up := Upsert(leads, req.name.value, req.email.value, OrNull(req.phone), OrNull(req.website), RevenueOf(req));
      var appts' := appts + [AppointmentFor(req, up.1, cal)];
      var u := StatusManagement.AppointmentScheduledEvent(StatusManagement.Tables(up.0, history, events), up.1, |appts'|);
      HasScheduledAppointment(u.leads, appts', req.email.value)
  {
    var up := Upsert(leads, req.name.value, req.email.value, OrNull(req.phone), OrNull(req.website), RevenueOf(req));
    var appts' := appts + [AppointmentFor(req, up.1, cal)];
    var u := StatusManagement.AppointmentScheduledEvent(StatusManagement.Tables(up.0, history, events), up.1, |appts'|);
    UpsertLookup(leads, req.name.value, req.email.value, OrNull(req.phone), OrNull(req.website), RevenueOf(req));
    ScheduledEventKeepsEmails(StatusManagement.Tables(up.0, history, events), up.1, |appts'|);
    var k := |appts|;
    assert appts'[k].leadId == up.1 && appts'[k].status == "scheduled";
    assert u.leads[appts'[k].leadId - 1].email == req.email.value;
  }

  /**
   * The reminder sweep with the corrected test: chain reminders of booked leads are cancelled
   * (the reminders-processing endpoint runs this on a timer).
   */
  method ProcessRemindersForBookings(db: Database, scheduler: ReminderScheduling.ReminderScheduler, now: int,
                                     outcome: Reminders.Reminder -> Reminders.SendOutcome)
    returns (c: Reminders.Counts)
    requires scheduler.Valid()
    modifies scheduler
    ensures scheduler.Valid()
    ensures var batch := Reminders.PendingDue(old(scheduler.rows), now);
      c.processed == |batch|
      && Reminders.Tally(scheduler.rows, c.sent, c.failed)
         == Reminders.Run(old(scheduler.rows), batch, now, ScheduledEmails(db.leads, db.appointments), outcome, true)
  {
    c := scheduler.ProcessPendingReminders(now, ScheduledEmails(db.leads, db.appointments), outcome);
  }
}
