// lib/reminder-scheduler.ts: the reminder scheduler the funnel uses. Every schedule method takes
// a test-mode flag (five-minute delays); the sweep skips reminders of leads with a booked
// appointment, and a lead's pending reminders can all be cancelled.

module ReminderScheduling {
  import opened Wrappers
  import opened Reminders

  datatype CancelResult = CancelResult(success: bool, cancelled: nat)

  class ReminderScheduler {
    /** The email_reminders table. */
    var rows: seq<Reminder>

    /** Ids follow row order, and no address has two pending first video reminders. */
    predicate Valid()
      reads this
    {
      Reminders.Valid(rows) && AtMostOnePendingVideo(rows)
    }

    constructor ()
      ensures Valid() && rows == []
    {
      rows := [];
    }

    /** `hasExistingReminder`: a pending reminder of this kind exists for the address. */
    method HasExistingReminder(email: string, kind: Kind) returns (found: bool)
      ensures found <==> exists i :: 0 <= i < |rows| && IsPendingOf(rows[i], email, kind)
    {
      found := HasPendingOfKind(rows, email, kind);
    }

    /** `scheduleVideoReminder`: skipped (still a success) when one is already pending. */
    method ScheduleVideoReminder(email: string, firstName: string, videoUrl: string, testMode: bool, now: int)
      returns (res: ScheduleResult)
      requires Valid()
      modifies this
      ensures Valid() && res == ScheduleResult(true, None)
      ensures rows == ScheduleVideo(old(rows), email, firstName, videoUrl, now + ChainDelay(VideoReminder5m, testMode))
      ensures HasPendingOfKind(rows, email, VideoReminder5m)
    {
      ScheduleVideoKeepsAtMostOne(rows, email, firstName, videoUrl, now + ChainDelay(VideoReminder5m, testMode));
      var existing := HasExistingReminder(email, VideoReminder5m);
      if existing {
        return ScheduleResult(true, None);
      }
      rows := Insert(rows, email, firstName, videoUrl, VideoReminder5m, now + ChainDelay(VideoReminder5m, testMode));
      res := ScheduleResult(true, None);
    }

    /**
     * `scheduleAppointmentReminder`: due one hour before the appointment, which is stored in the
     * video-URL column; a date that does not parse throws and nothing is stored.
     */
    method ScheduleAppointmentReminder(email: string, firstName: string, appointmentDateTime: string,
                                       appointmentAt: Option<int>) returns (res: ScheduleResult)
      requires Valid()
      modifies this
      ensures Valid()
      ensures appointmentAt.None? ==> res == ScheduleResult(false, Some("Invalid time value")) && rows == old(rows)
      ensures appointmentAt.Some? ==>
        (res == ScheduleResult(true, None)
         && rows == Insert(old(rows), email, firstName, appointmentDateTime, AppointmentReminder, appointmentAt.value - HOUR))
    {
      if appointmentAt.None? {
        return ScheduleResult(false, Some("Invalid time value"));
      }
      InsertKeepsAtMostOne(rows, email, firstName, appointmentDateTime, AppointmentReminder, appointmentAt.value - HOUR);
      rows := Insert(rows, email, firstName, appointmentDateTime, AppointmentReminder, appointmentAt.value - HOUR);
      res := ScheduleResult(true, None);
    }

    /**
     * The checking-in, direct-offer, final, testimonial and content schedulers: one insert due
     * the kind's delay after `now`.
     */
    method ScheduleReminder(kind: Kind, email: string, firstName: string, videoUrl: string, testMode: bool, now: int)
      returns (res: ScheduleResult)
      requires Valid() && HasDelay(kind) && kind != VideoReminder5m
      modifies this
      ensures Valid() && res == ScheduleResult(true, None)
      ensures rows == Insert(old(rows), email, firstName, videoUrl, kind, now + ChainDelay(kind, testMode))
    {
      InsertKeepsAtMostOne(rows, email, firstName, videoUrl, kind, now + ChainDelay(kind, testMode));
      rows := Insert(rows, email, firstName, videoUrl, kind, now + ChainDelay(kind, testMode));
      res := ScheduleResult(true, None);
    }

    /** `getPendingReminders`: the due pending reminders, earliest first, at most 50. */
    method GetPendingReminders(now: int) returns (batch: seq<Reminder>)
      requires Valid()
      ensures batch == PendingDue(rows, now)
      ensures DistinctIds(batch) && forall k :: 0 <= k < |batch| ==> 1 <= batch[k].id <= |rows|
    {
      batch := PendingDue(rows, now);
      PendingDueWellFormed(rows, now);
      assert forall k :: 0 <= k < |batch| ==> batch[k] in batch;
    }

    method MarkReminderSent(id: nat, now: int) returns (res: ScheduleResult)
      requires Valid()
      modifies this
      ensures Valid() && res.success && rows == MarkSent(old(rows), id, now)
    {
      if 1 <= id <= |rows| {
        SetStatusKeepsAtMostOne(rows, id, Sent, Some(now), rows[id - 1].errorMessage);
      }
      rows := MarkSent(rows, id, now);
      res := ScheduleResult(true, None);
    }

    method MarkReminderFailed(id: nat, message: string) returns (res: ScheduleResult)
      requires Valid()
      modifies this
      ensures Valid() && res.success && rows == MarkFailed(old(rows), id, message)
    {
      if 1 <= id <= |rows| {
        SetStatusKeepsAtMostOne(rows, id, Failed, rows[id - 1].sentAt, Some(message));
      }
      rows := MarkFailed(rows, id, message);
      res := ScheduleResult(true, None);
    }

    /** The sweep's UPDATE ... SET status = 'cancelled' WHERE id = ?. */
    method MarkReminderCancelled(id: nat)
      requires Valid()
      modifies this
      ensures Valid() && rows == MarkCancelled(old(rows), id)
    {
      if 1 <= id <= |rows| {
        SetStatusKeepsAtMostOne(rows, id, Cancelled, rows[id - 1].sentAt, rows[id - 1].errorMessage);
      }
      rows := MarkCancelled(rows, id);
    }

    /** `cancelAllReminders`: cancels the address's pending reminders and reports how many. */
    method CancelAllReminders(email: string) returns (res: CancelResult)
      requires Valid()
      modifies this
      ensures Valid() && res == CancelResult(true, PendingCount(old(rows), email))
      ensures rows == CancelPending(old(rows), email)
    {
      CancelPendingEffect(rows, email);
      res := CancelResult(true, PendingCount(rows, email));
      rows := CancelPending(rows, email);
    }

    /**
     * The body of the sweep's loop for one reminder: cancel it when the lead has booked, or
     * send it, record the outcome and schedule the next reminder of the chain.
     */
    method ProcessOne(r: Reminder, now: int, booked: set<string>, outcome: SendOutcome, sent: nat, failed: nat)
      returns (sent': nat, failed': nat)
      requires Valid()
      modifies this
      ensures Valid()
      ensures Tally(rows, sent', failed') == Step(Tally(old(rows), sent, failed), r, now, booked, outcome, true)
    {
      sent', failed' := sent, failed;
      if r.kind != AppointmentReminder && r.email in booked {
        MarkReminderCancelled(r.id);
        return;
      }
      match outcome {
        case Delivered =>
          var _ := MarkReminderSent(r.id, now);
          sent' := sent + 1;
          var next := Successor(r.kind);
          if next.Some? {
            var _ := ScheduleReminder(next.value, r.email, r.firstName, r.videoUrl, true, now);
          }
        case Rejected(e) =>
          var _ := MarkReminderFailed(r.id, ErrorText(e));
          failed' := failed + 1;
        case Threw(message) =>
          var _ := MarkReminderFailed(r.id, message);
          failed' := failed + 1;
      }
    }

    /**
     * `processPendingReminders`: for each due reminder, cancel it when the lead has booked
     * (appointment reminders excepted), otherwise send it, record sent or failed, and after a
     * successful send schedule the next reminder of the chain in test mode.
     */
    method ProcessPendingReminders(now: int, booked: set<string>, outcome: Reminder -> SendOutcome)
      returns (c: Counts)
      requires Valid()
      modifies this
      ensures Valid()
      ensures var batch := PendingDue(old(rows), now);
        c.processed == |batch|
        && Tally(rows, c.sent, c.failed) == Run(old(rows), batch, now, booked, outcome, true)
        && forall k :: 0 <= k < |batch| ==>
             1 <= batch[k].id <= |rows| && rows[batch[k].id - 1].status == FinalStatus(batch[k], booked, outcome(batch[k]))
    {
      var batch := GetPendingReminders(now);
      ghost var start := rows;
      var sent, failed := 0, 0;
      for i := 0 to |batch|
        invariant Valid()
        invariant Tally(rows, sent, failed) == Run(start, batch[..i], now, booked, outcome, true)
      {
        assert batch[..i + 1][..i] == batch[..i];
        sent, failed := ProcessOne(batch[i], now, booked, outcome(batch[i]), sent, failed);
      }
      assert batch[..|batch|] == batch;
      forall k | 0 <= k < |batch|
        ensures 1 <= batch[k].id <= |rows|
        ensures rows[batch[k].id - 1].status == FinalStatus(batch[k], booked, outcome(batch[k]))
      {
        RunFinalStatus(start, batch, now, booked, outcome, true, k);
      }
      c := Counts(|batch|, sent, failed);
    }
  }
}
