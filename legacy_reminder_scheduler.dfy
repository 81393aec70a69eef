// reminder_scheduler.ts: the older scheduler. Delays are always the production ones, there is no
// test mode, the sweep never skips booked leads, and an empty batch returns early.

module LegacyReminderScheduling {
  import opened Wrappers
  import opened Reminders

  class LegacyReminderScheduler {
    /** The email_reminders table. */
    var rows: seq<Reminder>

    predicate Valid()
      reads this
    {
      Reminders.Valid(rows) && AtMostOnePendingVideo(rows)
    }

    constructor ()
      ensures Valid() && rows == []
    {
      rows := [];
    }

    method HasExistingReminder(email: string, kind: Kind) returns (found: bool)
      ensures found <==> exists i :: 0 <= i < |rows| && IsPendingOf(rows[i], email, kind)
    {
      found := HasPendingOfKind(rows, email, kind);
    }

    /** `scheduleVideoReminder`: three hours ahead, skipped when one is already pending. */
    method ScheduleVideoReminder(email: string, firstName: string, videoUrl: string, now: int)
      returns (res: ScheduleResult)
      requires Valid()
      modifies this
      ensures Valid() && res == ScheduleResult(true, None)
      ensures rows == ScheduleVideo(old(rows), email, firstName, videoUrl, now + 3 * HOUR)
    {
      assert ChainDelay(VideoReminder5m, false) == 3 * HOUR;
      ScheduleVideoKeepsAtMostOne(rows, email, firstName, videoUrl, now + 3 * HOUR);
      var existing := HasExistingReminder(email, VideoReminder5m);
      if existing {
        return ScheduleResult(true, None);
      }
      rows := Insert(rows, email, firstName, videoUrl, VideoReminder5m, now + 3 * HOUR);
      res := ScheduleResult(true, None);
    }

    /** `scheduleAppointmentReminder`: one hour before the appointment. */
    method ScheduleAppointmentReminder(email: string, firstName: string, appointmentDateTime: string,
                                       appointmentAt: Option<int>) returns (res: ScheduleResult)
      requires Valid()
      modifies this
      ensures Valid()
      ensures appointmentAt.None? ==> res == ScheduleResult(false, Some("Invalid time value")) && rows == old(rows)
      ensures appointmentAt.Some? ==>
        (res == ScheduleResult(true, None)
         && rows == Insert(old(rows), email, firstName, appointmentDateTime, AppointmentReminder, appointmentAt.value - HOUR))
    {
      if appointmentAt.None? {
        return ScheduleResult(false, Some("Invalid time value"));
      }
      InsertKeepsAtMostOne(rows, email, firstName, appointmentDateTime, AppointmentReminder, appointmentAt.value - HOUR);
      rows := Insert(rows, email, firstName, appointmentDateTime, AppointmentReminder, appointmentAt.value - HOUR);
      res := ScheduleResult(true, None);
    }

    /** The follow-up schedulers with their production delays (2, 3, 5, 7, 10, 14 and 21 days). */
    method ScheduleReminder(kind: Kind, email: string, firstName: string, videoUrl: string, now: int)
      returns (res: ScheduleResult)
      requires Valid() && HasDelay(kind) && kind != VideoReminder5m
      modifies this
      ensures Valid() && res == ScheduleResult(true, None)
      ensures rows == Insert(old(rows), email, firstName, videoUrl, kind, now + ChainDelay(kind, false))
    {
      InsertKeepsAtMostOne(rows, email, firstName, videoUrl, kind, now + ChainDelay(kind, false));
      rows := Insert(rows, email, firstName, videoUrl, kind, now + ChainDelay(kind, false));
      res := ScheduleResult(true, None);
    }

    method GetPendingReminders(now: int) returns (batch: seq<Reminder>)
      requires Valid()
      ensures batch == PendingDue(rows, now)
      ensures DistinctIds(batch) && forall k :: 0 <= k < |batch| ==> 1 <= batch[k].id <= |rows|
    {
      batch := PendingDue(rows, now);
      PendingDueWellFormed(rows, now);
      assert forall k :: 0 <= k < |batch| ==> batch[k] in batch;
    }

    method MarkReminderSent(id: nat, now: int) returns (res: ScheduleResult)
      requires Valid()
      modifies this
      ensures Valid() && res.success && rows == MarkSent(old(rows), id, now)
    {
      if 1 <= id <= |rows| {
        SetStatusKeepsAtMostOne(rows, id, Sent, Some(now), rows[id - 1].errorMessage);
      }
      rows := MarkSent(rows, id, now);
      res := ScheduleResult(true, None);
    }

    method MarkReminderFailed(id: nat, message: string) returns (res: ScheduleResult)
      requires Valid()
      modifies this
      ensures Valid() && res.success && rows == MarkFailed(old(rows), id, message)
    {
      if 1 <= id <= |rows| {
        SetStatusKeepsAtMostOne(rows, id, Failed, rows[id - 1].sentAt, Some(message));
      }
      rows := MarkFailed(rows, id, message);
      res := ScheduleResult(true, None);
    }

    /** The body of the sweep's loop for one reminder: send it, record the outcome, chain on. */
    method SendOne(r: Reminder, now: int, outcome: SendOutcome, sent: nat, failed: nat)
      returns (sent': nat, failed': nat)
      requires Valid()
      modifies this
      ensures Valid()
      ensures Tally(rows, sent', failed') == Step(Tally(old(rows), sent, failed), r, now, {}, outcome, false)
    {
      sent', failed' := sent, failed;
      match outcome {
        case Delivered =>
          var _ := MarkReminderSent(r.id, now);
          sent' := sent + 1;
          var next := Successor(r.kind);
          if next.Some? {
            var _ := ScheduleReminder(next.value, r.email, r.firstName, r.videoUrl, now);
          }
        case Rejected(e) =>
          var _ := MarkReminderFailed(r.id, ErrorText(e));
          failed' := failed + 1;
        case Threw(message) =>
          var _ := MarkReminderFailed(r.id, message);
          failed' := failed + 1;
      }
    }

    /** The loop of `processPendingReminders`: one `SendOne` per reminder of the batch, in order. */
    method SendAll(batch: seq<Reminder>, now: int, outcome: Reminder -> SendOutcome) returns (sent: nat, failed: nat)
      requires Valid()
      modifies this
      ensures Valid()
      ensures Tally(rows, sent, failed) == Run(old(rows), batch, now, {}, outcome, false)
    {
      ghost var start := rows;
      sent, failed := 0, 0;
      for i := 0 to |batch|
        invariant Valid()
        invariant Tally(rows, sent, failed) == Run(start, batch[..i], now, {}, outcome, false)
      {
        RunLast(start, batch[..i + 1], now, {}, outcome, false);
        assert batch[..i + 1][..i] == batch[..i];
        sent, failed := SendOne(batch[i], now, outcome(batch[i]), sent, failed);
      }
      assert batch[..|batch|] == batch;
    }

    /**
     * `processPendingReminders`: every due reminder is sent and counted as sent or failed;
     * a successful send schedules the next reminder of the chain with its production delay.
     */
    method ProcessPendingReminders(now: int, outcome: Reminder -> SendOutcome) returns (c: Counts)
      requires Valid()
      modifies this
      ensures Valid()
      ensures var batch := PendingDue(old(rows), now);
        c.processed == |batch| && c.sent + c.failed == c.processed
        && Tally(rows, c.sent, c.failed) == Run(old(rows), batch, now, {}, outcome, false)
    {
      var batch := GetPendingReminders(now);
      if |batch| == 0 {
        assert batch == [];
        return Counts(0, 0, 0);
      }
      ghost var start := rows;
      var sent, failed := SendAll(batch, now, outcome);
      RunWithoutBookingsCountsAll(start, batch, now, outcome, false);
      c := Counts(|batch|, sent, failed);
    }
  }
}
