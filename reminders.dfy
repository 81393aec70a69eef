// The email_reminders table shared by lib/reminder-scheduler.ts and reminder_scheduler.ts: rows,
// the reminder chain, the selection of due reminders and one step of the sending sweep.
// Instants are milliseconds on one clock; `now` is always an input.

module Reminders {
  import opened Wrappers

  datatype Kind =
    | VideoReminder5m | VideoReminder24h | AppointmentReminder | CheckingIn | DirectOffer
    | FinalReminder | Testimonial1 | Testimonial2 | Testimonial3 | Content1

  /** `cancelled` is only written by the newer scheduler. */
  datatype Status = Pending | Sent | Failed | Cancelled

  /** A row of email_reminders; `videoUrl` holds the appointment date-time for appointment reminders. */
  datatype Reminder = Reminder(
    id: nat, email: string, firstName: string, videoUrl: string, kind: Kind,
    scheduledFor: int, status: Status, sentAt: Option<int>, errorMessage: Option<string>)

  datatype ScheduleResult = ScheduleResult(success: bool, error: Option<string>)

  /** What sending one reminder yields: success, a failure answer (with its error), or a throw. */
  datatype SendOutcome = Delivered | Rejected(error: Option<string>) | Threw(message: string)

  datatype Counts = Counts(processed: nat, sent: nat, failed: nat)

  const MINUTE: int := 60 * 1000
  const HOUR: int := 60 * MINUTE
  const DAY: int := 24 * HOUR

  /** Row i has id i + 1: ids come from AUTOINCREMENT and rows are never deleted. */
  predicate Valid(rows: seq<Reminder>)
  {
    forall i :: 0 <= i < |rows| ==> rows[i].id == i + 1
  }

  /** Kinds scheduled some fixed time after "now" (the others never or relative to a booking). */
  predicate HasDelay(kind: Kind)
  {
    kind != AppointmentReminder && kind != VideoReminder24h
  }

  /** The delay of each kind: five minutes in test mode, the production delay otherwise. */
  function ChainDelay(kind: Kind, testMode: bool): (d: int)
    requires HasDelay(kind)
    ensures d >= 5 * MINUTE
    ensures testMode && kind != Content1 ==> d == 5 * MINUTE
  {
    match kind
    case Content1 => 21 * DAY
    case _ =>
      if testMode then 5 * MINUTE
      else match kind
        case VideoReminder5m => 3 * HOUR
        case CheckingIn => 2 * DAY
        case DirectOffer => 3 * DAY
        case FinalReminder => 5 * DAY
        case Testimonial1 => 7 * DAY
        case Testimonial2 => 10 * DAY
        case Testimonial3 => 14 * DAY
  }

  /**
   * In production every step of the nurture chain waits longer than the one before it: three
   * hours after the video, then two, three, five, seven, ten and fourteen days.
   */
  lemma ProductionDelaysGrow(kind: Kind)
    requires HasDelay(kind) && Successor(kind).Some?
    ensures ChainDelay(Successor(kind).value, false) > ChainDelay(kind, false)
    ensures kind == VideoReminder5m ==> ChainDelay(kind, false) == 3 * HOUR
    ensures Successor(kind).value == Testimonial3 ==> ChainDelay(Testimonial3, false) == 14 * DAY
  {
  }

  /** The reminder scheduled after a reminder of `kind` is sent (the content step is disabled). */
  function Successor(kind: Kind): (s: Option<Kind>)
    ensures s.Some? ==> HasDelay(s.value) && s.value != VideoReminder5m && s.value != Content1
  {
    match kind
    case VideoReminder5m => Some(CheckingIn)
    case CheckingIn => Some(DirectOffer)
    case DirectOffer => Some(FinalReminder)
    case FinalReminder => Some(Testimonial1)
    case Testimonial1 => Some(Testimonial2)
    case Testimonial2 => Some(Testimonial3)
    case _ => None
  }

  /** Position of a kind in the nurture chain; every successor is one further along. */
  function ChainRank(kind: Kind): (n: nat)
    ensures n <= 6
  {
    match kind
    case VideoReminder5m => 0
    case CheckingIn => 1
    case DirectOffer => 2
    case FinalReminder => 3
    case Testimonial1 => 4
    case Testimonial2 => 5
    case _ => 6
  }

  /** The reminders that follow a sent reminder of `kind`, one after another. */
  function FollowUps(kind: Kind): seq<Kind>
    decreases 6 - ChainRank(kind)
  {
    match Successor(kind)
    case None => []
    case Some(next) => ChainRankStep(kind); [next] + FollowUps(next)
  }

  lemma ChainRankStep(kind: Kind)
    requires Successor(kind).Some?
    ensures ChainRank(Successor(kind).value) == ChainRank(kind) + 1
  {
  }

  /** The chain terminates: no kind is followed by more than six reminders. */
  lemma {:induction false} FollowUpsBounded(kind: Kind)
    ensures |FollowUps(kind)| == 6 - ChainRank(kind) || |FollowUps(kind)| == 0
    ensures |FollowUps(kind)| <= 6
    decreases 6 - ChainRank(kind)
  {
    if Successor(kind).Some? {
      ChainRankStep(kind);
      FollowUpsBounded(Successor(kind).value);
    }
  }

  /** A watched video starts the six-step nurture chain; the appointment reminder starts none. */
  lemma VideoChain()
    ensures FollowUps(VideoReminder5m)
      == [CheckingIn, DirectOffer, FinalReminder, Testimonial1, Testimonial2, Testimonial3]
    ensures FollowUps(AppointmentReminder) == [] && FollowUps(Testimonial3) == []
    ensures FollowUps(VideoReminder24h) == [] && FollowUps(Content1) == []
  {
  }

  // ---- table updates ----

  /** INSERT with the default status `pending`. */
  function Insert(rows: seq<Reminder>, email: string, firstName: string, videoUrl: string,
                  kind: Kind, due: int): (r: seq<Reminder>)
    ensures |r| == |rows| + 1 && r[..|rows|] == rows
    ensures r[|rows|] == Reminder(|rows| + 1, email, firstName, videoUrl, kind, due, Pending, None, None)
    ensures Valid(rows) ==> Valid(r)
  {
    rows + [Reminder(|rows| + 1, email, firstName, videoUrl, kind, due, Pending, None, None)]
  }

  /** UPDATE ... WHERE id = ?: the row with that id, if any, gets the new status fields. */
  function SetStatus(rows: seq<Reminder>, id: nat, status: Status, sentAt: Option<int>,
                     errorMessage: Option<string>): (r: seq<Reminder>)
    requires Valid(rows)
    ensures Valid(r) && |r| == |rows|
    ensures forall i :: 0 <= i < |rows| && i != id - 1 ==> r[i] == rows[i]
    ensures 1 <= id <= |rows| ==>
      r[id - 1] == rows[id - 1].(status := status, sentAt := sentAt, errorMessage := errorMessage)
  {
    if 1 <= id <= |rows|
    then rows[id - 1 := rows[id - 1].(status := status, sentAt := sentAt, errorMessage := errorMessage)]
    else rows
  }

  /** `markReminderSent`: status `sent` and the time it was sent. */
  function MarkSent(rows: seq<Reminder>, id: nat, now: int): seq<Reminder>
    requires Valid(rows)
  {
    if 1 <= id <= |rows| then SetStatus(rows, id, Sent, Some(now), rows[id - 1].errorMessage) else rows
  }

  /** `markReminderFailed`: status `failed` and the error message. */
  function MarkFailed(rows: seq<Reminder>, id: nat, message: string): seq<Reminder>
    requires Valid(rows)
  {
    if 1 <= id <= |rows| then SetStatus(rows, id, Failed, rows[id - 1].sentAt, Some(message)) else rows
  }

  /** The sweep's skip for booked leads: status `cancelled`. */
  function MarkCancelled(rows: seq<Reminder>, id: nat): seq<Reminder>
    requires Valid(rows)
  {
    if 1 <= id <= |rows| then SetStatus(rows, id, Cancelled, rows[id - 1].sentAt, rows[id - 1].errorMessage) else rows
  }

  predicate IsPendingOf(r: Reminder, email: string, kind: Kind)
  {
    r.status == Pending && r.email == email && r.kind == kind
  }

  /** `hasExistingReminder`: a pending reminder of this kind exists for the address. */
  predicate HasPendingOfKind(rows: seq<Reminder>, email: string, kind: Kind)
  {
    exists i :: 0 <= i < |rows| && IsPendingOf(rows[i], email, kind)
  }

  /** No address has two pending first video reminders (what the duplicate check protects). */
  predicate AtMostOnePendingVideo(rows: seq<Reminder>)
  {
    forall i, j ::
      (0 <= i < |rows| && 0 <= j < |rows| && rows[i].email == rows[j].email
       && IsPendingOf(rows[i], rows[i].email, VideoReminder5m)
       && IsPendingOf(rows[j], rows[j].email, VideoReminder5m)) ==> i == j
  }

  /** Adding a reminder of another kind cannot create a second pending video reminder. */
  lemma InsertKeepsAtMostOne(rows: seq<Reminder>, email: string, firstName: string, videoUrl: string,
                             kind: Kind, due: int)
    requires AtMostOnePendingVideo(rows) && kind != VideoReminder5m
    ensures AtMostOnePendingVideo(Insert(rows, email, firstName, videoUrl, kind, due))
  {
  }

  /** Moving a row out of `pending` cannot create a second pending video reminder. */
  lemma SetStatusKeepsAtMostOne(rows: seq<Reminder>, id: nat, status: Status, sentAt: Option<int>,
                                errorMessage: Option<string>)
    requires Valid(rows) && AtMostOnePendingVideo(rows) && status != Pending
    ensures AtMostOnePendingVideo(SetStatus(rows, id, status, sentAt, errorMessage))
  {
  }

  /** The rows the video-reminder scheduler leaves: unchanged when one is pending, else one more. */
  function ScheduleVideo(rows: seq<Reminder>, email: string, firstName: string, videoUrl: string,
                         due: int): seq<Reminder>
  {
    if HasPendingOfKind(rows, email, VideoReminder5m) then rows
    else Insert(rows, email, firstName, videoUrl, VideoReminder5m, due)
  }

  /** Scheduling a video reminder never creates a second pending one for an address. */
  lemma ScheduleVideoKeepsAtMostOne(rows: seq<Reminder>, email: string, firstName: string,
                                    videoUrl: string, due: int)
    requires AtMostOnePendingVideo(rows)
    ensures AtMostOnePendingVideo(ScheduleVideo(rows, email, firstName, videoUrl, due))
    ensures HasPendingOfKind(ScheduleVideo(rows, email, firstName, videoUrl, due), email, VideoReminder5m)
  {
    var r := ScheduleVideo(rows, email, firstName, videoUrl, due);
    if !HasPendingOfKind(rows, email, VideoReminder5m) {
      assert IsPendingOf(r[|rows|], email, VideoReminder5m);
    }
  }

  /** `cancelAllReminders`: every pending row of the address becomes `cancelled`. */
  function CancelPending(rows: seq<Reminder>, email: string): (r: seq<Reminder>)
    ensures |r| == |rows|
    ensures forall i :: 0 <= i < |rows| ==>
      r[i] == if rows[i].email == email && rows[i].status == Pending then rows[i].(status := Cancelled) else rows[i]
  {
    if rows == [] then []
    else
      var last := rows[|rows| - 1];
      CancelPending(rows[..|rows| - 1], email)
        + [if last.email == email && last.status == Pending then last.(status := Cancelled) else last]
  }

  /** The number of rows an UPDATE ... WHERE email = ? AND status = 'pending' changes. */
  function PendingCount(rows: seq<Reminder>, email: string): nat
  {
    if rows == [] then 0
    else
      var last := rows[|rows| - 1];
      PendingCount(rows[..|rows| - 1], email) + (if last.email == email && last.status == Pending then 1 else 0)
  }

  /** After cancelling, nothing is pending for the address and other addresses are untouched. */
  lemma CancelPendingEffect(rows: seq<Reminder>, email: string)
    ensures Valid(rows) ==> Valid(CancelPending(rows, email))
    ensures PendingCount(CancelPending(rows, email), email) == 0
    ensures forall i :: 0 <= i < |rows| && rows[i].email != email ==> CancelPending(rows, email)[i] == rows[i]
    ensures AtMostOnePendingVideo(rows) ==> AtMostOnePendingVideo(CancelPending(rows, email))
  {
    var c := CancelPending(rows, email);
    forall i | 0 <= i < |rows|
      ensures c[i].id == rows[i].id && !(c[i].email == email && c[i].status == Pending)
      ensures rows[i].email != email ==> c[i] == rows[i]
    {
    }
    NoPendingCountsZero(c, email);
    if AtMostOnePendingVideo(rows) {
      CancelKeepsAtMostOne(rows, email);
    }
  }

  /** A row still pending after the cancel was pending before it, so no second one appears. */
  lemma CancelKeepsAtMostOne(rows: seq<Reminder>, email: string)
    requires AtMostOnePendingVideo(rows)
    ensures AtMostOnePendingVideo(CancelPending(rows, email))
  {
    var c := CancelPending(rows, email);
    forall i, j | 0 <= i < |c| && 0 <= j < |c| && c[i].email == c[j].email
                  && IsPendingOf(c[i], c[i].email, VideoReminder5m) && IsPendingOf(c[j], c[j].email, VideoReminder5m)
      ensures i == j
    {
      assert c[i] == rows[i] && c[j] == rows[j];
    }
  }

  lemma {:induction false} NoPendingCountsZero(rows: seq<Reminder>, email: string)
    requires forall i :: 0 <= i < |rows| ==> !(rows[i].email == email && rows[i].status == Pending)
    ensures PendingCount(rows, email) == 0
  {
    if rows != [] {
      NoPendingCountsZero(rows[..|rows| - 1], email);
    }
  }

  // ---- which reminders are due ----

  /** WHERE status = 'pending' AND scheduledFor <= now, in table order. */
  function DueRows(rows: seq<Reminder>, now: int): (d: seq<Reminder>)
    ensures |d| <= |rows|
    ensures forall x :: x in d ==> x in rows && x.status == Pending && x.scheduledFor <= now
  {
    if rows == [] then []
    else (if rows[0].status == Pending && rows[0].scheduledFor <= now then [rows[0]] else []) + DueRows(rows[1..], now)
  }

  predicate SortedByDue(s: seq<Reminder>)
  {
    forall i, j :: 0 <= i < j < |s| ==> s[i].scheduledFor <= s[j].scheduledFor
  }

  /** Insert before the first row due no earlier (so rows due at the same time keep their order). */
  function InsertByDue(r: Reminder, s: seq<Reminder>): (t: seq<Reminder>)
    ensures |t| == |s| + 1 && multiset(t) == multiset(s) + multiset{r}
  {
    if s == [] || r.scheduledFor <= s[0].scheduledFor then [r] + s
    else
      assert s == [s[0]] + s[1..];
      [s[0]] + InsertByDue(r, s[1..])
  }

  /** Inserting into a sorted list keeps it sorted. */
  lemma {:induction false} InsertByDueSorted(r: Reminder, s: seq<Reminder>)
    requires SortedByDue(s)
    ensures SortedByDue(InsertByDue(r, s))
    ensures forall x :: x in InsertByDue(r, s) ==> x == r || x in s
  {
    if !(s == [] || r.scheduledFor <= s[0].scheduledFor) {
      var rest := InsertByDue(r, s[1..]);
      InsertByDueSorted(r, s[1..]);
      var t := [s[0]] + rest;
      forall j | 0 < j < |t|
        ensures s[0].scheduledFor <= t[j].scheduledFor
      {
        assert t[j] in rest;
        if t[j] != r {
          var k :| 0 <= k < |s[1..]| && s[1..][k] == t[j];
          assert s[k + 1] == t[j];
        }
      }
    }
  }

  /** ORDER BY scheduledFor ASC. */
  function SortByDue(s: seq<Reminder>): (t: seq<Reminder>)
    ensures |t| == |s| && multiset(t) == multiset(s) && SortedByDue(t)
  {
    if s == [] then []
    else
      assert s == [s[0]] + s[1..];
      var rest := SortByDue(s[1..]);
      InsertByDueSorted(s[0], rest);
      InsertByDue(s[0], rest)
  }

  const BATCH_LIMIT: nat := 50

  /** `getPendingReminders`: the due pending reminders, earliest first, at most 50. */
  function PendingDue(rows: seq<Reminder>, now: int): seq<Reminder>
  {
    var sorted := SortByDue(DueRows(rows, now));
    if |sorted| <= BATCH_LIMIT then sorted else sorted[..BATCH_LIMIT]
  }

  /**
   * The batch is sorted by due time, holds only due pending rows of the table, has
   * min(50, #due) entries, and every due row left out is due no earlier than any row taken.
   */
  lemma PendingDueSpec(rows: seq<Reminder>, now: int)
    ensures var b := PendingDue(rows, now);
      SortedByDue(b)
      && (forall x :: x in b ==> x in rows && x.status == Pending && x.scheduledFor <= now)
      && |b| == (if |DueRows(rows, now)| <= BATCH_LIMIT then |DueRows(rows, now)| else BATCH_LIMIT)
      && forall x, y :: x in DueRows(rows, now) && x !in b && y in b ==> y.scheduledFor <= x.scheduledFor
  {
    var d := DueRows(rows, now);
    var sorted := SortByDue(d);
    var n := if |sorted| <= BATCH_LIMIT then |sorted| else BATCH_LIMIT;
    assert PendingDue(rows, now) == sorted[..n];
    SameElements(d, sorted);
    PrefixDueFirst(sorted, n);
  }

  /** Two sequences with the same multiset hold the same elements. */
  lemma SameElements(s: seq<Reminder>, t: seq<Reminder>)
    requires multiset(s) == multiset(t)
    ensures forall x :: x in s <==> x in t
  {
    forall x
      ensures x in s <==> x in t
    {
      assert x in s <==> x in multiset(s);
      assert x in t <==> x in multiset(t);
    }
  }

  /** A prefix of a list sorted by due time holds its earliest entries. */
  lemma PrefixDueFirst(s: seq<Reminder>, n: nat)
    requires SortedByDue(s) && n <= |s|
    ensures SortedByDue(s[..n])
    ensures forall x :: x in s ==> x in s[..n] || x in s[n..]
    ensures forall x, y :: x in s[n..] && y in s[..n] ==> y.scheduledFor <= x.scheduledFor
  {
    assert s == s[..n] + s[n..];
    forall x, y | x in s[n..] && y in s[..n]
      ensures y.scheduledFor <= x.scheduledFor
    {
      var j :| 0 <= j < |s| - n && s[n..][j] == x;
      var i :| 0 <= i < n && s[..n][i] == y;
      assert s[i] == y && s[n + j] == x;
    }
  }

  predicate DistinctIds(s: seq<Reminder>)
  {
    forall i, j :: 0 <= i < j < |s| ==> s[i].id != s[j].id
  }

  lemma {:induction false} DueRowsDistinct(rows: seq<Reminder>, now: int)
    requires DistinctIds(rows)
    ensures DistinctIds(DueRows(rows, now))
  {
    if rows != [] {
      DueRowsDistinct(rows[1..], now);
      var rest := DueRows(rows[1..], now);
      forall x | x in rest
        ensures x.id != rows[0].id
      {
        var k :| 0 <= k < |rows[1..]| && rows[1..][k] == x;
        assert rows[k + 1] == x;
      }
    }
  }

  lemma {:induction false} InsertByDueDistinct(r: Reminder, s: seq<Reminder>)
    requires DistinctIds(s) && forall x :: x in s ==> x.id != r.id
    ensures DistinctIds(InsertByDue(r, s))
    ensures forall x :: x in InsertByDue(r, s) ==> x == r || x in s
  {
    if !(s == [] || r.scheduledFor <= s[0].scheduledFor) {
      InsertByDueDistinct(r, s[1..]);
      var rest := InsertByDue(r, s[1..]);
      forall x | x in rest
        ensures x.id != s[0].id
      {
        if x != r {
          var k :| 0 <= k < |s[1..]| && s[1..][k] == x;
          assert s[k + 1] == x;
        }
      }
    }
  }

  lemma {:induction false} SortByDueDistinct(s: seq<Reminder>)
    requires DistinctIds(s)
    ensures DistinctIds(SortByDue(s))
  {
    if s != [] {
      SortByDueDistinct(s[1..]);
      var t := SortByDue(s[1..]);
      forall x | x in t
        ensures x.id != s[0].id
      {
        assert x in multiset(t);
        var k :| 0 <= k < |s[1..]| && s[1..][k] == x;
        assert s[k + 1] == x;
      }
      InsertByDueDistinct(s[0], t);
    }
  }

  lemma DistinctPrefix(s: seq<Reminder>)
    requires DistinctIds(s) && s != []
    ensures DistinctIds(s[..|s| - 1])
    ensures forall k :: 0 <= k < |s| - 1 ==> s[k].id != s[|s| - 1].id
  {
  }

  /** A batch from a well-formed table names each row at most once, by an id in range. */
  lemma PendingDueWellFormed(rows: seq<Reminder>, now: int)
    requires Valid(rows)
    ensures DistinctIds(PendingDue(rows, now))
    ensures forall x :: x in PendingDue(rows, now) ==> 1 <= x.id <= |rows| && rows[x.id - 1] == x
  {
    DueRowsDistinct(rows, now);
    SortByDueDistinct(DueRows(rows, now));
    PendingDueSpec(rows, now);
    forall x | x in PendingDue(rows, now)
      ensures 1 <= x.id <= |rows| && rows[x.id - 1] == x
    {
      var k :| 0 <= k < |rows| && rows[k] == x;
    }
  }

  // ---- the sweep ----

  /** Rows of the table together with the sweep's running counts. */
  datatype Tally = Tally(rows: seq<Reminder>, sent: nat, failed: nat)

  /** The sweep skips (cancels) non-appointment reminders of booked addresses. */
  predicate Skipped(r: Reminder, booked: set<string>)
  {
    r.kind != AppointmentReminder && r.email in booked
  }

  /** `error || 'Unknown error'`. */
  function ErrorText(e: Option<string>): string
  {
    if e.Some? && e.value != "" then e.value else "Unknown error"
  }

  /**
   * One turn of the sweep's loop for reminder `r`: cancel it, or send it and record the outcome,
   * scheduling the next reminder of the chain after a successful send.
   */
  function Step(t: Tally, r: Reminder, now: int, booked: set<string>, outcome: SendOutcome,
                testMode: bool): (u: Tally)
    requires Valid(t.rows)
    ensures Valid(u.rows) && |u.rows| >= |t.rows|
  {
    if Skipped(r, booked) then Tally(MarkCancelled(t.rows, r.id), t.sent, t.failed)
    else match outcome
      case Delivered =>
        var marked := MarkSent(t.rows, r.id, now);
        var rows := match Successor(r.kind)
          case None => marked
          case Some(next) => Insert(marked, r.email, r.firstName, r.videoUrl, next, now + ChainDelay(next, testMode));
        Tally(rows, t.sent + 1, t.failed)
      case Rejected(e) => Tally(MarkFailed(t.rows, r.id, ErrorText(e)), t.sent, t.failed + 1)
      case Threw(message) => Tally(MarkFailed(t.rows, r.id, message), t.sent, t.failed + 1)
  }

  /** The sweep over a batch, in order. */
  function Run(rows: seq<Reminder>, batch: seq<Reminder>, now: int, booked: set<string>,
               outcome: Reminder -> SendOutcome, testMode: bool): (u: Tally)
    requires Valid(rows)
    ensures Valid(u.rows) && |u.rows| >= |rows|
  {
    if batch == [] then Tally(rows, 0, 0)
    else
      Step(Run(rows, batch[..|batch| - 1], now, booked, outcome, testMode),
           batch[|batch| - 1], now, booked, outcome(batch[|batch| - 1]), testMode)
  }

  /** The sweep over a non-empty batch is the sweep over all but its last entry, then one step. */
  lemma RunLast(rows: seq<Reminder>, batch: seq<Reminder>, now: int, booked: set<string>,
                outcome: Reminder -> SendOutcome, testMode: bool)
    requires Valid(rows) && batch != []
    ensures Run(rows, batch, now, booked, outcome, testMode)
      == Step(Run(rows, batch[..|batch| - 1], now, booked, outcome, testMode),
              batch[|batch| - 1], now, booked, outcome(batch[|batch| - 1]), testMode)
  {
  }

  /** How many reminders of the batch the sweep cancels. */
  function SkippedCount(batch: seq<Reminder>, booked: set<string>): nat
  {
    if batch == [] then 0
    else SkippedCount(batch[..|batch| - 1], booked) + (if Skipped(batch[|batch| - 1], booked) then 1 else 0)
  }

  /** Every reminder of the batch is counted once: as sent, as failed, or as cancelled. */
  lemma {:induction false} RunCounts(rows: seq<Reminder>, batch: seq<Reminder>, now: int, booked: set<string>,
                                     outcome: Reminder -> SendOutcome, testMode: bool)
    requires Valid(rows)
    ensures var u := Run(rows, batch, now, booked, outcome, testMode);
      u.sent + u.failed + SkippedCount(batch, booked) == |batch|
  {
    if batch != [] {
      RunCounts(rows, batch[..|batch| - 1], now, booked, outcome, testMode);
    }
  }

  lemma {:induction false} NothingSkippedWithoutBookings(batch: seq<Reminder>)
    ensures SkippedCount(batch, {}) == 0
  {
    if batch != [] {
      NothingSkippedWithoutBookings(batch[..|batch| - 1]);
    }
  }

  /** Without bookings every reminder of the batch is counted as sent or as failed. */
  lemma RunWithoutBookingsCountsAll(rows: seq<Reminder>, batch: seq<Reminder>, now: int,
                                    outcome: Reminder -> SendOutcome, testMode: bool)
    requires Valid(rows)
    ensures var u := Run(rows, batch, now, {}, outcome, testMode); u.sent + u.failed == |batch|
  {
    RunCounts(rows, batch, now, {}, outcome, testMode);
    NothingSkippedWithoutBookings(batch);
  }

  /** The status the sweep leaves on a reminder of its batch. */
  function FinalStatus(r: Reminder, booked: set<string>, outcome: SendOutcome): Status
  {
    if Skipped(r, booked) then Cancelled
    else if outcome.Delivered? then Sent
    else Failed
  }

  /** Identity of a row: everything except the status fields the sweep writes. */
  predicate SameReminder(a: Reminder, b: Reminder)
  {
    a.id == b.id && a.email == b.email && a.firstName == b.firstName && a.videoUrl == b.videoUrl
    && a.kind == b.kind && a.scheduledFor == b.scheduledFor
  }

  /** `after` is `before` with at most the row of `id` given `status`, identities kept. */
  predicate StatusWrite(before: seq<Reminder>, after: seq<Reminder>, id: nat, status: Status)
  {
    |after| == |before|
    && (forall i :: 0 <= i < |before| ==> SameReminder(after[i], before[i]))
    && (forall i :: 0 <= i < |before| && i != id - 1 ==> after[i] == before[i])
    && (1 <= id <= |before| ==> after[id - 1].status == status)
  }

  /** A follow-up the sweep may queue: pending, due after `now`, never a first-step kind. */
  predicate QueuedLater(x: Reminder, now: int)
  {
    x.status == Pending && x.scheduledFor > now && x.kind != VideoReminder5m && x.kind != AppointmentReminder
  }

  /** The shape of one step's table: a status write on the old rows, then queued follow-ups. */
  predicate FramedStep(before: seq<Reminder>, after: seq<Reminder>, id: nat, status: Status, now: int)
  {
    |after| >= |before|
    && (forall i :: 0 <= i < |before| ==> SameReminder(after[i], before[i]))
    && (forall i :: 0 <= i < |before| && i != id - 1 ==> after[i] == before[i])
    && (1 <= id <= |before| ==> after[id - 1].status == status)
    && (forall i :: |before| <= i < |after| ==> QueuedLater(after[i], now))
  }

  /** The three status updates of the sweep write only the status fields of one row. */
  lemma MarksAreStatusWrites(rows: seq<Reminder>, id: nat, now: int, message: string)
    requires Valid(rows)
    ensures StatusWrite(rows, MarkSent(rows, id, now), id, Sent)
    ensures StatusWrite(rows, MarkFailed(rows, id, message), id, Failed)
    ensures StatusWrite(rows, MarkCancelled(rows, id), id, Cancelled)
  {
  }

  lemma WriteIsFramed(before: seq<Reminder>, after: seq<Reminder>, id: nat, status: Status, now: int)
    requires StatusWrite(before, after, id, status)
    ensures FramedStep(before, after, id, status, now)
  {
  }

  lemma WriteThenQueueIsFramed(before: seq<Reminder>, marked: seq<Reminder>, x: Reminder, id: nat,
                               status: Status, now: int)
    requires StatusWrite(before, marked, id, status) && QueuedLater(x, now)
    ensures FramedStep(before, marked + [x], id, status, now)
  {
    var after := marked + [x];
    assert forall i :: 0 <= i < |marked| ==> after[i] == marked[i];
  }

  /** The table one step leaves, as a `FramedStep` of the table it started from. */
  lemma StepIsFramed(t: Tally, r: Reminder, now: int, booked: set<string>, outcome: SendOutcome, testMode: bool)
    requires Valid(t.rows)
    ensures FramedStep(t.rows, Step(t, r, now, booked, outcome, testMode).rows, r.id, FinalStatus(r, booked, outcome), now)
  {
    var u := Step(t, r, now, booked, outcome, testMode);
    var status := FinalStatus(r, booked, outcome);
    if Skipped(r, booked) {
      MarksAreStatusWrites(t.rows, r.id, now, "");
      WriteIsFramed(t.rows, u.rows, r.id, status, now);
    } else {
      match outcome
      case Delivered =>
        var marked := MarkSent(t.rows, r.id, now);
        MarksAreStatusWrites(t.rows, r.id, now, "");
        match Successor(r.kind) {
          case None =>
            WriteIsFramed(t.rows, u.rows, r.id, status, now);
          case Some(next) =>
            var x := Reminder(|marked| + 1, r.email, r.firstName, r.videoUrl, next,
                              now + ChainDelay(next, testMode), Pending, None, None);
            assert u.rows == marked + [x];
            WriteThenQueueIsFramed(t.rows, marked, x, r.id, status, now);
        }
      case Rejected(e) =>
        MarksAreStatusWrites(t.rows, r.id, now, ErrorText(e));
        WriteIsFramed(t.rows, u.rows, r.id, status, now);
      case Threw(message) =>
        MarksAreStatusWrites(t.rows, r.id, now, message);
        WriteIsFramed(t.rows, u.rows, r.id, status, now);
    }
  }

  /** One step keeps every existing row's identity and only touches the row it processes. */
  lemma StepFrame(t: Tally, r: Reminder, now: int, booked: set<string>, outcome: SendOutcome, testMode: bool)
    requires Valid(t.rows)
    ensures var u := Step(t, r, now, booked, outcome, testMode);
      |u.rows| >= |t.rows|
      && (forall i :: 0 <= i < |t.rows| ==> SameReminder(u.rows[i], t.rows[i]))
      && (forall i :: 0 <= i < |t.rows| && i != r.id - 1 ==> u.rows[i] == t.rows[i])
      && (1 <= r.id <= |t.rows| ==> u.rows[r.id - 1].status == FinalStatus(r, booked, outcome))
      && (forall i :: |t.rows| <= i < |u.rows| ==>
            u.rows[i].status == Pending && u.rows[i].scheduledFor > now
            && u.rows[i].kind != VideoReminder5m && u.rows[i].kind != AppointmentReminder)
  {
    StepIsFramed(t, r, now, booked, outcome, testMode);
  }

  /** StepFrame at one row index: the row is untouched unless the step processes it. */
  lemma StepAt(t: Tally, r: Reminder, now: int, booked: set<string>, outcome: SendOutcome, testMode: bool, j: nat)
    requires Valid(t.rows) && j < |t.rows|
    ensures var u := Step(t, r, now, booked, outcome, testMode);
      j < |u.rows|
      && (j != r.id - 1 ==> u.rows[j] == t.rows[j])
      && (j == r.id - 1 ==> u.rows[j].status == FinalStatus(r, booked, outcome))
  {
    StepFrame(t, r, now, booked, outcome, testMode);
  }

  /** The sweep keeps the identity of every existing row and adds only pending follow-ups due later. */
  lemma {:induction false} RunFrame(rows: seq<Reminder>, batch: seq<Reminder>, now: int, booked: set<string>,
                                    outcome: Reminder -> SendOutcome, testMode: bool)
    requires Valid(rows)
    requires forall k :: 0 <= k < |batch| ==> 1 <= batch[k].id <= |rows|
    ensures var u := Run(rows, batch, now, booked, outcome, testMode);
      |u.rows| >= |rows|
      && (forall i :: 0 <= i < |rows| ==> SameReminder(u.rows[i], rows[i]))
      && (forall i :: |rows| <= i < |u.rows| ==>
            u.rows[i].status == Pending && u.rows[i].scheduledFor > now
            && u.rows[i].kind != VideoReminder5m && u.rows[i].kind != AppointmentReminder)
  {
    if batch != [] {
      var init := batch[..|batch| - 1];
      var r := batch[|batch| - 1];
      RunFrame(rows, init, now, booked, outcome, testMode);
      var t := Run(rows, init, now, booked, outcome, testMode);
      var u := Step(t, r, now, booked, outcome(r), testMode);
      assert Run(rows, batch, now, booked, outcome, testMode) == u;
      StepFrame(t, r, now, booked, outcome(r), testMode);
      forall i | |rows| <= i < |u.rows|
        ensures u.rows[i].status == Pending && u.rows[i].scheduledFor > now
          && u.rows[i].kind != VideoReminder5m && u.rows[i].kind != AppointmentReminder
      {
        if i < |t.rows| {
          assert i != r.id - 1;
        }
      }
    }
  }

  /** Rows whose id no batch entry carries come out of the sweep unchanged. */
  lemma {:induction false} RunUntouched(rows: seq<Reminder>, batch: seq<Reminder>, now: int, booked: set<string>,
                                        outcome: Reminder -> SendOutcome, testMode: bool, i: nat)
    requires Valid(rows) && i < |rows|
    requires forall k :: 0 <= k < |batch| ==> batch[k].id != i + 1
    ensures Run(rows, batch, now, booked, outcome, testMode).rows[i] == rows[i]
  {
    if batch != [] {
      var init := batch[..|batch| - 1];
      var r := batch[|batch| - 1];
      RunUntouched(rows, init, now, booked, outcome, testMode, i);
      var t := Run(rows, init, now, booked, outcome, testMode);
      assert Run(rows, batch, now, booked, outcome, testMode) == Step(t, r, now, booked, outcome(r), testMode);
      StepAt(t, r, now, booked, outcome(r), testMode, i);
    }
  }

  /** Each reminder of a batch of distinct rows ends with its final status. */
  lemma {:induction false} RunFinalStatus(rows: seq<Reminder>, batch: seq<Reminder>, now: int, booked: set<string>,
                                          outcome: Reminder -> SendOutcome, testMode: bool, k: nat)
    requires Valid(rows) && DistinctIds(batch) && k < |batch|
    requires forall j :: 0 <= j < |batch| ==> 1 <= batch[j].id <= |rows|
    ensures Run(rows, batch, now, booked, outcome, testMode).rows[batch[k].id - 1].status
      == FinalStatus(batch[k], booked, outcome(batch[k]))
  {
    var init := batch[..|batch| - 1];
    var r := batch[|batch| - 1];
    var t := Run(rows, init, now, booked, outcome, testMode);
    var x := batch[k];
    RunLast(rows, batch, now, booked, outcome, testMode);
    if k == |batch| - 1 {
      StepAt(t, r, now, booked, outcome(r), testMode, r.id - 1);
    } else {
      DistinctPrefix(batch);
      assert x == init[k] && x.id != r.id;
      RunFinalStatus(rows, init, now, booked, outcome, testMode, k);
      StepAt(t, r, now, booked, outcome(r), testMode, x.id - 1);
    }
  }

  /** The sweep keeps "at most one pending video reminder per address". */
  lemma RunKeepsAtMostOne(rows: seq<Reminder>, batch: seq<Reminder>, now: int, booked: set<string>,
                          outcome: Reminder -> SendOutcome, testMode: bool)
    requires Valid(rows) && DistinctIds(batch) && AtMostOnePendingVideo(rows)
    requires forall k :: 0 <= k < |batch| ==> 1 <= batch[k].id <= |rows|
    ensures AtMostOnePendingVideo(Run(rows, batch, now, booked, outcome, testMode).rows)
  {
    RunFrame(rows, batch, now, booked, outcome, testMode);
    var u := Run(rows, batch, now, booked, outcome, testMode);
    forall i | 0 <= i < |u.rows| && IsPendingOf(u.rows[i], u.rows[i].email, VideoReminder5m)
      ensures i < |rows| && u.rows[i] == rows[i]
    {
      if i < |rows| {
        if k :| 0 <= k < |batch| && batch[k].id == i + 1 {
          RunFinalStatus(rows, batch, now, booked, outcome, testMode, k);
        } else {
          RunUntouched(rows, batch, now, booked, outcome, testMode, i);
        }
      }
    }
  }

  /** `reminder.videoUrl.split(' ')`: the text before the first space, and the part after it. */
  function SplitAtSpace(s: string): (string, Option<string>)
  {
    if s == [] then ([], None)
    else if s[0] == ' ' then ([], Some(FirstField(s[1..])))
    else var (head, tail) := SplitAtSpace(s[1..]); ([s[0]] + head, tail)
  }

  /** The text before the first space (the whole string when there is none). */
  function FirstField(s: string): (f: string)
    ensures ' ' !in f && |f| <= |s|
  {
    if s == [] || s[0] == ' ' then [] else [s[0]] + FirstField(s[1..])
  }

  /** The date and time an appointment reminder is sent with; the time defaults to "15:00". */
  function AppointmentFields(stored: string): (string, string)
  {
    var (date, time) := SplitAtSpace(stored);
    (date, if time.Some? && time.value != "" then time.value else "15:00")
  }

  lemma {:induction false} FirstFieldOf(a: string, rest: string)
    requires ' ' !in a
    ensures FirstField(a + rest) == a + FirstField(rest)
  {
    if a != [] {
      assert (a + rest)[0] == a[0] && a[0] != ' ';
      assert (a + rest)[1..] == a[1..] + rest;
      assert forall c :: c in a[1..] ==> c in a;
      FirstFieldOf(a[1..], rest);
      assert a == [a[0]] + a[1..];
    } else {
      assert a + rest == rest;
    }
  }

  lemma {:induction false} SplitAtSpaceOf(date: string, time: string)
    requires ' ' !in date && ' ' !in time
    ensures SplitAtSpace(date + " " + time) == (date, Some(time))
  {
    if date == [] {
      var s := " " + time;
      assert s[1..] == time;
      FirstFieldOf(time, []);
      assert time + [] == time;
    } else {
      var s := date + " " + time;
      assert s[0] == date[0] && date[0] != ' ';
      assert s[1..] == date[1..] + " " + time;
      SplitAtSpaceOf(date[1..], time);
      assert date == [date[0]] + date[1..];
    }
  }

  /** The "date time" text stored for an appointment reminder splits back into its two parts. */
  lemma AppointmentFieldsRoundTrip(date: string, time: string)
    requires ' ' !in date && ' ' !in time && time != ""
    ensures AppointmentFields(date + " " + time) == (date, time)
  {
    SplitAtSpaceOf(date, time);
  }
}
