// lib/google-calendar.ts: the 48 half-hour booking slots, the filter that removes slots whose
// start falls inside a timed calendar event, and the result conventions of the calendar mirror.
// Times are minutes from midnight of the requested date; the provider is an input outcome.

module GoogleCalendar {
  import opened Wrappers
  import opened Text

  /** `String(n).padStart(2, '0')`, spelled out digit by digit (see `Pad2IsPadStart`). */
  function Pad2(n: nat): string
  {
    if n < 10 then ['0', DigitChar(n)]
    else if n < 100 then [DigitChar(n / 10), DigitChar(n % 10)]
    else NatToString(n)
  }

  lemma Pad2IsPadStart(n: nat)
    ensures Pad2(n) == PadStart(NatToString(n), 2, '0')
  {
    var s := NatToString(n);
    if n < 10 {
      assert PadStart(s, 2, '0') == ['0', s[0]];
    } else if n < 100 {
      assert NatToString(n / 10) == [DigitChar(n / 10)];
    }
  }

  /** "HH:MM" as the source renders an hour and a minute (both `padStart(2, '0')`). */
  function Label(hour: nat, minute: nat): string
  {
    Pad2(hour) + ":" + Pad2(minute)
  }

  /** The label of the slot starting `m` minutes after midnight. */
  function Hhmm(m: nat): string
  {
    Label(m / 60, m % 60)
  }

  /** Reference definition of the slot list: slot i starts at 30 * i minutes. */
  function TimeSlots(): seq<string>
  {
    seq(48, i requires 0 <= i < 48 => Hhmm(30 * i))
  }

  /** The value of two decimal digit characters. */
  function TwoDigitsValue(a: char, b: char): nat
    requires IsDigit(a) && IsDigit(b)
  {
    DigitValue(a) * 10 + DigitValue(b)
  }

  /**
   * `slot.split(':').map(Number)` turned into minutes, for the "HH:MM" strings the slot list
   * holds; any other shape is `None`.
   */
  function SlotMinutes(s: string): Option<nat>
  {
    if |s| == 5 && s[2] == ':' && IsDigit(s[0]) && IsDigit(s[1]) && IsDigit(s[3]) && IsDigit(s[4])
    then Some(TwoDigitsValue(s[0], s[1]) * 60 + TwoDigitsValue(s[3], s[4]))
    else None
  }

  /** Parsing a label back gives the minute it was rendered from (the source relies on this). */
  lemma {:induction false} LabelRoundTrip(hour: nat, minute: nat)
    requires hour < 100 && minute < 100
    ensures SlotMinutes(Label(hour, minute)) == Some(hour * 60 + minute)
  {
    var a, b, c, d := DigitChar(hour / 10), DigitChar(hour % 10), DigitChar(minute / 10), DigitChar(minute % 10);
    Pad2Digits(hour);
    Pad2Digits(minute);
    assert Label(hour, minute) == [a, b] + ":" + [c, d];
    FieldsJoined(a, b, c, d);
    SlotMinutesOfChars(a, b, c, d);
    TwoDigitsOf(hour);
    TwoDigitsOf(minute);
  }

  lemma Pad2Digits(n: nat)
    requires n < 100
    ensures Pad2(n) == [DigitChar(n / 10), DigitChar(n % 10)]
  {
    if n < 10 {
      assert DigitChar(0) == '0';
    }
  }

  lemma FieldsJoined(a: char, b: char, c: char, d: char)
    ensures [a, b] + ":" + [c, d] == [a, b, ':', c, d]
  {
  }

  lemma SlotMinutesOfChars(a: char, b: char, c: char, d: char)
    requires IsDigit(a) && IsDigit(b) && IsDigit(c) && IsDigit(d)
    ensures SlotMinutes([a, b, ':', c, d]) == Some(TwoDigitsValue(a, b) * 60 + TwoDigitsValue(c, d))
  {
  }

  lemma TwoDigitsOf(n: nat)
    requires n < 100
    ensures TwoDigitsValue(DigitChar(n / 10), DigitChar(n % 10)) == n
  {
    assert DigitValue(DigitChar(n / 10)) == n / 10;
    assert DigitValue(DigitChar(n % 10)) == n % 10;
  }

  /**
   * The nested loops of `generateTimeSlots`: hours 0..23, minutes 0 and 30, one label pushed per
   * step.
   */
  method GenerateTimeSlots() returns (slots: seq<string>)
    ensures slots == TimeSlots()
  {
    slots := [];
    for hour := 0 to 24
      invariant slots == seq(2 * hour, i requires 0 <= i < 2 * hour => Hhmm(30 * i))
    {
      var minute := 0;
      while minute < 60
        invariant minute == 0 || minute == 30 || minute == 60
        invariant slots == seq(2 * hour + minute / 30, i requires 0 <= i < 2 * hour + minute / 30 => Hhmm(30 * i))
      {
        SlotLabelAt(hour, minute);
        slots := slots + [Label(hour, minute)];
        minute := minute + 30;
      }
    }
  }

  /** The label pushed for (hour, minute) is the slot label of step 2 * hour + minute / 30. */
  lemma SlotLabelAt(hour: nat, minute: nat)
    requires minute == 0 || minute == 30
    ensures Hhmm(30 * (2 * hour + minute / 30)) == Label(hour, minute)
  {
    assert 30 * (2 * hour + minute / 30) == 60 * hour + minute;
  }

  lemma SlotStart(i: nat)
    requires i < 48
    ensures SlotMinutes(Hhmm(30 * i)) == Some(30 * i)
  {
    LabelRoundTrip(30 * i / 60, 30 * i % 60);
  }

  /** Shape of the slot list: 48 labels, slot i starting at minute 30 * i. */
  lemma {:induction false} TimeSlotsShape()
    ensures |TimeSlots()| == 48
    ensures forall i :: 0 <= i < 48 ==> SlotMinutes(TimeSlots()[i]) == Some(30 * i)
  {
    forall i | 0 <= i < 48
      ensures SlotMinutes(TimeSlots()[i]) == Some(30 * i)
    {
      SlotStart(i);
    }
  }

  /** The first slot is "00:00" and the last "23:30". */
  lemma FirstAndLastSlot()
    ensures TimeSlots()[0] == "00:00" && TimeSlots()[47] == "23:30"
  {
    assert TimeSlots()[0] == Label(0, 0);
    assert TimeSlots()[47] == Label(23, 30);
  }

  /** The minute a slot label starts at (every slot label parses). */
  function StartOf(slot: string): int
  {
    match SlotMinutes(slot)
    case Some(m) => m
    case None => 0
  }

  /**
   * An event as the provider lists it: `start.dateTime`/`end.dateTime` as minutes, `None` when
   * the event only has a `date` (an all-day event).
   */
  datatype CalendarEvent = CalendarEvent(startDateTime: Option<int>, endDateTime: Option<int>)

  datatype Busy = Busy(start: int, end: int)

  /** Only events with both date-times become busy intervals. */
  function BusyTimes(events: seq<CalendarEvent>): (busy: seq<Busy>)
    ensures |busy| <= |events|
  {
    if events == [] then []
    else
      var e := events[|events| - 1];
      BusyTimes(events[..|events| - 1]) +
        (if e.startDateTime.Some? && e.endDateTime.Some?
         then [Busy(e.startDateTime.value, e.endDateTime.value)] else [])
  }

  /** The source's conflict test: the slot's start instant lies in [start, end). */
  predicate Blocked(t: int, busy: seq<Busy>)
  {
    exists k :: 0 <= k < |busy| && busy[k].start <= t < busy[k].end
  }

  /** The slots, in order, whose start is not blocked. */
  function FreeSlots(slots: seq<string>, busy: seq<Busy>): seq<string>
  {
    if slots == [] then []
    else
      var last := slots[|slots| - 1];
      FreeSlots(slots[..|slots| - 1], busy) + (if Blocked(StartOf(last), busy) then [] else [last])
  }

  datatype ListOutcome = Listed(events: seq<CalendarEvent>) | ListThrew

  /** What `getAvailableSlots` returns: the full list when unavailable, on error or when empty. */
  function AvailableSlots(ready: bool, listing: ListOutcome): seq<string>
  {
    if !ready then TimeSlots()
    else match listing
      case ListThrew => TimeSlots()
      case Listed(events) =>
        var free := FreeSlots(TimeSlots(), BusyTimes(events));
        if |free| > 0 then free else TimeSlots()
  }

  datatype CacheEntry = CacheEntry(slots: seq<string>, timestamp: int)

  /** Who an event is for: the fields `createAppointment` reads. */
  datatype AppointmentData = AppointmentData(
    name: string, email: string, startAt: Option<int>, meetLink: string, meetingId: string)

  /** The event body sent to the provider (description text not modelled). */
  datatype EventBody = EventBody(summary: string, start: int, end: int, attendee: string)

  /** Outcome of `events.insert`: the created id and link, or a thrown error. */
  datatype InsertOutcome = Inserted(id: Option<string>, htmlLink: Option<string>) | InsertThrew(message: string)

  datatype CalendarResponse = CalendarResponse(
    success: bool, eventId: Option<string>, htmlLink: Option<string>,
    meetLink: Option<string>, meetingId: Option<string>, message: Option<string>)

  /** The event created for an appointment starting at `start`: one hour long. */
  function EventFor(name: string, email: string, start: int): (e: EventBody)
    ensures e.end - e.start == 60 && e.start == start
    ensures e.summary == "Consultation with " + name && e.attendee == email
  {
    EventBody("Consultation with " + name, start, start + 60, email)
  }

  /** The `forEach` over the listed events that collects busy intervals. */
  method CollectBusyTimes(events: seq<CalendarEvent>) returns (busy: seq<Busy>)
    ensures busy == BusyTimes(events)
  {
    busy := [];
    for i := 0 to |events|
      invariant busy == BusyTimes(events[..i])
    {
      assert events[..i + 1][..i] == events[..i];
      var e := events[i];
      if e.startDateTime.Some? && e.endDateTime.Some? {
        busy := busy + [Busy(e.startDateTime.value, e.endDateTime.value)];
      }
    }
    assert events[..|events|] == events;
  }

  /** The inner `some` over busy intervals: does one of them contain `t`? */
  method HasConflict(t: int, busy: seq<Busy>) returns (conflict: bool)
    ensures conflict <==> Blocked(t, busy)
  {
    conflict := false;
    for k := 0 to |busy|
      invariant conflict <==> exists q :: 0 <= q < k && busy[q].start <= t < busy[q].end
    {
      if busy[k].start <= t && t < busy[k].end {
        conflict := true;
      }
    }
  }

  /** The `filter` over the slot list. */
  method FilterFreeSlots(all: seq<string>, busy: seq<Busy>) returns (available: seq<string>)
    ensures available == FreeSlots(all, busy)
  {
    available := [];
    for j := 0 to |all|
      invariant available == FreeSlots(all[..j], busy)
    {
      assert all[..j + 1][..j] == all[..j];
      var conflict := HasConflict(StartOf(all[j]), busy);
      if !conflict {
        available := available + [all[j]];
      }
    }
    assert all[..|all|] == all;
  }

  class CalendarManager {
    var isAvailable: bool
    var hasCalendar: bool
    var slotsCache: map<string, CacheEntry>

    constructor (available: bool)
      ensures isAvailable == available && hasCalendar == available && slotsCache == map[]
    {
      isAvailable := available;
      hasCalendar := available;
      slotsCache := map[];
    }

    /**
     * `getAvailableSlots`: collect busy intervals, keep the slots whose start is not inside one,
     * fall back to the whole list, and cache what is returned under the date.
     */
    method GetAvailableSlots(dateStr: string, listing: ListOutcome, now: int) returns (slots: seq<string>)
      modifies this`slotsCache
      ensures slots == AvailableSlots(isAvailable && hasCalendar, listing)
      ensures !(isAvailable && hasCalendar) ==> slotsCache == old(slotsCache)
      ensures isAvailable && hasCalendar ==> slotsCache == old(slotsCache)[dateStr := CacheEntry(slots, now)]
    {
      var all := GenerateTimeSlots();
      if !isAvailable || !hasCalendar {
        return all;
      }
      if listing.ListThrew? {
        slots := all;
        slotsCache := slotsCache[dateStr := CacheEntry(slots, now)];
        return;
      }
      var busy := CollectBusyTimes(listing.events);
      var available := FilterFreeSlots(all, busy);
      slots := if |available| > 0 then available else all;
      slotsCache := slotsCache[dateStr := CacheEntry(slots, now)];
    }

    /**
     * `createAppointment`: skipped with success when the calendar is unavailable; otherwise an
     * hour-long event is inserted and a thrown error becomes `success: false`. A missing Meet
     * link is replaced by the generated one. Success clears the slot cache.
     */
    method CreateAppointment(data: AppointmentData, generated: (string, string), outcome: InsertOutcome)
      returns (r: CalendarResponse, sent: Option<EventBody>)
      modifies this`slotsCache
      ensures !(isAvailable && hasCalendar) ==>
        (r == CalendarResponse(true, None, None, None, None,
                               Some("Appointment saved locally (Google Calendar not configured)"))
         && sent == None && slotsCache == old(slotsCache))
      ensures r.success <==> !(isAvailable && hasCalendar) || (data.startAt.Some? && outcome.Inserted?)
      ensures sent.Some? ==>
        (isAvailable && hasCalendar && data.startAt.Some?
         && sent.value == EventFor(data.name, data.email, data.startAt.value))
      ensures r.eventId.Some? ==> outcome.Inserted? && r.eventId == outcome.id && outcome.id.value != ""
      ensures isAvailable && hasCalendar && data.startAt.Some? && outcome.Inserted? && Truthy(outcome.id) ==>
        r.eventId == outcome.id
      ensures isAvailable && hasCalendar && data.startAt.Some? && outcome.Inserted? ==>
        r == CalendarResponse(true, OrNull(outcome.id), OrNull(outcome.htmlLink),
                              Some(if data.meetLink == "" then generated.0 else data.meetLink),
                              Some(if data.meetLink == "" then generated.1 else data.meetingId), None)
      ensures isAvailable && hasCalendar && data.startAt.Some? && outcome.InsertThrew? ==>
        r == CalendarResponse(false, None, None, None, None, Some("Google Calendar error: " + outcome.message))
      ensures isAvailable && hasCalendar && data.startAt.None? ==>
        r == CalendarResponse(false, None, None, None, None, Some("Google Calendar error: Invalid time value"))
        && sent == None
      ensures r.success && isAvailable && hasCalendar ==>
        r.meetLink == Some(if data.meetLink == "" then generated.0 else data.meetLink)
      ensures slotsCache == if isAvailable && hasCalendar && r.success then map[] else old(slotsCache)
    {
      if !isAvailable || !hasCalendar {
        r := CalendarResponse(true, None, None, None, None,
                              Some("Appointment saved locally (Google Calendar not configured)"));
        sent := None;
        return;
      }
      var link, id := data.meetLink, data.meetingId;
      if link == "" {
        link, id := generated.0, generated.1;
      }
      if data.startAt.None? {
        // `toISOString` on an invalid date throws before anything is sent
        r := CalendarResponse(false, None, None, None, None, Some("Google Calendar error: Invalid time value"));
        sent := None;
        return;
      }
      sent := Some(EventFor(data.name, data.email, data.startAt.value));
      match outcome {
        case Inserted(eventId, htmlLink) =>
          slotsCache := map[];
          r := CalendarResponse(true, OrNull(eventId), OrNull(htmlLink), Some(link), Some(id), None);
        case InsertThrew(message) =>
          r := CalendarResponse(false, None, None, None, None, Some("Google Calendar error: " + message));
      }
    }
  }

  /** `updateAppointment`: every path, including a provider error, reports success. */
  function UpdateAppointment(ready: bool, eventId: string, outcome: InsertOutcome): (r: CalendarResponse)
    ensures r.success
    ensures r.eventId.Some? ==> ready && eventId != "" && outcome.Inserted? && r.eventId == outcome.id && outcome.id.value != ""
    ensures ready && eventId != "" && outcome.Inserted? ==>
      r == CalendarResponse(true, OrNull(outcome.id), OrNull(outcome.htmlLink), None, None, None)
    ensures ready && eventId != "" && outcome.Inserted? && Truthy(outcome.id) ==> r.eventId == outcome.id
    ensures (!ready || eventId == "") ==> r == CalendarResponse(true, None, None, None, None, Some("Appointment updated locally"))
    ensures ready && eventId != "" && outcome.InsertThrew? ==>
      r == CalendarResponse(true, None, None, None, None, Some("Appointment updated locally (Google Calendar error)"))
  {
    if !ready || eventId == "" then
      CalendarResponse(true, None, None, None, None, Some("Appointment updated locally"))
    else match outcome
      case Inserted(id, link) => CalendarResponse(true, OrNull(id), OrNull(link), None, None, None)
      case InsertThrew(_) =>
        CalendarResponse(true, None, None, None, None, Some("Appointment updated locally (Google Calendar error)"))
  }

  /** `deleteAppointment`: success whatever the provider does. */
  function DeleteAppointment(ready: bool, eventId: string, threw: bool): (r: CalendarResponse)
    ensures r.success && r.eventId.None?
    ensures r.message.None? <==> ready && eventId != "" && !threw
    ensures (!ready || eventId == "") ==> r.message == Some("Appointment deleted locally")
    ensures ready && eventId != "" && threw ==> r.message == Some("Appointment deleted locally (Google Calendar error)")
  {
    if !ready || eventId == "" then
      CalendarResponse(true, None, None, None, None, Some("Appointment deleted locally"))
    else if threw then
      CalendarResponse(true, None, None, None, None, Some("Appointment deleted locally (Google Calendar error)"))
    else CalendarResponse(true, None, None, None, None, None)
  }

  // ---- properties of the slot filter ----

  /** A slot is kept iff its start is not inside a busy interval. */
  lemma {:induction false} FreeSlotsMembership(slots: seq<string>, busy: seq<Busy>, s: string)
    ensures s in FreeSlots(slots, busy) <==> s in slots && !Blocked(StartOf(s), busy)
  {
    if slots != [] {
      FreeSlotsMembership(slots[..|slots| - 1], busy, s);
      assert slots == slots[..|slots| - 1] + [slots[|slots| - 1]];
    }
  }

  /** Slot starts strictly increase along the list. */
  predicate Ascending(slots: seq<string>)
  {
    forall i, j :: 0 <= i < j < |slots| ==> StartOf(slots[i]) < StartOf(slots[j])
  }

  /** Filtering keeps the order: an ascending list stays ascending. */
  lemma {:induction false} FreeSlotsAscending(slots: seq<string>, busy: seq<Busy>)
    requires Ascending(slots)
    ensures Ascending(FreeSlots(slots, busy))
  {
    if slots != [] {
      var init := slots[..|slots| - 1];
      var last := slots[|slots| - 1];
      FreeSlotsAscending(init, busy);
      var f := FreeSlots(slots, busy);
      var g := FreeSlots(init, busy);
      if !Blocked(StartOf(last), busy) {
        forall i | 0 <= i < |g|
          ensures StartOf(g[i]) < StartOf(last)
        {
          FreeSlotsMembership(init, busy, g[i]);
          var k :| 0 <= k < |init| && init[k] == g[i];
        }
        assert f == g + [last];
      }
    }
  }

  lemma TimeSlotsAscending()
    ensures Ascending(TimeSlots())
  {
    TimeSlotsShape();
  }

  /**
   * The returned list is never empty, and is either the whole slot list or an ascending list of
   * slots drawn from it.
   */
  lemma AvailableSlotsShape(ready: bool, listing: ListOutcome)
    ensures var r := AvailableSlots(ready, listing);
      |r| > 0 && Ascending(r) && forall s :: s in r ==> s in TimeSlots()
  {
    TimeSlotsShape();
    TimeSlotsAscending();
    if ready && listing.Listed? {
      var busy := BusyTimes(listing.events);
      FreeSlotsAscending(TimeSlots(), busy);
      forall s | s in FreeSlots(TimeSlots(), busy)
        ensures s in TimeSlots()
      {
        FreeSlotsMembership(TimeSlots(), busy, s);
      }
    }
  }

  /** Events without both date-times (all-day events) never contribute a busy interval. */
  lemma {:induction false} AllDayEventsIgnored(events: seq<CalendarEvent>)
    requires forall i :: 0 <= i < |events| ==> events[i].startDateTime.None? || events[i].endDateTime.None?
    ensures BusyTimes(events) == []
  {
    if events != [] {
      AllDayEventsIgnored(events[..|events| - 1]);
    }
  }

  lemma {:induction false} NothingBlockedKeepsAll(slots: seq<string>)
    ensures FreeSlots(slots, []) == slots
  {
    if slots != [] {
      NothingBlockedKeepsAll(slots[..|slots| - 1]);
    }
  }

  /** A calendar holding only all-day events leaves every slot available. */
  lemma AllDayOnlyCalendarOffersEverySlot(events: seq<CalendarEvent>)
    requires forall i :: 0 <= i < |events| ==> events[i].startDateTime.None? || events[i].endDateTime.None?
    ensures AvailableSlots(true, Listed(events)) == TimeSlots()
  {
    AllDayEventsIgnored(events);
    NothingBlockedKeepsAll(TimeSlots());
  }

  /**
   * With a calendar that lists events, a slot is offered iff its start is not inside a busy
   * interval, unless every slot is blocked, in which case the whole list is offered.
   */
  lemma AvailableSlotsIff(events: seq<CalendarEvent>, s: string)
    requires s in TimeSlots()
    ensures var free := FreeSlots(TimeSlots(), BusyTimes(events));
      (|free| > 0 ==> (s in AvailableSlots(true, Listed(events)) <==> !Blocked(StartOf(s), BusyTimes(events))))
      && (|free| == 0 ==> AvailableSlots(true, Listed(events)) == TimeSlots())
  {
    FreeSlotsMembership(TimeSlots(), BusyTimes(events), s);
  }

  /**
   * A slot that starts before an event is offered even when it runs into it: with one event
   * 10:15-11:15, the 10:00 slot stays while 10:30 and 11:00 go.
   */
  lemma SlotRunningIntoEventIsOffered()
    ensures var events := [CalendarEvent(Some(615), Some(675))];
      Hhmm(30 * 20) in AvailableSlots(true, Listed(events))
      && Hhmm(30 * 21) !in AvailableSlots(true, Listed(events))
      && Hhmm(30 * 22) !in AvailableSlots(true, Listed(events))
  {
    var events := [CalendarEvent(Some(615), Some(675))];
    var busy := [Busy(615, 675)];
    assert BusyTimes(events) == busy by { assert events[..0] == []; }
    OneEventExample(TimeSlots(), busy);
  }

  /** Slot i is offered when no busy interval contains its start. */
  lemma SlotOffered(i: nat, busy: seq<Busy>)
    requires i < 48 && !Blocked(30 * i, busy)
    ensures Hhmm(30 * i) in FreeSlots(TimeSlots(), busy)
  {
    assert TimeSlots()[i] == Hhmm(30 * i);
    SlotStart(i);
    FreeSlotsMembership(TimeSlots(), busy, Hhmm(30 * i));
  }

  /** Slot i is dropped when a busy interval contains its start. */
  lemma SlotDropped(i: nat, busy: seq<Busy>)
    requires i < 48 && Blocked(30 * i, busy)
    ensures Hhmm(30 * i) !in FreeSlots(TimeSlots(), busy)
  {
    SlotStart(i);
    FreeSlotsMembership(TimeSlots(), busy, Hhmm(30 * i));
  }

  lemma OneEventExample(slots: seq<string>, busy: seq<Busy>)
    requires slots == TimeSlots() && busy == [Busy(615, 675)]
    ensures Hhmm(30 * 20) in FreeSlots(slots, busy)
    ensures Hhmm(30 * 21) !in FreeSlots(slots, busy) && Hhmm(30 * 22) !in FreeSlots(slots, busy)
  {
    SlotOffered(20, busy);
    assert busy[0].start <= 30 * 21 < busy[0].end;
    SlotDropped(21, busy);
    assert busy[0].start <= 30 * 22 < busy[0].end;
    SlotDropped(22, busy);
  }
}
