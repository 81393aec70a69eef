// funnel/utils/google_calendar_auth.py, `get_available_slots`: quarter-hour slots from 09:00 to
// 17:45, each kept when the meeting it would hold overlaps no calendar event. Event start and end
// are minutes on the requested day (an all-day event spans [0, 1440)).

module CalendarAuthSlots {
  import opened Text
  import GoogleCalendar

  /** An event of the day, as a half-open interval of minutes. */
  datatype Interval = Interval(start: int, end: int)

  /** What the service call yields: no service, a thrown error, or the listed events. */
  datatype ServiceOutcome = NoService | ListThrew(error: string) | Listed(events: seq<Interval>)

  /** The result dictionary: `success`, `message`, `available_slots`. */
  datatype SlotsResult = SlotsResult(success: bool, message: string, availableSlots: seq<string>)

  /** The start minute of working slot i: 09:00 plus i quarter hours. */
  function SlotStartAt(i: nat): nat
  {
    540 + 15 * i
  }

  /** A meeting of `duration` minutes starting at `start` overlaps the event. */
  predicate Overlaps(start: int, duration: nat, e: Interval)
  {
    start < e.end && start + duration > e.start
  }

  predicate FreeAt(start: int, duration: nat, events: seq<Interval>)
  {
    forall k :: 0 <= k < |events| ==> !Overlaps(start, duration, events[k])
  }

  /** The labels of the first `n` working slots that are free, in order. */
  function OpenSlots(events: seq<Interval>, duration: nat, n: nat): (r: seq<string>)
    ensures |r| <= n
  {
    if n == 0 then []
    else
      OpenSlots(events, duration, n - 1)
        + (if FreeAt(SlotStartAt(n - 1), duration, events) then [GoogleCalendar.Hhmm(SlotStartAt(n - 1))] else [])
  }

  /** The innermost loop: scan the events, stopping at the first overlap. */
  method IsSlotFree(start: int, duration: nat, events: seq<Interval>) returns (isAvailable: bool)
    ensures isAvailable <==> FreeAt(start, duration, events)
  {
    isAvailable := true;
    var k := 0;
    while k < |events|
      invariant 0 <= k <= |events|
      invariant forall j :: 0 <= j < k ==> !Overlaps(start, duration, events[j])
    {
      if start < events[k].end && start + duration > events[k].start {
        isAvailable := false;
        break;
      }
      k := k + 1;
    }
  }

  /**
   * `get_available_slots`: the hour and minute loops over 09:00-17:45, an "HH:MM" label appended
   * for every slot whose meeting overlaps no event; failures give `success: False` and no slots.
   */
  method GetAvailableSlots(service: ServiceOutcome, duration: nat) returns (r: SlotsResult)
    ensures service.NoService? ==> r == SlotsResult(false, "Не удалось создать service", [])
    ensures service.ListThrew? ==>
      r == SlotsResult(false, "Ошибка получения слотов: " + service.error, [])
    ensures service.Listed? ==>
      r.success && r.availableSlots == OpenSlots(service.events, duration, 36)
      && r.message == "Найдено " + NatToString(|r.availableSlots|) + " доступных слотов"
  {
    match service {
      case NoService =>
        return SlotsResult(false, "Не удалось создать service", []);
      case ListThrew(error) =>
        return SlotsResult(false, "Ошибка получения слотов: " + error, []);
      case Listed(events) =>
        var slots: seq<string> := [];
        var minutes := [0, 15, 30, 45];
        for hour := 9 to 18
          invariant slots == OpenSlots(events, duration, 4 * (hour - 9))
        {
          for q := 0 to 4
            invariant slots == OpenSlots(events, duration, 4 * (hour - 9) + q)
          {
            var minute := minutes[q];
            OpenSlotsStep(events, duration, 4 * (hour - 9) + q, hour, minute);
            var free := IsSlotFree(60 * hour + minute, duration, events);
            if free {
              slots := slots + [GoogleCalendar.Label(hour, minute)];
            }
          }
        }
        return SlotsResult(true, "Найдено " + NatToString(|slots|) + " доступных слотов", slots);
    }
  }

  /** One step of the loops: slot i is the one at `hour`:`minute`. */
  lemma OpenSlotsStep(events: seq<Interval>, duration: nat, i: nat, hour: nat, minute: nat)
    requires SlotStartAt(i) == 60 * hour + minute && minute < 60
    ensures OpenSlots(events, duration, i + 1) == OpenSlots(events, duration, i)
      + (if FreeAt(60 * hour + minute, duration, events) then [GoogleCalendar.Label(hour, minute)] else [])
  {
    var t := SlotStartAt(i);
    assert t / 60 == hour && t % 60 == minute;
  }

  // ---- properties ----

  /** Slot i is offered iff it is one of the 36 working slots and its meeting is free. */
  lemma {:induction false} OpenSlotsMembership(events: seq<Interval>, duration: nat, n: nat, i: nat)
    requires i < 48 && n <= 48
    ensures GoogleCalendar.Hhmm(SlotStartAt(i)) in OpenSlots(events, duration, n)
      <==> i < n && FreeAt(SlotStartAt(i), duration, events)
  {
    if n > 0 {
      OpenSlotsMembership(events, duration, n - 1, i);
      var x := GoogleCalendar.Hhmm(SlotStartAt(i));
      var y := GoogleCalendar.Hhmm(SlotStartAt(n - 1));
      assert OpenSlots(events, duration, n) == OpenSlots(events, duration, n - 1)
        + (if FreeAt(SlotStartAt(n - 1), duration, events) then [y] else []);
      if x == y {
        LabelsDistinct(n - 1, i);
      }
    }
  }

  /** Different working slots have different labels. */
  lemma LabelsDistinct(i: nat, j: nat)
    requires i < 48 && j < 48
    requires GoogleCalendar.Hhmm(SlotStartAt(i)) == GoogleCalendar.Hhmm(SlotStartAt(j))
    ensures i == j
  {
    var a := SlotStartAt(i);
    var b := SlotStartAt(j);
    GoogleCalendar.LabelRoundTrip(a / 60, a % 60);
    GoogleCalendar.LabelRoundTrip(b / 60, b % 60);
  }

  /**
   * One event from 11:00 to 12:00 and hour-long meetings: the 10:00 slot (i = 4), which ends
   * exactly when the event starts, and the 12:00 slot (i = 12), which starts when it ends, are
   * offered; the seven slots from 10:15 to 11:45 are not.
   */
  lemma OneEventExample(i: nat)
    requires i < 36
    ensures GoogleCalendar.Hhmm(SlotStartAt(i)) in OpenSlots([Interval(660, 720)], 60, 36) <==> i <= 4 || 12 <= i
    ensures SlotStartAt(4) + 60 == 660 && SlotStartAt(12) == 720
  {
    var events := [Interval(660, 720)];
    OpenSlotsMembership(events, 60, 36, i);
    assert FreeAt(SlotStartAt(i), 60, events) <==> !Overlaps(SlotStartAt(i), 60, events[0]);
  }

  /** `s` is the label of one of the first `n` working slots. */
  predicate IsCandidate(s: string, n: nat)
  {
    exists i :: 0 <= i < n && s == GoogleCalendar.Hhmm(SlotStartAt(i))
  }

  /** Every offered label is one of the working slots, and there are at most 36. */
  lemma {:induction false} OpenSlotsBounded(events: seq<Interval>, duration: nat, n: nat)
    ensures |OpenSlots(events, duration, n)| <= n
    ensures forall s :: s in OpenSlots(events, duration, n) ==> IsCandidate(s, n)
  {
    if n > 0 {
      OpenSlotsBounded(events, duration, n - 1);
      var prev := OpenSlots(events, duration, n - 1);
      var offered := GoogleCalendar.Hhmm(SlotStartAt(n - 1));
      var last := if FreeAt(SlotStartAt(n - 1), duration, events) then [offered] else [];
      assert OpenSlots(events, duration, n) == prev + last;
      forall s | s in OpenSlots(events, duration, n)
        ensures IsCandidate(s, n)
      {
        if s in prev {
          assert IsCandidate(s, n - 1);
          var i :| 0 <= i < n - 1 && s == GoogleCalendar.Hhmm(SlotStartAt(i));
          assert 0 <= i < n && s == GoogleCalendar.Hhmm(SlotStartAt(i));
        } else {
          assert s == offered;
          assert 0 <= n - 1 < n && s == GoogleCalendar.Hhmm(SlotStartAt(n - 1));
        }
      }
    }
  }

  /** With no events every one of the 36 working slots is offered. */
  lemma {:induction false} EmptyCalendarOffersAll(duration: nat, n: nat)
    ensures |OpenSlots([], duration, n)| == n
  {
    if n > 0 {
      EmptyCalendarOffersAll(duration, n - 1);
    }
  }

  /** An all-day event (midnight to midnight) leaves no slot. */
  lemma {:induction false} AllDayEventBlocksAll(events: seq<Interval>, duration: nat, n: nat)
    requires duration > 0 && Interval(0, 1440) in events && n <= 36
    ensures OpenSlots(events, duration, n) == []
  {
    if n > 0 {
      AllDayEventBlocksAll(events, duration, n - 1);
      var k :| 0 <= k < |events| && events[k] == Interval(0, 1440);
      assert Overlaps(SlotStartAt(n - 1), duration, events[k]);
    }
  }

  // ---- the comparison as written ----

  /** Python's `<` on strings: character by character, a proper prefix sorting first. */
  predicate TextLess(a: string, b: string)
  {
    if a == [] then b != []
    else if b == [] then false
    else if a[0] != b[0] then a[0] < b[0]
    else TextLess(a[1..], b[1..])
  }

  /** "HH:MM" followed by `tail`, each field as the format `{:02d}` renders it. */
  function ClockText(hour: nat, minute: nat, tail: string): string
  {
    GoogleCalendar.Pad2(hour) + ":" + GoogleCalendar.Pad2(minute) + tail
  }

  /** A slot bound as the loop builds it: the date, "T", the clock and ":00", with no offset. */
  function SlotText(date: string, hour: nat, minute: nat): string
  {
    date + "T" + ClockText(hour, minute, ":00")
  }

  /**
   * An event's `dateTime` on the same date, `m` minutes after midnight, followed by its UTC
   * offset as the calendar writes it ("Z" or "-05:00").
   */
  function EventText(date: string, m: nat, offset: string): string
  {
    date + "T" + ClockText(m / 60, m % 60, ":00" + offset)
  }

  /**
   * The overlap test as written, `slot_start < event_end and slot_end > event_start` on those
   * strings: the slot end is built field by field, hour plus the whole hours of the duration and
   * minute plus the rest, without carrying minutes past 59.
   */
  predicate OverlapsAsWritten(date: string, hour: nat, minute: nat, duration: nat, eventStart: nat, eventEnd: nat, offset: string)
  {
    TextLess(SlotText(date, hour, minute), EventText(date, eventEnd, offset))
      && TextLess(EventText(date, eventStart, offset), SlotText(date, hour + duration / 60, minute + duration % 60))
  }

  /** A common prefix does not change the order. */
  lemma {:induction false} TextLessCommonPrefix(p: string, a: string, b: string)
    ensures TextLess(p + a, p + b) <==> TextLess(a, b)
  {
    if p == [] {
      assert p + a == a && p + b == b;
    } else {
      assert (p + a)[0] == (p + b)[0];
      assert (p + a)[1..] == p[1..] + a && (p + b)[1..] == p[1..] + b;
      TextLessCommonPrefix(p[1..], a, b);
    }
  }

  /** Two-digit fields compare as numbers, and equal fields leave the order to what follows. */
  lemma Pad2Less(x: nat, y: nat, r: string, t: string)
    requires x < 100 && y < 100
    ensures TextLess(GoogleCalendar.Pad2(x) + r, GoogleCalendar.Pad2(y) + t) <==> x < y || (x == y && TextLess(r, t))
  {
    var a := GoogleCalendar.Pad2(x) + r;
    var b := GoogleCalendar.Pad2(y) + t;
    assert GoogleCalendar.Pad2(x) == [DigitChar(x / 10), DigitChar(x % 10)];
    assert GoogleCalendar.Pad2(y) == [DigitChar(y / 10), DigitChar(y % 10)];
    assert a[0] == DigitChar(x / 10) && b[0] == DigitChar(y / 10);
    assert a[1..] == [DigitChar(x % 10)] + r && b[1..] == [DigitChar(y % 10)] + t;
    assert a[1..][1..] == r && b[1..][1..] == t;
    if x / 10 == y / 10 && x % 10 == y % 10 {
      assert x == y;
    }
  }

  /** With fields below 100 the clock texts compare as clocks, equal clocks by their tails. */
  lemma ClockTextLess(h1: nat, m1: nat, t1: string, h2: nat, m2: nat, t2: string)
    requires h1 < 100 && m1 < 100 && h2 < 100 && m2 < 100
    ensures TextLess(ClockText(h1, m1, t1), ClockText(h2, m2, t2))
      <==> h1 < h2 || (h1 == h2 && (m1 < m2 || (m1 == m2 && TextLess(t1, t2))))
  {
    var r1 := ":" + (GoogleCalendar.Pad2(m1) + t1);
    var r2 := ":" + (GoogleCalendar.Pad2(m2) + t2);
    assert ClockText(h1, m1, t1) == GoogleCalendar.Pad2(h1) + r1;
    assert ClockText(h2, m2, t2) == GoogleCalendar.Pad2(h2) + r2;
    Pad2Less(h1, h2, r1, r2);
    TextLessCommonPrefix(":", GoogleCalendar.Pad2(m1) + t1, GoogleCalendar.Pad2(m2) + t2);
    Pad2Less(m1, m2, t1, t2);
  }

  /** The offset makes the event text the longer one: with equal clocks the slot sorts first. */
  lemma OffsetSortsLast(offset: string)
    requires offset != ""
    ensures TextLess(":00", ":00" + offset)
    ensures !TextLess(":00" + offset, ":00")
  {
    TextLessCommonPrefix(":00", [], offset);
    TextLessCommonPrefix(":00", offset, []);
    assert ":00" + [] == ":00";
  }

  /**
   * With every field below 100 the test as written compares clocks: the slot start at or before
   * the event end (not strictly before, because of the offset), and the event start strictly
   * before the slot end as its fields read.
   */
  lemma AsWrittenAsClocks(date: string, hour: nat, minute: nat, duration: nat, eventStart: nat, eventEnd: nat, offset: string)
    requires offset != ""
    requires hour + duration / 60 < 100 && minute + duration % 60 < 100
    requires eventStart < 6000 && eventEnd < 6000
    ensures OverlapsAsWritten(date, hour, minute, duration, eventStart, eventEnd, offset)
      <==> ((hour < eventEnd / 60 || (hour == eventEnd / 60 && minute <= eventEnd % 60))
        && (eventStart / 60 < hour + duration / 60
            || (eventStart / 60 == hour + duration / 60 && eventStart % 60 < minute + duration % 60)))
  {
    var endHour, endMinute := hour + duration / 60, minute + duration % 60;
    TextLessCommonPrefix(date + "T", ClockText(hour, minute, ":00"), ClockText(eventEnd / 60, eventEnd % 60, ":00" + offset));
    TextLessCommonPrefix(date + "T", ClockText(eventStart / 60, eventStart % 60, ":00" + offset), ClockText(endHour, endMinute, ":00"));
    ClockTextLess(hour, minute, ":00", eventEnd / 60, eventEnd % 60, ":00" + offset);
    ClockTextLess(eventStart / 60, eventStart % 60, ":00" + offset, endHour, endMinute, ":00");
    OffsetSortsLast(offset);
  }

  /**
   * The as-written test misses a real overlap: a 90-minute meeting at 09:45 ends at "10:75",
   * which sorts before an 11:00 event, although the meeting runs until 11:15.
   */
  lemma AsWrittenMissesOverlap(date: string, offset: string)
    requires offset != ""
    ensures !OverlapsAsWritten(date, 9, 45, 90, 660, 720, offset)
    ensures Overlaps(9 * 60 + 45, 90, Interval(660, 720))
  {
    AsWrittenAsClocks(date, 9, 45, 90, 660, 720, offset);
  }

  /**
   * The as-written test refuses a slot that starts when an event ends: "...T12:00:00" sorts
   * before "...T12:00:00-05:00", so an hour at 12:00 after an 11:00-12:00 event is not offered,
   * although the two do not overlap.
   */
  lemma AsWrittenRefusesAtEventEnd(date: string, offset: string)
    requires offset != ""
    ensures OverlapsAsWritten(date, 12, 0, 60, 660, 720, offset)
    ensures !Overlaps(12 * 60, 60, Interval(660, 720))
  {
    AsWrittenAsClocks(date, 12, 0, 60, 660, 720, offset);
  }

  /**
   * For whole-hour durations (the default is 60) the test as written differs from the corrected
   * one exactly when the slot starts at the event's end and the event starts before the slot ends.
   */
  lemma AsWrittenDiffersOnlyAtEventEnd(date: string, hour: nat, minute: nat, duration: nat, e: Interval, offset: string)
    requires offset != ""
    requires minute < 60 && duration % 60 == 0 && hour + duration / 60 < 100
    requires 0 <= e.start < 6000 && 0 <= e.end < 6000
    ensures OverlapsAsWritten(date, hour, minute, duration, e.start, e.end, offset)
      <==> (Overlaps(hour * 60 + minute, duration, e)
        || (hour * 60 + minute == e.end && e.start < hour * 60 + minute + duration))
  {
    var s := hour * 60 + minute;
    var h := duration / 60;
    AsWrittenAsClocks(date, hour, minute, duration, e.start, e.end, offset);
    assert duration == h * 60;
    assert (hour < e.end / 60 || (hour == e.end / 60 && minute <= e.end % 60)) <==> s <= e.end;
    assert (e.start / 60 < hour + h || (e.start / 60 == hour + h && e.start % 60 < minute))
      <==> e.start < s + duration;
  }
}
