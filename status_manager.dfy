// lib/status-manager.ts, class `StatusManager`: moves a lead through the funnel stages, keeps
// the stage history, and accumulates an engagement score from stage changes and events. The
// class has no state of its own; every operation reads and writes the shared database.

module StatusManagement {
  import opened Wrappers
  import opened Text
  import opened FunnelDb

  /** The funnel in order, as `calculateConversionRates` lists it. */
  const StageOrder: seq<Stage> :=
    [New, VideoStarted, VideoCompleted, AppointmentScheduled, AppointmentAttended, InvoiceSent, PaidCustomer]

  /** `getStageScore`: the points a lead earns on entering a stage. */
  function StageScore(s: Stage): (r: nat)
    ensures r <= 100
    ensures r == 0 <==> s == New
    ensures r == 100 <==> s == PaidCustomer
  {
    match s
    case New => 0
    case VideoStarted => 10
    case VideoCompleted => 25
    case AppointmentScheduled => 50
    case AppointmentAttended => 75
    case InvoiceSent => 85
    case PaidCustomer => 100
  }

  /** The `funnel_step` written beside the stage for the admin pages. */
  function StepFor(s: Stage): string
  {
    match s
    case New => "vsl_optin"
    case VideoStarted => "video_watching"
    case _ => StageName(s)
  }

  /** The stage scores strictly increase along the funnel order. */
  lemma StageScoreIncreasing(i: nat, j: nat)
    requires i < j < |StageOrder|
    ensures StageScore(StageOrder[i]) < StageScore(StageOrder[j])
  {
  }

  /** The step mirrors the stage name except for the first two stages. */
  lemma StepMirrorsStage(s: Stage)
    ensures StepFor(s) == StageName(s) <==> s != New && s != VideoStarted
  {
    if s == New {
      assert StageName(s)[0] != StepFor(s)[0];
    } else if s == VideoStarted {
      assert StageName(s)[6] != StepFor(s)[6];
    }
  }

  // ---- the tables the status manager touches, as one value ----

  /** The `leads`, `status_history` and `engagement_events` tables. */
  datatype Tables = Tables(leads: seq<Lead>, history: seq<StatusChange>, events: seq<EngagementEvent>)

  function Snapshot(db: Database): Tables
    reads db
  {
    Tables(db.leads, db.history, db.events)
  }

  /** `updateEngagementScore`: `engagement_score += amount` on the lead with that id, if any. */
  function AddScore(leads: seq<Lead>, id: int, amount: int): (r: seq<Lead>)
    ensures |r| == |leads|
    ensures forall k :: 0 <= k < |leads| && k != id - 1 ==> r[k] == leads[k]
    ensures HasLead(leads, id) ==> r[id - 1] == leads[id - 1].(score := leads[id - 1].score + amount)
  {
    if HasLead(leads, id) then leads[id - 1 := leads[id - 1].(score := leads[id - 1].score + amount)]
    else leads
  }

  /**
   * `updateLeadStatus` on the tables: nothing for an unknown lead; otherwise overwrite stage and
   * step, append a history row, then add the new stage's score.
   */
  function UpdateStatus(t: Tables, id: int, s: Stage, trigger: Option<string>): Tables
  {
    if !HasLead(t.leads, id) then t
    else
      var old_ := t.leads[id - 1];
      var staged := t.leads[id - 1 := old_.(stage := s, step := StepFor(s))];
      var change := StatusChange(id, StageName(old_.stage), StageName(s), "funnel_stage", trigger);
      Tables(AddScore(staged, id, StageScore(s)), t.history + [change], t.events)
  }

  /** `event.scoreValue || 0`: an absent value is stored as 0. */
  function StoredScore(scoreValue: Option<int>): int
  {
    if scoreValue.Some? then scoreValue.value else 0
  }

  /**
   * `recordEngagementEvent`: append the event; add its value to the score only when positive.
   * `engagement_events.lead_id` references `leads(id)`, so for an unknown lead the insert fails
   * and nothing is written.
   */
  function Record(t: Tables, id: int, eventType: string, scoreValue: Option<int>): Tables
  {
    if !HasLead(t.leads, id) then t
    else
      var events := t.events + [EngagementEvent(id, eventType, StoredScore(scoreValue))];
      if scoreValue.Some? && scoreValue.value > 0 then Tables(AddScore(t.leads, id, scoreValue.value), t.history, events)
      else Tables(t.leads, t.history, events)
  }

  /** `Math.floor(completionPercentage / 10)`: one point per started ten percent. */
  function ProgressPoints(pct: real): (r: int)
    ensures r as real <= pct / 10.0 < r as real + 1.0
    ensures 25.0 <= pct < 80.0 ==> 2 <= r <= 7
  {
    (pct / 10.0).Floor
  }

  /** `handleVideoCompletion`: 80% completes the video, 25% starts it, less does nothing. */
  function VideoCompletion(t: Tables, id: int, page: string, pct: real): Tables
  {
    if pct >= 80.0 then
      Record(UpdateStatus(t, id, VideoCompleted, Some("video_completion_" + page)), id, "video_completed", Some(25))
    else if pct >= 25.0 then
      var staged :=
        if HasLead(t.leads, id) && t.leads[id - 1].stage == New
        then UpdateStatus(t, id, VideoStarted, Some("video_start_" + page))
        else t;
      Record(staged, id, "video_progress", Some(ProgressPoints(pct)))
    else t
  }

  /** The other `handle*` methods: one stage change and one scored event. */
  function StageEvent(t: Tables, id: int, s: Stage, trigger: string, eventType: string, points: int): Tables
  {
    Record(UpdateStatus(t, id, s, Some(trigger)), id, eventType, Some(points))
  }

  function AppointmentScheduledEvent(t: Tables, id: int, appointmentId: int): Tables
  {
    StageEvent(t, id, AppointmentScheduled, "appointment_booked_" + IntToString(appointmentId), "appointment_scheduled", 50)
  }

  function AppointmentAttendedEvent(t: Tables, id: int, appointmentId: int): Tables
  {
    StageEvent(t, id, AppointmentAttended, "appointment_attended_" + IntToString(appointmentId), "appointment_attended", 25)
  }

  function InvoiceSentEvent(t: Tables, id: int, invoiceId: string): Tables
  {
    StageEvent(t, id, InvoiceSent, "invoice_sent_" + invoiceId, "invoice_sent", 10)
  }

  function PaymentCompletedEvent(t: Tables, id: int, invoiceId: string): Tables
  {
    StageEvent(t, id, PaidCustomer, "payment_completed_" + invoiceId, "payment_completed", 100)
  }

  // ---- the operations on the database ----

  /** `updateEngagementScore`. */
  method UpdateEngagementScore(db: Database, id: int, amount: int)
    modifies db
    ensures db.leads == AddScore(old(db.leads), id, amount)
    ensures db.history == old(db.history) && db.events == old(db.events)
    ensures db.appointments == old(db.appointments)
  {
    if HasLead(db.leads, id) {
      var l := db.leads[id - 1];
      db.leads := db.leads[id - 1 := l.(score := l.score + amount)];
    }
  }

  /** `recordStatusHistory`: append one history row. */
  method RecordStatusHistory(db: Database, change: StatusChange)
    modifies db
    ensures db.history == old(db.history) + [change]
    ensures db.leads == old(db.leads) && db.events == old(db.events)
    ensures db.appointments == old(db.appointments)
  {
    db.history := db.history + [change];
  }

  /** `updateLeadStatus`: false, and no change, for an unknown lead. */
  method UpdateLeadStatus(db: Database, id: int, s: Stage, trigger: Option<string>) returns (ok: bool)
    modifies db
    ensures ok <==> HasLead(old(db.leads), id)
    ensures Snapshot(db) == UpdateStatus(old(Snapshot(db)), id, s, trigger)
    ensures db.appointments == old(db.appointments)
  {
    if !HasLead(db.leads, id) {
      return false;
    }
    var current := db.leads[id - 1];
    db.leads := db.leads[id - 1 := current.(stage := s, step := StepFor(s))];
    RecordStatusHistory(db, StatusChange(id, StageName(current.stage), StageName(s), "funnel_stage", trigger));
    UpdateEngagementScore(db, id, StageScore(s));
    return true;
  }

  /** `recordEngagementEvent`: `recorded` is false when the insert fails on an unknown lead. */
  method RecordEngagementEvent(db: Database, id: int, eventType: string, scoreValue: Option<int>)
    returns (recorded: bool)
    modifies db
    ensures recorded <==> HasLead(old(db.leads), id)
    ensures Snapshot(db) == Record(old(Snapshot(db)), id, eventType, scoreValue)
    ensures db.appointments == old(db.appointments)
  {
    if !HasLead(db.leads, id) {
      return false;
    }
    recorded := true;
    db.events := db.events + [EngagementEvent(id, eventType, StoredScore(scoreValue))];
    if scoreValue.Some? && scoreValue.value > 0 {
      UpdateEngagementScore(db, id, scoreValue.value);
    }
  }

  /** `getLeadStatus`. */
  function GetLeadStatus(db: Database, id: int): (r: Option<Lead>)
    reads db
    ensures r.Some? <==> HasLead(db.leads, id)
    ensures r.Some? ==> r.value == db.leads[id - 1]
  {
    if HasLead(db.leads, id) then Some(db.leads[id - 1]) else None
  }

  /**
   * `handleVideoCompletion`: `ok` is false when the handler rejects, which happens when the
   * event of an unknown lead cannot be inserted.
   */
  method HandleVideoCompletion(db: Database, id: int, page: string, pct: real) returns (ok: bool)
    modifies db
    ensures ok <==> pct < 25.0 || HasLead(old(db.leads), id)
    ensures Snapshot(db) == VideoCompletion(old(Snapshot(db)), id, page, pct)
    ensures db.appointments == old(db.appointments)
  {
    ok := true;
    if pct >= 80.0 {
      var _ := UpdateLeadStatus(db, id, VideoCompleted, Some("video_completion_" + page));
      ok := RecordEngagementEvent(db, id, "video_completed", Some(25));
    } else if pct >= 25.0 {
      var current := GetLeadStatus(db, id);
      if current.Some? && current.value.stage == New {
        var _ := UpdateLeadStatus(db, id, VideoStarted, Some("video_start_" + page));
      }
      ok := RecordEngagementEvent(db, id, "video_progress", Some(ProgressPoints(pct)));
    }
  }

  /** A stage change and then its event; `ok` is false when the event's insert fails. */
  method HandleStageEvent(db: Database, id: int, s: Stage, trigger: string, eventType: string, points: int)
    returns (ok: bool)
    modifies db
    ensures ok <==> HasLead(old(db.leads), id)
    ensures Snapshot(db) == StageEvent(old(Snapshot(db)), id, s, trigger, eventType, points)
    ensures db.appointments == old(db.appointments)
  {
    var _ := UpdateLeadStatus(db, id, s, Some(trigger));
    ok := RecordEngagementEvent(db, id, eventType, Some(points));
  }

  /** `handleAppointmentScheduled`. */
  method HandleAppointmentScheduled(db: Database, id: int, appointmentId: int)
    returns (ok: bool)
    modifies db
    ensures ok <==> HasLead(old(db.leads), id)
    ensures Snapshot(db) == AppointmentScheduledEvent(old(Snapshot(db)), id, appointmentId)
    ensures db.appointments == old(db.appointments)
  {
    ok := HandleStageEvent(db, id, AppointmentScheduled, "appointment_booked_" + IntToString(appointmentId), "appointment_scheduled", 50);
  }

  /** `handleAppointmentAttended`. */
  method HandleAppointmentAttended(db: Database, id: int, appointmentId: int)
    returns (ok: bool)
    modifies db
    ensures ok <==> HasLead(old(db.leads), id)
    ensures Snapshot(db) == AppointmentAttendedEvent(old(Snapshot(db)), id, appointmentId)
    ensures db.appointments == old(db.appointments)
  {
    ok := HandleStageEvent(db, id, AppointmentAttended, "appointment_attended_" + IntToString(appointmentId), "appointment_attended", 25);
  }

  /** `handleInvoiceSent`. */
  method HandleInvoiceSent(db: Database, id: int, invoiceId: string)
    returns (ok: bool)
    modifies db
    ensures ok <==> HasLead(old(db.leads), id)
    ensures Snapshot(db) == InvoiceSentEvent(old(Snapshot(db)), id, invoiceId)
    ensures db.appointments == old(db.appointments)
  {
    ok := HandleStageEvent(db, id, InvoiceSent, "invoice_sent_" + invoiceId, "invoice_sent", 10);
  }

  /** `handlePaymentCompleted` (the amount only goes into the event's JSON data). */
  method HandlePaymentCompleted(db: Database, id: int, invoiceId: string, amount: real)
    returns (ok: bool)
    modifies db
    ensures ok <==> HasLead(old(db.leads), id)
    ensures Snapshot(db) == PaymentCompletedEvent(old(Snapshot(db)), id, invoiceId)
    ensures db.appointments == old(db.appointments)
  {
    ok := HandleStageEvent(db, id, PaidCustomer, "payment_completed_" + invoiceId, "payment_completed", 100);
  }

  // ---- properties of the transitions ----

  /** An unknown lead: the update changes nothing. */
  lemma UnknownLeadUnchanged(t: Tables, id: int, s: Stage, trigger: Option<string>)
    requires !HasLead(t.leads, id)
    ensures UpdateStatus(t, id, s, trigger) == t
  {
  }

  /**
   * A known lead: the stage is overwritten (even backwards), the step follows it, the score
   * grows by the new stage's score, one history row records old and new stage, and no other
   * row or column changes.
   */
  lemma UpdateStatusEffect(t: Tables, id: int, s: Stage, trigger: Option<string>)
    requires HasLead(t.leads, id)
    ensures var u := UpdateStatus(t, id, s, trigger);
      var l := t.leads[id - 1];
      |u.leads| == |t.leads|
      && u.leads[id - 1] == l.(stage := s, step := StepFor(s), score := l.score + StageScore(s))
      && (forall k :: 0 <= k < |t.leads| && k != id - 1 ==> u.leads[k] == t.leads[k])
      && u.history == t.history + [StatusChange(id, StageName(l.stage), StageName(s), "funnel_stage", trigger)]
      && u.events == t.events
  {
    var l := t.leads[id - 1];
    var staged := t.leads[id - 1 := l.(stage := s, step := StepFor(s))];
    assert AddScore(staged, id, StageScore(s))[id - 1] == staged[id - 1].(score := l.score + StageScore(s));
  }

  /** A recorded event changes the score only for a positive value, and by exactly that value. */
  lemma RecordEffect(t: Tables, id: int, eventType: string, scoreValue: Option<int>)
    requires HasLead(t.leads, id)
    ensures var u := Record(t, id, eventType, scoreValue);
      u.leads[id - 1].score
        == t.leads[id - 1].score + (if scoreValue.Some? && scoreValue.value > 0 then scoreValue.value else 0)
      && u.leads[id - 1].stage == t.leads[id - 1].stage
      && u.events == t.events + [EngagementEvent(id, eventType, StoredScore(scoreValue))]
      && u.history == t.history
  {
  }

  /** Score, stage and row counts after a handler with a stage and an event. */
  lemma StageEventEffect(t: Tables, id: int, s: Stage, trigger: string, eventType: string, points: int)
    requires HasLead(t.leads, id) && points > 0
    ensures var u := StageEvent(t, id, s, trigger, eventType, points);
      |u.leads| == |t.leads|
      && u.leads[id - 1].stage == s
      && u.leads[id - 1].score == t.leads[id - 1].score + StageScore(s) + points
      && |u.history| == |t.history| + 1 && |u.events| == |t.events| + 1
  {
    UpdateStatusEffect(t, id, s, Some(trigger));
    RecordEffect(UpdateStatus(t, id, s, Some(trigger)), id, eventType, Some(points));
  }

  /** Booking an appointment is worth 100 points (stage 50 plus event 50). */
  lemma AppointmentScheduledWorth100(t: Tables, id: int, appointmentId: int)
    requires HasLead(t.leads, id)
    ensures var u := AppointmentScheduledEvent(t, id, appointmentId);
      u.leads[id - 1].stage == AppointmentScheduled && u.leads[id - 1].score == t.leads[id - 1].score + 100
  {
    StageEventEffect(t, id, AppointmentScheduled, "appointment_booked_" + IntToString(appointmentId), "appointment_scheduled", 50);
  }

  /** Attending is worth 100 points (stage 75 plus event 25). */
  lemma AppointmentAttendedWorth100(t: Tables, id: int, appointmentId: int)
    requires HasLead(t.leads, id)
    ensures var u := AppointmentAttendedEvent(t, id, appointmentId);
      u.leads[id - 1].stage == AppointmentAttended && u.leads[id - 1].score == t.leads[id - 1].score + 100
  {
    StageEventEffect(t, id, AppointmentAttended, "appointment_attended_" + IntToString(appointmentId), "appointment_attended", 25);
  }

  /** An invoice is worth 95 points (stage 85 plus event 10). */
  lemma InvoiceSentWorth95(t: Tables, id: int, invoiceId: string)
    requires HasLead(t.leads, id)
    ensures var u := InvoiceSentEvent(t, id, invoiceId);
      u.leads[id - 1].stage == InvoiceSent && u.leads[id - 1].score == t.leads[id - 1].score + 95
  {
    StageEventEffect(t, id, InvoiceSent, "invoice_sent_" + invoiceId, "invoice_sent", 10);
  }

  /** A payment is worth 200 points (stage 100 plus event 100). */
  lemma PaymentWorth200(t: Tables, id: int, invoiceId: string)
    requires HasLead(t.leads, id)
    ensures var u := PaymentCompletedEvent(t, id, invoiceId);
      u.leads[id - 1].stage == PaidCustomer && u.leads[id - 1].score == t.leads[id - 1].score + 200
  {
    StageEventEffect(t, id, PaidCustomer, "payment_completed_" + invoiceId, "payment_completed", 100);
  }

  /**
   * An unknown lead: the stage change finds no row and the event's insert fails on the foreign
   * key, so no handler changes any table.
   */
  lemma {:induction false} UnknownLeadRecordsNothing(t: Tables, id: int, eventType: string, scoreValue: Option<int>,
                                                     s: Stage, trigger: string, points: int, page: string, pct: real)
    requires !HasLead(t.leads, id)
    ensures Record(t, id, eventType, scoreValue) == t
    ensures StageEvent(t, id, s, trigger, eventType, points) == t
    ensures VideoCompletion(t, id, page, pct) == t
  {
    UnknownLeadUnchanged(t, id, s, Some(trigger));
    UnknownLeadUnchanged(t, id, VideoCompleted, Some("video_completion_" + page));
  }

  /** Below 25% nothing is recorded at all. */
  lemma VideoBelowQuarterIgnored(t: Tables, id: int, page: string, pct: real)
    requires pct < 25.0
    ensures VideoCompletion(t, id, page, pct) == t
  {
  }

  /** From 80%: the stage becomes video_completed, whatever it was, and the score grows by 50. */
  lemma VideoCompletedEffect(t: Tables, id: int, page: string, pct: real)
    requires HasLead(t.leads, id) && pct >= 80.0
    ensures var u := VideoCompletion(t, id, page, pct);
      u.leads[id - 1].stage == VideoCompleted && u.leads[id - 1].score == t.leads[id - 1].score + 50
  {
    StageEventEffect(t, id, VideoCompleted, "video_completion_" + page, "video_completed", 25);
  }

  /**
   * From 25% to below 80%: only a new lead moves to video_started (10 points); every lead gets
   * the progress points, and the stage never moves otherwise.
   */
  lemma VideoProgressEffect(t: Tables, id: int, page: string, pct: real)
    requires HasLead(t.leads, id) && 25.0 <= pct < 80.0
    ensures var u := VideoCompletion(t, id, page, pct);
      var l := t.leads[id - 1];
      u.leads[id - 1].stage == (if l.stage == New then VideoStarted else l.stage)
      && u.leads[id - 1].score == l.score + (if l.stage == New then 10 else 0) + ProgressPoints(pct)
      && |u.events| == |t.events| + 1
  {
    var l := t.leads[id - 1];
    if l.stage == New {
      UpdateStatusEffect(t, id, VideoStarted, Some("video_start_" + page));
      RecordEffect(UpdateStatus(t, id, VideoStarted, Some("video_start_" + page)), id, "video_progress", Some(ProgressPoints(pct)));
    } else {
      RecordEffect(t, id, "video_progress", Some(ProgressPoints(pct)));
    }
  }

  // ---- conversion rates ----

  /** A `GROUP BY funnel_stage` row (average and maximum score left out). */
  datatype StageStats = StageStats(stage: Stage, count: nat)

  /** `stageStats.find(s => s.funnel_stage === stage)?.count || 0`. */
  function CountOf(stats: seq<StageStats>, s: Stage): (r: nat)
    ensures r > 0 ==> exists k :: 0 <= k < |stats| && stats[k] == StageStats(s, r)
    ensures (forall k :: 0 <= k < |stats| ==> stats[k].stage != s) ==> r == 0
  {
    if |stats| == 0 then 0
    else if stats[0].stage == s then stats[0].count
    else CountOf(stats[1..], s)
  }

  /** The rate from one stage to the next, in percent; 0 when the earlier stage is empty. */
  function Rate(previous: nat, current: nat): real
  {
    if previous > 0 then (current as real / previous as real) * 100.0 else 0.0
  }

  /** A rate is 0 for an empty earlier stage; otherwise rate * previous = 100 * current. */
  lemma RateMeaning(previous: nat, current: nat)
    ensures Rate(previous, current) >= 0.0
    ensures previous == 0 ==> Rate(previous, current) == 0.0
    ensures previous > 0 ==> (Rate(previous, current) <= 100.0 <==> current <= previous)
    ensures previous > 0 ==> Rate(previous, current) * previous as real == 100.0 * current as real
  {
    if previous > 0 {
      var q := current as real / previous as real;
      assert q * previous as real == current as real;
      assert q <= 1.0 <==> q * previous as real <= previous as real;
    }
  }

  /** The key of the pair of stages i - 1 and i. */
  function PairKey(i: nat): string
    requires 1 <= i < |StageOrder|
  {
    StageName(StageOrder[i - 1]) + "_to_" + StageName(StageOrder[i])
  }

  /** The six keys are distinct (they even have distinct lengths). */
  lemma PairKeysDistinct(i: nat, j: nat)
    requires 1 <= i < |StageOrder| && 1 <= j < |StageOrder| && i != j
    ensures PairKey(i) != PairKey(j)
  {
    PairKeyLength(i);
    PairKeyLength(j);
  }

  lemma PairKeyLength(i: nat)
    requires 1 <= i < |StageOrder|
    ensures |PairKey(i)| == [0, 20, 32, 40, 45, 36, 29][i]
  {
    assert |PairKey(i)| == |StageName(StageOrder[i - 1])| + 4 + |StageName(StageOrder[i])|;
  }

  /** The rate stored under key i. */
  function PairRate(stats: seq<StageStats>, i: nat): real
    requires 1 <= i < |StageOrder|
  {
    Rate(CountOf(stats, StageOrder[i - 1]), CountOf(stats, StageOrder[i]))
  }

  /** The six keys, in stage order. */
  function PairKeyList(): (ks: seq<string>)
    ensures |ks| == |StageOrder| - 1
    ensures forall j :: 0 <= j < |StageOrder| - 1 ==> ks[j] == PairKey(j + 1)
  {
    seq(|StageOrder| - 1, i requires 0 <= i < |StageOrder| - 1 => PairKey(i + 1))
  }

  lemma PairKeyListDistinct()
    ensures forall i, j :: 0 <= i < j < |PairKeyList()| ==> PairKeyList()[i] != PairKeyList()[j]
  {
    forall i, j | 0 <= i < j < |PairKeyList()|
      ensures PairKeyList()[i] != PairKeyList()[j]
    {
      PairKeysDistinct(i + 1, j + 1);
    }
  }

  /** The six rates, in stage order. */
  function PairRateList(stats: seq<StageStats>): (rs: seq<real>)
    ensures |rs| == |StageOrder| - 1
    ensures forall j :: 0 <= j < |StageOrder| - 1 ==> rs[j] == PairRate(stats, j + 1)
  {
    seq(|StageOrder| - 1, i requires 0 <= i < |StageOrder| - 1 => PairRate(stats, i + 1))
  }

  /** The map after `m[keys[i]] = vals[i]` for i = 0 .. n - 1, in order. */
  function Written(keys: seq<string>, vals: seq<real>, n: nat): map<string, real>
    requires n <= |keys| && n <= |vals|
  {
    if n == 0 then map[] else Written(keys, vals, n - 1)[keys[n - 1] := vals[n - 1]]
  }

  /** With distinct keys, n writes leave n entries, each key holding its own value. */
  lemma WrittenSpec(keys: seq<string>, vals: seq<real>, n: nat)
    requires n <= |keys| && n <= |vals|
    requires forall i, j :: 0 <= i < j < |keys| ==> keys[i] != keys[j]
    ensures forall k :: k in Written(keys, vals, n) ==> exists i :: 0 <= i < n && keys[i] == k
    ensures forall i :: 0 <= i < n ==> keys[i] in Written(keys, vals, n) && Written(keys, vals, n)[keys[i]] == vals[i]
    ensures |Written(keys, vals, n)| == n
  {
    WrittenKeys(keys, vals, n);
    WrittenValues(keys, vals, n);
    WrittenSize(keys, vals, n);
  }

  /** Every key of n writes is one of the first n keys. */
  lemma {:induction false} WrittenKeys(keys: seq<string>, vals: seq<real>, n: nat)
    requires n <= |keys| && n <= |vals|
    ensures forall k :: k in Written(keys, vals, n) ==> exists i :: 0 <= i < n && keys[i] == k
  {
    if n > 0 {
      WrittenKeys(keys, vals, n - 1);
    }
  }

  /** With distinct keys, each of the first n keys holds the value written under it. */
  lemma {:induction false} WrittenValues(keys: seq<string>, vals: seq<real>, n: nat)
    requires n <= |keys| && n <= |vals|
    requires forall i, j :: 0 <= i < j < |keys| ==> keys[i] != keys[j]
    ensures forall i :: 0 <= i < n ==> keys[i] in Written(keys, vals, n) && Written(keys, vals, n)[keys[i]] == vals[i]
  {
    if n > 0 {
      WrittenValues(keys, vals, n - 1);
    }
  }

  /** With distinct keys, n writes leave n entries. */
  lemma {:induction false} WrittenSize(keys: seq<string>, vals: seq<real>, n: nat)
    requires n <= |keys| && n <= |vals|
    requires forall i, j :: 0 <= i < j < |keys| ==> keys[i] != keys[j]
    ensures |Written(keys, vals, n)| == n
  {
    if n > 0 {
      WrittenSize(keys, vals, n - 1);
      WrittenKeys(keys, vals, n - 1);
      var m := Written(keys, vals, n - 1);
      forall k | k in m
        ensures k != keys[n - 1]
      {
        var i :| 0 <= i < n - 1 && keys[i] == k;
      }
    }
  }

  /** The six writes leave exactly the six keys, each holding its pair's rate. */
  lemma WrittenRates(stats: seq<StageStats>)
    ensures var rates := Written(PairKeyList(), PairRateList(stats), |StageOrder| - 1);
      |rates| == |StageOrder| - 1
      && (forall key :: key in rates ==> exists i :: 1 <= i < |StageOrder| && key == PairKey(i))
      && (forall i :: 1 <= i < |StageOrder| ==> PairKey(i) in rates && rates[PairKey(i)] == PairRate(stats, i))
  {
    var keys := PairKeyList();
    var vals := PairRateList(stats);
    var rates := Written(keys, vals, |StageOrder| - 1);
    PairKeyListDistinct();
    WrittenSpec(keys, vals, |StageOrder| - 1);
    forall i | 1 <= i < |StageOrder|
      ensures PairKey(i) in rates && rates[PairKey(i)] == PairRate(stats, i)
    {
      assert keys[i - 1] == PairKey(i) && vals[i - 1] == PairRate(stats, i);
    }
    forall key | key in rates
      ensures exists i :: 1 <= i < |StageOrder| && key == PairKey(i)
    {
      var i :| 0 <= i < |StageOrder| - 1 && keys[i] == key;
      assert key == PairKey(i + 1);
    }
  }

  /** Writing the loop's i-th rate under the i-th key extends the writes by one. */
  lemma WriteNext(stats: seq<StageStats>, i: nat, rate: real)
    requires 1 <= i < |StageOrder|
    requires rate == Rate(CountOf(stats, StageOrder[i - 1]), CountOf(stats, StageOrder[i]))
    ensures Written(PairKeyList(), PairRateList(stats), i - 1)[PairKey(i) := rate]
      == Written(PairKeyList(), PairRateList(stats), i)
  {
    assert PairKeyList()[i - 1] == PairKey(i);
    assert PairRateList(stats)[i - 1] == PairRate(stats, i);
  }

  /**
   * `calculateConversionRates`: exactly one key per consecutive pair of stages (six keys),
   * each holding the share of the earlier stage's count that the later stage's count makes up.
   */
  method CalculateConversionRates(stats: seq<StageStats>) returns (rates: map<string, real>)
    ensures |rates| == |StageOrder| - 1
    ensures forall key :: key in rates ==> exists i :: 1 <= i < |StageOrder| && key == PairKey(i)
    ensures forall i :: 1 <= i < |StageOrder| ==> PairKey(i) in rates && rates[PairKey(i)] == PairRate(stats, i)
  {
    ghost var keys := PairKeyList();
    ghost var vals := PairRateList(stats);
    rates := map[];
    for i := 1 to |StageOrder|
      invariant rates == Written(keys, vals, i - 1)
    {
      var currentCount := CountOf(stats, StageOrder[i]);
      var previousCount := CountOf(stats, StageOrder[i - 1]);
      var rate := Rate(previousCount, currentCount);
      WriteNext(stats, i, rate);
      rates := rates[PairKey(i) := rate];
    }
    WrittenRates(stats);
  }
}
