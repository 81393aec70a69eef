// The shared SQLite file `data/funnel.db`: the `leads` and `appointments` tables created in
// lib/database.ts, with the columns the migrations add to `leads` (funnel_stage, funnel_step,
// engagement_score, is_subscribed), and the `status_history` and `engagement_events` tables.
// Row ids are AUTOINCREMENT keys: the row with id k sits at index k - 1.

module FunnelDb {
  import opened Wrappers

  /** The `funnel_stage` column, in the funnel's own order. */
  datatype Stage =
    | New
    | VideoStarted
    | VideoCompleted
    | AppointmentScheduled
    | AppointmentAttended
    | InvoiceSent
    | PaidCustomer

  /** The text stored for a stage. */
  function StageName(s: Stage): string
  {
    match s
    case New => "new"
    case VideoStarted => "video_started"
    case VideoCompleted => "video_completed"
    case AppointmentScheduled => "appointment_scheduled"
    case AppointmentAttended => "appointment_attended"
    case InvoiceSent => "invoice_sent"
    case PaidCustomer => "paid_customer"
  }

  /** A `leads` row; the nullable text columns are options. */
  datatype Lead = Lead(
    name: string,
    email: string,
    phone: Option<string>,
    website: Option<string>,
    revenue: Option<string>,
    stage: Stage,
    step: string,
    score: int,
    isSubscribed: bool)

  /** A row as inserted with only contact columns: the column defaults fill the rest. */
  function NewLead(name: string, email: string, phone: Option<string>, website: Option<string>,
                   revenue: Option<string>): (l: Lead)
    ensures l.stage == New && l.step == "vsl_optin" && l.score == 0 && l.isSubscribed
    ensures l.name == name && l.email == email
  {
    Lead(name, email, phone, website, revenue, New, "vsl_optin", 0, true)
  }

  /** An `appointments` row. */
  datatype Appointment = Appointment(
    leadId: int,
    date: string,
    time: string,
    timezone: string,
    status: string,
    googleEventId: Option<string>,
    meetLink: Option<string>,
    meetingId: Option<string>)

  /** A `status_history` row (`notes` and `admin_user_id` are always null here). */
  datatype StatusChange = StatusChange(
    leadId: int,
    oldStatus: string,
    newStatus: string,
    statusType: string,
    triggerEvent: Option<string>)

  /** An `engagement_events` row (`event_data` is free JSON and left out). */
  datatype EngagementEvent = EngagementEvent(leadId: int, eventType: string, scoreValue: int)

  predicate HasLead(leads: seq<Lead>, id: int)
  {
    1 <= id <= |leads|
  }

  /** `SELECT id FROM leads WHERE email = ?`: the first row with that email. */
  function LeadIdByEmail(leads: seq<Lead>, email: string): (r: Option<nat>)
    ensures r.None? <==> forall k :: 0 <= k < |leads| ==> leads[k].email != email
    ensures r.Some? ==>
      (HasLead(leads, r.value) && leads[r.value - 1].email == email
       && forall k :: 0 <= k < r.value - 1 ==> leads[k].email != email)
  {
    if |leads| == 0 then None
    else
      match LeadIdByEmail(leads[..|leads| - 1], email)
      case Some(id) => Some(id)
      case None => if leads[|leads| - 1].email == email then Some(|leads|) else None
  }

  /** The database file: the tables the funnel core reads and writes. */
  class Database {
    var leads: seq<Lead>
    var appointments: seq<Appointment>
    var history: seq<StatusChange>
    var events: seq<EngagementEvent>

    /** A freshly initialised file with empty tables. */
    constructor()
      ensures leads == [] && appointments == [] && history == [] && events == []
    {
      leads := [];
      appointments := [];
      history := [];
      events := [];
    }
  }
}
