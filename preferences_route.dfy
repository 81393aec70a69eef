// app/api/preferences/route.ts: GET reads (and if need be creates) the preference row of an
// email; POST either unsubscribes the email from everything or stores a full set of flags,
// logs what was switched off, and mirrors the outcome into `leads.is_subscribed`.

module PreferencesRoute {
  import opened Wrappers
  import opened Text
  import opened EmailPreferences
  import opened FunnelDb

  // ---- the token check ----

  /** The number of bytes `Buffer.from(s)` holds: the UTF-8 length. */
  function Utf8Length(s: string): nat
  {
    if |s| == 0 then 0 else |Utf8(s[0])| + Utf8Length(s[1..])
  }

  datatype TokenCheck = Matches | Mismatch | LengthThrows

  /**
   * `verifyUnsubscribeToken`: `timingSafeEqual` throws when the two buffers differ in byte
   * length, and otherwise compares them.
   */
  function VerifyToken(token: string, expected: string): (r: TokenCheck)
    ensures r == Matches <==> token == expected
    ensures r == LengthThrows ==> token != expected
  {
    if Utf8Length(token) != Utf8Length(expected) then LengthThrows
    else if token == expected then Matches
    else Mismatch
  }

  /** The JSON reply: status, `success`, the message or error text, and the GET payload. */
  datatype Reply = Reply(status: nat, success: bool, text: string, data: Option<Prefs>, token: Option<string>)

  function Failure(status: nat, text: string): Reply
  {
    Reply(status, false, text, None, None)
  }

  /**
   * The checks both handlers make before touching the database: a missing email is 400, a
   * supplied token that does not match is 403, and one of another byte length throws, which
   * the outer handler turns into 500.
   */
  function Gate(email: Option<string>, token: Option<string>, hexDigest: string,
                missingText: string, failText: string): (r: Option<Reply>)
    ensures !Truthy(email) ==> r == Some(Failure(400, missingText))
    ensures Truthy(email) && !Truthy(token) ==> r.None?
    ensures Truthy(email) && Truthy(token) ==>
      (r.None? <==> token.value == UnsubscribeToken(hexDigest))
    ensures r.Some? ==> r.value.status in {400, 403, 500} && !r.value.success
  {
    if !Truthy(email) then Some(Failure(400, missingText))
    else if Truthy(token) then
      match VerifyToken(token.value, UnsubscribeToken(hexDigest))
      case Matches => None
      case Mismatch => Some(Failure(403, "Invalid token"))
      case LengthThrows => Some(Failure(500, failText))
    else None
  }

  // ---- the tables ----

  /** The route's CREATE TABLE IF NOT EXISTS: when it runs first, SMS flags default on. */
  function RouteTables(s: PrefState): (u: PrefState)
    ensures u.schema.Some? && u.rows == s.rows && u.log == s.log
    ensures s.schema.Some? ==> u == s
  {
    if s.schema.Some? then s else PrefState(Some(true), s.rows, s.log)
  }

  /** `UPDATE leads SET is_subscribed = ? WHERE email = ?`. */
  function SetSubscribed(leads: seq<Lead>, email: string, subscribed: bool): (r: seq<Lead>)
    ensures |r| == |leads|
    ensures forall k :: 0 <= k < |leads| ==>
      r[k] == (if leads[k].email == email then leads[k].(isSubscribed := subscribed) else leads[k])
  {
    if |leads| == 0 then []
    else
      [if leads[0].email == email then leads[0].(isSubscribed := subscribed) else leads[0]]
        + SetSubscribed(leads[1..], email, subscribed)
  }

  /** The request headers the log records. */
  datatype ClientHeaders = ClientHeaders(forwardedFor: Option<string>, realIp: Option<string>, userAgent: Option<string>)

  function ClientIp(h: ClientHeaders): string
  {
    if Truthy(h.forwardedFor) then h.forwardedFor.value
    else if Truthy(h.realIp) then h.realIp.value
    else "unknown"
  }

  function ClientAgent(h: ClientHeaders): string
  {
    if Truthy(h.userAgent) then h.userAgent.value else "unknown"
  }

  /**
   * The columns of `email_preferences` as each CREATE TABLE defines them: the route's own
   * (`routeSchema`) or the preferences library's, which has no `id` and no `unsubscribed_at`.
   */
  function PreferenceColumns(routeSchema: bool): set<string>
  {
    {"email", "marketing_emails", "appointment_emails", "reminder_emails", "newsletter",
     "sms_marketing", "sms_appointments", "sms_reminders", "unsubscribed_all", "created_at", "updated_at"}
      + (if routeSchema then {"id", "unsubscribed_at"} else {})
  }

  /** The columns the "all" branch's INSERT OR REPLACE names. */
  const AllColumns: set<string> :=
    {"email", "marketing_emails", "appointment_emails", "reminder_emails", "newsletter",
     "sms_marketing", "sms_appointments", "sms_reminders", "unsubscribed_all", "unsubscribed_at"}

  /** The columns the preferences branch's INSERT OR REPLACE names. */
  const PreferencesColumns: set<string> := AllColumns + {"updated_at"}

  /** An INSERT naming `columns` runs on the existing table iff the table has every one of them. */
  predicate InsertFits(schema: Option<bool>, columns: set<string>)
  {
    schema.Some? && columns <= PreferenceColumns(schema.value)
  }

  /** Both writes fit the route's table, and neither fits the library's: it lacks `unsubscribed_at`. */
  lemma WritesFitOnlyRouteTable()
    ensures InsertFits(Some(true), AllColumns) && InsertFits(Some(true), PreferencesColumns)
    ensures !InsertFits(Some(false), AllColumns) && !InsertFits(Some(false), PreferencesColumns)
  {
    assert "unsubscribed_at" in AllColumns && "unsubscribed_at" !in PreferenceColumns(false);
  }

  /**
   * Once the library has created the table, the route's CREATE TABLE IF NOT EXISTS keeps it, so
   * neither write of a POST fits: every "all" or preferences request ends in 500.
   */
  lemma LibraryTableRefusesEveryWrite(s: PrefState)
    requires s.schema == Some(false)
    ensures !InsertFits(RouteTables(s).schema, AllColumns)
    ensures !InsertFits(RouteTables(s).schema, PreferencesColumns)
  {
    WritesFitOnlyRouteTable();
  }

  /** Every flag off and `unsubscribed_all` on. */
  const AllOff: Prefs := Prefs(false, false, false, false, false, false, false, true)

  /** The "all" branch: replace the row, log it, unsubscribe the lead. */
  function UnsubscribeAllState(s: PrefState, email: string, reason: Option<string>, h: ClientHeaders): PrefState
  {
    PrefState(s.schema, s.rows[email := AllOff],
              s.log + [LogEntry(email, "all", OrNull(reason), "user_action", ClientIp(h), ClientAgent(h))])
  }

  /**
   * A flag as the JSON body carries it: a number (the 0 or 1 the page read back from the table)
   * or a boolean (a checkbox the page toggled).
   */
  datatype FlagValue = Number(on: bool) | Boolean(on: bool)

  /** The `preferences` object of the body: each flag may be missing. */
  datatype PrefsInput = PrefsInput(
    marketing: Option<FlagValue>,
    appointment: Option<FlagValue>,
    reminder: Option<FlagValue>,
    newsletter: Option<FlagValue>,
    smsMarketing: Option<FlagValue>,
    smsAppointments: Option<FlagValue>,
    smsReminders: Option<FlagValue>)

  /** A destructured flag with default 1. */
  function FlagOrOn(v: Option<FlagValue>): bool
  {
    if v.Some? then v.value.on else true
  }

  /** better-sqlite3 binds a number or a missing flag's default, and throws on a boolean. */
  predicate Binds(v: Option<FlagValue>)
  {
    v.None? || v.value.Number?
  }

  /** Every flag of the INSERT binds. */
  predicate AllBind(i: PrefsInput)
  {
    Binds(i.marketing) && Binds(i.appointment) && Binds(i.reminder) && Binds(i.newsletter)
      && Binds(i.smsMarketing) && Binds(i.smsAppointments) && Binds(i.smsReminders)
  }

  /** All four email flags are off (the SMS flags play no part). */
  predicate AllEmailOff(marketing: bool, appointment: bool, reminder: bool, newsletter: bool)
  {
    !marketing && !appointment && !reminder && !newsletter
  }

  /** The row stored for a preferences update. */
  function Resolve(i: PrefsInput): (p: Prefs)
    ensures p.unsubscribedAll <==> AllEmailOff(p.marketing, p.appointment, p.reminder, p.newsletter)
    ensures i.marketing.None? ==> p.marketing
    ensures i.appointment.None? ==> p.appointment
    ensures i.reminder.None? ==> p.reminder
    ensures i.newsletter.None? ==> p.newsletter
    ensures i.smsMarketing.None? ==> p.smsMarketing
    ensures i.smsAppointments.None? ==> p.smsAppointments
    ensures i.smsReminders.None? ==> p.smsReminders
  {
    var m := FlagOrOn(i.marketing);
    var a := FlagOrOn(i.appointment);
    var r := FlagOrOn(i.reminder);
    var n := FlagOrOn(i.newsletter);
    Prefs(m, a, r, n, FlagOrOn(i.smsMarketing), FlagOrOn(i.smsAppointments), FlagOrOn(i.smsReminders),
          AllEmailOff(m, a, r, n))
  }

  /** Changing only SMS flags never changes `unsubscribed_all`. */
  lemma SmsFlagsIgnored(i: PrefsInput, sm: Option<FlagValue>, sa: Option<FlagValue>, sr: Option<FlagValue>)
    ensures Resolve(i.(smsMarketing := sm, smsAppointments := sa, smsReminders := sr)).unsubscribedAll
      == Resolve(i).unsubscribedAll
  {
  }

  /** The email types switched off, in the order marketing, appointments, reminders, newsletter. */
  function UnsubscribedTypes(p: Prefs): (r: seq<string>)
    ensures |r| == 0 <==> !(!p.marketing || !p.appointment || !p.reminder || !p.newsletter)
    ensures ("marketing" in r <==> !p.marketing) && ("appointments" in r <==> !p.appointment)
    ensures ("reminders" in r <==> !p.reminder) && ("newsletter" in r <==> !p.newsletter)
  {
    (if !p.marketing then ["marketing"] else [])
      + (if !p.appointment then ["appointments"] else [])
      + (if !p.reminder then ["reminders"] else [])
      + (if !p.newsletter then ["newsletter"] else [])
  }

  /** `parts.join(sep)`. */
  function Join(parts: seq<string>, sep: string): (r: string)
    ensures |parts| == 1 ==> r == parts[0]
  {
    if |parts| == 0 then ""
    else if |parts| == 1 then parts[0]
    else parts[0] + sep + Join(parts[1..], sep)
  }

  /** The preferences branch: replace the row, and log the switched-off types if there are any. */
  function PreferencesState(s: PrefState, email: string, i: PrefsInput, reason: Option<string>, h: ClientHeaders): PrefState
  {
    var p := Resolve(i);
    var types := UnsubscribedTypes(p);
    var log :=
      if |types| > 0
      then s.log + [LogEntry(email, Join(types, ","), OrNull(reason), "user_preference", ClientIp(h), ClientAgent(h))]
      else s.log;
    PrefState(s.schema, s.rows[email := p], log)
  }

  // ---- properties ----

  /** "all" switches off every flag, sets `unsubscribed_all` and logs exactly one entry of type "all". */
  lemma UnsubscribeAllEffect(s: PrefState, email: string, reason: Option<string>, h: ClientHeaders)
    ensures var u := UnsubscribeAllState(s, email, reason, h);
      email in u.rows
      && !EmailAllowed(Some(u.rows[email]), MarketingEmail) && !EmailAllowed(Some(u.rows[email]), NewsletterEmail)
      && (forall t :: !EmailAllowed(Some(u.rows[email]), t)) && (forall t :: !SmsAllowed(Some(u.rows[email]), t))
      && |u.log| == |s.log| + 1 && u.log[|s.log|].unsubscribeType == "all"
      && (forall e :: e != email && e in s.rows ==> e in u.rows && u.rows[e] == s.rows[e])
  {
  }

  /** A preferences update logs exactly when at least one email flag is off. */
  lemma PreferencesLogIff(s: PrefState, email: string, i: PrefsInput, reason: Option<string>, h: ClientHeaders)
    ensures var p := Resolve(i);
      (|PreferencesState(s, email, i, reason, h).log| == |s.log| + 1
       <==> !p.marketing || !p.appointment || !p.reminder || !p.newsletter)
    ensures |PreferencesState(s, email, i, reason, h).log| == |s.log|
        || |PreferencesState(s, email, i, reason, h).log| == |s.log| + 1
  {
  }

  /** Only the rows with the email change, and they get exactly the new flag. */
  lemma SetSubscribedEffect(leads: seq<Lead>, email: string, subscribed: bool, k: nat)
    requires k < |leads|
    ensures SetSubscribed(leads, email, subscribed)[k].isSubscribed
      == (if leads[k].email == email then subscribed else leads[k].isSubscribed)
    ensures SetSubscribed(leads, email, subscribed)[k].(isSubscribed := leads[k].isSubscribed) == leads[k]
  {
  }

  // ---- the handlers ----

  /** GET: the row of the email (created with defaults when missing) and its token. */
  method HandleGet(store: PreferencesStore, email: Option<string>, token: Option<string>, hexDigest: string)
    returns (r: Reply)
    modifies store
    ensures var gate := Gate(email, token, hexDigest, "Email parameter required", "Failed to get preferences");
      (gate.Some? ==> r == gate.value && store.State() == old(store.State()))
      && (gate.None? ==>
            store.State() == EnsureRow(RouteTables(old(store.State())), email.value)
            && r == Reply(200, true, "", Some(store.rows[email.value]), Some(UnsubscribeToken(hexDigest))))
  {
    var gate := Gate(email, token, hexDigest, "Email parameter required", "Failed to get preferences");
    if gate.Some? {
      return gate.value;
    }
    if store.schema.None? {
      store.schema := Some(true);
    }
    var prefs := store.GetPreferences(email.value);
    r := Reply(200, true, "", prefs, Some(UnsubscribeToken(hexDigest)));
  }

  /** The POST body. */
  datatype PostBody = PostBody(
    email: Option<string>,
    token: Option<string>,
    preferences: Option<PrefsInput>,
    unsubscribeType: Option<string>,
    reason: Option<string>)

  /**
   * POST: "all" wins over a preferences object; with neither the reply is 400 (after the
   * tables were created). `is_subscribed` becomes 0 on "all", and otherwise 0 exactly when all
   * four email flags are off. A write the table refuses (the library's table, or a boolean flag)
   * throws before anything is written, and the reply is 500.
   */
  method HandlePost(db: Database, store: PreferencesStore, body: PostBody, hexDigest: string, h: ClientHeaders)
    returns (r: Reply)
    modifies db, store
    ensures db.appointments == old(db.appointments) && db.history == old(db.history) && db.events == old(db.events)
    ensures var gate := Gate(body.email, body.token, hexDigest, "Email is required", "Failed to update preferences");
      var s := RouteTables(old(store.State()));
      (gate.Some? ==> r == gate.value && store.State() == old(store.State()) && db.leads == old(db.leads))
      && (gate.None? && body.unsubscribeType == Some("all") && !InsertFits(s.schema, AllColumns) ==>
            store.State() == s && db.leads == old(db.leads) && r == Failure(500, "Failed to update preferences"))
      && (gate.None? && body.unsubscribeType == Some("all") && InsertFits(s.schema, AllColumns) ==>
            store.State() == UnsubscribeAllState(s, body.email.value, body.reason, h)
            && db.leads == SetSubscribed(old(db.leads), body.email.value, false)
            && r == Reply(200, true, "Successfully unsubscribed from all communications", None, None))
      && (gate.None? && body.unsubscribeType != Some("all") && body.preferences.Some?
          && !(InsertFits(s.schema, PreferencesColumns) && AllBind(body.preferences.value)) ==>
            store.State() == s && db.leads == old(db.leads) && r == Failure(500, "Failed to update preferences"))
      && (gate.None? && body.unsubscribeType != Some("all") && body.preferences.Some?
          && InsertFits(s.schema, PreferencesColumns) && AllBind(body.preferences.value) ==>
            store.State() == PreferencesState(s, body.email.value, body.preferences.value, body.reason, h)
            && db.leads == SetSubscribed(old(db.leads), body.email.value, !Resolve(body.preferences.value).unsubscribedAll)
            && r == Reply(200, true, "Preferences updated successfully", None, None))
      && (gate.None? && body.unsubscribeType != Some("all") && body.preferences.None? ==>
            store.State() == s && db.leads == old(db.leads)
            && r == Failure(400, "No valid action specified"))
  {
    var gate := Gate(body.email, body.token, hexDigest, "Email is required", "Failed to update preferences");
    if gate.Some? {
      return gate.value;
    }
    var email := body.email.value;
    if store.schema.None? {
      store.schema := Some(true);
    }
    if body.unsubscribeType == Some("all") {
      if !InsertFits(store.schema, AllColumns) {
        return Failure(500, "Failed to update preferences");
      }
      WriteUnsubscribeAll(db, store, email, body.reason, h);
      return Reply(200, true, "Successfully unsubscribed from all communications", None, None);
    }
    if body.preferences.Some? {
      if !InsertFits(store.schema, PreferencesColumns) || !AllBind(body.preferences.value) {
        return Failure(500, "Failed to update preferences");
      }
      WritePreferences(db, store, email, body.preferences.value, body.reason, h);
      return Reply(200, true, "Preferences updated successfully", None, None);
    }
    return Failure(400, "No valid action specified");
  }

  /** The three statements of the "all" branch. */
  method WriteUnsubscribeAll(db: Database, store: PreferencesStore, email: string, reason: Option<string>, h: ClientHeaders)
    modifies db, store
    ensures db.appointments == old(db.appointments) && db.history == old(db.history) && db.events == old(db.events)
    ensures store.State() == UnsubscribeAllState(old(store.State()), email, reason, h)
    ensures db.leads == SetSubscribed(old(db.leads), email, false)
  {
    store.rows := store.rows[email := AllOff];
    store.log := store.log + [LogEntry(email, "all", OrNull(reason), "user_action", ClientIp(h), ClientAgent(h))];
    db.leads := SetSubscribed(db.leads, email, false);
  }

  /** The statements of the preferences branch. */
  method WritePreferences(db: Database, store: PreferencesStore, email: string, i: PrefsInput, reason: Option<string>, h: ClientHeaders)
    modifies db, store
    ensures db.appointments == old(db.appointments) && db.history == old(db.history) && db.events == old(db.events)
    ensures store.State() == PreferencesState(old(store.State()), email, i, reason, h)
    ensures db.leads == SetSubscribed(old(db.leads), email, !Resolve(i).unsubscribedAll)
  {
    var p := Resolve(i);
    var allDisabled := !p.marketing && !p.appointment && !p.reminder && !p.newsletter;
    store.rows := store.rows[email := p];
    var types := UnsubscribedTypes(p);
    if |types| > 0 {
      store.log := store.log + [LogEntry(email, Join(types, ","), OrNull(reason), "user_preference", ClientIp(h), ClientAgent(h))];
    }
    db.leads := SetSubscribed(db.leads, email, !allDisabled);
  }
}
