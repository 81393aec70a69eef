// lib/email-preferences.ts, class `EmailPreferencesManager`: the per-email preference row
// (created with defaults on first read), the send/deny decisions drawn from it, the signed
// unsubscribe links and the footer that carries them.

module EmailPreferences {
  import opened Wrappers
  import opened Text

  // ---- the preference table ----

  /** An `email_preferences` row (the integer columns read as booleans; timestamps left out). */
  datatype Prefs = Prefs(
    marketing: bool,
    appointment: bool,
    reminder: bool,
    newsletter: bool,
    smsMarketing: bool,
    smsAppointments: bool,
    smsReminders: bool,
    unsubscribedAll: bool)

  /**
   * A row inserted with only its email. The email flags default on; the SMS flags take the
   * default of whichever CREATE TABLE ran first: off in this file, on in the preferences route.
   */
  function DefaultPrefs(smsDefault: bool): (p: Prefs)
    ensures p.marketing && p.appointment && p.reminder && p.newsletter && !p.unsubscribedAll
    ensures p.smsMarketing == smsDefault && p.smsAppointments == smsDefault && p.smsReminders == smsDefault
  {
    Prefs(true, true, true, true, smsDefault, smsDefault, smsDefault, false)
  }

  /** An `unsubscribe_log` row. */
  datatype LogEntry = LogEntry(
    email: string,
    unsubscribeType: string,
    reason: Option<string>,
    source: string,
    ipAddress: string,
    userAgent: string)

  /**
   * The preference tables as a value: `schema` is None before `email_preferences` exists and
   * otherwise holds its SMS default; `rows` is keyed by the unique email.
   */
  datatype PrefState = PrefState(schema: Option<bool>, rows: map<string, Prefs>, log: seq<LogEntry>)

  /** The SMS default of the table once it exists, creating it with this file's schema if absent. */
  function SmsDefaultAfterCreate(schema: Option<bool>): bool
  {
    if schema.Some? then schema.value else false
  }

  /** `getPreferences` on the tables: create the table and the default row when missing. */
  function EnsureRow(s: PrefState, email: string): (u: PrefState)
    ensures email in u.rows && u.schema.Some? && u.log == s.log
    ensures email in s.rows ==> u.rows == s.rows
    ensures email !in s.rows ==> u.rows == s.rows[email := DefaultPrefs(u.schema.value)]
    ensures s.schema.Some? ==> u.schema == s.schema
  {
    var schema := Some(SmsDefaultAfterCreate(s.schema));
    var rows := if email in s.rows then s.rows else s.rows[email := DefaultPrefs(schema.value)];
    PrefState(schema, rows, s.log)
  }

  /** Reading twice is reading once: the second read finds the row the first one created. */
  lemma EnsureRowIdempotent(s: PrefState, email: string)
    ensures EnsureRow(EnsureRow(s, email), email) == EnsureRow(s, email)
  {
  }

  /** A read never touches another email's row. */
  lemma EnsureRowLeavesOthers(s: PrefState, email: string, other: string)
    requires other != email
    ensures other in EnsureRow(s, email).rows <==> other in s.rows
    ensures other in s.rows ==> EnsureRow(s, email).rows[other] == s.rows[other]
  {
  }

  // ---- decisions ----

  /** The `emailType` argument; anything else (such as "transactional") is `OtherEmail`. */
  datatype EmailType = MarketingEmail | AppointmentEmail | ReminderEmail | NewsletterEmail | OtherEmail(name: string)

  /** The `smsType` argument. */
  datatype SmsType = MarketingSms | AppointmentSms | ReminderSms | OtherSms(name: string)

  /** `canSendEmail` given what `getPreferences` yielded. */
  function EmailAllowed(p: Option<Prefs>, t: EmailType): (r: bool)
    ensures p.None? ==> r
    ensures p.Some? && p.value.unsubscribedAll ==> !r
    ensures t.OtherEmail? && p.Some? ==> !r
  {
    if p.None? then true
    else if p.value.unsubscribedAll then false
    else
      match t
      case MarketingEmail => p.value.marketing
      case AppointmentEmail => p.value.appointment
      case ReminderEmail => p.value.reminder
      case NewsletterEmail => p.value.newsletter
      case OtherEmail(_) => false
  }

  /** `canSendSMS` given what `getPreferences` yielded. */
  function SmsAllowed(p: Option<Prefs>, t: SmsType): (r: bool)
    ensures p.None? ==> r
    ensures p.Some? && p.value.unsubscribedAll ==> !r
    ensures t.OtherSms? && p.Some? ==> !r
  {
    if p.None? then true
    else if p.value.unsubscribedAll then false
    else
      match t
      case MarketingSms => p.value.smsMarketing
      case AppointmentSms => p.value.smsAppointments
      case ReminderSms => p.value.smsReminders
      case OtherSms(_) => false
  }

  /** Without `unsubscribed_all`, each known email type reads exactly its own flag. */
  lemma EmailAllowedReadsFlag(p: Prefs)
    requires !p.unsubscribedAll
    ensures EmailAllowed(Some(p), MarketingEmail) == p.marketing
    ensures EmailAllowed(Some(p), AppointmentEmail) == p.appointment
    ensures EmailAllowed(Some(p), ReminderEmail) == p.reminder
    ensures EmailAllowed(Some(p), NewsletterEmail) == p.newsletter
  {
  }

  /** A fresh row allows every known email type and, under this file's schema, no SMS. */
  lemma FreshRowDecisions(t: EmailType, u: SmsType)
    ensures EmailAllowed(Some(DefaultPrefs(false)), t) <==> !t.OtherEmail?
    ensures !SmsAllowed(Some(DefaultPrefs(false)), u)
  {
  }

  /** The preference tables of the database file, updated in place. */
  class PreferencesStore {
    var schema: Option<bool>
    var rows: map<string, Prefs>
    var log: seq<LogEntry>

    function State(): PrefState
      reads this
    {
      PrefState(schema, rows, log)
    }

    /** A file in which neither preference table exists yet. */
    constructor()
      ensures schema.None? && rows == map[] && log == []
    {
      schema := None;
      rows := map[];
      log := [];
    }

    /** `getPreferences`: always finds a row, creating the table and the row if needed. */
    method GetPreferences(email: string) returns (p: Option<Prefs>)
      modifies this
      ensures State() == EnsureRow(old(State()), email)
      ensures p == Some(rows[email])
    {
      if schema.None? {
        schema := Some(false);
      }
      if email !in rows {
        rows := rows[email := DefaultPrefs(schema.value)];
      }
      p := Some(rows[email]);
    }

    /** `canSendEmail`. */
    method CanSendEmail(email: string, t: EmailType) returns (allowed: bool)
      modifies this
      ensures State() == EnsureRow(old(State()), email)
      ensures allowed == EmailAllowed(Some(rows[email]), t)
    {
      var p := GetPreferences(email);
      if p.None? {
        return true;
      }
      if p.value.unsubscribedAll {
        return false;
      }
      match t {
        case MarketingEmail => allowed := p.value.marketing;
        case AppointmentEmail => allowed := p.value.appointment;
        case ReminderEmail => allowed := p.value.reminder;
        case NewsletterEmail => allowed := p.value.newsletter;
        case OtherEmail(_) => allowed := false;
      }
    }

    /** `canSendSMS`. */
    method CanSendSms(email: string, t: SmsType) returns (allowed: bool)
      modifies this
      ensures State() == EnsureRow(old(State()), email)
      ensures allowed == SmsAllowed(Some(rows[email]), t)
    {
      var p := GetPreferences(email);
      if p.None? {
        return true;
      }
      if p.value.unsubscribedAll {
        return false;
      }
      match t {
        case MarketingSms => allowed := p.value.smsMarketing;
        case AppointmentSms => allowed := p.value.smsAppointments;
        case ReminderSms => allowed := p.value.smsReminders;
        case OtherSms(_) => allowed := false;
      }
    }
  }

  // ---- percent-encoding (`encodeURIComponent`) ----

  /** The characters `encodeURIComponent` leaves as they are. */
  predicate Unreserved(c: char)
  {
    ('A' <= c <= 'Z') || ('a' <= c <= 'z') || ('0' <= c <= '9')
    || c == '-' || c == '_' || c == '.' || c == '!' || c == '~' || c == '*' || c == '\'' || c == '(' || c == ')'
  }

  /** The UTF-8 encoding of one code point. */
  function Utf8(c: char): (bytes: seq<nat>)
    ensures 1 <= |bytes| <= 4
    ensures forall k :: 0 <= k < |bytes| ==> bytes[k] < 256
  {
    var n := c as int;
    if n < 0x80 then [n]
    else if n < 0x800 then [0xC0 + n / 64, 0x80 + n % 64]
    else if n < 0x10000 then [0xE0 + n / 4096, 0x80 + (n / 64) % 64, 0x80 + n % 64]
    else [0xF0 + n / 262144, 0x80 + (n / 4096) % 64, 0x80 + (n / 64) % 64, 0x80 + n % 64]
  }

  function HexUpper(d: nat): (c: char)
    requires d < 16
    ensures ('0' <= c <= '9') || ('A' <= c <= 'F')
  {
    "0123456789ABCDEF"[d]
  }

  /** "%XX" for each byte. */
  function PercentBytes(bytes: seq<nat>): (r: string)
    requires forall k :: 0 <= k < |bytes| ==> bytes[k] < 256
    ensures |r| == 3 * |bytes|
    ensures forall k :: 0 <= k < |r| ==> r[k] == '%' || Unreserved(r[k])
  {
    if |bytes| == 0 then []
    else ['%', HexUpper(bytes[0] / 16), HexUpper(bytes[0] % 16)] + PercentBytes(bytes[1..])
  }

  /** `encodeURIComponent` (Dafny characters are Unicode scalar values, so it never throws). */
  function EncodeUriComponent(s: string): (r: string)
    ensures forall k :: 0 <= k < |r| ==> r[k] == '%' || Unreserved(r[k])
    ensures |r| >= |s|
  {
    if |s| == 0 then []
    else (if Unreserved(s[0]) then [s[0]] else PercentBytes(Utf8(s[0]))) + EncodeUriComponent(s[1..])
  }

  /** A string of unreserved characters is its own encoding. */
  lemma {:induction false} EncodeUnreservedIdentity(s: string)
    requires forall k :: 0 <= k < |s| ==> Unreserved(s[k])
    ensures EncodeUriComponent(s) == s
  {
    if |s| > 0 {
      EncodeUnreservedIdentity(s[1..]);
    }
  }

  /** The encoding never contains the query separators '&', '=' or '#'. */
  lemma EncodedHasNoSeparator(s: string)
    ensures '&' !in EncodeUriComponent(s) && '=' !in EncodeUriComponent(s) && '#' !in EncodeUriComponent(s)
  {
  }

  // ---- links and footer ----

  /** `generateUnsubscribeToken`: the first 16 characters of the HMAC-SHA256 hex digest. */
  function UnsubscribeToken(hexDigest: string): (t: string)
    ensures |t| == if |hexDigest| < 16 then |hexDigest| else 16
    ensures StartsWith(hexDigest, t)
  {
    if |hexDigest| < 16 then hexDigest else hexDigest[..16]
  }

  const DefaultBaseUrl: string := "https://annaraight.com"

  /** `process.env.NEXT_PUBLIC_BASE_URL || 'https://annaraight.com'`: empty counts as unset. */
  function BaseUrl(configured: Option<string>): (r: string)
    ensures configured.Some? && configured.value != "" ==> r == configured.value
    ensures configured.None? || configured.value == "" ==> r == DefaultBaseUrl
  {
    if configured.Some? && configured.value != "" then configured.value else DefaultBaseUrl
  }

  /** The two link kinds. */
  datatype LinkKind = UnsubscribeAll | ManagePreferences

  /** The page a link kind opens. */
  function LinkPath(kind: LinkKind): string
  {
    match kind
    case UnsubscribeAll => "/unsubscribe"
    case ManagePreferences => "/preferences"
  }

  /** The part of the link up to the encoded email. */
  function LinkPrefix(base: string, kind: LinkKind): string
  {
    base + LinkPath(kind) + "?email="
  }

  /** `generateUnsubscribeUrl`, given the HMAC digest of the email. */
  function UnsubscribeUrl(email: string, kind: LinkKind, hexDigest: string, configured: Option<string>): string
  {
    LinkPrefix(BaseUrl(configured), kind) + EncodeUriComponent(email) + "&token=" + UnsubscribeToken(hexDigest)
  }

  /**
   * The link parses back: after the prefix, the first '&' ends the encoded email, and what
   * follows it is the token parameter.
   */
  lemma UrlQueryParses(email: string, kind: LinkKind, hexDigest: string, configured: Option<string>)
    ensures QueryParsesAt(UnsubscribeUrl(email, kind, hexDigest, configured), |LinkPrefix(BaseUrl(configured), kind)|,
                          EncodeUriComponent(email), "&token=" + UnsubscribeToken(hexDigest))
  {
    var prefix := LinkPrefix(BaseUrl(configured), kind);
    var e := EncodeUriComponent(email);
    var rest := "&token=" + UnsubscribeToken(hexDigest);
    UrlSplits(email, kind, hexDigest, configured);
    EncodedHasNoSeparator(email);
    FirstSeparator(UnsubscribeUrl(email, kind, hexDigest, configured), prefix, e, rest);
  }

  /**
   * Reading `url` from position p: the first '&' comes right after `e`, which is the text
   * from p up to it, and `rest` is everything from that '&' on.
   */
  predicate QueryParsesAt(url: string, p: nat, e: string, rest: string)
  {
    p + |e| <= |url| && IndexOf(url, "&", p) == Some(p + |e|) && url[p..p + |e|] == e && url[p + |e|..] == rest
  }

  /** The link is the prefix, the encoded email, and the token parameter. */
  lemma UrlSplits(email: string, kind: LinkKind, hexDigest: string, configured: Option<string>)
    ensures UnsubscribeUrl(email, kind, hexDigest, configured)
      == LinkPrefix(BaseUrl(configured), kind) + EncodeUriComponent(email) + ("&token=" + UnsubscribeToken(hexDigest))
  {
  }

  /** In url = prefix + e + rest, with no '&' in e and rest starting with '&', the first '&' after the prefix opens rest. */
  lemma FirstSeparator(url: string, prefix: string, e: string, rest: string)
    requires url == prefix + e + rest
    requires '&' !in e && |rest| > 0 && rest[0] == '&'
    ensures QueryParsesAt(url, |prefix|, e, rest)
  {
    var p := |prefix|;
    forall j: nat | p <= j < p + |e|
      ensures !OccursAt(url, "&", j)
    {
      assert url[j] == e[j - p];
      assert url[j..j + 1] == [url[j]];
    }
    assert url[p + |e|..p + |e| + 1] == [rest[0]];
    assert OccursAt(url, "&", p + |e|);
    assert url[p..p + |e|] == e;
    assert url[p + |e|..] == rest;
  }

  const FooterHead: string :=
    "\n      <div style=\"margin-top: 40px; "
      + "padding-top: 20px; border-top: 1px "
      + "solid #e0e0e0; font-size: 12px; "
      + "color: #666; text-align: center;\">\n"
      + "        <p>You received this email "
      + "because you subscribed to our notifications."
      + "</p>\n        <p>\n"
      + "          <a href=\""
  const FooterMiddle: string :=
    "\" style=\"color: #667eea; text-decoration: "
      + "none;\">Manage subscription</a> | "
      + "\n          <a href=\""
  const FooterTail: string :=
    "\" style=\"color: #667eea; text-decoration: "
      + "none;\">Unsubscribe from all emails</a>\n"
      + "        </p>\n"
      + "        <p style=\"margin-top: 15px;\">\n"
      + "          Â© 2025 AstroForYou. All "
      + "rights reserved.<br>\n"
      + "          If you have any questions, "
      + "contact us.\n"
      + "        </p>\n"
      + "      </div>\n"
      + "    "

  /** The footer block: the preferences link, then the unsubscribe link. */
  function Footer(preferencesUrl: string, unsubscribeUrl: string): string
  {
    FooterHead + preferencesUrl + FooterMiddle + unsubscribeUrl + FooterTail
  }

  /** Insert `footer` before the first "</body>", or append it when there is none. */
  function InsertFooter(html: string, footer: string): string
  {
    if Contains(html, "</body>") then ReplaceFirst(html, "</body>", footer + "</body>") else html + footer
  }

  /** `addUnsubscribeFooter`, given the HMAC digest of the email. */
  function AddUnsubscribeFooter(html: string, email: string, hexDigest: string, configured: Option<string>): string
  {
    InsertFooter(html, Footer(UnsubscribeUrl(email, ManagePreferences, hexDigest, configured),
                              UnsubscribeUrl(email, UnsubscribeAll, hexDigest, configured)))
  }

  /**
   * The footer lands immediately before the first "</body>" and every other character of the
   * page stays where it was; without "</body>" it is appended. Either way the page grows by
   * exactly the footer.
   */
  lemma InsertFooterPlacement(html: string, footer: string)
    ensures |InsertFooter(html, footer)| == |html| + |footer|
    ensures IndexOf(html, "</body>").Some? ==>
      var i := IndexOf(html, "</body>").value;
      InsertFooter(html, footer) == html[..i] + footer + html[i..]
    ensures IndexOf(html, "</body>").None? ==> InsertFooter(html, footer) == html + footer
  {
    IndexOfContains(html, "</body>");
    match IndexOf(html, "</body>")
    case Some(i) =>
      assert html[i..i + 7] == "</body>";
      assert html[i..] == html[i..i + 7] + html[i + 7..];
      assert html[..i] + (footer + "</body>") + html[i + 7..] == html[..i] + footer + html[i..];
    case None =>
  }
}
