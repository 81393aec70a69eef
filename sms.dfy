// lib/sms.ts, class `SMSService`: Twilio text messages. The Twilio client is a parameter:
// a send either returns a message id or throws.

module Sms {
  import opened Wrappers
  import opened Text

  /** `s.replace(/\D/g, '')`: the ASCII digits of `s`, in order. */
  function Digits(s: string): (r: string)
    ensures AllDigits(r) && |r| <= |s|
  {
    if s == [] then [] else (if IsDigit(s[0]) then [s[0]] else []) + Digits(s[1..])
  }

  lemma {:induction false} DigitsOfDigits(s: string)
    requires AllDigits(s)
    ensures Digits(s) == s
  {
    if s != [] {
      DigitsOfDigits(s[1..]);
    }
  }

  /**
   * `formatPhoneNumber`: ten digits are a US number and get "+1"; any longer run of digits
   * gets "+"; fewer than ten digits, or an empty string, are refused.
   */
  function FormatPhoneNumber(phone: string): (r: Option<string>)
    ensures r.Some? <==> |Digits(phone)| >= 10
    ensures r.Some? ==> |r.value| >= 1 && r.value[0] == '+' && AllDigits(r.value[1..])
    ensures r.Some? ==> |r.value| == |Digits(phone)| + (if |Digits(phone)| == 10 then 2 else 1)
    ensures r.Some? ==> r.value[|r.value| - |Digits(phone)|..] == Digits(phone)
  {
    if phone == "" then None
    else
      var d := Digits(phone);
      if |d| == 10 then Some("+1" + d)
      else if |d| == 11 && d[0] == '1' then Some("+" + d)
      else if |d| >= 10 then Some("+" + d)
      else None
  }

  /** Formatting a formatted number changes nothing. */
  lemma FormatIdempotent(phone: string)
    requires FormatPhoneNumber(phone).Some?
    ensures FormatPhoneNumber(FormatPhoneNumber(phone).value) == FormatPhoneNumber(phone)
  {
    var d := Digits(phone);
    var r := FormatPhoneNumber(phone).value;
    DigitsOfDigits(r[1..]);
    assert r == [r[0]] + r[1..];
    assert Digits(r) == Digits(r[1..]);
    if |d| == 10 {
      assert r[1..] == "1" + d;
    }
  }

  /** Punctuation and spaces do not matter: only the digits decide. */
  lemma FormatSeesOnlyDigits(a: string, b: string)
    requires Digits(a) == Digits(b) && a != "" && b != ""
    ensures FormatPhoneNumber(a) == FormatPhoneNumber(b)
  {
  }

  // ---- message templates ----

  function ReminderOpening(name: string, date: string, time: string): string
  {
    "Hi " + name + "! Reminder: Your astrology consultation is scheduled for " + date + " at " + time + "."
  }

  const ReminderClosing := " Looking forward to speaking with you!"

  function ConfirmationOpening(name: string, date: string, time: string): string
  {
    "Hi " + name + "! Your astrology consultation is confirmed for " + date + " at " + time + "."
  }

  const ConfirmationClosing := " You will receive a reminder 6 hours before. See you soon!"

  /** `createAppointmentReminderSMS`: the link sentence only when a link is given. */
  method CreateAppointmentReminderSms(name: string, date: string, time: string, meetLink: Option<string>)
    returns (message: string)
    ensures Truthy(meetLink) ==> message == ReminderOpening(name, date, time) + " Join here: " + meetLink.value + ReminderClosing
    ensures !Truthy(meetLink) ==> message == ReminderOpening(name, date, time) + ReminderClosing
  {
    message := ReminderOpening(name, date, time);
    if Truthy(meetLink) {
      message := message + " Join here: " + meetLink.value;
    }
    message := message + ReminderClosing;
  }

  /** `createAppointmentConfirmationSMS`: the same shape with " Meeting link: ". */
  method CreateAppointmentConfirmationSms(name: string, date: string, time: string, meetLink: Option<string>)
    returns (message: string)
    ensures Truthy(meetLink) ==> message == ConfirmationOpening(name, date, time) + " Meeting link: " + meetLink.value + ConfirmationClosing
    ensures !Truthy(meetLink) ==> message == ConfirmationOpening(name, date, time) + ConfirmationClosing
  {
    message := ConfirmationOpening(name, date, time);
    if Truthy(meetLink) {
      message := message + " Meeting link: " + meetLink.value;
    }
    message := message + ConfirmationClosing;
  }

  // ---- sending ----

  /** What the Twilio client does with a request: a message id, or a thrown error (with its message if it is an `Error`). */
  datatype SendOutcome = Delivered(sid: string) | Threw(message: Option<string>)

  /** The arguments passed to `client.messages.create`. */
  datatype TwilioRequest = TwilioRequest(body: string, from: Option<string>, to: string)

  datatype SmsResponse = SmsResponse(success: bool, messageId: Option<string>, error: Option<string>)

  class SmsService {
    var configured: bool
    var fromNumber: Option<string>

    /**
     * The service is configured only when all three Twilio variables are set and the client
     * accepts them: the Twilio client throws for an account SID not starting with "AC", and the
     * handler leaves the service unconfigured.
     */
    constructor(accountSid: Option<string>, authToken: Option<string>, phoneNumber: Option<string>)
      ensures configured <==> Truthy(accountSid) && Truthy(authToken) && Truthy(phoneNumber)
                              && StartsWith(accountSid.value, "AC")
      ensures fromNumber == phoneNumber
    {
      configured := Truthy(accountSid) && Truthy(authToken) && Truthy(phoneNumber)
                    && StartsWith(accountSid.value, "AC");
      fromNumber := phoneNumber;
    }

    /** `isAvailable`. */
    function IsAvailable(): bool
      reads this
    {
      configured
    }

    /**
     * `sendSMS`: no attempt without configuration or with an unformattable number; otherwise
     * the formatted number is sent the message, and the client's outcome is reported.
     */
    method SendSms(to: string, message: string, client: SendOutcome) returns (r: SmsResponse, request: Option<TwilioRequest>)
      ensures !configured ==> r == SmsResponse(false, None, Some("SMS service not configured")) && request.None?
      ensures configured && FormatPhoneNumber(to).None? ==>
        r == SmsResponse(false, None, Some("Invalid phone number format")) && request.None?
      ensures configured && FormatPhoneNumber(to).Some? ==>
        (request == Some(TwilioRequest(message, fromNumber, FormatPhoneNumber(to).value))
         && (client.Delivered? ==> r == SmsResponse(true, Some(client.sid), None))
         && (client.Threw? ==>
               r == SmsResponse(false, None, Some(if client.message.Some? then client.message.value else "Failed to send SMS"))))
      ensures r.success <==> request.Some? && client.Delivered?
    {
      if !configured {
        return SmsResponse(false, None, Some("SMS service not configured")), None;
      }
      var phone := FormatPhoneNumber(to);
      if phone.None? {
        return SmsResponse(false, None, Some("Invalid phone number format")), None;
      }
      request := Some(TwilioRequest(message, fromNumber, phone.value));
      match client
      case Delivered(sid) =>
        r := SmsResponse(true, Some(sid), None);
      case Threw(m) =>
        r := SmsResponse(false, None, Some(if m.Some? then m.value else "Failed to send SMS"));
    }
  }
}
