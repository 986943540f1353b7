/** The fulfillment webhook: the table that sends each intent to its handler, the welcome and
    fallback replies, and the appointment-booking handler with the outbound calls it attempts
    and the confirmation it gives back to the conversational agent. */
module Webhook {
  import opened Wrappers
  import opened JsValues
  import opened PhoneFormat
  import opened Parameters

  /** The three intent handlers */
  datatype Handler = Welcome | Fallback | BookAppointment

  /** `intentMap`, filled by its three `set` calls */
  const IntentMap: map<string, Handler> :=
    map["Default Welcome Intent" := Welcome, "Default Fallback Intent" := Fallback, "bookAppointment" := BookAppointment]

  /** The handler registered for an intent name, if there is one */
  function Dispatch(intent: string): (r: Option<Handler>)
    ensures r == Some(Welcome) <==> intent == "Default Welcome Intent"
    ensures r == Some(Fallback) <==> intent == "Default Fallback Intent"
    ensures r == Some(BookAppointment) <==> intent == "bookAppointment"
  {
    if intent in IntentMap then Some(IntentMap[intent]) else None
  }

  /** The environment variables the handler reads while it runs (None when unset) */
  datatype Env = Env(emailUser: Option<string>, whatsappFrom: Option<string>)

  /** An outbound call the handler attempts. Whether it succeeds is never looked at: a failure
      is caught and logged, and the handler carries on. */
  datatype Effect =
    | InsertAppointment(table: string, row: map<string, JsValue>)
    | SendMail(mailFrom: string, mailTo: JsValue, subject: string, text: string)
    | SendWhatsApp(chatFrom: Option<string>, chatTo: string, body: string)

  /** What running a handler does: the calls it attempted, in order, and the replies it added;
      or the TypeError that stopped it before it attempted anything */
  datatype Run = Done(effects: seq<Effect>, replies: seq<string>) | Threw(error: JsError)

  const WelcomeReply: string :=
    "Welcome to Smart Dentist Clinic! I can help you book appointments for services like Cleaning, Checkup, or Root Canal. How can I help you today?"

  const FallbackReplies: seq<string> :=
    ["I didn't understand. Can you try again?", "I'm sorry, can you say that again?"]

  const AppointmentsTable: string := "appointments"

  const MailSubject: string := "Appointment Confirmed! \U{1F9B7}"

  /** How a template literal writes an environment variable */
  function EnvText(value: Option<string>): string
  {
    match value
    case Some(s) => s
    case None => "undefined"
  }

  /** The sender of the confirmation e-mail */
  function MailFrom(env: Env): string
  {
    "\"Smart Dentist Clinic\" <" + EnvText(env.emailUser) + ">"
  }

  /** The body of the confirmation e-mail */
  function MailText(name: string, time: string, phone: string): string
  {
    "Hi " + name + ",\n\nYour appointment has been confirmed for " + time + ".\n\nReference: " + phone
      + "\n\nSee you soon!\nSmart Dentist Clinic"
  }

  /** The body of the WhatsApp confirmation */
  function WhatsAppBody(name: string, time: string, phone: string): string
  {
    "\U{1F9B7} *Smart Dentist Clinic*\n\nHi " + name + "!\n\nYour appointment has been confirmed for *" + time
      + "*.\n\nReference: " + phone + "\n\nSee you soon!"
  }

  /** The confirmation the booking handler gives back to the agent */
  function ReplyText(name: string, time: string, email: string, phone: string): string
  {
    "\U{2705} Appointment Confirmed!\n\nPatient: " + name + "\nTime: " + time
      + "\n\nWe have sent a confirmation email to " + email + " and a message to " + phone
      + ". See you at the clinic! \U{1F9B7}"
  }

  /** The row stored for a booking, under the table's column names */
  function AppointmentRow(b: Booking): map<string, JsValue>
  {
    map["name" := b.name, "email" := b.email, "phone_number" := b.phoneNumber, "appointment_time" := b.time]
  }

  /** The row has exactly the table's four columns, each holding its booking value */
  lemma AppointmentRowColumns(b: Booking)
    ensures AppointmentRow(b).Keys == {"name", "email", "phone_number", "appointment_time"}
    ensures AppointmentRow(b)["name"] == b.name && AppointmentRow(b)["email"] == b.email
    ensures AppointmentRow(b)["phone_number"] == b.phoneNumber && AppointmentRow(b)["appointment_time"] == b.time
  {
  }

  /** The WhatsApp message, attempted only for a string phone number: on any other value the
      call to `replace` throws inside the handler's try block, and nothing is sent */
  function WhatsAppCall(b: Booking, env: Env, name: string, time: string, phone: string): seq<Effect>
  {
    if b.phoneNumber.Str? then
      [SendWhatsApp(env.whatsappFrom, "whatsapp:" + NormalizePhone(b.phoneNumber.s), WhatsAppBody(name, time, phone))]
    else []
  }

  /** The bookAppointment handler. Converting the four values to strings for the log lines
      is the first use of them that can throw, and it comes before any outbound call. */
  function BookAppointmentRun(params: map<string, JsValue>, host: Host, env: Env): Run
  {
    match ExtractBooking(params, host)
    case Failure(e) => Threw(e)
    case Success(b) =>
      match (ToJsString(b.name), ToJsString(b.time), ToJsString(b.phoneNumber), ToJsString(b.email))
      case (Some(name), Some(time), Some(phone), Some(email)) =>
        Done([InsertAppointment(AppointmentsTable, AppointmentRow(b)),
              SendMail(MailFrom(env), b.email, MailSubject, MailText(name, time, phone))]
             + WhatsAppCall(b, env, name, time, phone),
             [ReplyText(name, time, email, phone)])
      case _ => Threw(NoPrimitiveValue)
  }

  /** Handling one fulfillment request: None when no handler is registered for the intent */
  function Handle(intent: string, params: map<string, JsValue>, host: Host, env: Env): Option<Run>
  {
    match Dispatch(intent)
    case None => None
    case Some(Welcome) => Some(Done([], [WelcomeReply]))
    case Some(Fallback) => Some(Done([], FallbackReplies))
    case Some(BookAppointment) => Some(BookAppointmentRun(params, host, env))
  }

  /** `part` occurs in `s`, starting at index `i` */
  predicate OccursAt(s: string, part: string, i: int)
  {
    0 <= i <= |s| - |part| && s[i..i + |part|] == part
  }

  /** `part` occurs in `s` */
  predicate Contains(s: string, part: string)
  {
    exists i | 0 <= i <= |s| :: OccursAt(s, part, i)
  }

  lemma ContainsSuffix(before: string, part: string)
    ensures Contains(before + part, part)
  {
    assert OccursAt(before + part, part, |before|);
  }

  lemma ContainsExtend(s: string, after: string, part: string)
    requires Contains(s, part)
    ensures Contains(s + after, part)
  {
    var i :| 0 <= i <= |s| && OccursAt(s, part, i);
    assert (s + after)[i..i + |part|] == s[i..i + |part|];
    assert OccursAt(s + after, part, i);
  }

  /** The confirmation names the patient, the time, the e-mail address and the phone number */
  lemma ReplyMentionsBooking(name: string, time: string, email: string, phone: string)
    ensures var reply := ReplyText(name, time, email, phone);
      Contains(reply, name) && Contains(reply, time) && Contains(reply, email) && Contains(reply, phone)
  {
    var s0 := "\U{2705} Appointment Confirmed!\n\nPatient: ";
    var s1 := s0 + name;
    var s2 := s1 + "\nTime: ";
    var s3 := s2 + time;
    var s4 := s3 + "\n\nWe have sent a confirmation email to ";
    var s5 := s4 + email;
    var s6 := s5 + " and a message to ";
    var s7 := s6 + phone;
    var s8 := s7 + ". See you at the clinic! \U{1F9B7}";
    assert ReplyText(name, time, email, phone) == s8;
    ContainsSuffix(s0, name);
    ContainsExtend(s1, "\nTime: ", name);
    ContainsExtend(s2, time, name);
    ContainsSuffix(s2, time);
    ContainsExtend(s3, "\n\nWe have sent a confirmation email to ", name);
    ContainsExtend(s3, "\n\nWe have sent a confirmation email to ", time);
    ContainsExtend(s4, email, name);
    ContainsExtend(s4, email, time);
    ContainsSuffix(s4, email);
    ContainsExtend(s5, " and a message to ", name);
    ContainsExtend(s5, " and a message to ", time);
    ContainsExtend(s5, " and a message to ", email);
    ContainsExtend(s6, phone, name);
    ContainsExtend(s6, phone, time);
    ContainsExtend(s6, phone, email);
    ContainsSuffix(s6, phone);
    ContainsExtend(s7, ". See you at the clinic! \U{1F9B7}", name);
    ContainsExtend(s7, ". See you at the clinic! \U{1F9B7}", time);
    ContainsExtend(s7, ". See you at the clinic! \U{1F9B7}", email);
    ContainsExtend(s7, ". See you at the clinic! \U{1F9B7}", phone);
  }

  /** Only the three registered intents are handled; welcome and fallback only reply */
  lemma DispatchOutcomes(intent: string, params: map<string, JsValue>, host: Host, env: Env)
    ensures Handle(intent, params, host, env).None? <==>
              intent !in {"Default Welcome Intent", "Default Fallback Intent", "bookAppointment"}
    ensures intent == "Default Welcome Intent" ==> Handle(intent, params, host, env) == Some(Done([], [WelcomeReply]))
    ensures intent == "Default Fallback Intent" ==> Handle(intent, params, host, env) == Some(Done([], FallbackReplies))
    ensures intent == "bookAppointment" ==> Handle(intent, params, host, env) == Some(BookAppointmentRun(params, host, env))
  {
  }

  /** The booking handler stops with a TypeError exactly when the time is null (the read of
      `date_time` on null) or one of the four extracted values cannot be written as a string
      (no primitive value). Otherwise it attempts one insert of
      the extracted row, one e-mail to the extracted address and, for a string phone number, one
      WhatsApp message to the normalised number, each with its text, and gives the confirmation */
  lemma BookingAttempts(params: map<string, JsValue>, host: Host, env: Env)
    ensures var run := BookAppointmentRun(params, host, env);
      var extracted := ExtractBooking(params, host);
      && (run.Threw? <==>
            (Param(params, "time").Null? ||
             !(Convertible(extracted.value.name) && Convertible(extracted.value.time)
               && Convertible(extracted.value.phoneNumber) && Convertible(extracted.value.email))))
      && (run.Threw? ==>
            run.error == if Param(params, "time").Null? then ReadOfNull("date_time") else NoPrimitiveValue)
      && (run.Done? ==>
            var b := extracted.value;
            var name, time, phone, email :=
              ToJsString(b.name).value, ToJsString(b.time).value,
              ToJsString(b.phoneNumber).value, ToJsString(b.email).value;
            && run.replies == [ReplyText(name, time, email, phone)]
            && (|run.effects| == 3 <==> b.phoneNumber.Str?)
            && (|run.effects| == 2 <==> !b.phoneNumber.Str?)
            && run.effects[0] == InsertAppointment(AppointmentsTable, AppointmentRow(b))
            && run.effects[1] == SendMail(MailFrom(env), b.email, MailSubject, MailText(name, time, phone))
            && (b.phoneNumber.Str? ==>
                  run.effects[2] == SendWhatsApp(env.whatsappFrom, "whatsapp:" + NormalizePhone(b.phoneNumber.s),
                                                 WhatsAppBody(name, time, phone))))
  {
  }

  /** Whatever form the four values came in, a completed booking's confirmation contains each of
      them as the template literal writes it */
  lemma CompletedReplyMentionsBooking(params: map<string, JsValue>, host: Host, env: Env)
    requires BookAppointmentRun(params, host, env).Done?
    ensures var run := BookAppointmentRun(params, host, env);
      var b := ExtractBooking(params, host).value;
      && |run.replies| == 1
      && Contains(run.replies[0], ToJsString(b.name).value)
      && Contains(run.replies[0], ToJsString(b.time).value)
      && Contains(run.replies[0], ToJsString(b.email).value)
      && Contains(run.replies[0], ToJsString(b.phoneNumber).value)
  {
    var b := ExtractBooking(params, host).value;
    var name, time, phone, email :=
      ToJsString(b.name).value, ToJsString(b.time).value, ToJsString(b.phoneNumber).value, ToJsString(b.email).value;
    assert BookAppointmentRun(params, host, env).replies == [ReplyText(name, time, email, phone)];
    ReplyMentionsBooking(name, time, email, phone);
  }

  /** The stored row and the confirmation carry the phone number as the patient gave it;
      only the WhatsApp destination uses the normalised form, which always starts with '+' */
  lemma RawPhoneKeptOutsideWhatsApp(params: map<string, JsValue>, host: Host, env: Env)
    requires BookAppointmentRun(params, host, env).Done?
    ensures var run := BookAppointmentRun(params, host, env);
      var b := ExtractBooking(params, host).value;
      var phone := ToJsString(b.phoneNumber).value;
      && run.effects[0].row.Keys == {"name", "email", "phone_number", "appointment_time"}
      && run.effects[0].row["phone_number"] == b.phoneNumber
      && Contains(run.replies[0], phone)
      && (b.phoneNumber.Str? ==>
            (run.effects[2].chatTo == "whatsapp:" + NormalizePhone(b.phoneNumber.s)
             && NormalizePhone(b.phoneNumber.s)[0] == InternationalPrefix))
  {
    var run := BookAppointmentRun(params, host, env);
    var b := ExtractBooking(params, host).value;
    var name, time, phone, email :=
      ToJsString(b.name).value, ToJsString(b.time).value, ToJsString(b.phoneNumber).value, ToJsString(b.email).value;
    assert run.effects == [InsertAppointment(AppointmentsTable, AppointmentRow(b)),
                           SendMail(MailFrom(env), b.email, MailSubject, MailText(name, time, phone))]
                          + WhatsAppCall(b, env, name, time, phone);
    assert run.replies == [ReplyText(name, time, email, phone)];
    AppointmentRowColumns(b);
    ReplyMentionsBooking(name, time, email, phone);
  }

  /** The parameters of a booking whose name comes as an object, whose e-mail address comes
      as a one-element array, and whose phone number and time come as strings */
  function ScenarioParams(): map<string, JsValue>
  {
    map["name" := Obj(map["name" := Str("Ali")]), "email" := Arr([Str("ali@example.com")]),
        "phone_number" := Str("0300-1234567"), "time" := Str("2024-12-01T15:00:00Z")]
  }

  /** The scenario's time as the handler writes it: the host's short local time, or the
      timestamp itself if the host cannot parse it */
  function ScenarioTime(host: Host): string
  {
    match host.localTime("2024-12-01T15:00:00Z")
    case Some(short) => short
    case None => "2024-12-01T15:00:00Z"
  }

  lemma ScenarioExtraction(host: Host)
    ensures ExtractBooking(ScenarioParams(), host)
         == Success(Booking(Str("Ali"), Str("ali@example.com"), Str("0300-1234567"), Str(ScenarioTime(host))))
  {
    var params := ScenarioParams();
    var t := "2024-12-01T15:00:00Z";
    assert Param(params, "time") == Str(t);
    assert 'T' in t by { assert t[10] == 'T'; }
    assert FormatTime(Str(t), host) == Str(ScenarioTime(host));
    assert ExtractName(Param(params, "name")) == Str("Ali");
    assert ExtractEmail(Param(params, "email")) == Str("ali@example.com");
    assert ExtractPhone(Param(params, "phone_number")) == Str("0300-1234567");
  }

  /** A booking whose four values are strings runs to completion with all three calls */
  lemma StringBookingRun(params: map<string, JsValue>, host: Host, env: Env,
                         name: string, email: string, phone: string, time: string)
    requires ExtractBooking(params, host) == Success(Booking(Str(name), Str(email), Str(phone), Str(time)))
    ensures BookAppointmentRun(params, host, env)
         == Done([InsertAppointment(AppointmentsTable,
                    map["name" := Str(name), "email" := Str(email), "phone_number" := Str(phone),
                        "appointment_time" := Str(time)]),
                  SendMail(MailFrom(env), Str(email), MailSubject, MailText(name, time, phone)),
                  SendWhatsApp(env.whatsappFrom, "whatsapp:" + NormalizePhone(phone), WhatsAppBody(name, time, phone))],
                 [ReplyText(name, time, email, phone)])
  {
  }

  /** The booking scenario end to end: exactly one insert of the four values as given, one
      e-mail to the address inside the array, and one WhatsApp message to the normalised number,
      followed by one confirmation */
  lemma BookingScenario(host: Host, env: Env)
    ensures var time := ScenarioTime(host);
      Handle("bookAppointment", ScenarioParams(), host, env)
      == Some(Done([InsertAppointment("appointments",
                      map["name" := Str("Ali"), "email" := Str("ali@example.com"),
                          "phone_number" := Str("0300-1234567"), "appointment_time" := Str(time)]),
                    SendMail(MailFrom(env), Str("ali@example.com"), MailSubject, MailText("Ali", time, "0300-1234567")),
                    SendWhatsApp(env.whatsappFrom, "whatsapp:" + "+923001234567", WhatsAppBody("Ali", time, "0300-1234567"))],
                   [ReplyText("Ali", time, "ali@example.com", "0300-1234567")]))
  {
    DispatchOutcomes("bookAppointment", ScenarioParams(), host, env);
    ScenarioExtraction(host);
    StringBookingRun(ScenarioParams(), host, env, "Ali", "ali@example.com", "0300-1234567", ScenarioTime(host));
    NormalizeTrunkExample();
  }

  /** The scenario's confirmation names the patient, the time, the address from the array and
      the phone number as the patient wrote it */
  lemma BookingScenarioReply(host: Host)
    ensures var reply := ReplyText("Ali", ScenarioTime(host), "ali@example.com", "0300-1234567");
      && Contains(reply, "Ali") && Contains(reply, ScenarioTime(host))
      && Contains(reply, "ali@example.com") && Contains(reply, "0300-1234567")
  {
    ReplyMentionsBooking("Ali", ScenarioTime(host), "ali@example.com", "0300-1234567");
  }
}
