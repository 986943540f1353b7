/** Resolving the loosely typed parameters of a bookAppointment request into the four values
    the booking handler works with. A parameter may arrive as a string, as an object that
    carries the value under some key, or as an array; a parameter that is missing is
    undefined. */
module Parameters {
  import opened Wrappers
  import opened JsValues

  /** The host services the handler calls and the model leaves uninterpreted: JSON.stringify,
      and `new Date(s)` followed by toLocaleTimeString with a two-digit hour and minute
      (None when the date is invalid, which is when `getTime()` is NaN) */
  datatype Host = Host(stringify: JsValue -> string, localTime: string -> Option<string>)

  /** The four values of a booking once extraction is finished */
  datatype Booking = Booking(name: JsValue, email: JsValue, phoneNumber: JsValue, time: JsValue)

  /** One property of the destructuring `{ time, name, phone_number, email } = agent.parameters` */
  function Param(params: map<string, JsValue>, key: string): JsValue
  {
    if key in params then params[key] else Undefined
  }

  /** The patient's name: an object's truthy `.name`, otherwise the value as it came */
  function ExtractName(name: JsValue): (r: JsValue)
    ensures r == name || (name.Obj? && "name" in name.fields && Truthy(r) && r == name.fields["name"])
  {
    if IsObjectType(name) && !name.Null? && Truthy(Get(name, "name")) then Get(name, "name") else name
  }

  /** The e-mail address: for an object or array, `.email || .value || (array ? [0] : itself)` */
  function ExtractEmail(email: JsValue): (r: JsValue)
    ensures || r == email
            || (Truthy(r) && (r == Get(email, "email") || r == Get(email, "value")))
            || (email.Arr? && r == First(email))
  {
    if IsObjectType(email) && !email.Null? then
      OrChain([Get(email, "email"), Get(email, "value")], if email.Arr? then First(email) else email)
    else email
  }

  /** The phone number: for an object or array, `.phone_number || .value || (array ? [0] : itself)` */
  function ExtractPhone(phone: JsValue): (r: JsValue)
    ensures || r == phone
            || (Truthy(r) && (r == Get(phone, "phone_number") || r == Get(phone, "value")))
            || (phone.Arr? && r == First(phone))
  {
    if IsObjectType(phone) && !phone.Null? then
      OrChain([Get(phone, "phone_number"), Get(phone, "value")], if phone.Arr? then First(phone) else phone)
    else phone
  }

  /** The time before formatting: for anything `typeof` calls an object,
      `.date_time || .value || JSON.stringify(time)`. Null passes that test too, and reading
      `.date_time` of null throws. */
  function ResolveTime(time: JsValue, host: Host): (r: Result<JsValue, JsError>)
    ensures r.Success? ==>
              || r.value == time
              || (Truthy(r.value) && (r.value == Get(time, "date_time") || r.value == Get(time, "value")))
              || r.value == Str(host.stringify(time))
  {
    if time.Null? then Failure(ReadOfNull("date_time"))
    else if IsObjectType(time) then
      Success(OrChain([Get(time, "date_time"), Get(time, "value")], Str(host.stringify(time))))
    else Success(time)
  }

  /** A string containing 'T' that parses as a date is replaced by its local short time;
      everything else is kept. So the step changes a value only into the host's short time of
      a string containing 'T', and it keeps strings strings. */
  function FormatTime(timeString: JsValue, host: Host): (r: JsValue)
    ensures r.Str? <==> timeString.Str?
    ensures timeString.Str? && 'T' in timeString.s && host.localTime(timeString.s).Some? ==>
              r == Str(host.localTime(timeString.s).value)
    ensures r != timeString ==>
              timeString.Str? && 'T' in timeString.s && host.localTime(timeString.s) == Some(r.s)
  {
    if timeString.Str? && 'T' in timeString.s then
      match host.localTime(timeString.s)
      case Some(short) => Str(short)
      case None => timeString
    else timeString
  }

  /** The extraction of the four booking values from the request parameters */
  function ExtractBooking(params: map<string, JsValue>, host: Host): Result<Booking, JsError>
  {
    match ResolveTime(Param(params, "time"), host)
    case Failure(e) => Failure(e)
    case Success(timeString) =>
      Success(Booking(ExtractName(Param(params, "name")), ExtractEmail(Param(params, "email")),
                      ExtractPhone(Param(params, "phone_number")), FormatTime(timeString, host)))
  }

  // A reference description of the extraction: one ordered list of keys per field, and what
  // the field falls back to when none of those keys holds a truthy value.

  /** The fallback of a field whose keys are all falsy */
  datatype Fallback =
    | KeepValue            // the container itself
    | FirstElementOrValue  // an array's first element, an object itself
    | Stringified          // the JSON text of the container

  /** The keys a field tries, in precedence order, and its fallback */
  datatype FieldRule = FieldRule(keys: seq<string>, fallback: Fallback)

  const NameRule: FieldRule := FieldRule(["name"], KeepValue)
  const EmailRule: FieldRule := FieldRule(["email", "value"], FirstElementOrValue)
  const PhoneRule: FieldRule := FieldRule(["phone_number", "value"], FirstElementOrValue)
  const TimeRule: FieldRule := FieldRule(["date_time", "value"], Stringified)

  /** The value under the first of `keys` that holds a truthy value, if any does */
  function FirstTruthyKey(v: JsValue, keys: seq<string>): (r: Option<JsValue>)
    ensures r.None? <==> forall k | 0 <= k < |keys| :: !Truthy(Get(v, keys[k]))
    ensures forall k | 0 <= k < |keys| && Truthy(Get(v, keys[k])) && (forall j | 0 <= j < k :: !Truthy(Get(v, keys[j]))) ::
              r == Some(Get(v, keys[k]))
  {
    if keys == [] then None
    else if Truthy(Get(v, keys[0])) then Some(Get(v, keys[0]))
    else FirstTruthyKey(v, keys[1..])
  }

  /** A container resolved by a field rule */
  function Resolve(rule: FieldRule, v: JsValue, host: Host): JsValue
    requires v.Obj? || v.Arr?
  {
    match FirstTruthyKey(v, rule.keys)
    case Some(found) => found
    case None =>
      match rule.fallback
      case KeepValue => v
      case FirstElementOrValue => if v.Arr? then First(v) else v
      case Stringified => Str(host.stringify(v))
  }

  /** Every object or array is resolved by its field's rule: the first truthy value among the
      rule's keys, in order, else the rule's fallback */
  lemma ContainersFollowRules(v: JsValue, host: Host)
    requires v.Obj? || v.Arr?
    ensures ExtractName(v) == Resolve(NameRule, v, host)
    ensures ExtractEmail(v) == Resolve(EmailRule, v, host)
    ensures ExtractPhone(v) == Resolve(PhoneRule, v, host)
    ensures ResolveTime(v, host) == Success(Resolve(TimeRule, v, host))
  {
    var e, p, t := [Get(v, "email"), Get(v, "value")], [Get(v, "phone_number"), Get(v, "value")], [Get(v, "date_time"), Get(v, "value")];
    assert FirstTruthyKey(v, ["email", "value"]).None? <==> !Truthy(e[0]) && !Truthy(e[1]);
    assert FirstTruthyKey(v, ["phone_number", "value"]).None? <==> !Truthy(p[0]) && !Truthy(p[1]);
    assert FirstTruthyKey(v, ["date_time", "value"]).None? <==> !Truthy(t[0]) && !Truthy(t[1]);
  }

  /** A value that is not an object or an array is left as it is by every field; a null time
      is the one value the extraction cannot handle */
  lemma ScalarsPassThrough(v: JsValue, host: Host)
    requires !(v.Obj? || v.Arr?)
    ensures ExtractName(v) == v && ExtractEmail(v) == v && ExtractPhone(v) == v
    ensures ResolveTime(v, host) == if v.Null? then Failure(ReadOfNull("date_time")) else Success(v)
  {
  }

  /** Extraction fails only on a null time, and then it fails whatever the other parameters are */
  lemma ExtractionFailsOnlyOnNullTime(params: map<string, JsValue>, host: Host)
    ensures ExtractBooking(params, host).Failure? <==> Param(params, "time").Null?
    ensures ExtractBooking(params, host).Failure? ==> ExtractBooking(params, host).error == ReadOfNull("date_time")
  {
  }

  /** String-valued parameters reach the booking unchanged, and so does a string time that
      contains no 'T' */
  lemma StringParametersUnchanged(params: map<string, JsValue>, host: Host)
    requires !Param(params, "time").Null?
    ensures var b := ExtractBooking(params, host).value;
      && (Param(params, "name").Str? ==> b.name == Param(params, "name"))
      && (Param(params, "email").Str? ==> b.email == Param(params, "email"))
      && (Param(params, "phone_number").Str? ==> b.phoneNumber == Param(params, "phone_number"))
      && (Param(params, "time").Str? && 'T' !in Param(params, "time").s ==> b.time == Param(params, "time"))
  {
  }
}
