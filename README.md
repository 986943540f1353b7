# Smart Dentist Clinic booking webhook — a Dafny model

The webhook receives fulfillment requests from a conversational-agent platform (Dialogflow). It looks up the request's intent in a table of three handlers: welcome, fallback and bookAppointment. The booking handler does four things:

- It resolves the loosely typed `name`, `email`, `phone_number` and `time` parameters into four values.
- It stores an appointment row.
- It e-mails a confirmation and sends a WhatsApp message to the patient's number, written in international form.
- It replies to the agent with a confirmation text.

This project models that logic in `dialogflow.js` as pure functions over a closed type of JSON values, and proves properties about it.

- `wrappers.dfy` (module `Wrappers`): `Option` and `Result`.
- `js_value.dfy` (module `JsValues`): the JSON values a request can carry (`Undefined | Null | Bool | Num | Str | Obj | Arr`). It also holds the bits of JavaScript the handler relies on:
  - `typeof … === 'object'`
  - truthiness
  - the `a || b || c` chain (`OrChain`)
  - property and index reads
  - the string conversion a template literal applies (`ToJsString`). This conversion can throw: on a JSON object with an own `toString` key, that key's value is not callable, and the inherited `valueOf` returns the object itself, so no primitive value is found.
- `phone.dfy` (module `PhoneFormat`): the WhatsApp number normalisation. It removes every character of `[\s\-\(\)]`, where `\s` is ECMAScript's WhiteSpace and LineTerminator set, written out. Then a number that does not start with `+` gets `+92` in place of a leading trunk `0`, or in front of it.
- `parameters.dfy` (module `Parameters`): extracting the four booking values, with the exact key precedence of the code. It also holds a reference description of that precedence: one ordered key list and one fallback per field (`FieldRule`, `Resolve`), and a lemma tying both together.
- `webhook.dfy` (module `Webhook`): the intent table, the three handlers, the outbound calls the booking handler attempts, the message texts, and an end-to-end booking scenario.

How the model treats the handler:

- The booking handler is a function from the request parameters to a `Run`. A `Run` is either the outbound calls attempted, in order, plus the replies added, or the TypeError that stopped the handler before it attempted any call.
- The results of the outbound calls are not an input of the model: the handler only logs them.
- The straight-line reassignments of local variables in the handler become let-bindings. The code has no loops.
- Host services the model does not interpret are parameters (`Host`):
  - `JSON.stringify`;
  - `new Date(s)` followed by `toLocaleTimeString`, which is `None` for an invalid date.
- The environment variables read during a request are an `Env`.

Behaviour of the code that the model keeps, including its error paths:

- Parameter extraction can fail: a `null` time passes the `typeof time === 'object'` test on line 74, and reading `time.date_time` on line 76 then throws. The model makes this an explicit error, `ReadOfNull("date_time")`, with no call attempted and no reply (`ExtractionFailsOnlyOnNullTime`, `BookingAttempts`).
- The first interpolation of the four values is in the log lines 87-88. A value that cannot be converted to a string throws there, also before any call.
- For `email` and `phone_number`, a container without a recognised key is kept as it is (an object) or replaced by its first element (an array), which is `undefined` for an empty array. Only `time` falls back to a JSON dump, and `name` keeps the container.
- The WhatsApp message is attempted only when the extracted phone number is a string. On any other value, `replace` throws inside the try block of lines 118-140, and nothing is sent.
- The three outbound calls are awaited one after another (lines 92, 106, 132). So the model attempts them in that order: insert, e-mail, WhatsApp.

## Model

| member | source | states |
|---|---|---|
| `JsValues.IsObjectType` | dialogflow.js:59-74 | `typeof v === 'object'`, which holds of null, objects and arrays (the tests on lines 59, 63, 68 and 74); `ScalarsPassThrough` and `ContainersFollowRules` state what the extraction does on each side of the `typeof … === 'object' && … !== null` test, with `null` counted with the scalars |
| `JsValues.Truthy` | dialogflow.js:59-76 | JavaScript truthiness, used by the test of line 59 and the logical-or chains of lines 65, 69 and 76; `OrChain` and `FirstTruthyKey` state the chains in its terms |
| `JsValues.Get` | dialogflow.js:59-76 | a property read such as `email.value`, `undefined` for a missing key; `ContainersFollowRules` states the extraction in its terms |
| `JsValues.First` | dialogflow.js:65-69 | the `[0]` read of an array, `undefined` for an empty one; `ContainersFollowRules` states where the extraction falls back to it |
| `JsValues.OrChain` | dialogflow.js:65 | a chain of JavaScript logical-or operators ending in `last` yields the first truthy operand (every earlier operand being falsy), and `last` itself when no operand is truthy |
| `JsValues.Decimal` | dialogflow.js:142 | a number interpolated into a text is written as a non-empty string of decimal digits with no leading zero |
| `JsValues.DecimalRoundTrip` | dialogflow.js:142 | reading the written numeral back gives the number it was written from |
| `JsValues.Convertible` | dialogflow.js:87-88 | which values a template literal can write: all but an object with an own `toString` key and an array holding one at any depth of arrays; `ToJsString` and `JoinElements` are proved to fail exactly outside it |
| `JsValues.ToJsString` | dialogflow.js:87-88 | the conversion a template literal applies: it fails exactly when the value is not `Convertible`, and an object without an own `toString` key, whatever it holds, converts to `[object Object]` |
| `JsValues.JoinElements` | dialogflow.js:87-88 | an array converts to a string exactly when all its elements do |
| `PhoneFormat.IsJsWhiteSpace` | dialogflow.js:122 | `\s` of an ECMAScript regular expression: the WhiteSpace and LineTerminator code points, written out; `StripChar` states that exactly these and `-`, `(`, `)` are removed |
| `PhoneFormat.IsFormatting` | dialogflow.js:122 | the character class `[\s\-\(\)]`; `StripChar`, `StripCounts` and `StripFixedPoints` state the replace in its terms |
| `PhoneFormat.Strip` | dialogflow.js:122 | the global `replace` of `[\s\-\(\)]`; it never lengthens the number. Its other properties are stated by `StripRemovesFormatting`, `StripAppend`, `StripChar`, `StripCounts`, `StripFixedPoints` and `StripIdempotent` |
| `PhoneFormat.StripRemovesFormatting` | dialogflow.js:122 | after the `replace`, no whitespace, `-`, `(` or `)` is left |
| `PhoneFormat.StripAppend` | dialogflow.js:122 | the global `replace` acts on each character separately: it distributes over concatenation |
| `PhoneFormat.StripChar` | dialogflow.js:122 | a single character is kept exactly when it is not a formatting character |
| `PhoneFormat.StripCounts` | dialogflow.js:122 | every non-formatting character keeps its number of occurrences; formatting characters have none |
| `PhoneFormat.StripFixedPoints` | dialogflow.js:122 | the `replace` leaves a string unchanged if and only if it has no formatting character |
| `PhoneFormat.StripIdempotent` | dialogflow.js:122 | stripping twice is stripping once |
| `PhoneFormat.DigitsStripped` | dialogflow.js:122 | a string of digits is left unchanged |
| `PhoneFormat.NormalizePhone` | dialogflow.js:120-130 | the WhatsApp number is never empty and always starts with `+` |
| `PhoneFormat.NormalizeRemovesFormatting` | dialogflow.js:120-130 | the WhatsApp number contains no whitespace, `-`, `(` or `)` |
| `PhoneFormat.NormalizeKeepsInternational` | dialogflow.js:124-130 | the stripped number is sent unchanged if and only if it starts with `+`; any other number grows by at most the three characters of `+92` |
| `PhoneFormat.NormalizeFixedPoints` | dialogflow.js:120-130 | a number is unchanged by the normalisation if and only if it starts with `+` and has no formatting character |
| `PhoneFormat.NormalizeIdempotent` | dialogflow.js:120-130 | normalising an already normalised number changes nothing |
| `PhoneFormat.NormalizeTrunk` | dialogflow.js:125-126 | a number whose stripped form is `0` followed by `rest` becomes `+92` followed by `rest` |
| `PhoneFormat.NormalizeNational` | dialogflow.js:127-129 | a number whose stripped form starts with neither `+` nor `0`, the empty one included, becomes `+92` followed by its stripped form |
| `PhoneFormat.NormalizeDashedNational` | dialogflow.js:120-126 | a number written as an area code with its trunk `0`, a dash and the subscriber digits becomes `+92`, the area code without its `0`, then the subscriber digits |
| `PhoneFormat.NormalizeTrunkExample` | dialogflow.js:120-130 | `"0300-1234567"` becomes `"+923001234567"` |
| `PhoneFormat.NormalizeDigitsOnly` | dialogflow.js:127-129 | a string of digits not starting with `0` becomes `+92` followed by those digits |
| `PhoneFormat.NormalizeNoTrunkExample` | dialogflow.js:120-130 | `"3001234567"` becomes `"+923001234567"` |
| `Parameters.Param` | dialogflow.js:56 | one property of the destructured `agent.parameters`, `undefined` when the request lacks it; `ScenarioExtraction` and `ExtractionFailsOnlyOnNullTime` use it |
| `Parameters.ExtractName` | dialogflow.js:59-61 | the name is the parameter itself or, for an object, its truthy `.name` |
| `Parameters.ExtractEmail` | dialogflow.js:63-66 | the address is the parameter itself, its truthy `.email` or `.value`, or an array's first element; `ContainersFollowRules` fixes which one |
| `Parameters.ExtractPhone` | dialogflow.js:68-70 | the number is the parameter itself, its truthy `.phone_number` or `.value`, or an array's first element; `ContainersFollowRules` fixes which one |
| `Parameters.ResolveTime` | dialogflow.js:73-77 | a resolved time is the parameter itself, its truthy `.date_time` or `.value`, or the JSON dump; `ExtractionFailsOnlyOnNullTime` gives the failure case and `ContainersFollowRules` the precedence |
| `Parameters.FirstTruthyKey` | dialogflow.js:65 | it finds nothing if and only if every key reads a falsy value; otherwise it yields the value of the first key that reads a truthy one |
| `Parameters.ContainersFollowRules` | dialogflow.js:59-77 | for every object or array, each field follows its rule. `name`: `.name`, else the value itself. `email`: `.email`, then `.value`, then an array's `[0]`, else the value itself. `phone_number`: `.phone_number`, then `.value`, then `[0]`, else the value itself. `time`: `.date_time`, then `.value`, else the JSON dump |
| `Parameters.ScalarsPassThrough` | dialogflow.js:56-77 | a string, number, boolean, undefined or null reaches the booking unchanged in `name`, `email` and `phone_number`; as a time, every one of them except null is kept by the resolution of lines 73-77, and null throws there |
| `Parameters.FormatTime` | dialogflow.js:79-85 | strings stay strings and nothing else becomes one; a string containing `'T'` that the host parses becomes the host's short local time, and no other value changes |
| `Parameters.ExtractBooking` | dialogflow.js:56-85 | the four booking values; `ExtractionFailsOnlyOnNullTime`, `StringParametersUnchanged`, `ContainersFollowRules` and `ScalarsPassThrough` state its properties |
| `Parameters.ExtractionFailsOnlyOnNullTime` | dialogflow.js:73-77 | extraction fails if and only if the time parameter is null, and then with the read of `date_time` on null |
| `Parameters.StringParametersUnchanged` | dialogflow.js:56-79 | string-valued `name`, `email` and `phone_number` are kept as they came, and so is a string time without `'T'` |
| `Webhook.Dispatch` | dialogflow.js:145-148 | the intent table maps exactly `"Default Welcome Intent"` to welcome, `"Default Fallback Intent"` to fallback and `"bookAppointment"` to the booking handler, and nothing else to anything |
| `Webhook.Handle` | dialogflow.js:145-153 | handling one request through the intent table; `DispatchOutcomes` states what each intent does |
| `Webhook.DispatchOutcomes` | dialogflow.js:145-148 | an unregistered intent is not handled. Welcome adds its one greeting and fallback its two prompts, with no outbound call; bookAppointment runs the booking handler |
| `Webhook.BookAppointmentRun` | dialogflow.js:55-143 | the booking handler as a run of attempted calls and replies; `BookingAttempts`, `CompletedReplyMentionsBooking` and `RawPhoneKeptOutsideWhatsApp` state its properties |
| `Webhook.BookingAttempts` | dialogflow.js:87-142 | the handler throws if and only if the time is null, with the read of `date_time` on null, or one of the four values cannot be interpolated, with no primitive value. Otherwise it attempts one insert into `appointments` of the extracted row and one e-mail from `MailFrom` to the extracted address, with the subject of line 109 and the text `MailText` of the converted name, time and phone number. When the phone is a string, it then attempts one WhatsApp message to `whatsapp:` plus the normalised number, with the text `WhatsAppBody` of the converted name, time and phone number; otherwise no third call. Its one reply is the confirmation with the four values as the template literal writes them |
| `Webhook.EnvText` | dialogflow.js:107 | how a template literal writes an environment variable: its value, or `"undefined"` when it is unset |
| `Webhook.MailFrom` | dialogflow.js:107 | the e-mail sender, the clinic's name and `EMAIL_USER` in angle brackets; `BookingAttempts` states that every completed booking's e-mail carries it |
| `Webhook.MailText` | dialogflow.js:110 | the e-mail body of line 110; `BookingAttempts` states that the e-mail carries it with the converted name, time and phone number |
| `Webhook.WhatsAppBody` | dialogflow.js:133 | the WhatsApp body of line 133; `BookingAttempts` states that the message carries it with the converted name, time and phone number |
| `Webhook.WhatsAppCall` | dialogflow.js:117-140 | the WhatsApp message, attempted only for a string phone number; `BookingAttempts` states its destination and text |
| `Webhook.AppointmentRow` | dialogflow.js:95 | the stored row; `AppointmentRowColumns` states its columns |
| `Webhook.AppointmentRowColumns` | dialogflow.js:94-95 | the stored row has exactly the columns `name`, `email`, `phone_number` and `appointment_time`, holding the extracted name, e-mail, raw phone number and formatted time |
| `Webhook.RawPhoneKeptOutsideWhatsApp` | dialogflow.js:91-142 | the row has exactly the columns `name`, `email`, `phone_number`, `appointment_time`, and its `phone_number` is the number as the patient gave it. The reply contains that raw number. Only the WhatsApp destination uses the normalised form, which starts with `+` |
| `Webhook.ReplyText` | dialogflow.js:142 | the confirmation text; `ReplyMentionsBooking` states that it names the four values |
| `Webhook.ReplyMentionsBooking` | dialogflow.js:142 | the confirmation contains the patient's name, the time, the e-mail address and the phone number |
| `Webhook.CompletedReplyMentionsBooking` | dialogflow.js:87-142 | whatever form the four values came in (an object name, an array e-mail, a number), a completed booking's one reply contains each of them as the template literal writes it |
| `Webhook.StringBookingRun` | dialogflow.js:90-142 | a booking whose four values are strings attempts exactly the insert, the e-mail and the WhatsApp message, each with its texts, and gives the confirmation |
| `Webhook.ScenarioExtraction` | dialogflow.js:56-85 | `{name: {name: "Ali"}, email: ["ali@example.com"], phone_number: "0300-1234567", time: "2024-12-01T15:00:00Z"}` resolves to `"Ali"`, `"ali@example.com"`, `"0300-1234567"` and the host's short time (or the timestamp, if the host cannot parse it) |
| `Webhook.BookingScenario` | dialogflow.js:56-142 | for the scenario, handling `bookAppointment` attempts exactly one insert, one e-mail to `ali@example.com` and one WhatsApp message to `whatsapp:+923001234567`, and adds one confirmation |
| `Webhook.BookingScenarioReply` | dialogflow.js:142 | the scenario's confirmation contains `"Ali"`, the time, `"ali@example.com"` and the un-normalised `"0300-1234567"` |

## Left out

- The Express server, its routes, CORS, `listen`, and the console logging (dialogflow.js:1-44, 156-158, and the log calls in the handler): these are I/O. The one effect of the log lines that is modelled is the string conversion they force on lines 87-88.
- Building the Supabase, Nodemailer and Twilio clients from configuration (dialogflow.js:9-32): this is start-up wiring.
- The three outbound calls: each is only an attempted `Effect` value. What the store, mail server or Twilio do with it, and whether it succeeds, are outside this code. The handler ignores the outcome, so the model takes none as input.
- How Supabase serialises the row: an undefined column is dropped from the JSON body. The model keeps the row as a map from column names to values, `Undefined` included.
- Date parsing and `toLocaleTimeString` (dialogflow.js:80-83): these depend on the host's time zone and locale. They are the uninterpreted `Host.localTime`, so the short-time format itself is not stated.
- The exact output of `JSON.stringify` (dialogflow.js:76): it is the uninterpreted `Host.stringify`, so the dump's being non-empty is not proved.
- `WebhookClient.handleRequest` (dialogflow.js:44, 153) belongs to a library that is not part of this model. That covers its default for unmapped intents (the model's `Handle` yields `None`), how it reports a handler that throws, and the asynchronous delivery of `agent.add`.
- twilio.js: a one-shot script that checks one environment variable and sends a fixed message. It has no logic.
- Numbers are modelled as integers. Fractions, `NaN`, and the exponent notation JavaScript uses for magnitudes of 10^21 and above are not modelled.
- Integers beyond 2^53: JavaScript rounds them to a double and writes the shortest digits that read back to it, padded with zeros (2^60 is written `1152921504606847000`). The model keeps every integer exact and writes every digit.
- Strings are sequences of Unicode scalar values rather than UTF-16 code units, so lone surrogates cannot be represented. No modelled operation depends on the difference: `substring(1)` only ever drops a leading `0`.
- The end-to-end scenario's `Webhook.BookingScenarioReply` states only that the time appears in the reply, not its `HH:MM` shape, because the locale formatting is not interpreted.
