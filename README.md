# Trustyyellowcabs booking logic in Dafny

This project models the sequential logic of the Trustyyellowcabs taxi-booking
website and proves properties of it. The site has three such parts:

- **The booking notifier** (`services/emailService.ts`). `formatTo12Hour`
  turns a 24-hour time into a 12-hour one with an AM/PM suffix.
  `sendBookingEmail` builds one request for the transactional email provider
  and reports whether the provider accepted it.
- **The two-step booking wizard** (`components/BookingForm.tsx`). It is a
  small state machine over `step`, `formData`, `submitted`, `loading` and
  `indiaToday`. Its transitions are mount, field change, next, previous,
  submit and "new booking". After a submit it offers a chat confirmation
  link.
- **The bill-request page** (`pages/BillRequest.tsx`). It holds a form
  record. It composes a fixed message and opens a chat link carrying that
  message after `encodeURIComponent`.

Layout:

- `text.dfy` (module `Text`): shared helpers.
  - Decimal printing, and parsing for the digit strings `parseInt` sees.
  - JavaScript's `split` on one character, with its inverse `Join`.
  - Substring containment.
- `uri_encoding.dfy` (module `UriEncoding`): `encodeURIComponent`.
  - Written out as UTF-8 followed by percent-encoding with upper-case hex.
    The unreserved set is `A-Z a-z 0-9 - _ . ! ~ * ' ( )`.
  - Paired with a reference decoder.
- `email_service.dfy` (module `EmailService`): the notifier.
  - The booking record.
  - The formatter, with a reader for 12-hour text as its partner.
  - The request builder, as a method.
- `booking_form.dfy` (module `BookingForm`): the wizard as a class.
  - Also the confirmation message and link.
- `bill_request.dfy` (module `BillRequest`): the bill page's form as a class.
  - Also the bill message and link.

The clock, `process.env.API_KEY` and the network are parameters:

- Mount receives the date and time the page would read in the
  `Asia/Kolkata` zone.
- The API key is an `Option<string>`. `None` stands for `undefined`.
- The network is a function from the built request to one of three
  outcomes:
  - a response whose status is ok;
  - a response whose status is not ok;
  - a thrown error.

The "New Booking Request" handler (`components/BookingForm.tsx:149`) only
sets `submitted` to false and `step` to 1. The record keeps the previous
booking's fields, including its date and time. `BookingWizard.NewBooking`
models exactly that.

## Model

| member | source | states |
|---|---|---|
| Text.Split | services/emailService.ts:5 | `split(':')`: the result has at least one piece and no piece holds the separator. There are two or more pieces exactly when the separator occurs. |
| Text.JoinSplit | services/emailService.ts:5 | Joining the pieces of a split with the separator gives back the original string. |
| Text.SplitJoin | services/emailService.ts:5 | Splitting a join of separator-free pieces gives back exactly those pieces. |
| Text.Decimal | services/emailService.ts:10 | The printed number is non-empty and all digits. It has no leading zero when positive, and has one digit exactly when below 10. |
| Text.ParseDecimalOfDecimal | services/emailService.ts:6 | `parseInt(_, 10)` of the printed number gives the number back. |
| EmailService.Given | services/emailService.ts:16-29 | JavaScript truthiness of an optional string: a key or email counts as given exactly when it is defined and non-empty. `SendBookingEmail` states the early return and the second recipient in these terms. |
| EmailService.FormatTo12Hour | services/emailService.ts:4-11 | The output starts with a non-zero digit and ends in "PM" exactly when the parsed hour is 12 or more, otherwise "AM". Its remaining properties are stated by `FormatTo12HourMeaning`, `TimeParts` and the worked examples. |
| EmailService.FormatTo12HourMeaning | services/emailService.ts:4-11 | For a parsed hour in 0..23, the printed hour has no leading zero. It lies in 1..12 and agrees with the hour modulo 12. The suffix is PM exactly when the hour is 12 or more. The minute text is copied unchanged. Reading the output back recovers the 24-hour hour. |
| EmailService.Parse12HourOf | services/emailService.ts:10 | Any positive hour, ':', text, ' ' and suffix reads back as the same hour, text and half of the day. |
| EmailService.TimeParts | services/emailService.ts:5-10 | For a two-digit hour and a minute text without ':', the output is the printed hour, ':', the minute text, a space and the suffix. |
| EmailService.FormatMidnight | services/emailService.ts:8-10 | "00:00" formats as "12:00 AM". |
| EmailService.FormatNoon | services/emailService.ts:8-10 | "12:00" formats as "12:00 PM". |
| EmailService.FormatAfternoon | services/emailService.ts:8-10 | "13:05" formats as "1:05 PM". |
| EmailService.FormatLastMinute | services/emailService.ts:8-10 | "23:59" formats as "11:59 PM". |
| EmailService.FormatMorning | services/emailService.ts:6-10 | "07:05" formats as "7:05 AM", with no leading zero. |
| EmailService.FormatAnnotated | services/emailService.ts:5-10 | "14:30 (IST)" formats as "2:30 (IST) PM", because everything after the colon counts as minutes. |
| EmailService.SendBookingEmail | services/emailService.ts:13-83 | A missing or empty key returns false and builds no request. Otherwise the request goes to the provider's URL with exactly the accept, api-key and content-type headers and the fixed sender. Its recipients are the admin, then the customer exactly when an email was given. The subject is "New Ride Booking: pickup to drop". The body's cells are name, phone, pickup, drop, date + " at " + the 12-hour time and the vehicle, and its call link is "tel:" + phone. The result is true exactly when the response is ok; a non-ok response and a thrown error both give false. |
| BookingForm.WithField | components/BookingForm.tsx:54-57 | The named field takes the new value and every other field, the email included, is unchanged. |
| BookingForm.ForNotifier | components/BookingForm.tsx:88 | The notifier's copy differs from the record only in its time, which has " (IST)" appended. |
| BookingForm.AnnotatedTimeFormat | components/BookingForm.tsx:88 | A time-input value with " (IST)" appended is still accepted by the formatter. Its hour is the input's hour and its minute text is the input's minutes plus " (IST)", so the email shows "h:mm (IST) AM/PM". |
| BookingForm.JourneyComplete | components/BookingForm.tsx:60 | The guard of `nextStep`: pickup, drop, date and time are all non-empty. `BookingWizard.NextStep` states that it moves on exactly when this holds. |
| BookingForm.ConfirmationLines | components/BookingForm.tsx:70-78 | The nine template lines, each field inserted verbatim. `ConfirmationMessageLines` states that the message splits into exactly these lines. |
| BookingForm.ConfirmationMessage | components/BookingForm.tsx:70-78 | The template lines joined by line breaks. `ConfirmationMessageLines` and `ConfirmationUrl` state its properties. |
| BookingForm.ConfirmationMessageLines | components/BookingForm.tsx:70-78 | When no field holds a line break, the confirmation message splits at line breaks into exactly the template's nine lines, in order. |
| BookingForm.ConfirmationUrl | components/BookingForm.tsx:69-81 | The string passed to `window.open` is the business chat prefix followed by the message with no encoding. It contains "*Name:* " + name + "%0A" and "*Time:* " + time + " (IST)%0A%0A" with the user's text verbatim. |
| BookingForm.ConfirmationUrlExample | components/BookingForm.tsx:69-81 | For a sample booking, the link carries "*Name:* Asha%0A" and "*Time:* 14:30 (IST)%0A%0A". |
| BookingForm.BookingWizard.constructor | components/BookingForm.tsx:8-42 | The initial state is step 1, not submitted and not loading. Every text field is empty, the vehicle is a sedan, and there is no minimum date yet. |
| BookingForm.BookingWizard.Mount | components/BookingForm.tsx:44-52 | Date and time take the supplied India values and the minimum date becomes that date. Nothing else changes. |
| BookingForm.BookingWizard.HandleChange | components/BookingForm.tsx:54-57 | Only the named field of the record changes. Step, flags and minimum date are kept. |
| BookingForm.BookingWizard.NextStep | components/BookingForm.tsx:59-65 | Moves to step 2 exactly when pickup, drop, date and time are all non-empty. Otherwise it alerts and leaves the step and data unchanged. |
| BookingForm.BookingWizard.PrevStep | components/BookingForm.tsx:67 | Step becomes 1 and everything else is kept. |
| BookingForm.BookingWizard.HandleSubmit | components/BookingForm.tsx:84-96 | Always ends submitted and not loading, whatever the notifier reports. The notifier gets the record with " (IST)" added to the time, while the record keeps its own time. Any request goes to the admin alone. Its subject is "New Ride Booking: pickup to drop" from the record. Its body holds the record's name, phone, pickup, drop and vehicle, the call link "tel:" + phone, and a Date/Time cell showing "h:mm (IST) AM/PM". |
| BookingForm.BookingWizard.NewBooking | components/BookingForm.tsx:149 | Not submitted and back at step 1. The record is neither cleared nor re-seeded. |
| BillRequest.WithField | pages/BillRequest.tsx:29-32 | The named field takes the new value and every other field is unchanged. |
| BillRequest.VehicleNoText | pages/BillRequest.tsx:44 | An empty vehicle number reads "Not Mentioned"; any other is kept verbatim. |
| BillRequest.BillLines | pages/BillRequest.tsx:37-47 | The eleven template lines in source order. `BillMessageLines` states that the message splits into exactly these lines. |
| BillRequest.BillMessage | pages/BillRequest.tsx:37-47 | The template lines joined by line breaks. `BillMessageLines`, `VehicleAndFareLines` and `BillRequestUrl` state its properties. |
| BillRequest.BillMessageLines | pages/BillRequest.tsx:37-47 | When no field holds a line break, the message splits into exactly eleven lines. In order they are: header, rule, Customer, Phone, Trip Date, Pickup, Drop, Vehicle No (with the fallback), Total Fare (raw text), rule, footer. |
| BillRequest.VehicleAndFareLines | pages/BillRequest.tsx:44-45 | The message contains "*Vehicle No:* Not Mentioned" for an empty vehicle number, or the number itself otherwise. It contains the fare exactly as typed. |
| BillRequest.BillRequestUrl | pages/BillRequest.tsx:49-50 | The link is the business chat prefix followed by query-safe characters only. Decoding what follows the prefix gives back the message exactly. |
| BillRequest.BillRequestForm.constructor | pages/BillRequest.tsx:7-15 | Every field starts empty. |
| BillRequest.BillRequestForm.Mount | pages/BillRequest.tsx:17-27 | Only the date changes, to the supplied India date. |
| BillRequest.BillRequestForm.HandleChange | pages/BillRequest.tsx:29-32 | The record becomes the old record with only the named field replaced. |
| BillRequest.MountedPage | pages/BillRequest.tsx:7-27 | After the first render and mount, every field but the date is empty. |
| UriEncoding.EncodeUriComponent | pages/BillRequest.tsx:50 | The encoding is at least as long as its input and consists of unreserved characters and '%' only. |
| UriEncoding.EncodeUriComponentRoundTrip | pages/BillRequest.tsx:50 | The reference decoder inverts the encoding exactly, for every string. |
| UriEncoding.EncodedAfterPrefix | pages/BillRequest.tsx:50 | After a fixed prefix, the encoded value leaves the prefix intact, is query-safe, and decodes back to the value. |

## Left out

- The clock and time zone (`Intl.DateTimeFormat` with `Asia/Kolkata`). Mount takes the date and time text as parameters.
- `fetch`, `response.json()` and the asynchronous suspension. The transport is a parameter returning one of three outcomes. The JSON body is represented by its fields, not serialised.
- `process.env`: the API key is a parameter.
- `window.open`, `alert` and `console` output. They are side effects with no content to state. `NextStep` reports whether it alerted, and the link functions give the string passed to `window.open`.
- The HTML layout of the email body. Only its table cells and the call link are modelled. Values are inserted without HTML escaping, in the source and in the model alike.
- Rendering, styling, icons and the `InputWrapper`/`InputField` components.
- Native browser validation (`required`, `min`). The browser enforces it, not this code.
- Double submission and re-entrancy while the submit is awaiting the notifier. This is a concurrency concern.
- The vehicle enumeration's member texts. `types.ts` is not part of this model, so the default vehicle is assumed to read "Sedan".
- EmailService.FormatTo12Hour: requires a two-digit hour 00..23 before the first ':'. It does not model `parseInt` giving NaN, a one-digit hour or hours above 23.
- EmailService.SendBookingEmail: requires a well-formed time whenever a key is given, for the reason above.
- BookingForm.BookingWizard.HandleSubmit: requires the time field to hold what a time input yields ("hh:mm", hour 00..23). The catch branch of the source's try/catch is not modelled as a separate path. The notifier catches its own errors and never rejects, so that branch cannot be reached; both branches end in the same state anyway.
- UriEncoding.EncodeUriComponent: Dafny characters are Unicode scalar values, so a lone UTF-16 surrogate cannot occur. The `URIError` that `encodeURIComponent` throws for one is not modelled.
- UriEncoding.DecodeUriComponent: this is a reference partner, not a model of `decodeURIComponent`. It rejects raw non-ASCII characters and does not reject overlong UTF-8 forms. Neither can occur in the encoder's output.
