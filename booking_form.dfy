/** The two-step booking wizard: journey details on step 1, vehicle and
    contact details on step 2, then a submit that notifies by email and always
    shows the confirmation screen, which offers a chat link and a way back to
    a new booking. */
module BookingForm {
  import opened Text
  import opened EmailService

  /** The text of the vehicle enumeration's SEDAN member, the default choice. */
  const SedanLabel := "Sedan"

  /** The form record before the page's clock is read: every text field
      empty, a sedan, and no email (the wizard has no email field). */
  const EmptyBooking := BookingDetails("", "", "", "", "", "", SedanLabel, None)

  /** The named inputs of the wizard; a change event carries one of these names. */
  datatype BookingField = Name | Phone | Pickup | Drop | Date | Time | VehicleType

  function FieldValue(d: BookingDetails, f: BookingField): string {
    match f
    case Name => d.name
    case Phone => d.phone
    case Pickup => d.pickup
    case Drop => d.drop
    case Date => d.date
    case Time => d.time
    case VehicleType => d.vehicleType
  }

  /** `{ ...prev, [name]: value }`: the named field takes the value and every
      other field keeps its own. */
  function WithField(d: BookingDetails, f: BookingField, value: string): (r: BookingDetails)
    ensures FieldValue(r, f) == value
    ensures forall g :: g != f ==> FieldValue(r, g) == FieldValue(d, g)
    ensures r.email == d.email
  {
    match f
    case Name => d.(name := value)
    case Phone => d.(phone := value)
    case Pickup => d.(pickup := value)
    case Drop => d.(drop := value)
    case Date => d.(date := value)
    case Time => d.(time := value)
    case VehicleType => d.(vehicleType := value)
  }

  /** The guard of "Continue": the four journey fields are all filled in. */
  predicate JourneyComplete(d: BookingDetails) {
    d.pickup != "" && d.drop != "" && d.date != "" && d.time != ""
  }

  /** What a time input yields: "hh:mm" with an hour 00..23 and no further colon. */
  predicate TimeInputValue(t: string) {
    |t| >= 3 && t[2] == ':' && AllDigits(t[..2]) && ParseDecimal(t[..2]) <= 23 && ':' !in t[3..]
  }

  /** The copy of the record handed to the notifier: the time carries " (IST)". */
  function ForNotifier(d: BookingDetails): (r: BookingDetails)
    ensures r.time == d.time + " (IST)"
    ensures r == d.(time := r.time)
  {
    d.(time := d.time + " (IST)")
  }

  /** A time input value with " (IST)" appended is still accepted by the
      formatter, and the annotation ends up in the minute text: the email shows
      "h:mm (IST) AM|PM". */
  lemma AnnotatedTimeFormat(t: string)
    requires TimeInputValue(t)
    ensures WellFormedTime(t + " (IST)")
    ensures HourOf(t + " (IST)") == ParseDecimal(t[..2])
    ensures MinuteOf(t + " (IST)") == t[3..] + " (IST)"
    ensures FormatTo12Hour(t + " (IST)")
            == Decimal(Hour12(ParseDecimal(t[..2]))) + ":" + t[3..] + " (IST) " + Suffix(ParseDecimal(t[..2]))
  {
    var h, m := t[..2], t[3..] + " (IST)";
    assert t + " (IST)" == h + [':'] + m;
    assert ':' !in h by {
      assert forall i :: 0 <= i < |h| ==> IsDigit(h[i]);
    }
    assert ':' !in m by {
      assert ':' !in t[3..] && ':' !in " (IST)";
    }
    SplitAtFirst(h, ':', m);
  }

  // ----- the chat confirmation link -----

  const ChatPrefix := "https://wa.me/918870088020?text="

  /** The lines of the confirmation template, in order. Each but the last
      ends in a literal "%0A", the author's hand-written encoding of a line
      break; the template's own line breaks come after them. */
  function ConfirmationLines(d: BookingDetails): seq<string> {
    [ ConfirmationHeader,
      "*Name:* " + d.name + "%0A",
      "*Phone:* " + d.phone + "%0A",
      "*Vehicle:* " + d.vehicleType + "%0A",
      "*From:* " + d.pickup + "%0A",
      "*To:* " + d.drop + "%0A",
      "*Date:* " + d.date + "%0A",
      "*Time:* " + d.time + " (IST)%0A%0A",
      ConfirmationFooter ]
  }

  const ConfirmationHeader := "*NEW RIDE BOOKING CONFIRMATION*%0A"
  const ConfirmationFooter := "I just submitted my booking on " + "your website. Please confirm availability."

  lemma HeaderUnbroken() ensures '\n' !in ConfirmationHeader {}

  /** The footer is written as two pieces only so that the absence of a line
      break can be checked piece by piece; its text is the template's. */
  lemma FooterUnbroken() ensures '\n' !in ConfirmationFooter {
    assert '\n' !in "I just submitted my booking on ";
    assert '\n' !in "your website. Please confirm availability.";
    NotInBoth('\n', "I just submitted my booking on ", "your website. Please confirm availability.");
  }

  /** The message of handleWhatsAppConfirm: the template's lines with its line
      breaks between them. */
  function ConfirmationMessage(d: BookingDetails): string {
    Join(ConfirmationLines(d), '\n')
  }

  predicate NoLineBreaks(d: BookingDetails) {
    '\n' !in d.name && '\n' !in d.phone && '\n' !in d.vehicleType && '\n' !in d.pickup
    && '\n' !in d.drop && '\n' !in d.date && '\n' !in d.time
  }

  /** When no field holds a line break, splitting the message at line breaks
      gives back exactly the template's lines, so each field can be read off
      its own line. */
  lemma ConfirmationMessageLines(d: BookingDetails)
    requires NoLineBreaks(d)
    ensures Split(ConfirmationMessage(d), '\n') == ConfirmationLines(d)
  {
    var ls := ConfirmationLines(d);
    NotInConcat('\n', "*Name:* ", d.name, "%0A");
    NotInConcat('\n', "*Phone:* ", d.phone, "%0A");
    NotInConcat('\n', "*Vehicle:* ", d.vehicleType, "%0A");
    NotInConcat('\n', "*From:* ", d.pickup, "%0A");
    NotInConcat('\n', "*To:* ", d.drop, "%0A");
    NotInConcat('\n', "*Date:* ", d.date, "%0A");
    NotInConcat('\n', "*Time:* ", d.time, " (IST)%0A%0A");
    HeaderUnbroken();
    FooterUnbroken();
    assert forall i :: 0 <= i < |ls| ==> '\n' !in ls[i] by {
      assert forall i :: 1 <= i < 8 ==> '\n' !in ls[i];
    }
    SplitJoin(ls, '\n');
  }

  /** The string handleWhatsAppConfirm passes to `window.open`. The message
      goes into it without any encoding: the user's text stands in that string
      exactly as typed. */
  function ConfirmationUrl(d: BookingDetails): (r: string)
    ensures |r| >= |ChatPrefix| && r[..|ChatPrefix|] == ChatPrefix
    ensures r[|ChatPrefix|..] == ConfirmationMessage(d)
    ensures Contains(r, "*Name:* " + d.name + "%0A")
    ensures Contains(r, "*Time:* " + d.time + " (IST)%0A%0A")
  {
    var m := ConfirmationMessage(d);
    var ls := ConfirmationLines(d);
    JoinContains(ls, '\n', 1);
    JoinContains(ls, '\n', 7);
    ContainsAfter(ChatPrefix, m, ls[1]);
    ContainsAfter(ChatPrefix, m, ls[7]);
    var r := ChatPrefix + m;
    assert r[..|ChatPrefix|] == ChatPrefix && r[|ChatPrefix|..] == m;
    r
  }

  /** The example booking: name, time and the business number appear in the
      link as they are. */
  lemma ConfirmationUrlExample()
    ensures var d := BookingDetails("Asha", "9999999999", "Airport", "Hotel", "2025-01-10", "14:30", SedanLabel, None);
            && ConfirmationUrl(d)[..|ChatPrefix|] == "https://wa.me/918870088020?text="
            && Contains(ConfirmationUrl(d), "*Name:* Asha%0A")
            && Contains(ConfirmationUrl(d), "*Time:* 14:30 (IST)%0A%0A")
  {
    var d := BookingDetails("Asha", "9999999999", "Airport", "Hotel", "2025-01-10", "14:30", SedanLabel, None);
    assert "*Name:* " + d.name + "%0A" == "*Name:* Asha%0A";
    assert "*Time:* " + d.time + " (IST)%0A%0A" == "*Time:* 14:30 (IST)%0A%0A";
  }

  // ----- the wizard's state -----

  class BookingWizard {
    var step: int
    var formData: BookingDetails
    var submitted: bool
    var loading: bool
    var indiaToday: string

    /** Between events: the step is 1 or 2, no email has been entered (there
        is no email input) and no submission is in flight. */
    ghost predicate Valid()
      reads this
    {
      (step == 1 || step == 2) && formData.email == None && !loading
    }

    /** The component's first render: step 1, not submitted, not loading, an
        empty record with a sedan, and no minimum date yet. */
    constructor ()
      ensures Valid()
      ensures step == 1 && !submitted && !loading
      ensures formData == EmptyBooking && indiaToday == ""
    {
      step := 1;
      formData := EmptyBooking;
      submitted := false;
      loading := false;
      indiaToday := "";
    }

    /** The mount effect, given the date and time the clock shows in India:
        they fill the date and time fields and the date becomes the earliest
        selectable one; nothing else changes. */
    method Mount(date: string, time: string)
      requires Valid()
      modifies this
      ensures Valid()
      ensures formData == old(formData).(date := date, time := time)
      ensures indiaToday == date
      ensures step == old(step) && submitted == old(submitted) && loading == old(loading)
    {
      formData := formData.(date := date, time := time);
      indiaToday := date;
    }

    /** handleChange: only the named field of the record takes the new value. */
    method HandleChange(field: BookingField, value: string)
      requires Valid()
      modifies this
      ensures Valid()
      ensures formData == WithField(old(formData), field, value)
      ensures step == old(step) && submitted == old(submitted)
      ensures loading == old(loading) && indiaToday == old(indiaToday)
    {
      formData := WithField(formData, field, value);
    }

    /** nextStep: with pickup, drop, date and time all filled in it moves to
        step 2; otherwise it raises the alert and leaves everything as it was. */
    method NextStep() returns (alerted: bool)
      requires Valid()
      modifies this
      ensures Valid()
      ensures alerted <==> !JourneyComplete(formData)
      ensures step == if alerted then old(step) else 2
      ensures formData == old(formData) && submitted == old(submitted)
      ensures loading == old(loading) && indiaToday == old(indiaToday)
    {
      if JourneyComplete(formData) {
        step := 2;
        alerted := false;
      } else {
        alerted := true;
      }
    }

    /** prevStep: back to step 1 with every entered field kept. */
    method PrevStep()
      requires Valid()
      modifies this
      ensures Valid()
      ensures step == 1
      ensures formData == old(formData) && submitted == old(submitted)
      ensures loading == old(loading) && indiaToday == old(indiaToday)
    {
      step := 1;
    }

    /** handleSubmit: marks the form busy, hands the notifier a copy of the
        record whose time carries " (IST)", and then, whatever the notifier
        reports, shows the confirmation screen and clears the busy mark. The
        record itself keeps its time. The notifier's request, when it makes
        one, goes to the admin alone, carries the record's journey in its
        subject and the record's fields in its body, and shows the time in
        12-hour form with the annotation inside the minutes. */
    method HandleSubmit(apiKey: Option<string>, transport: EmailRequest -> TransportResult)
      returns (sent: BookingDetails, delivered: bool, request: Option<EmailRequest>)
      requires Valid()
      requires TimeInputValue(formData.time)
      modifies this
      ensures Valid()
      ensures submitted && !loading
      ensures formData == old(formData) && step == old(step) && indiaToday == old(indiaToday)
      ensures sent == ForNotifier(formData)
      ensures request.Some? <==> Given(apiKey)
      ensures delivered <==> request.Some? && transport(request.value) == ResponseOk
      ensures request.Some? ==> request.value.to == [Admin]
      ensures WellFormedTime(formData.time + " (IST)")
      ensures request.Some? ==>
                request.value.subject == "New Ride Booking: " + formData.pickup + " to " + formData.drop
      ensures request.Some? ==>
                request.value.body
                == EmailBody(formData.name, formData.phone, formData.pickup, formData.drop,
                             formData.date + " at " + FormatTo12Hour(formData.time + " (IST)"),
                             formData.vehicleType, "tel:" + formData.phone)
      ensures request.Some? ==>
                request.value.body.dateTime
                == formData.date + " at " + Decimal(Hour12(ParseDecimal(formData.time[..2])))
                   + ":" + formData.time[3..] + " (IST) " + Suffix(ParseDecimal(formData.time[..2]))
    {
      var d := formData;
      loading := true;
      sent := ForNotifier(d);
      AnnotatedTimeFormat(d.time);
      // sendBookingEmail catches its own failures, so the rejection branch of
      // the source's try/catch is never taken; both branches end submitted.
      delivered, request := SendBookingEmail(apiKey, sent, transport);
      assert request.Some? ==>
               request.value.body
               == EmailBody(d.name, d.phone, d.pickup, d.drop,
                            d.date + " at " + FormatTo12Hour(d.time + " (IST)"),
                            d.vehicleType, "tel:" + d.phone);
      submitted := true;
      loading := false;
    }

    /** "New Booking Request": back to step 1 of the form. The record is
        neither cleared nor given a fresh date and time. */
    method NewBooking()
      requires Valid()
      modifies this
      ensures Valid()
      ensures !submitted && step == 1
      ensures formData == old(formData) && loading == old(loading) && indiaToday == old(indiaToday)
    {
      submitted := false;
      step := 1;
    }
  }
}
