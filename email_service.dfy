/** The booking notifier: the 24-hour to 12-hour time formatter and the
    function that turns a booking into one request to the transactional email
    provider. The network call itself is a parameter (the transport), which
    answers a request with one of three outcomes. */
module EmailService {
  import opened Text

  /** A booking as the wizard collects it. `email` is optional; JavaScript
      treats a missing value and the empty string alike as "not given". */
  datatype BookingDetails = BookingDetails(
    name: string,
    phone: string,
    pickup: string,
    drop: string,
    date: string,
    time: string,
    vehicleType: string,
    email: Option<string>)

  /** JavaScript truthiness of an optional string. */
  predicate Given(s: Option<string>) {
    s.Some? && s.value != ""
  }

  // ----- formatTo12Hour -----

  /** A time whose text before the first ':' is a two-digit hour 00..23 and
      which has at least one ':'. Anything may follow the colon. */
  predicate WellFormedTime(time24: string) {
    var parts := Split(time24, ':');
    |parts| >= 2 && |parts[0]| == 2 && AllDigits(parts[0]) && ParseDecimal(parts[0]) <= 23
  }

  /** parseInt of the text before the first ':'. */
  function HourOf(time24: string): nat
    requires WellFormedTime(time24)
  {
    ParseDecimal(Split(time24, ':')[0])
  }

  /** The text between the first and the second ':' (or the end). */
  function MinuteOf(time24: string): string
    requires WellFormedTime(time24)
  {
    Split(time24, ':')[1]
  }

  /** `hour % 12 || 12`: the remainder, with 0 (which JavaScript treats as
      false) replaced by 12. */
  function Hour12(hour: nat): nat {
    if hour % 12 == 0 then 12 else hour % 12
  }

  function Suffix(hour: nat): string {
    if hour >= 12 then "PM" else "AM"
  }

  /** formatTo12Hour: the printed hour, a colon, the minute text as it is, a
      space and the suffix. */
  function FormatTo12Hour(time24: string): (r: string)
    requires WellFormedTime(time24)
    ensures |r| >= 5 && IsDigit(r[0]) && r[0] != '0'
    ensures r[|r| - 2..] == (if HourOf(time24) >= 12 then "PM" else "AM")
  {
    var hour := HourOf(time24);
    var minute := MinuteOf(time24);
    var ampm := Suffix(hour);
    var r := Decimal(Hour12(hour)) + ":" + minute + " " + ampm;
    assert r[|r| - 2..] == ampm;
    r
  }

  /** A reading of a 12-hour clock text: the hour, the minute text and whether
      it is afternoon. */
  datatype Clock12 = Clock12(hour: nat, minute: string, pm: bool)

  /** Reads "<digits>:<minute text> AM|PM" back; the partner of FormatTo12Hour. */
  function Parse12Hour(r: string): Option<Clock12> {
    if ':' !in r then None
    else
      var k := IndexOf(r, ':');
      ReadClock(r[..k], r[k + 1..])
  }

  /** The hour digits before the first ':' and the text after it. */
  function ReadClock(hourText: string, rest: string): Option<Clock12> {
    if hourText == [] || !AllDigits(hourText) || |rest| < 3 then None
    else
      var minute, suffix := rest[..|rest| - 3], rest[|rest| - 3..];
      if suffix == " AM" then Some(Clock12(ParseDecimal(hourText), minute, false))
      else if suffix == " PM" then Some(Clock12(ParseDecimal(hourText), minute, true))
      else None
  }

  /** The 24-hour hour a 12-hour reading stands for. */
  function To24(c: Clock12): nat {
    if c.pm then (if c.hour == 12 then 12 else c.hour + 12)
    else (if c.hour == 12 then 0 else c.hour)
  }

  /** Any positive hour, colon, text, space and suffix reads back as itself. */
  lemma Parse12HourOf(h: nat, m: string, hour: nat)
    requires h > 0
    ensures Parse12Hour(Decimal(h) + ":" + m + " " + Suffix(hour)) == Some(Clock12(h, m, hour >= 12))
  {
    var d, ampm := Decimal(h), Suffix(hour);
    var rest := m + " " + ampm;
    var r := d + ":" + m + " " + ampm;
    assert r == d + [':'] + rest;
    assert ':' !in d by {
      assert forall i :: 0 <= i < |d| ==> IsDigit(d[i]);
    }
    IndexOfAfter(d, ':', rest);
    assert r[..|d|] == d && r[|d| + 1..] == rest;
    assert Parse12Hour(r) == ReadClock(d, rest);
    ReadClockOf(d, m, hour);
    ParseDecimalOfDecimal(h);
  }

  lemma ReadClockOf(d: string, m: string, hour: nat)
    requires d != [] && AllDigits(d)
    ensures ReadClock(d, m + " " + Suffix(hour)) == Some(Clock12(ParseDecimal(d), m, hour >= 12))
  {
    var rest := m + " " + Suffix(hour);
    assert rest[|rest| - 3..] == " " + Suffix(hour);
    assert rest[..|rest| - 3] == m;
    if hour >= 12 {
      assert rest[|rest| - 3..] != " AM" by { assert rest[|rest| - 2] == 'P'; }
    }
  }

  /** What the formatter promises: the printed hour lies in 1..12, agrees with
      the 24-hour hour modulo 12 and has no leading zero; the suffix is "PM"
      exactly from hour 12 on; the minute text is passed through untouched; and
      reading the result back recovers the 24-hour hour. */
  lemma FormatTo12HourMeaning(time24: string)
    requires WellFormedTime(time24)
    ensures var r := FormatTo12Hour(time24);
            var c := Parse12Hour(r);
            && r[0] != '0'
            && c.Some?
            && 1 <= c.value.hour <= 12
            && c.value.hour % 12 == HourOf(time24) % 12
            && (c.value.pm <==> HourOf(time24) >= 12)
            && c.value.minute == MinuteOf(time24)
            && To24(c.value) == HourOf(time24)
  {
    var hour := HourOf(time24);
    Parse12HourOf(Hour12(hour), MinuteOf(time24), hour);
    ParseDecimalOfDecimal(Hour12(hour));
    assert hour <= 23;
  }

  /** A two-digit hour, a colon and a minute text without a further colon. */
  lemma TimeParts(h: string, m: string)
    requires |h| == 2 && AllDigits(h) && ParseDecimal(h) <= 23 && ':' !in m
    ensures WellFormedTime(h + ":" + m)
    ensures FormatTo12Hour(h + ":" + m) == Decimal(Hour12(ParseDecimal(h))) + ":" + m + " " + Suffix(ParseDecimal(h))
  {
    assert ':' !in h;
    SplitAtFirst(h, ':', m);
    assert h + ":" + m == h + [':'] + m;
  }

  /** One worked example: the text "hh:mm", its parsed hour and the printed hour. */
  lemma Example(h: string, m: string, hour: nat, printed: string)
    requires |h| == 2 && AllDigits(h) && ParseDecimal(h) == hour <= 23 && ':' !in m
    requires Decimal(Hour12(hour)) == printed
    ensures WellFormedTime(h + ":" + m)
    ensures FormatTo12Hour(h + ":" + m) == printed + ":" + m + " " + Suffix(hour)
  {
    TimeParts(h, m);
  }

  /** Hour 0 prints as 12, before noon. */
  lemma FormatMidnight()
    ensures WellFormedTime("00:00") && FormatTo12Hour("00:00") == "12:00 AM"
  {
    assert "00:00" == "00" + ":" + "00" && ParseDecimal("00") == 0;
    assert Hour12(0) == 12 && Decimal(12) == "12";
    assert Suffix(0) == "AM" && "12:00 AM" == "12" + ":" + "00" + " " + "AM";
    Example("00", "00", 0, "12");
  }

  /** Hour 12 prints as 12, after noon. */
  lemma FormatNoon()
    ensures WellFormedTime("12:00") && FormatTo12Hour("12:00") == "12:00 PM"
  {
    assert "12:00" == "12" + ":" + "00" && ParseDecimal("12") == 12;
    assert Hour12(12) == 12 && Decimal(12) == "12";
    assert Suffix(12) == "PM" && "12:00 PM" == "12" + ":" + "00" + " " + "PM";
    Example("12", "00", 12, "12");
  }

  /** An afternoon hour drops by twelve; the minutes keep their zero. */
  lemma FormatAfternoon()
    ensures WellFormedTime("13:05") && FormatTo12Hour("13:05") == "1:05 PM"
  {
    assert "13:05" == "13" + ":" + "05" && ParseDecimal("13") == 13;
    assert Hour12(13) == 1 && Decimal(1) == "1";
    assert Suffix(13) == "PM" && "1:05 PM" == "1" + ":" + "05" + " " + "PM";
    Example("13", "05", 13, "1");
  }

  /** The last minute of the day. */
  lemma FormatLastMinute()
    ensures WellFormedTime("23:59") && FormatTo12Hour("23:59") == "11:59 PM"
  {
    assert "23:59" == "23" + ":" + "59" && ParseDecimal("23") == 23;
    assert Hour12(23) == 11 && Decimal(11) == "11";
    assert Suffix(23) == "PM" && "11:59 PM" == "11" + ":" + "59" + " " + "PM";
    Example("23", "59", 23, "11");
  }

  /** The printed hour has no leading zero. */
  lemma FormatMorning()
    ensures WellFormedTime("07:05") && FormatTo12Hour("07:05") == "7:05 AM"
  {
    assert "07:05" == "07" + ":" + "05" && ParseDecimal("07") == 7;
    assert Hour12(7) == 7 && Decimal(7) == "7";
    assert Suffix(7) == "AM" && "7:05 AM" == "7" + ":" + "05" + " " + "AM";
    Example("07", "05", 7, "7");
  }

  /** The time the wizard sends: " (IST)" is part of the minute text, so the
      suffix comes after it. */
  lemma FormatAnnotated()
    ensures WellFormedTime("14:30 (IST)") && FormatTo12Hour("14:30 (IST)") == "2:30 (IST) PM"
  {
    assert "14:30 (IST)" == "14" + ":" + "30 (IST)" && ParseDecimal("14") == 14;
    assert ':' !in "30 (IST)" && Suffix(14) == "PM";
    assert "2:30 (IST) PM" == "2" + ":" + "30 (IST)" + " " + "PM";
    assert Hour12(14) == 2 && Decimal(2) == "2";
    Example("14", "30 (IST)", 14, "2");
  }

  // ----- sendBookingEmail -----

  /** A name and an address, as the provider's sender and "to" entries. */
  datatype Contact = Contact(email: string, name: string)

  const Endpoint := "https://api.brevo.com/v3/smtp/email"
  const Admin := Contact("trustyyellowcabs@gmail.com", "Trustyyellowcabs Admin")
  const Sender := Contact("trustyyellowcabs@gmail.com", "Trustyyellowcabs Booking")

  /** The cells of the HTML table in the message body, and the target of its
      "Call Customer Now" link; the surrounding markup is fixed. */
  datatype EmailBody = EmailBody(
    customer: string,
    phone: string,
    pickup: string,
    drop: string,
    dateTime: string,
    vehicle: string,
    callLink: string)

  datatype EmailRequest = EmailRequest(
    url: string,
    headers: seq<(string, string)>,
    sender: Contact,
    to: seq<Contact>,
    subject: string,
    body: EmailBody)

  /** What the transport makes of a request: a response whose status is ok, a
      response whose status is not ok, or a thrown error (no response at all). */
  datatype TransportResult = ResponseOk | ResponseNotOk | NetworkError

  /** sendBookingEmail. Without an API key it gives up before building
      anything. Otherwise it addresses the admin, and the customer as well when
      an email was given, formats the time for the body, hands the request to
      the transport and reports whether the response was ok; a failed response
      and a thrown error both come back as false. */
  method SendBookingEmail(apiKey: Option<string>, details: BookingDetails,
                          transport: EmailRequest -> TransportResult)
    returns (delivered: bool, request: Option<EmailRequest>)
    requires Given(apiKey) ==> WellFormedTime(details.time)
    ensures request.Some? <==> Given(apiKey)
    ensures delivered <==> request.Some? && transport(request.value) == ResponseOk
    ensures request.Some? ==>
              var req := request.value;
              && req.url == Endpoint
              && req.sender == Sender
              && |req.to| == (if Given(details.email) then 2 else 1)
              && req.to[0] == Admin
              && (Given(details.email) ==> req.to[1] == Contact(details.email.value, details.name))
              && req.subject == "New Ride Booking: " + details.pickup + " to " + details.drop
              && req.headers == [("accept", "application/json"), ("api-key", apiKey.value),
                                 ("content-type", "application/json")]
              && req.body == EmailBody(details.name, details.phone, details.pickup, details.drop,
                                       details.date + " at " + FormatTo12Hour(details.time),
                                       details.vehicleType, "tel:" + details.phone)
  {
    if !Given(apiKey) {
      return false, None;
    }
    var recipients := [Admin];
    if Given(details.email) {
      recipients := recipients + [Contact(details.email.value, details.name)];
    }
    var formattedTime := FormatTo12Hour(details.time);
    var body := EmailBody(details.name, details.phone, details.pickup, details.drop,
                          details.date + " at " + formattedTime, details.vehicleType,
                          "tel:" + details.phone);
    var req := EmailRequest(
      Endpoint,
      [("accept", "application/json"), ("api-key", apiKey.value), ("content-type", "application/json")],
      Sender, recipients,
      "New Ride Booking: " + details.pickup + " to " + details.drop,
      body);
    request := Some(req);
    match transport(req)
    case ResponseOk => delivered := true;
    case ResponseNotOk => delivered := false;
    case NetworkError => delivered := false;
  }
}
