/** The bill-request page: a single form whose record is filled in field by
    field, and a submit that composes a fixed message from it and opens a chat
    link carrying that message, percent-encoded. */
module BillRequest {
  import opened Text
  import opened UriEncoding

  /** The page's form record. The vehicle number is optional: it starts out
      empty and an empty value means "not given". */
  datatype BillRequestDetails = BillRequestDetails(
    name: string,
    phone: string,
    date: string,
    pickup: string,
    drop: string,
    amount: string,
    vehicleNumber: string)

  const EmptyBill := BillRequestDetails("", "", "", "", "", "", "")

  /** The named inputs of the page. */
  datatype BillField = Name | Phone | Date | Pickup | Drop | Amount | VehicleNumber

  function FieldValue(d: BillRequestDetails, f: BillField): string {
    match f
    case Name => d.name
    case Phone => d.phone
    case Date => d.date
    case Pickup => d.pickup
    case Drop => d.drop
    case Amount => d.amount
    case VehicleNumber => d.vehicleNumber
  }

  /** `{ ...prev, [name]: value }`: the named field takes the value and every
      other field keeps its own. */
  function WithField(d: BillRequestDetails, f: BillField, value: string): (r: BillRequestDetails)
    ensures FieldValue(r, f) == value
    ensures forall g :: g != f ==> FieldValue(r, g) == FieldValue(d, g)
  {
    match f
    case Name => d.(name := value)
    case Phone => d.(phone := value)
    case Date => d.(date := value)
    case Pickup => d.(pickup := value)
    case Drop => d.(drop := value)
    case Amount => d.(amount := value)
    case VehicleNumber => d.(vehicleNumber := value)
  }

  // ----- the message -----

  const BillHeader := "*BILL REQUEST - Trustyyellowcabs*"
  const Rule := "--------------------------------"
  const BillFooter := "Please generate a bill for the above trip."

  /** `vehicleNumber || 'Not Mentioned'`. */
  function VehicleNoText(vehicleNumber: string): (r: string)
    ensures vehicleNumber == "" ==> r == "Not Mentioned"
    ensures vehicleNumber != "" ==> r == vehicleNumber
  {
    if vehicleNumber == "" then "Not Mentioned" else vehicleNumber
  }

  /** The lines of the bill-request template, in order: a header, a rule,
      Customer, Phone, Trip Date, Pickup, Drop, Vehicle No and Total Fare, a
      rule and a footer. The fare is copied as typed, without any reading as a
      number. */
  function BillLines(d: BillRequestDetails): seq<string> {
    [ BillHeader,
      Rule,
      "*Customer:* " + d.name,
      "*Phone:* " + d.phone,
      "*Trip Date:* " + d.date,
      "*Pickup:* " + d.pickup,
      "*Drop:* " + d.drop,
      "*Vehicle No:* " + VehicleNoText(d.vehicleNumber),
      "*Total Fare:* " + d.amount,
      Rule,
      BillFooter ]
  }

  /** The message of handleWhatsAppSend: the template's lines with line breaks
      between them. */
  function BillMessage(d: BillRequestDetails): string {
    Join(BillLines(d), '\n')
  }

  predicate NoLineBreaks(d: BillRequestDetails) {
    '\n' !in d.name && '\n' !in d.phone && '\n' !in d.date && '\n' !in d.pickup
    && '\n' !in d.drop && '\n' !in d.amount && '\n' !in d.vehicleNumber
  }

  lemma HeaderUnbroken() ensures '\n' !in BillHeader {}
  lemma RuleUnbroken() ensures '\n' !in Rule {}
  lemma FooterUnbroken() ensures '\n' !in BillFooter {}
  lemma NotMentionedUnbroken() ensures '\n' !in "Not Mentioned" {}

  /** When no field holds a line break, splitting the message at line breaks
      gives back exactly the eleven template lines, in their order; in
      particular line 8 is "*Vehicle No:* Not Mentioned" for an empty vehicle
      number and carries the number itself otherwise. */
  lemma BillMessageLines(d: BillRequestDetails)
    requires NoLineBreaks(d)
    ensures var lines := Split(BillMessage(d), '\n');
            && lines == BillLines(d)
            && |lines| == 11
            && lines[7] == "*Vehicle No:* " + (if d.vehicleNumber == "" then "Not Mentioned" else d.vehicleNumber)
            && lines[8] == "*Total Fare:* " + d.amount
  {
    var ls := BillLines(d);
    HeaderUnbroken();
    RuleUnbroken();
    FooterUnbroken();
    NotMentionedUnbroken();
    NotInConcat('\n', "*Customer:* ", d.name, "");
    NotInConcat('\n', "*Phone:* ", d.phone, "");
    NotInConcat('\n', "*Trip Date:* ", d.date, "");
    NotInConcat('\n', "*Pickup:* ", d.pickup, "");
    NotInConcat('\n', "*Drop:* ", d.drop, "");
    NotInConcat('\n', "*Vehicle No:* ", VehicleNoText(d.vehicleNumber), "");
    NotInConcat('\n', "*Total Fare:* ", d.amount, "");
    assert "*Customer:* " + d.name + "" == ls[2];
    assert "*Phone:* " + d.phone + "" == ls[3];
    assert "*Trip Date:* " + d.date + "" == ls[4];
    assert "*Pickup:* " + d.pickup + "" == ls[5];
    assert "*Drop:* " + d.drop + "" == ls[6];
    assert "*Vehicle No:* " + VehicleNoText(d.vehicleNumber) + "" == ls[7];
    assert "*Total Fare:* " + d.amount + "" == ls[8];
    assert forall i :: 0 <= i < |ls| ==> '\n' !in ls[i];
    SplitJoin(ls, '\n');
  }

  // ----- the link -----

  const ChatPrefix := "https://wa.me/918870088020?text="

  /** The link handleWhatsAppSend opens: the business number's chat, with the
      message encoded by encodeURIComponent as the text parameter. Everything
      after the prefix is query-safe, so no character of the user's text can
      end the parameter, and decoding it gives back the message exactly. */
  function BillRequestUrl(d: BillRequestDetails): (r: string)
    ensures |r| >= |ChatPrefix| && r[..|ChatPrefix|] == ChatPrefix
    ensures forall i :: |ChatPrefix| <= i < |r| ==> QuerySafe(r[i])
    ensures DecodeUriComponent(r[|ChatPrefix|..]) == Some(BillMessage(d))
  {
    EncodedAfterPrefix(ChatPrefix, BillMessage(d));
    ChatPrefix + EncodeUriComponent(BillMessage(d))
  }

  /** Whatever the fields hold, the message carries the vehicle line, with
      "Not Mentioned" standing in for an empty vehicle number, and the fare
      exactly as typed. */
  lemma VehicleAndFareLines(d: BillRequestDetails)
    ensures d.vehicleNumber == "" ==> Contains(BillMessage(d), "*Vehicle No:* Not Mentioned")
    ensures d.vehicleNumber != "" ==> Contains(BillMessage(d), "*Vehicle No:* " + d.vehicleNumber)
    ensures Contains(BillMessage(d), "*Total Fare:* " + d.amount)
  {
    JoinContains(BillLines(d), '\n', 7);
    JoinContains(BillLines(d), '\n', 8);
  }

  // ----- the page's state -----

  class BillRequestForm {
    var formData: BillRequestDetails

    /** The first render: every field empty. */
    constructor ()
      ensures formData == EmptyBill
    {
      formData := EmptyBill;
    }

    /** The mount effect, given today's date in India: only the date is set. */
    method Mount(indiaDate: string)
      modifies this
      ensures formData == old(formData).(date := indiaDate)
      ensures forall f :: f != Date ==> FieldValue(formData, f) == FieldValue(old(formData), f)
    {
      formData := formData.(date := indiaDate);
    }

    /** handleChange: only the named field takes the new value. */
    method HandleChange(field: BillField, value: string)
      modifies this
      ensures formData == WithField(old(formData), field, value)
    {
      formData := WithField(formData, field, value);
    }
  }

  /** Mounting a fresh page leaves every field but the date empty. */
  method MountedPage(indiaDate: string) returns (page: BillRequestForm)
    ensures page.formData == EmptyBill.(date := indiaDate)
    ensures forall f :: f != Date ==> FieldValue(page.formData, f) == ""
  {
    page := new BillRequestForm();
    page.Mount(indiaDate);
  }
}
