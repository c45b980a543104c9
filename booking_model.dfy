/**
 * The Booking document (models/bookingModel.js): required references and
 * amount, enums with defaults for the payment status and method, the refund
 * validators and the trimmed free-text field. Dates are ms instants.
 */
module BookingModel {
  import opened Wrappers
  import opened Strings
  import opened Schema

  datatype PaymentStatus = Unpaid | Paid | Cancelled | Refunded
  datatype PaymentMethod = Sepay

  function ParsePaymentStatus(s: string): (r: Option<PaymentStatus>)
    ensures r.Some? <==> s in ["Unpaid", "Paid", "Cancelled", "Refunded"]
  {
    if s == "Unpaid" then Some(Unpaid)
    else if s == "Paid" then Some(Paid)
    else if s == "Cancelled" then Some(Cancelled)
    else if s == "Refunded" then Some(Refunded)
    else None
  }

  datatype Booking = Booking(
    id: string,
    tour: string,
    user: string,
    amount: int,
    participants: int,
    paymentStatus: PaymentStatus,
    paymentMethod: PaymentMethod,
    refundAmount: Option<int>,
    orderCode: string,
    specialRequirements: Option<string>,
    paymentTime: Option<int>,
    startDate: int)

  /** The fields given to `Booking.create`; None for a field left out. */
  datatype BookingInput = BookingInput(
    tour: Option<string>,
    user: Option<string>,
    amount: Option<int>,
    participants: Option<int>,
    paymentStatus: Option<string>,
    paymentMethod: Option<string>,
    refundAmount: Option<int>,
    orderCode: Option<string>,
    specialRequirements: Option<string>,
    startDate: Option<int>)

  /**
   * The refund validator `val <= this.total`. The schema declares no `total`,
   * so on every booking `this.total` is undefined and the comparison is false.
   */
  predicate RefundWithinTotal(value: int, total: Option<int>) {
    total.Some? && value <= total.value
  }

  /** The `total` a booking document has: none, since the schema does not declare it. */
  const BOOKING_TOTAL: Option<int> := None

  /** Reference definition of the inputs the schema accepts. */
  predicate Acceptable(i: BookingInput) {
    && i.tour.Some? && i.user.Some? && i.amount.Some?
    && (i.paymentStatus.Some? ==> i.paymentStatus.value in ["Unpaid", "Paid", "Cancelled", "Refunded"])
    && (i.paymentMethod.Some? ==> i.paymentMethod.value == "sepay")
    && (i.refundAmount.Some? ==> i.refundAmount.value >= 0 && RefundWithinTotal(i.refundAmount.value, BOOKING_TOTAL))
    && i.orderCode.Some? && i.orderCode.value != ""
    && i.startDate.Some?
  }

  function PaymentStatusErrors(s: Option<string>): (r: seq<string>)
    ensures r == [] <==> (s.Some? ==> s.value in ["Unpaid", "Paid", "Cancelled", "Refunded"])
  {
    if s.Some? && ParsePaymentStatus(s.value).None? then [EnumMessage(s.value, "paymentStatus")] else []
  }

  /** `required` runs before `enum`; an absent method gets the default 'sepay' first. */
  function PaymentMethodErrors(m: Option<string>): (r: seq<string>)
    ensures r == [] <==> (m.Some? ==> m.value == "sepay")
  {
    var v := m.GetOr("sepay");
    if v == "" then ["Booking must have a payment method"]
    else if v != "sepay" then [EnumMessage(v, "paymentMethod")]
    else []
  }

  /** `min: 0` runs before the custom validator; the first failure is reported. */
  function RefundErrors(a: Option<int>): (r: seq<string>)
    ensures r == [] <==> (a.Some? ==> a.value >= 0 && RefundWithinTotal(a.value, BOOKING_TOTAL))
  {
    if a.None? then []
    else if a.value < 0 then [MinMessage("refundAmount", a.value, 0)]
    else if !RefundWithinTotal(a.value, BOOKING_TOTAL) then ["Refund amount cannot exceed total paid"]
    else []
  }

  /** The failing paths in schema order. */
  function BookingErrors(i: BookingInput): (r: seq<string>)
    ensures r == [] <==> Acceptable(i)
  {
    Required(i.tour, "Booking must belong a tour")
      + Required(i.user, "Booking must belong a user")
      + Required(i.amount, "Booking must have a price")
      + PaymentStatusErrors(i.paymentStatus)
      + PaymentMethodErrors(i.paymentMethod)
      + RefundErrors(i.refundAmount)
      + RequiredString(i.orderCode, "A Booking must have a orderCode")
      + Required(i.startDate, "Booking must have a start date")
  }

  function TrimmedOpt(s: Option<string>): Option<string> {
    if s.Some? then Some(Trim(s.value)) else None
  }

  /** `Booking.create(data)`: validation, then the defaults and the trimming setter. */
  function NewBooking(id: string, i: BookingInput): (r: Result<Booking, seq<string>>)
    ensures r.Ok? <==> Acceptable(i)
    ensures r.Err? ==> |r.error| > 0
    ensures r.Ok? ==>
      && r.value.id == id
      && Some(r.value.tour) == i.tour && Some(r.value.user) == i.user && Some(r.value.amount) == i.amount
      && r.value.participants == i.participants.GetOr(1)
      && r.value.paymentStatus == (if i.paymentStatus.Some? then ParsePaymentStatus(i.paymentStatus.value).value else Unpaid)
      && r.value.paymentMethod == Sepay
      && r.value.refundAmount == None && r.value.paymentTime == None
      && Some(r.value.orderCode) == i.orderCode && Some(r.value.startDate) == i.startDate
      && r.value.specialRequirements == TrimmedOpt(i.specialRequirements)
  {
    var errors := BookingErrors(i);
    if errors != [] then Err(errors)
    else
      Ok(Booking(id, i.tour.value, i.user.value, i.amount.value, i.participants.GetOr(1),
                 if i.paymentStatus.Some? then ParsePaymentStatus(i.paymentStatus.value).value else Unpaid,
                 Sepay, i.refundAmount, i.orderCode.value, TrimmedOpt(i.specialRequirements), None,
                 i.startDate.value))
  }

  /** No booking can carry a refund amount: a negative one fails `min`, any other the total check. */
  lemma {:induction false} RefundAmountAlwaysRejected(id: string, i: BookingInput)
    requires i.refundAmount.Some?
    ensures NewBooking(id, i).Err?
    ensures (if i.refundAmount.value < 0 then MinMessage("refundAmount", i.refundAmount.value, 0)
             else "Refund amount cannot exceed total paid") in NewBooking(id, i).error
  {
    var e := BookingErrors(i);
    var pre := Required(i.tour, "Booking must belong a tour")
      + Required(i.user, "Booking must belong a user")
      + Required(i.amount, "Booking must have a price")
      + PaymentStatusErrors(i.paymentStatus)
      + PaymentMethodErrors(i.paymentMethod);
    var post := RequiredString(i.orderCode, "A Booking must have a orderCode")
      + Required(i.startDate, "Booking must have a start date");
    assert e == pre + RefundErrors(i.refundAmount) + post;
    assert RefundErrors(i.refundAmount)[0] in e;
  }

  /**
   * The paths an edit may `$set`, drawn from the booking schema; None for a
   * path the edit does not send. Paths the schema does not declare are
   * dropped by strict mode and `refundDate`/`refundReason` are not stored by
   * this model.
   */
  datatype BookingPatch = BookingPatch(
    tour: Option<string>,
    user: Option<string>,
    amount: Option<int>,
    participants: Option<int>,
    paymentStatus: Option<string>,
    paymentMethod: Option<string>,
    refundAmount: Option<int>,
    orderCode: Option<string>,
    specialRequirements: Option<string>,
    paymentTime: Option<int>,
    startDate: Option<int>)

  /**
   * The update validators that `findByIdAndUpdate(..., { runValidators: true })`
   * runs on the paths an edit sets, in schema order. A path that is not sent
   * is not validated and gets no default. A sent `tour`, `user`, `amount` or
   * `startDate` is present, so its `required` passes; a sent `orderCode` or
   * `paymentMethod` can still be the empty string. In an update validator
   * `this` is not the document; the validator function is not strict code,
   * so `this.total` still reads an undefined property and the refund check
   * fails as it does on a document.
   */
  function PatchErrors(p: BookingPatch): (r: seq<string>)
    ensures r == [] <==>
      && (p.paymentStatus.Some? ==> p.paymentStatus.value in ["Unpaid", "Paid", "Cancelled", "Refunded"])
      && (p.paymentMethod.Some? ==> p.paymentMethod.value == "sepay")
      && p.refundAmount.None?
      && (p.orderCode.Some? ==> p.orderCode.value != "")
  {
    PaymentStatusErrors(p.paymentStatus)
      + PaymentMethodErrors(p.paymentMethod)
      + RefundErrors(p.refundAmount)
      + (if p.orderCode.Some? then RequiredString(p.orderCode, "A Booking must have a orderCode") else [])
  }

  /** The booking after `$set` of the given paths; the others keep their values. */
  function ApplyPatch(b: Booking, p: BookingPatch): (r: Booking)
    requires PatchErrors(p) == []
    ensures r.id == b.id && r.paymentMethod == b.paymentMethod && r.refundAmount == b.refundAmount
    ensures r.tour == p.tour.GetOr(b.tour) && r.user == p.user.GetOr(b.user) && r.amount == p.amount.GetOr(b.amount)
    ensures r.orderCode == p.orderCode.GetOr(b.orderCode)
    ensures r.paymentTime == if p.paymentTime.Some? then p.paymentTime else b.paymentTime
    ensures r.participants == p.participants.GetOr(b.participants)
    ensures r.startDate == p.startDate.GetOr(b.startDate)
    ensures p.paymentStatus.Some? ==> Some(r.paymentStatus) == ParsePaymentStatus(p.paymentStatus.value)
    ensures p.paymentStatus.None? ==> r.paymentStatus == b.paymentStatus
    ensures r.specialRequirements == if p.specialRequirements.Some? then TrimmedOpt(p.specialRequirements) else b.specialRequirements
  {
    b.(tour := p.tour.GetOr(b.tour),
       user := p.user.GetOr(b.user),
       amount := p.amount.GetOr(b.amount),
       participants := p.participants.GetOr(b.participants),
       paymentStatus := if p.paymentStatus.Some? then ParsePaymentStatus(p.paymentStatus.value).value else b.paymentStatus,
       orderCode := p.orderCode.GetOr(b.orderCode),
       specialRequirements := if p.specialRequirements.Some? then TrimmedOpt(p.specialRequirements) else b.specialRequirements,
       paymentTime := if p.paymentTime.Some? then p.paymentTime else b.paymentTime,
       startDate := p.startDate.GetOr(b.startDate))
  }
}
