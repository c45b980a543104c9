/**
 * The booking service (services/bookingService.js): checkout, the SePay
 * payment webhook with its settlement step, and booking edits, over a store
 * of tours (each with its start-date capacity ledger), bookings and an
 * append-only transaction log.
 *
 * Each operation is a method of BookingStore that changes the store step by
 * step as the service does, and is proved equal to a pure outcome function
 * (CheckoutOutcome, Settlement, WebhookOutcome, EditOutcome) that maps the
 * old store to the new store and the result; the lemmas below are about
 * those functions. The process is sequential: the check-then-act race
 * between concurrent deliveries is not part of this model.
 */
module BookingService {
  import opened Wrappers
  import opened Strings
  import opened Constants
  import opened AppErrors
  import opened Failures
  import opened TourModel
  import opened BookingModel
  import opened TransactionModel
  import opened CapacityLedger

  datatype Store = Store(tours: map<string, Tour>, bookings: seq<Booking>, transactions: seq<Transaction>)

  /** The fields of a checkout request body the service reads. */
  datatype CheckoutBody = CheckoutBody(
    participants: Option<int>,
    specialRequirements: Option<string>,
    startDate: Option<int>,
    tourId: Option<string>)

  /** SEPAY_QR_URL, SEPAY_BANK_NAME and SEPAY_BANK_ACCOUNT_NUMBER as a template string prints them. */
  datatype SepayConfig = SepayConfig(qrUrl: string, bankName: string, bankAccountNumber: string)

  datatype Checkout = Checkout(sepayQRUrl: string, orderCode: string, amount: int)

  /** `tour.price * (participants || 1)`: an absent or zero head count is priced as one. */
  function CheckoutAmount(price: int, participants: Option<int>): int {
    price * (if participants.None? || participants.value == 0 then 1 else participants.value)
  }

  function QrUrl(cfg: SepayConfig, amount: int, orderCode: string): string {
    cfg.qrUrl + "?acc=" + cfg.bankAccountNumber + "&bank=" + cfg.bankName
      + "&amount=" + IntToString(amount) + "&des=" + orderCode
  }

  /** Some visible tour, not necessarily the one being booked, has a start date within the instant's day. */
  predicate DayOffered(tours: map<string, Tour>, instant: int) {
    AnyFound(tours, [HasStartDateBetween(DayStart(instant), DayEnd(instant))])
  }

  /** The booking document checkout creates. */
  function CheckoutInput(body: CheckoutBody, userId: string, price: int, orderCode: string): BookingInput {
    BookingInput(body.tourId, Some(userId), Some(CheckoutAmount(price, body.participants)), body.participants,
                 None, None, None, Some(orderCode), body.specialRequirements, body.startDate)
  }

  /** `createCheckout(body, userId)`, with the new booking's id and the generated order code as inputs. */
  function CheckoutOutcome(s: Store, body: CheckoutBody, userId: string, bookingId: string, orderCode: string, cfg: SepayConfig)
    : (Store, Result<Checkout, Failure>)
    requires body.startDate.Some?
  {
    var tour := if body.tourId.Some? then FindById(s.tours, body.tourId.value) else None;
    if tour.None? then (s, Err(Raised(AppError("Tour not found", NOT_FOUND))))
    else if !DayOffered(s.tours, body.startDate.value) then (s, Err(Raised(AppError("Start date not found in tour", BAD_REQUEST))))
    else
      var amount := CheckoutAmount(tour.value.price, body.participants);
      match NewBooking(bookingId, CheckoutInput(body, userId, tour.value.price, orderCode))
      case Err(ms) => (s, Err(ValidationFailed(ms)))
      case Ok(b) => (s.(bookings := s.bookings + [b]), Ok(Checkout(QrUrl(cfg, amount, orderCode), orderCode, amount)))
  }

  /** The message of the TypeError `undefined.participants` throws. */
  const UNDEFINED_PARTICIPANTS: string := "Cannot read properties of undefined (reading 'participants')"
  /** The message of the TypeError `null.startDates` throws. */
  const NULL_START_DATES: string := "Cannot read properties of null (reading 'startDates')"

  /**
   * `updateBookingPaid(booking)` for booking `k`. The booking's `tour` is
   * populated through the tour query hook, so a missing or secret tour reads
   * as null and the message names 'null'. When the tour has no entry at
   * exactly the booked instant, `dateSelected` is undefined and a TypeError
   * escapes. Otherwise the entry gains the booking's participants, its
   * sold-out flag is recomputed, and the booking becomes Paid at `now`.
   */
  function Settlement(s: Store, k: nat, now: int): (r: Result<Store, Failure>)
    requires k < |s.bookings|
    ensures var b := s.bookings[k];
      r.Err? <==> FindById(s.tours, b.tour).None? || FindEntry(s.tours[b.tour].startDates, b.startDate).None?
    ensures var b := s.bookings[k];
      FindById(s.tours, b.tour).None? ==> r == Err(Raised(AppError("Tour not found with id: null", 200)))
    ensures var b := s.bookings[k];
      FindById(s.tours, b.tour).Some? && FindEntry(s.tours[b.tour].startDates, b.startDate).None? ==>
        r == Err(TypeErrorThrown(UNDEFINED_PARTICIPANTS))
  {
    var b := s.bookings[k];
    match FindById(s.tours, b.tour)
    case None => Err(Raised(AppError("Tour not found with id: null", 200)))
    case Some(t) =>
      match FindEntry(t.startDates, b.startDate)
      case None => Err(TypeErrorThrown(UNDEFINED_PARTICIPANTS))
      case Some(i) =>
        Ok(Store(s.tours[b.tour := Adjust(t, i, Num(b.participants))],
                 s.bookings[k := b.(paymentStatus := Paid, paymentTime := Some(now))],
                 s.transactions))
  }

  /**
   * What a successful settlement changes: one ledger entry of the booking's
   * tour gains exactly the booking's participants and has its flag
   * recomputed, the booking becomes Paid at `now`, and nothing else changes.
   */
  lemma SettlementChanges(s: Store, k: nat, now: int)
    requires k < |s.bookings| && Settlement(s, k, now).Ok?
    ensures var s' := Settlement(s, k, now).value; var b := s.bookings[k];
      && b.tour in s.tours && s'.tours.Keys == s.tours.Keys
      && (forall id :: id in s.tours && id != b.tour ==> s'.tours[id] == s.tours[id])
    ensures var s' := Settlement(s, k, now).value; var b := s.bookings[k];
      var t := s.tours[b.tour]; var t' := s'.tours[b.tour]; var i := FindEntry(t.startDates, b.startDate).value;
      && t'.(startDates := t.startDates) == t
      && |t'.startDates| == |t.startDates|
      && t'.startDates[i].date == b.startDate
      && t'.startDates[i].participants == t.startDates[i].participants.Plus(Num(b.participants))
      && (t'.startDates[i].soldOut <==> t'.startDates[i].participants.AtLeast(t.maxGroupSize))
      && (forall j :: 0 <= j < |t.startDates| && j != i ==> t'.startDates[j] == t.startDates[j])
    ensures var s' := Settlement(s, k, now).value; var b := s.bookings[k];
      && |s'.bookings| == |s.bookings|
      && s'.bookings[k] == b.(paymentStatus := Paid, paymentTime := Some(now))
      && (forall j :: 0 <= j < |s.bookings| && j != k ==> s'.bookings[j] == s.bookings[j])
      && s'.transactions == s.transactions
  {
  }

  /** The fields of a SePay notification the webhook reads; None for a field left out. */
  datatype WebhookPayload = WebhookPayload(
    gateway: Option<string>,
    transactionDate: Option<int>,
    accountNumber: Option<string>,
    code: Option<string>,
    content: Option<string>,
    transferAmount: Option<int>,
    accumulated: Option<int>,
    description: Option<string>)

  predicate Truthy(s: Option<string>) {
    s.Some? && s.value != ""
  }

  /** `a || b` on two optional strings. */
  function Or(a: Option<string>, b: Option<string>): Option<string> {
    if Truthy(a) then a else b
  }

  /** The document the webhook asks the transaction service to create. */
  function LoggedInput(p: WebhookPayload): TransactionInput {
    TransactionInput(p.gateway, p.transactionDate, p.accountNumber, p.transferAmount, None, p.accumulated,
                     p.code, Or(p.content, p.description), None)
  }

  /** `Booking.findOne({ orderCode: code })`: the first booking with that order code. */
  function FirstWithOrderCode(bs: seq<Booking>, code: string): (r: Option<nat>)
    ensures r.Some? ==> r.value < |bs| && bs[r.value].orderCode == code
    ensures r.Some? ==> forall j :: 0 <= j < r.value ==> bs[j].orderCode != code
    ensures r.None? <==> forall j :: 0 <= j < |bs| ==> bs[j].orderCode != code
    decreases |bs|
  {
    if |bs| == 0 then None
    else if bs[0].orderCode == code then Some(0)
    else match FirstWithOrderCode(bs[1..], code)
      case None => None
      case Some(i) => Some(i + 1)
  }

  function MismatchNote(expected: int, received: Option<int>): string {
    "Amount mismatch - Expected: " + IntToString(expected) + ", Received: "
      + (if received.Some? then IntToString(received.value) else "undefined")
  }

  /**
   * `sepayWebhook(body)`, with the new transaction's id, the clock and the
   * order-code extractor as inputs (`extract` returns "" when it finds none).
   * The transaction is logged first; the no-code, no-booking and
   * already-paid outcomes are AppErrors with status 200 thrown after it.
   */
  function WebhookOutcome(s: Store, p: WebhookPayload, txId: string, now: int, extract: Option<string> -> string)
    : (Store, Result<Transaction, Failure>)
  {
    match NewTransaction(txId, LoggedInput(p))
    case Err(ms) => (s, Err(ValidationFailed(ms)))
    case Ok(tx) => AfterLogging(s, p, tx, extract(Or(p.code, p.content)), now)
  }

  /** The webhook once `tx` is created: `orderCode` is what the extractor found, "" for nothing. */
  function AfterLogging(s: Store, p: WebhookPayload, tx: Transaction, orderCode: string, now: int)
    : (Store, Result<Transaction, Failure>)
  {
    var logged := s.(transactions := s.transactions + [tx]);
    if orderCode == "" then
      (logged, Err(Raised(AppError("Transaction saved but no order code found " + tx.id, 200))))
    else match FirstWithOrderCode(s.bookings, tx.orderCode)
      case None => (logged, Err(Raised(AppError("Transaction saved but booking not found " + tx.id, 200))))
      case Some(k) =>
        var b := s.bookings[k];
        if b.paymentStatus == Paid then
          (logged, Err(Raised(AppError("Transaction saved but booking already paid " + b.id, 200))))
        else
          var noted :=
            if p.transferAmount != Some(b.amount)
            then s.(transactions := s.transactions + [WithNote(tx, MismatchNote(b.amount, p.transferAmount))])
            else logged;
          match Settlement(noted, k, now)
          case Err(f) => (noted, Err(f))
          case Ok(settled) => (settled, Ok(tx))
  }

  /** `Booking.findById(id)` */
  function IndexOfBooking(bs: seq<Booking>, id: string): (r: Option<nat>)
    ensures r.Some? ==> r.value < |bs| && bs[r.value].id == id
    ensures r.Some? ==> forall j :: 0 <= j < r.value ==> bs[j].id != id
    ensures r.None? <==> forall j :: 0 <= j < |bs| ==> bs[j].id != id
    decreases |bs|
  {
    if |bs| == 0 then None
    else if bs[0].id == id then Some(0)
    else match IndexOfBooking(bs[1..], id)
      case None => None
      case Some(i) => Some(i + 1)
  }

  /** `dataUpdated.participants - oldBooking.participants`; with no new count, `undefined - n` is NaN. */
  function ParticipantsDiff(p: BookingPatch, before: Booking): Count {
    if p.participants.Some? then Num(p.participants.value - before.participants) else NaN
  }

  /**
   * `updateBooking(bookingId, dataUpdated)`. The edit is written by
   * `findByIdAndUpdate` before the tour is consulted, so the later failures
   * leave it in place. The computed `booking.price` is not a schema path and
   * is dropped on save, so the amount is never recomputed.
   */
  function EditOutcome(s: Store, bookingId: string, patch: BookingPatch): (Store, Result<Booking, Failure>) {
    match IndexOfBooking(s.bookings, bookingId)
    case None => (s, Err(Raised(AppError("Booking not found", NOT_FOUND))))
    case Some(k) =>
      if PatchErrors(patch) != [] then (s, Err(ValidationFailed(PatchErrors(patch))))
      else
        var b := ApplyPatch(s.bookings[k], patch);
        var edited := s.(bookings := s.bookings[k := b]);
        match FindById(s.tours, b.tour)
        case None => (edited, Err(TypeErrorThrown(NULL_START_DATES)))
        case Some(t) =>
          match FindEntry(t.startDates, b.startDate)
          case None => (edited, Err(Raised(AppError("Start date not found in tour", BAD_REQUEST))))
          case Some(i) =>
            (edited.(tours := s.tours[b.tour := Adjust(t, i, ParticipantsDiff(patch, s.bookings[k]))]), Ok(b))
  }

  /** The service's collections. Each method changes them as the service does, step by step. */
  class BookingStore {
    var tours: map<string, Tour>
    var bookings: seq<Booking>
    var transactions: seq<Transaction>

    function State(): Store
      reads this
    {
      Store(tours, bookings, transactions)
    }

    constructor (s: Store)
      ensures State() == s
    {
      tours := s.tours;
      bookings := s.bookings;
      transactions := s.transactions;
    }

    method CreateCheckout(body: CheckoutBody, userId: string, bookingId: string, orderCode: string, cfg: SepayConfig)
      returns (r: Result<Checkout, Failure>)
      requires body.startDate.Some?
      modifies this
      ensures (State(), r) == CheckoutOutcome(old(State()), body, userId, bookingId, orderCode, cfg)
    {
      var tour := None;
      if body.tourId.Some? {
        tour := FindById(tours, body.tourId.value);
      }
      if tour.None? {
        return Err(Raised(AppError("Tour not found", NOT_FOUND)));
      }
      var date := body.startDate.value;
      if !AnyFound(tours, [HasStartDateBetween(DayStart(date), DayEnd(date))]) {
        return Err(Raised(AppError("Start date not found in tour", BAD_REQUEST)));
      }
      var amount := CheckoutAmount(tour.value.price, body.participants);
      var created := NewBooking(bookingId, CheckoutInput(body, userId, tour.value.price, orderCode));
      if created.Err? {
        return Err(ValidationFailed(created.error));
      }
      bookings := bookings + [created.value];
      return Ok(Checkout(QrUrl(cfg, amount, orderCode), orderCode, amount));
    }

    method UpdateBookingPaid(k: nat, now: int) returns (r: Result<(), Failure>)
      requires k < |bookings|
      modifies this
      ensures Settlement(old(State()), k, now).Ok? ==> r.Ok? && State() == Settlement(old(State()), k, now).value
      ensures Settlement(old(State()), k, now).Err? ==>
        r == Err(Settlement(old(State()), k, now).error) && State() == old(State())
    {
      var booking := bookings[k];
      var tour := FindById(tours, booking.tour);
      if tour.None? {
        return Err(Raised(AppError("Tour not found with id: null", 200)));
      }
      var t := tour.value;
      var dateSelected := FindEntry(t.startDates, booking.startDate);
      if dateSelected.None? {
        return Err(TypeErrorThrown(UNDEFINED_PARTICIPANTS));
      }
      var i := dateSelected.value;
      var entry := t.startDates[i];
      entry := entry.(participants := entry.participants.Plus(Num(booking.participants)));
      entry := entry.(soldOut := entry.participants.AtLeast(t.maxGroupSize));
      booking := booking.(paymentStatus := Paid);
      booking := booking.(paymentTime := Some(now));
      tours := tours[booking.tour := t.(startDates := t.startDates[i := entry])];
      bookings := bookings[k := booking];
      return Ok(());
    }

    method SepayWebhook(p: WebhookPayload, txId: string, now: int, extract: Option<string> -> string)
      returns (r: Result<Transaction, Failure>)
      modifies this
      ensures (State(), r) == WebhookOutcome(old(State()), p, txId, now, extract)
    {
      var created := NewTransaction(txId, LoggedInput(p));
      if created.Err? {
        return Err(ValidationFailed(created.error));
      }
      var transaction := created.value;
      ghost var before := State();
      transactions := transactions + [transaction];
      var orderCode := extract(Or(p.code, p.content));
      ghost var expected := AfterLogging(before, p, transaction, orderCode, now);
      if orderCode == "" {
        return Err(Raised(AppError("Transaction saved but no order code found " + transaction.id, 200)));
      }
      var found := FirstWithOrderCode(bookings, transaction.orderCode);
      if found.None? {
        return Err(Raised(AppError("Transaction saved but booking not found " + transaction.id, 200)));
      }
      var booking := bookings[found.value];
      if booking.paymentStatus == Paid {
        return Err(Raised(AppError("Transaction saved but booking already paid " + booking.id, 200)));
      }
      if p.transferAmount != Some(booking.amount) {
        transactions := transactions[|transactions| - 1 := WithNote(transaction, MismatchNote(booking.amount, p.transferAmount))];
        assert transactions == before.transactions + [WithNote(transaction, MismatchNote(booking.amount, p.transferAmount))];
      }
      var settled := UpdateBookingPaid(found.value, now);
      if settled.Err? {
        return Err(settled.error);
      }
      return Ok(transaction);
    }

    method UpdateBooking(bookingId: string, dataUpdated: BookingPatch) returns (r: Result<Booking, Failure>)
      modifies this
      ensures (State(), r) == EditOutcome(old(State()), bookingId, dataUpdated)
    {
      var found := IndexOfBooking(bookings, bookingId);
      if found.None? {
        return Err(Raised(AppError("Booking not found", NOT_FOUND)));
      }
      var oldBooking := bookings[found.value];
      var errors := PatchErrors(dataUpdated);
      if errors != [] {
        return Err(ValidationFailed(errors));
      }
      var booking := ApplyPatch(oldBooking, dataUpdated);
      bookings := bookings[found.value := booking];
      var tour := FindById(tours, booking.tour);
      if tour.None? {
        return Err(TypeErrorThrown(NULL_START_DATES));
      }
      var t := tour.value;
      var dateSelected := FindEntry(t.startDates, booking.startDate);
      if dateSelected.None? {
        return Err(Raised(AppError("Start date not found in tour", BAD_REQUEST)));
      }
      var i := dateSelected.value;
      var diff := ParticipantsDiff(dataUpdated, oldBooking);
      var entry := t.startDates[i];
      entry := entry.(participants := entry.participants.Plus(diff));
      entry := entry.(soldOut := entry.participants.AtLeast(t.maxGroupSize));
      tours := tours[booking.tour := t.(startDates := t.startDates[i := entry])];
      return Ok(booking);
    }
  }
}
