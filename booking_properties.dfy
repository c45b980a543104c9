/**
 * Properties of the booking service's outcome functions: the checkout
 * guards and what a checkout creates, the webhook's log-first behaviour and
 * guard ladder, what settlement changes, replay safety, and booking edits.
 */
module BookingProperties {
  import opened Wrappers
  import opened Strings
  import opened Constants
  import opened AppErrors
  import opened Failures
  import opened TourModel
  import opened BookingModel
  import opened TransactionModel
  import opened CapacityLedger
  import opened BookingService

  /** Some visible tour has a start date on the same UTC calendar day as `instant`. */
  predicate SomeTourOffersDay(tours: map<string, Tour>, instant: int) {
    exists id, e :: id in tours && !tours[id].secretTour && e in tours[id].startDates && e.date / DAY_MS == instant / DAY_MS
  }

  lemma DayOfferedMeansSameDay(tours: map<string, Tour>, instant: int)
    ensures DayOffered(tours, instant) <==> SomeTourOffersDay(tours, instant)
  {
    var cs := WithSecretFilter([HasStartDateBetween(DayStart(instant), DayEnd(instant))]);
    assert forall c :: c in cs <==> c == HasStartDateBetween(DayStart(instant), DayEnd(instant)) || c == SecretNotTrue;
    if DayOffered(tours, instant) {
      var id :| id in tours && SatisfiesAll(id, tours[id], cs);
      assert Satisfies(id, tours[id], cs[0]);
      assert Satisfies(id, tours[id], cs[1]);
      var e :| e in tours[id].startDates && DayStart(instant) <= e.date <= DayEnd(instant);
      SameDayRange(instant, e.date);
      assert SomeTourOffersDay(tours, instant);
    }
    if SomeTourOffersDay(tours, instant) {
      var id, e :| id in tours && !tours[id].secretTour && e in tours[id].startDates && e.date / DAY_MS == instant / DAY_MS;
      SameDayRange(instant, e.date);
      assert DayStart(instant) <= e.date <= DayEnd(instant);
      assert Satisfies(id, tours[id], cs[0]);
      assert Satisfies(id, tours[id], SecretNotTrue);
      assert SatisfiesAll(id, tours[id], cs);
      assert AnyFound(tours, [HasStartDateBetween(DayStart(instant), DayEnd(instant))]);
    }
  }

  /**
   * Checkout answers 404 exactly when the tour is unknown or secret, and
   * then 400 exactly when no visible tour at all (not only the booked one)
   * has a start date on the requested day. Every rejection leaves the store
   * as it was.
   */
  lemma CheckoutRejections(s: Store, body: CheckoutBody, userId: string, bookingId: string, orderCode: string, cfg: SepayConfig)
    requires body.startDate.Some?
    ensures var r := CheckoutOutcome(s, body, userId, bookingId, orderCode, cfg).1;
      r == Err(Raised(AppError("Tour not found", NOT_FOUND))) <==>
        body.tourId.None? || body.tourId.value !in s.tours || s.tours[body.tourId.value].secretTour
    ensures var r := CheckoutOutcome(s, body, userId, bookingId, orderCode, cfg).1;
      body.tourId.Some? && FindById(s.tours, body.tourId.value).Some? ==>
        (r == Err(Raised(AppError("Start date not found in tour", BAD_REQUEST))) <==> !SomeTourOffersDay(s.tours, body.startDate.value))
    ensures CheckoutOutcome(s, body, userId, bookingId, orderCode, cfg).1.Err? ==>
      CheckoutOutcome(s, body, userId, bookingId, orderCode, cfg).0 == s
  {
    DayOfferedMeansSameDay(s.tours, body.startDate.value);
  }

  /**
   * A successful checkout appends exactly one Unpaid booking and changes
   * nothing else; the booking and the reply carry the same amount and order
   * code, and the amount is the price times the head count, a missing or
   * zero count being priced as one.
   */
  lemma CheckoutCreatesOneBooking(s: Store, body: CheckoutBody, userId: string, bookingId: string, orderCode: string, cfg: SepayConfig)
    requires body.startDate.Some?
    requires CheckoutOutcome(s, body, userId, bookingId, orderCode, cfg).1.Ok?
    ensures var (s', r) := CheckoutOutcome(s, body, userId, bookingId, orderCode, cfg);
      && s'.tours == s.tours && s'.transactions == s.transactions
      && |s'.bookings| == |s.bookings| + 1 && s'.bookings[..|s.bookings|] == s.bookings
    ensures var (s', r) := CheckoutOutcome(s, body, userId, bookingId, orderCode, cfg);
      var b := s'.bookings[|s.bookings|];
      && body.tourId.Some? && body.tourId.value in s.tours
      && b.id == bookingId && b.tour == body.tourId.value && b.user == userId
      && b.amount == r.value.amount && b.orderCode == r.value.orderCode == orderCode
      && r.value.amount == s.tours[b.tour].price * (if body.participants.None? || body.participants == Some(0) then 1 else body.participants.value)
      && b.participants == body.participants.GetOr(1)
      && b.paymentStatus == Unpaid && b.paymentMethod == Sepay && b.paymentTime == None
      && Some(b.startDate) == body.startDate
  {
  }

  /** Checkout fails validation only when the generated order code is empty. */
  lemma CheckoutValidation(s: Store, body: CheckoutBody, userId: string, bookingId: string, orderCode: string, cfg: SepayConfig)
    requires body.startDate.Some? && body.tourId.Some?
    requires FindById(s.tours, body.tourId.value).Some? && DayOffered(s.tours, body.startDate.value)
    ensures CheckoutOutcome(s, body, userId, bookingId, orderCode, cfg).1.Ok? <==> orderCode != ""
    ensures orderCode == "" ==>
      CheckoutOutcome(s, body, userId, bookingId, orderCode, cfg).1 == Err(ValidationFailed(["A Booking must have a orderCode"]))
  {
    var i := CheckoutInput(body, userId, s.tours[body.tourId.value].price, orderCode);
    if orderCode == "" {
      assert BookingErrors(i) == ["A Booking must have a orderCode"];
    }
  }

  /** With `participants: 0` the booking is priced for one person but records zero participants. */
  lemma ZeroParticipantsPricedAsOne(s: Store, body: CheckoutBody, userId: string, bookingId: string, orderCode: string, cfg: SepayConfig)
    requires body.startDate.Some? && body.participants == Some(0)
    requires CheckoutOutcome(s, body, userId, bookingId, orderCode, cfg).1.Ok?
    ensures var (s', r) := CheckoutOutcome(s, body, userId, bookingId, orderCode, cfg);
      r.value.amount == s.tours[body.tourId.value].price && s'.bookings[|s.bookings|].participants == 0
  {
    CheckoutCreatesOneBooking(s, body, userId, bookingId, orderCode, cfg);
  }

  /**
   * Every webhook call whose payload passes the transaction schema appends
   * exactly one transaction, whatever happens next, and never touches earlier
   * ones; the new record differs from the created one at most in its note,
   * and a successful call returns the record as created. A payload the schema
   * rejects logs nothing and changes nothing.
   */
  lemma WebhookLogsFirst(s: Store, p: WebhookPayload, txId: string, now: int, extract: Option<string> -> string)
    ensures !TransactionModel.Acceptable(LoggedInput(p)) ==>
      WebhookOutcome(s, p, txId, now, extract).0 == s
      && WebhookOutcome(s, p, txId, now, extract).1.Err?
      && WebhookOutcome(s, p, txId, now, extract).1.error.ValidationFailed?
    ensures TransactionModel.Acceptable(LoggedInput(p)) ==>
      var (s', r) := WebhookOutcome(s, p, txId, now, extract); var tx := NewTransaction(txId, LoggedInput(p)).value;
      && |s'.transactions| == |s.transactions| + 1
      && s'.transactions[..|s.transactions|] == s.transactions
      && s'.transactions[|s.transactions|].(note := None) == tx
      && tx.id == txId && tx.amountIn == p.transferAmount.GetOr(0) && Some(tx.orderCode) == p.code
      && Some(tx.transactionContent) == Or(p.content, p.description)
      && (r.Ok? ==> r.value == tx && tx.note == None)
  {
    if TransactionModel.Acceptable(LoggedInput(p)) {
      var tx := NewTransaction(txId, LoggedInput(p)).value;
      var orderCode := extract(Or(p.code, p.content));
      var found := FirstWithOrderCode(s.bookings, tx.orderCode);
      if orderCode != "" && found.Some? && s.bookings[found.value].paymentStatus != Paid {
        var b := s.bookings[found.value];
        var noted :=
          if p.transferAmount != Some(b.amount)
          then s.(transactions := s.transactions + [WithNote(tx, MismatchNote(b.amount, p.transferAmount))])
          else s.(transactions := s.transactions + [tx]);
        match Settlement(noted, found.value, now)
        case Err(_) =>
        case Ok(_) => SettlementChanges(noted, found.value, now);
      }
    }
  }

  /**
   * The guard ladder, in order: no extractable order code, then no booking
   * whose order code is the raw `code` field (not the extracted value), then
   * an already-paid booking. Each answers with status 200 after logging and
   * changes no tour and no booking.
   */
  lemma WebhookGuards(s: Store, p: WebhookPayload, txId: string, now: int, extract: Option<string> -> string)
    requires TransactionModel.Acceptable(LoggedInput(p))
    ensures var (s', r) := WebhookOutcome(s, p, txId, now, extract);
      extract(Or(p.code, p.content)) == "" ==>
        r == Err(Raised(AppError("Transaction saved but no order code found " + txId, 200)))
        && s'.tours == s.tours && s'.bookings == s.bookings
    ensures var (s', r) := WebhookOutcome(s, p, txId, now, extract);
      extract(Or(p.code, p.content)) != "" && FirstWithOrderCode(s.bookings, p.code.value).None? ==>
        r == Err(Raised(AppError("Transaction saved but booking not found " + txId, 200)))
        && s'.tours == s.tours && s'.bookings == s.bookings
    ensures var (s', r) := WebhookOutcome(s, p, txId, now, extract);
      var k := FirstWithOrderCode(s.bookings, p.code.value);
      extract(Or(p.code, p.content)) != "" && k.Some? && s.bookings[k.value].paymentStatus == Paid ==>
        r == Err(Raised(AppError("Transaction saved but booking already paid " + s.bookings[k.value].id, 200)))
        && s'.tours == s.tours && s'.bookings == s.bookings
  {
  }

  /** Settlement reads and writes only tours and bookings. */
  lemma SettlementIgnoresLog(s: Store, k: nat, now: int, log: seq<Transaction>)
    requires k < |s.bookings|
    ensures Settlement(s.(transactions := log), k, now).Ok? <==> Settlement(s, k, now).Ok?
    ensures Settlement(s, k, now).Err? ==> Settlement(s.(transactions := log), k, now) == Settlement(s, k, now)
    ensures Settlement(s, k, now).Ok? ==>
      Settlement(s.(transactions := log), k, now).value == Settlement(s, k, now).value.(transactions := log)
  {
  }

  /**
   * Past the guards, an amount mismatch only writes a note on the logged
   * transaction and settlement proceeds either way: tours and bookings end
   * as settlement leaves them, or, when settlement fails, as they were.
   */
  lemma WebhookSettles(s: Store, p: WebhookPayload, txId: string, now: int, extract: Option<string> -> string)
    requires TransactionModel.Acceptable(LoggedInput(p))
    requires extract(Or(p.code, p.content)) != ""
    requires FirstWithOrderCode(s.bookings, p.code.value).Some?
    requires s.bookings[FirstWithOrderCode(s.bookings, p.code.value).value].paymentStatus != Paid
    ensures var (s', r) := WebhookOutcome(s, p, txId, now, extract);
      var k := FirstWithOrderCode(s.bookings, p.code.value).value; var b := s.bookings[k];
      && s'.transactions[|s.transactions|].note ==
           (if p.transferAmount != Some(b.amount) then Some(MismatchNote(b.amount, p.transferAmount)) else None)
      && (r.Ok? <==> Settlement(s, k, now).Ok?)
      && (r.Ok? ==> s'.tours == Settlement(s, k, now).value.tours && s'.bookings == Settlement(s, k, now).value.bookings)
      && (r.Err? ==> r.error == Settlement(s, k, now).error && s'.tours == s.tours && s'.bookings == s.bookings)
  {
    var tx := NewTransaction(txId, LoggedInput(p)).value;
    var k := FirstWithOrderCode(s.bookings, p.code.value).value;
    var b := s.bookings[k];
    var noted :=
      if p.transferAmount != Some(b.amount)
      then s.(transactions := s.transactions + [WithNote(tx, MismatchNote(b.amount, p.transferAmount))])
      else s.(transactions := s.transactions + [tx]);
    SettlementIgnoresLog(s, k, now, noted.transactions);
    assert noted == s.(transactions := noted.transactions);
  }

  /** Changing one booking without touching its order code keeps `findOne({ orderCode })` pointing at the same position. */
  lemma {:induction false} FirstWithOrderCodeUpdate(bs: seq<Booking>, k: nat, b: Booking, code: string)
    requires k < |bs| && bs[k].orderCode == b.orderCode
    ensures FirstWithOrderCode(bs[k := b], code) == FirstWithOrderCode(bs, code)
    decreases |bs|
  {
    if bs[0].orderCode != code {
      if k > 0 {
        assert bs[k := b][1..] == bs[1..][k - 1 := b];
        FirstWithOrderCodeUpdate(bs[1..], k - 1, b, code);
      } else {
        assert bs[k := b][1..] == bs[1..];
      }
    }
  }

  /**
   * Replaying a notification that settled a booking logs a second
   * transaction and stops at the already-paid guard: capacity is added once.
   */
  lemma WebhookReplayAddsCapacityOnce(s: Store, p: WebhookPayload, txId: string, txId2: string, now: int, now2: int,
                                      extract: Option<string> -> string)
    requires WebhookOutcome(s, p, txId, now, extract).1.Ok?
    ensures var s1 := WebhookOutcome(s, p, txId, now, extract).0;
      var (s2, r2) := WebhookOutcome(s1, p, txId2, now2, extract);
      && r2.Err? && r2.error.Raised? && r2.error.error.statusCode == 200
      && StartsWith(r2.error.error.message, "Transaction saved but booking already paid ")
      && s2.tours == s1.tours && s2.bookings == s1.bookings
      && |s2.transactions| == |s1.transactions| + 1
  {
    var tx := NewTransaction(txId, LoggedInput(p)).value;
    var k := FirstWithOrderCode(s.bookings, tx.orderCode).value;
    var b := s.bookings[k];
    WebhookSettles(s, p, txId, now, extract);
    var s1 := WebhookOutcome(s, p, txId, now, extract).0;
    SettlementChanges(s, k, now);
    assert s1.bookings == s.bookings[k := b.(paymentStatus := Paid, paymentTime := Some(now))];
    FirstWithOrderCodeUpdate(s.bookings, k, b.(paymentStatus := Paid, paymentTime := Some(now)), tx.orderCode);
    WebhookGuards(s1, p, txId2, now2, extract);
    var msg := "Transaction saved but booking already paid " + b.id;
    assert StartsWith(msg, "Transaction saved but booking already paid ");
  }

  /**
   * A notification for an unpaid booking whose tour has no entry at the
   * booking's exact instant is logged, and then a TypeError escapes with
   * tours and bookings unchanged.
   */
  lemma UnmatchedInstantFailsWebhook(s: Store, p: WebhookPayload, txId: string, now: int, extract: Option<string> -> string)
    requires TransactionModel.Acceptable(LoggedInput(p)) && extract(Or(p.code, p.content)) != ""
    requires FirstWithOrderCode(s.bookings, p.code.value).Some?
    requires var b := s.bookings[FirstWithOrderCode(s.bookings, p.code.value).value];
      b.paymentStatus != Paid && FindById(s.tours, b.tour).Some? && FindEntry(s.tours[b.tour].startDates, b.startDate).None?
    ensures var (s', r) := WebhookOutcome(s, p, txId, now, extract);
      && r == Err(TypeErrorThrown(UNDEFINED_PARTICIPANTS))
      && s'.tours == s.tours && s'.bookings == s.bookings
      && |s'.transactions| == |s.transactions| + 1
  {
    WebhookSettles(s, p, txId, now, extract);
    WebhookLogsFirst(s, p, txId, now, extract);
  }

  /** The booking a checkout appends is the one `findOne({ orderCode })` finds when the code is new. */
  lemma CheckoutBookingFoundByCode(s: Store, body: CheckoutBody, userId: string, bookingId: string, orderCode: string, cfg: SepayConfig)
    requires body.startDate.Some? && CheckoutOutcome(s, body, userId, bookingId, orderCode, cfg).1.Ok?
    requires forall j :: 0 <= j < |s.bookings| ==> s.bookings[j].orderCode != orderCode
    ensures var s1 := CheckoutOutcome(s, body, userId, bookingId, orderCode, cfg).0;
      && FirstWithOrderCode(s1.bookings, orderCode) == Some(|s.bookings|)
      && s1.tours == s.tours
      && s1.bookings[|s.bookings|].paymentStatus == Unpaid
      && s1.bookings[|s.bookings|].tour == body.tourId.value
      && s1.bookings[|s.bookings|].startDate == body.startDate.value
  {
    CheckoutCreatesOneBooking(s, body, userId, bookingId, orderCode, cfg);
    var s1 := CheckoutOutcome(s, body, userId, bookingId, orderCode, cfg).0;
    forall j | 0 <= j < |s.bookings| ensures s1.bookings[j].orderCode != orderCode {
      assert s1.bookings[j] == s.bookings[j];
    }
  }

  /**
   * A checkout whose requested instant matched only by calendar day (or only
   * on another tour) creates a booking its own payment cannot settle: the
   * webhook logs the transaction, then a TypeError escapes and the booking
   * stays Unpaid.
   */
  lemma CheckoutDateMismatchBreaksSettlement(s: Store, body: CheckoutBody, userId: string, bookingId: string, orderCode: string,
                                             cfg: SepayConfig, p: WebhookPayload, txId: string, now: int,
                                             extract: Option<string> -> string)
    requires body.startDate.Some? && CheckoutOutcome(s, body, userId, bookingId, orderCode, cfg).1.Ok?
    requires FindEntry(s.tours[body.tourId.value].startDates, body.startDate.value).None?
    requires forall j :: 0 <= j < |s.bookings| ==> s.bookings[j].orderCode != orderCode
    requires TransactionModel.Acceptable(LoggedInput(p)) && p.code == Some(orderCode) && extract(Or(p.code, p.content)) != ""
    ensures var s1 := CheckoutOutcome(s, body, userId, bookingId, orderCode, cfg).0;
      var (s2, r) := WebhookOutcome(s1, p, txId, now, extract);
      && r == Err(TypeErrorThrown(UNDEFINED_PARTICIPANTS))
      && s2.tours == s1.tours && s2.bookings == s1.bookings
      && s2.bookings[|s.bookings|].paymentStatus == Unpaid
      && |s2.transactions| == |s1.transactions| + 1
  {
    CheckoutRejections(s, body, userId, bookingId, orderCode, cfg);
    CheckoutBookingFoundByCode(s, body, userId, bookingId, orderCode, cfg);
    var s1 := CheckoutOutcome(s, body, userId, bookingId, orderCode, cfg).0;
    UnmatchedInstantFailsWebhook(s1, p, txId, now, extract);
  }

  /**
   * Edit rejections: an unknown id is a 404 and a failing update validator a
   * ValidationError, both with nothing written. Once written, the edit stays:
   * a missing or secret tour makes a TypeError escape and a tour without the
   * booking's exact start instant is a 400, with the tours untouched.
   */
  lemma EditRejections(s: Store, bookingId: string, patch: BookingPatch)
    ensures IndexOfBooking(s.bookings, bookingId).None? ==>
      EditOutcome(s, bookingId, patch) == (s, Err(Raised(AppError("Booking not found", NOT_FOUND))))
    ensures IndexOfBooking(s.bookings, bookingId).Some? && PatchErrors(patch) != [] ==>
      EditOutcome(s, bookingId, patch) == (s, Err(ValidationFailed(PatchErrors(patch))))
    ensures IndexOfBooking(s.bookings, bookingId).Some? && PatchErrors(patch) == [] ==>
      var k := IndexOfBooking(s.bookings, bookingId).value; var b := ApplyPatch(s.bookings[k], patch);
      var (s', r) := EditOutcome(s, bookingId, patch);
      && s'.bookings == s.bookings[k := b] && s'.transactions == s.transactions
      && (FindById(s.tours, b.tour).None? ==> r == Err(TypeErrorThrown(NULL_START_DATES)) && s'.tours == s.tours)
      && (FindById(s.tours, b.tour).Some? && FindEntry(s.tours[b.tour].startDates, b.startDate).None? ==>
            r == Err(Raised(AppError("Start date not found in tour", BAD_REQUEST))) && s'.tours == s.tours)
  {
  }

  /**
   * A successful edit moves the matching ledger entry by new minus old
   * participants and recomputes its flag; no other entry or tour changes,
   * and the booking's amount is only what the edit sends, never recomputed.
   */
  lemma EditAdjustsLedger(s: Store, bookingId: string, patch: BookingPatch)
    requires EditOutcome(s, bookingId, patch).1.Ok?
    ensures var (s', r) := EditOutcome(s, bookingId, patch);
      var k := IndexOfBooking(s.bookings, bookingId).value; var before := s.bookings[k];
      var b := r.value; var t := s.tours[b.tour]; var t' := s'.tours[b.tour];
      var i := FindEntry(t.startDates, b.startDate).value;
      && s'.bookings == s.bookings[k := b] && b.amount == patch.amount.GetOr(before.amount)
      && s'.tours.Keys == s.tours.Keys
      && (forall id :: id in s.tours && id != b.tour ==> s'.tours[id] == s.tours[id])
      && t'.(startDates := t.startDates) == t
      && t'.startDates[i].participants == t.startDates[i].participants.Plus(ParticipantsDiff(patch, before))
      && (patch.participants.Some? && t.startDates[i].participants.Num? ==>
            t'.startDates[i].participants == Num(t.startDates[i].participants.n + patch.participants.value - before.participants))
      && (t'.startDates[i].soldOut <==> t'.startDates[i].participants.AtLeast(t.maxGroupSize))
      && (forall j :: 0 <= j < |t.startDates| && j != i ==> t'.startDates[j] == t.startDates[j])
  {
  }

  /**
   * An edit that sends another `tour` moves no booked places off the old
   * tour: the lookup reads the edited booking, so the new tour's entry gains
   * the difference new minus old participants and the old tour stays as it
   * was.
   */
  lemma EditToAnotherTourKeepsOldTour(s: Store, bookingId: string, patch: BookingPatch)
    requires EditOutcome(s, bookingId, patch).1.Ok?
    requires var k := IndexOfBooking(s.bookings, bookingId).value;
      patch.tour.Some? && patch.tour.value != s.bookings[k].tour && s.bookings[k].tour in s.tours
    ensures var (s', r) := EditOutcome(s, bookingId, patch);
      var k := IndexOfBooking(s.bookings, bookingId).value; var before := s.bookings[k];
      var t := s.tours[patch.tour.value]; var i := FindEntry(t.startDates, r.value.startDate).value;
      && r.value.tour == patch.tour.value
      && s'.tours[before.tour] == s.tours[before.tour]
      && s'.tours[patch.tour.value].startDates[i].participants == t.startDates[i].participants.Plus(ParticipantsDiff(patch, before))
  {
    EditAdjustsLedger(s, bookingId, patch);
  }

  /** An edit that does not send `participants` turns the entry's counter into NaN and clears its sold-out flag. */
  lemma EditWithoutParticipantsPoisonsCounter(s: Store, bookingId: string, patch: BookingPatch)
    requires patch.participants.None? && EditOutcome(s, bookingId, patch).1.Ok?
    ensures var (s', r) := EditOutcome(s, bookingId, patch);
      var t' := s'.tours[r.value.tour]; var i := FindEntry(s.tours[r.value.tour].startDates, r.value.startDate).value;
      t'.startDates[i].participants == NaN && !t'.startDates[i].soldOut
  {
    EditAdjustsLedger(s, bookingId, patch);
  }
}
