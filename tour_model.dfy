/**
 * The Tour document (models/tourModel.js): its fields and validators, the
 * `durationWeeks` virtual, the unique name index and the query and
 * aggregation hooks that hide secret tours. Start dates have the record shape
 * the booking service reads: a date, a participant counter and a sold-out flag.
 */
module TourModel {
  import opened Wrappers
  import opened Strings
  import opened Schema
  import ErrorController
  import AppErrors

  /** A Number as JavaScript arithmetic leaves it: an integer, or NaN (`undefined - n`). */
  datatype Count = Num(n: int) | NaN {

    function Plus(d: Count): (r: Count)
      ensures r.Num? <==> this.Num? && d.Num?
      ensures r.Num? ==> r.n == this.n + d.n
    {
      if this.Num? && d.Num? then Num(n + d.n) else NaN
    }

    /** `this >= m`; every comparison with NaN is false. */
    predicate AtLeast(m: int) {
      Num? && n >= m
    }
  }

  /** One entry of `startDates`: the instant (ms), the participants booked so far, sold out or not. */
  datatype StartDate = StartDate(date: int, participants: Count, soldOut: bool)

  datatype Difficulty = Easy | Medium | Difficult

  datatype Tour = Tour(
    name: string,
    secretTour: bool,
    price: int,
    duration: int,
    maxGroupSize: int,
    difficulty: Option<Difficulty>,
    priceDiscount: Option<int>,
    summary: string,
    description: Option<string>,
    imageCover: string,
    startDates: seq<StartDate>)

  /** `Math.ceil(duration / 7)` */
  function DurationWeeks(duration: int): (w: int)
    ensures 7 * (w - 1) < duration <= 7 * w
  {
    -((-duration) / 7)
  }

  /** The fields given when a tour is created; None for a field left out. */
  datatype TourInput = TourInput(
    name: Option<string>,
    secretTour: Option<bool>,
    price: Option<int>,
    duration: Option<int>,
    maxGroupSize: Option<int>,
    difficulty: Option<string>,
    priceDiscount: Option<int>,
    summary: Option<string>,
    description: Option<string>,
    imageCover: Option<string>,
    startDates: seq<StartDate>)

  function ParseDifficulty(s: string): Option<Difficulty> {
    if s == "easy" then Some(Easy)
    else if s == "medium" then Some(Medium)
    else if s == "difficult" then Some(Difficult)
    else None
  }

  /** The `priceDiscount` validator: below the price and above zero; with no price `value < undefined` is false. */
  predicate PriceDiscountValid(value: int, price: Option<int>) {
    price.Some? && value < price.value && value > 0
  }

  /** Reference definition of the documents the schema accepts, field by field. */
  predicate Acceptable(i: TourInput) {
    && i.name.Some? && 10 <= |i.name.value| <= 40
    && i.price.Some? && i.duration.Some? && i.maxGroupSize.Some?
    && (i.difficulty.Some? ==> i.difficulty.value in ["easy", "medium", "difficult"])
    && (i.priceDiscount.Some? ==> 0 < i.priceDiscount.value < i.price.value)
    && i.summary.Some? && Trim(i.summary.value) != "" && |Trim(i.summary.value)| <= 1000
    && (i.description.Some? ==> |Trim(i.description.value)| <= 1000)
    && i.imageCover.Some? && i.imageCover.value != ""
  }

  function NameErrors(name: Option<string>): (r: seq<string>)
    ensures r == [] <==> name.Some? && 10 <= |name.value| <= 40
  {
    if name.None? || name.value == "" then ["A tour must have a name"]
    else if |name.value| < 10 then ["A tour name must have more or equals than 10 charactors"]
    else if |name.value| > 40 then ["A tour name must have less or equals than 40 charactors"]
    else []
  }

  function DifficultyErrors(d: Option<string>): (r: seq<string>)
    ensures r == [] <==> (d.Some? ==> d.value in ["easy", "medium", "difficult"])
  {
    if d.Some? && ParseDifficulty(d.value).None? then ["Difficult is either: easy, medium, difficulty"] else []
  }

  function DiscountErrors(d: Option<int>, price: Option<int>): (r: seq<string>)
    ensures r == [] <==> (d.Some? ==> PriceDiscountValid(d.value, price))
  {
    if d.Some? && !PriceDiscountValid(d.value, price)
    then ["Discount price " + IntToString(d.value) + " should be below regular price and > 0"] else []
  }

  /** `summary`: trimmed by its setter, then required and at most 1000 characters. */
  function SummaryErrors(s: Option<string>): (r: seq<string>)
    ensures r == [] <==> s.Some? && Trim(s.value) != "" && |Trim(s.value)| <= 1000
  {
    if s.None? || Trim(s.value) == "" then ["A tour must have a summary"]
    else if |Trim(s.value)| > 1000 then ["A summary must be below 1000 characters"] else []
  }

  function DescriptionErrors(s: Option<string>): (r: seq<string>)
    ensures r == [] <==> (s.Some? ==> |Trim(s.value)| <= 1000)
  {
    if s.Some? && |Trim(s.value)| > 1000 then ["A summary must be below 1000 characters"] else []
  }

  /** The first failing validator of each path, in schema order. */
  function TourErrors(i: TourInput): (r: seq<string>)
    ensures r == [] <==> Acceptable(i)
  {
    NameErrors(i.name)
      + Required(i.price, "A tour must have a price")
      + Required(i.duration, "A tour must have a duration")
      + Required(i.maxGroupSize, "A tour must have a max group size")
      + DifficultyErrors(i.difficulty)
      + DiscountErrors(i.priceDiscount, i.price)
      + SummaryErrors(i.summary)
      + DescriptionErrors(i.description)
      + RequiredString(i.imageCover, "A tour must have a image cover")
  }

  /**
   * Creating a tour document: validation, then defaults (`secretTour` false)
   * and the trimming setters. `difficulty` is optional: its schema spells the
   * option `requiredd`, which Mongoose ignores.
   */
  function NewTour(i: TourInput): (r: Result<Tour, seq<string>>)
    ensures r.Ok? <==> Acceptable(i)
    ensures r.Err? ==> |r.error| > 0
    ensures r.Ok? ==>
      && r.value.name == i.name.value
      && r.value.secretTour == i.secretTour.GetOr(false)
      && r.value.price == i.price.value && r.value.duration == i.duration.value
      && r.value.maxGroupSize == i.maxGroupSize.value
      && r.value.priceDiscount == i.priceDiscount
      && r.value.startDates == i.startDates
      && (r.value.priceDiscount.Some? ==> 0 < r.value.priceDiscount.value < r.value.price)
    ensures r.Ok? ==>
      && r.value.summary == Trim(i.summary.value)
      && r.value.summary != "" && |r.value.summary| <= 1000
      && r.value.description.Some? == i.description.Some?
      && (i.description.Some? ==> r.value.description.value == Trim(i.description.value)
                                  && |r.value.description.value| <= 1000)
      && r.value.difficulty.Some? == i.difficulty.Some?
      && (i.difficulty.Some? ==> r.value.difficulty == ParseDifficulty(i.difficulty.value))
      && r.value.imageCover == i.imageCover.value && r.value.imageCover != ""
  {
    var errors := TourErrors(i);
    if errors != [] then Err(errors)
    else
      Ok(Tour(i.name.value, i.secretTour.GetOr(false), i.price.value, i.duration.value, i.maxGroupSize.value,
              if i.difficulty.Some? then ParseDifficulty(i.difficulty.value) else None,
              i.priceDiscount, Trim(i.summary.value),
              if i.description.Some? then Some(Trim(i.description.value)) else None,
              i.imageCover.value, i.startDates))
  }

  /**
   * Inserting into the collection: the unique indexes on `_id` and `name`
   * reject a duplicate with MongoDB error 11000 naming the offending key.
   * The index covers secret tours too.
   */
  function InsertTour(tours: map<string, Tour>, id: string, t: Tour): (r: Result<map<string, Tour>, ErrorController.RawError>)
    ensures r.Ok? <==> id !in tours && forall other :: other in tours ==> tours[other].name != t.name
    ensures r.Ok? ==> r.value == tours[id := t]
    ensures r.Err? ==> r.error.code == Some(11000) && |r.error.keyValue| == 1
  {
    var e := ErrorController.RawError("MongoServerError", "E11000 duplicate key error", None, None, false, Some(11000), "", "", [], []);
    if id in tours then Err(e.(keyValue := [("_id", id)]))
    else if exists other :: other in tours && tours[other].name == t.name then Err(e.(keyValue := [("name", t.name)]))
    else Ok(tours[id := t])
  }

  /** A duplicate name reaches the client as a 400 that names the field and the value. */
  lemma DuplicateNameReported(tours: map<string, Tour>, id: string, t: Tour)
    requires id !in tours
    requires exists other :: other in tours && tours[other].name == t.name
    ensures InsertTour(tours, id, t).Err?
    ensures ErrorController.KnownError(InsertTour(tours, id, t).error) ==
      Some(AppErrors.AppError("Duplicate field name, value: " + t.name + ". Please enter another value", 400))
  {
    var e := ErrorController.RawError("MongoServerError", "E11000 duplicate key error", None, None, false, Some(11000), "", "", [], []);
    assert InsertTour(tours, id, t) == Err(e.(keyValue := [("name", t.name)]));
    assert "Duplicate field " + "name" + ", value: " == "Duplicate field name, value: ";
  }

  // Query middleware: every `find*` query, and every aggregation, hides secret tours.

  datatype Condition = IdIs(id: string) | SecretNotTrue | HasStartDateBetween(from: int, to: int)

  predicate Satisfies(id: string, t: Tour, c: Condition) {
    match c
    case IdIs(x) => id == x
    case SecretNotTrue => !t.secretTour
    case HasStartDateBetween(from, to) => exists d :: d in t.startDates && from <= d.date <= to
  }

  predicate SatisfiesAll(id: string, t: Tour, cs: seq<Condition>) {
    forall c :: c in cs ==> Satisfies(id, t, c)
  }

  /** The conditions a `find*` query runs with once the hook has added its own. */
  function WithSecretFilter(cs: seq<Condition>): seq<Condition> {
    cs + [SecretNotTrue]
  }

  /** A `find*` query under construction. */
  class TourQuery {
    var conditions: seq<Condition>

    constructor (cs: seq<Condition>)
      ensures conditions == cs
    {
      conditions := cs;
    }

    /** `tourSchema.pre(/^find/)`: `this.find({ secretTour: { $ne: true } })` */
    method PreFind()
      modifies this
      ensures conditions == WithSecretFilter(old(conditions))
    {
      conditions := conditions + [SecretNotTrue];
    }
  }

  /** Whatever else a query asks, a secret tour never matches it once the hook has run. */
  lemma SecretToursNeverFound(id: string, t: Tour, cs: seq<Condition>)
    requires SatisfiesAll(id, t, WithSecretFilter(cs))
    ensures !t.secretTour && SatisfiesAll(id, t, cs)
  {
    assert SecretNotTrue in WithSecretFilter(cs);
  }

  /** `Tour.findById(id)` */
  function FindById(tours: map<string, Tour>, id: string): (r: Option<Tour>)
    ensures r.Some? <==> id in tours && !tours[id].secretTour
    ensures r.Some? ==> r.value == tours[id]
  {
    var cs := WithSecretFilter([IdIs(id)]);
    assert cs == [IdIs(id), SecretNotTrue];
    assert forall c :: c in cs <==> c == IdIs(id) || c == SecretNotTrue;
    assert id in tours ==> (SatisfiesAll(id, tours[id], cs) <==> Satisfies(id, tours[id], SecretNotTrue));
    if id in tours && SatisfiesAll(id, tours[id], cs) then Some(tours[id]) else None
  }

  /** `Tour.findOne(filter)` found something: some tour meets the hooked conditions. */
  predicate AnyFound(tours: map<string, Tour>, cs: seq<Condition>) {
    exists id :: id in tours && SatisfiesAll(id, tours[id], WithSecretFilter(cs))
  }

  datatype Stage = MatchNotSecret | OtherStage(name: string)

  /** An aggregation under construction. */
  class Aggregation {
    var pipeline: seq<Stage>

    constructor (stages: seq<Stage>)
      ensures pipeline == stages
    {
      pipeline := stages;
    }

    /** `tourSchema.pre('aggregate')`: put a `$match` on non-secret tours in front. */
    method PreAggregate()
      modifies this
      ensures pipeline == [MatchNotSecret] + old(pipeline)
      ensures |pipeline| == |old(pipeline)| + 1 && pipeline[1..] == old(pipeline)
    {
      pipeline := [MatchNotSecret] + pipeline;
    }
  }

  /** The documents the stages after a leading `$match` see. */
  function Admitted(pipeline: seq<Stage>, docs: seq<Tour>): seq<Tour>
    decreases |docs|
  {
    if |docs| == 0 then []
    else if |pipeline| > 0 && pipeline[0] == MatchNotSecret && docs[0].secretTour then Admitted(pipeline, docs[1..])
    else [docs[0]] + Admitted(pipeline, docs[1..])
  }

  /** Behind the hook's `$match`, the rest of any pipeline sees exactly the non-secret tours. */
  lemma {:induction false} AggregateSeesNoSecretTour(rest: seq<Stage>, docs: seq<Tour>)
    ensures forall t :: t in Admitted([MatchNotSecret] + rest, docs) <==> t in docs && !t.secretTour
    decreases |docs|
  {
    if |docs| > 0 {
      AggregateSeesNoSecretTour(rest, docs[1..]);
      assert docs == [docs[0]] + docs[1..];
    }
  }
}
