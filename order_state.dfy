/** The order under construction: what the customer has chosen so far in
    the chat, the hour price accumulated from the chosen participants, and
    the price and validity derived from them. */
module OrderStates {
  import opened Wrappers
  import opened Basics
  import opened OrderTypes

  datatype OrderState = OrderState(
    orderType: Option<OrderType>,
    stylistId: Option<Uuid>,
    makeuperId: Option<Uuid>,
    photographerId: Option<Uuid>,
    studioId: Option<Uuid>,
    date: Option<Date>,
    duration: Option<TimeInterval>,
    hourPrice: real,
    isCancelled: bool,
    id: Option<Uuid>,
    userId: Option<Uuid>)

  /** An order together with the promotions applied to it at checkout
      (each promotion by its identifier). */
  datatype CheckoutState = CheckoutState(order: OrderState, promotions: seq<Uuid>)

  /** The state every field of which is absent: no choice made, nothing
      accumulated. */
  function EmptyState(): (s: OrderState)
    ensures s.hourPrice == 0.0 && !s.isCancelled
  {
    OrderState(None, None, None, None, None, None, None, 0.0, false, None, None)
  }

  /** The number of hours the session is billed for: the duration in
      hours, or one hour when no duration has been chosen. */
  function Hours(s: OrderState): real
  {
    match s.duration
    case Some(d) => d / 60.0 / 60.0
    case None => 1.0
  }

  /** The price of the session: with a duration, the hour price times the
      duration in hours; without one, the hour price itself. */
  function Price(s: OrderState): (r: real)
    ensures s.duration.Some? ==> r * 3600.0 == s.hourPrice * s.duration.value
    ensures s.duration.None? ==> r == s.hourPrice
  {
    Hours(s) * s.hourPrice
  }

  /** Hours are not clamped to one: a half-hour session costs half the hour
      price, less than the price of a session with no duration at all. */
  lemma PriceNotClampedToOneHour(s: OrderState)
    requires s.duration == Some(1800.0) && s.hourPrice > 0.0
    ensures Price(s) * 2.0 == s.hourPrice
    ensures Price(s) < Price(s.(duration := None))
  {
  }

  /** A one-hour duration is billed like no duration. */
  lemma OneHourIsDefault(s: OrderState)
    requires s.duration == Some(3600.0)
    ensures Price(s) == Price(s.(duration := None))
  {
  }

  /** Whether each entry of a list of optional parameters is present. */
  function AllPresent(present: seq<bool>): (r: bool)
    ensures r <==> forall i :: 0 <= i < |present| ==> present[i]
  {
    if present == [] then true else present[0] && AllPresent(present[1..])
  }

  /** The parameters an order cannot be placed without. */
  function RequiredParams(s: OrderState): seq<bool>
  {
    [s.date.Some?, s.studioId.Some?, s.duration.Some?, s.photographerId.Some?]
  }

  /** An order state is valid exactly when date, studio, duration and
      photographer are all chosen; the order kind, stylist and make-up
      artist play no part. */
  predicate IsValid(s: OrderState)
    ensures IsValid(s) <==>
      s.date.Some? && s.studioId.Some? && s.duration.Some? && s.photographerId.Some?
  {
    var p := RequiredParams(s);
    assert AllPresent(p) <==> p[0] && p[1] && p[2] && p[3];
    AllPresent(p)
  }

  /** Swift's `compactMap { $0 }`: the present values, in order. */
  function CompactMap<T(!new)>(xs: seq<Option<T>>): (r: seq<T>)
    ensures |r| <= |xs|
    ensures forall v {:trigger v in r} :: v in r ==> Some(v) in xs
    ensures forall i :: 0 <= i < |xs| && xs[i].Some? ==> xs[i].value in r
  {
    if xs == [] then []
    else (if xs[0].Some? then [xs[0].value] else []) + CompactMap(xs[1..])
  }

  /** The number of present entries. */
  function CountPresent<T>(xs: seq<Option<T>>): nat
  {
    if xs == [] then 0 else (if xs[0].Some? then 1 else 0) + CountPresent(xs[1..])
  }

  /** compactMap keeps exactly the present entries. */
  lemma {:induction false} CompactMapCount<T(!new)>(xs: seq<Option<T>>)
    ensures |CompactMap(xs)| == CountPresent(xs)
  {
    if xs != [] {
      CompactMapCount(xs[1..]);
    }
  }

  /** The participants entitled to hear about the order: the make-up artist
      and the stylist, those that are chosen, in that order. */
  function Watchers(s: OrderState): (r: seq<Uuid>)
    ensures r ==
      (if s.makeuperId.Some? then [s.makeuperId.value] else []) +
      (if s.stylistId.Some? then [s.stylistId.value] else [])
  {
    var xs: seq<Option<Uuid>> := [s.makeuperId, s.stylistId];
    assert xs[1..] == [s.stylistId];
    assert xs[1..][1..] == [];
    assert CompactMap(xs[1..]) == (if s.stylistId.Some? then [s.stylistId.value] else []) + CompactMap(xs[1..][1..]);
    CompactMap(xs)
  }

  /** There are at most two watchers, one for each chosen participant. */
  lemma WatchersCount(s: OrderState)
    ensures |Watchers(s)| == CountPresent([s.makeuperId, s.stylistId]) <= 2
  {
    CompactMapCount([s.makeuperId, s.stylistId]);
  }

  /** Watchers are not deduplicated: one person chosen as both make-up
      artist and stylist is listed twice. */
  lemma WatchersKeepDuplicates(s: OrderState, u: Uuid)
    requires s.makeuperId == Some(u) && s.stylistId == Some(u)
    ensures Watchers(s) == [u, u]
  {
  }
}
