/** The conversation payload, a closed tagged union of conversation steps,
    and the merge that folds a new user choice into the order-builder step. */
module Payloads {
  import opened Wrappers
  import opened Basics
  import opened OrderTypes
  import opened OrderStates

  datatype NodePayload =
    | EditText(messageId: int)
    | Build(buildableType: BuildableType, buildObject: map<string, AnyValue>)
    | Page(at: int)
    | OrderBuilder(state: OrderState)
    | Checkout(checkout: CheckoutState)
    | Calendar(year: int, month: int, day: Option<int>, time: Option<TimeInterval>, needsConfirm: bool)

  /** A priced participant the customer can pick (stylist, make-up artist,
      photographer or studio). Its identifier is optional, as it is on a
      record that has not been stored yet. */
  datatype Participant = Participant(id: Option<Uuid>, price: real)

  /** A customer; only the identifier takes part in the merge. */
  datatype Customer = Customer(id: Option<Uuid>)

  /** The choices one conversation step may supply; an absent entry is a
      choice this step does not make. */
  datatype Overrides = Overrides(
    orderType: Option<OrderType>,
    stylist: Option<Participant>,
    makeuper: Option<Participant>,
    photographer: Option<Participant>,
    studio: Option<Participant>,
    date: Option<Date>,
    duration: Option<TimeInterval>,
    customer: Option<Customer>)

  const NoOverrides := Overrides(None, None, None, None, None, None, None, None)

  /** `participant?.id`: the identifier of a chosen participant, flattened. */
  function IdOf(p: Option<Participant>): Option<Uuid>
  {
    if p.Some? then p.value.id else None
  }

  /** `participant?.price`. */
  function PriceOf(p: Option<Participant>): Option<real>
  {
    if p.Some? then Some(p.value.price) else None
  }

  function CustomerIdOf(c: Option<Customer>): Option<Uuid>
  {
    if c.Some? then c.value.id else None
  }

  function Sum(xs: seq<real>): real
  {
    if xs == [] then 0.0 else xs[0] + Sum(xs[1..])
  }

  /** The price the chosen participants add to the hour price: the prices
      of the present ones, summed. */
  function AppendingPrice(o: Overrides): real
  {
    Sum(CompactMap([PriceOf(o.stylist), PriceOf(o.makeuper), PriceOf(o.photographer), PriceOf(o.studio)]))
  }

  /** The price one optional participant contributes. */
  function Contribution(p: Option<Participant>): real
  {
    if p.Some? then p.value.price else 0.0
  }

  /** The appending price is the sum over the four participant slots of each
      chosen participant's price, an absent one adding nothing. */
  lemma AppendingPriceIsSum(o: Overrides)
    ensures AppendingPrice(o) ==
      Contribution(o.stylist) + Contribution(o.makeuper) + Contribution(o.photographer) + Contribution(o.studio)
  {
    var xs := [PriceOf(o.stylist), PriceOf(o.makeuper), PriceOf(o.photographer), PriceOf(o.studio)];
    assert xs[1..] == [PriceOf(o.makeuper), PriceOf(o.photographer), PriceOf(o.studio)];
    assert xs[1..][1..] == [PriceOf(o.photographer), PriceOf(o.studio)];
    assert xs[1..][1..][1..] == [PriceOf(o.studio)];
    assert xs[1..][1..][1..][1..] == [];
    var ys := CompactMap(xs);
    SumAppend(if PriceOf(o.stylist).Some? then [o.stylist.value.price] else [], CompactMap(xs[1..]));
    SumAppend(if PriceOf(o.makeuper).Some? then [o.makeuper.value.price] else [], CompactMap(xs[1..][1..]));
    SumAppend(if PriceOf(o.photographer).Some? then [o.photographer.value.price] else [], CompactMap(xs[1..][1..][1..]));
    SumAppend(if PriceOf(o.studio).Some? then [o.studio.value.price] else [], CompactMap(xs[1..][1..][1..][1..]));
  }

  lemma {:induction false} SumAppend(xs: seq<real>, ys: seq<real>)
    ensures Sum(xs + ys) == Sum(xs) + Sum(ys)
  {
    if xs == [] {
      assert xs + ys == ys;
    } else {
      assert (xs + ys)[1..] == xs[1..] + ys;
      SumAppend(xs[1..], ys);
    }
  }

  /** Whether the previous payload carries an order-builder state. */
  predicate HasBuilder(p: Option<NodePayload>)
  {
    p.Some? && p.value.OrderBuilder?
  }

  /** The order state after one conversation step, field by field: a chosen
      value wins (for a participant or the customer, only if it has an id),
      an unchosen one falls back to the previous builder state, or is absent
      when there is none; the hour price grows by the chosen participants'
      prices; the cancellation flag and the order id are not carried over. */
  function Merge(oldPayload: Option<NodePayload>, o: Overrides): (r: OrderState)
    ensures var b := Base(oldPayload);
      && r.orderType == (if o.orderType.Some? then o.orderType else b.orderType)
      && r.stylistId == (if o.stylist.Some? && o.stylist.value.id.Some? then o.stylist.value.id else b.stylistId)
      && r.makeuperId == (if o.makeuper.Some? && o.makeuper.value.id.Some? then o.makeuper.value.id else b.makeuperId)
      && r.photographerId == (if o.photographer.Some? && o.photographer.value.id.Some? then o.photographer.value.id else b.photographerId)
      && r.studioId == (if o.studio.Some? && o.studio.value.id.Some? then o.studio.value.id else b.studioId)
      && r.date == (if o.date.Some? then o.date else b.date)
      && r.duration == (if o.duration.Some? then o.duration else b.duration)
      && r.userId == (if o.customer.Some? && o.customer.value.id.Some? then o.customer.value.id else b.userId)
      && r.hourPrice == b.hourPrice + Contribution(o.stylist) + Contribution(o.makeuper)
                        + Contribution(o.photographer) + Contribution(o.studio)
      && !r.isCancelled && r.id.None?
  {
    AppendingPriceIsSum(o);
    var appendingPrice := AppendingPrice(o);
    if HasBuilder(oldPayload) then
      var state := oldPayload.value.state;
      OrderState(
        orderType := o.orderType.OrElse(state.orderType),
        stylistId := IdOf(o.stylist).OrElse(state.stylistId),
        makeuperId := IdOf(o.makeuper).OrElse(state.makeuperId),
        photographerId := IdOf(o.photographer).OrElse(state.photographerId),
        studioId := IdOf(o.studio).OrElse(state.studioId),
        date := o.date.OrElse(state.date),
        duration := o.duration.OrElse(state.duration),
        hourPrice := state.hourPrice + appendingPrice,
        isCancelled := false,
        id := None,
        userId := CustomerIdOf(o.customer).OrElse(state.userId))
    else
      OrderState(
        orderType := o.orderType,
        stylistId := IdOf(o.stylist),
        makeuperId := IdOf(o.makeuper),
        photographerId := IdOf(o.photographer),
        studioId := IdOf(o.studio),
        date := o.date,
        duration := o.duration,
        hourPrice := appendingPrice,
        isCancelled := false,
        id := None,
        userId := CustomerIdOf(o.customer))
  }

  /** The state the merge falls back on: the previous builder state, or the
      empty state when the previous payload is absent or another step. */
  function Base(p: Option<NodePayload>): OrderState
  {
    if HasBuilder(p) then p.value.state else EmptyState()
  }

  /** A prior payload that is absent or not an order-builder step is ignored:
      the merge gives the same state as merging into an empty builder. */
  lemma MergeIgnoresOtherPayloads(p: Option<NodePayload>, o: Overrides)
    requires !HasBuilder(p)
    ensures Merge(p, o) == Merge(Some(OrderBuilder(EmptyState())), o)
  {
  }

  /** A step that chooses nothing keeps every choice and the hour price of
      the previous builder state, and only resets cancellation and id. */
  lemma EmptyStepKeepsState(s: OrderState)
    ensures Merge(Some(OrderBuilder(s)), NoOverrides) == s.(isCancelled := false, id := None)
  {
  }

  /** Price accumulation is not idempotent: choosing the same stylist in two
      steps, starting from no order, counts the stylist's price twice. */
  lemma SameStylistTwiceCountsTwice(stylist: Participant)
    ensures var first := Merge(None, NoOverrides.(stylist := Some(stylist)));
            var second := Merge(Some(OrderBuilder(first)), NoOverrides.(stylist := Some(stylist)));
            second.hourPrice == 2.0 * stylist.price && second.stylistId == stylist.id
  {
  }

  /** The later step's choices over the earlier step's: for every entry the
      later one if it is present, else the earlier one. */
  function Later(a: Overrides, b: Overrides): Overrides
  {
    Overrides(
      b.orderType.OrElse(a.orderType),
      b.stylist.OrElse(a.stylist),
      b.makeuper.OrElse(a.makeuper),
      b.photographer.OrElse(a.photographer),
      b.studio.OrElse(a.studio),
      b.date.OrElse(a.date),
      b.duration.OrElse(a.duration),
      b.customer.OrElse(a.customer))
  }

  /** No participant slot, and not the customer, is chosen by both steps. */
  predicate ParticipantsDisjoint(a: Overrides, b: Overrides)
  {
    && (a.customer.None? || b.customer.None?)
    && (a.stylist.None? || b.stylist.None?)
    && (a.makeuper.None? || b.makeuper.None?)
    && (a.photographer.None? || b.photographer.None?)
    && (a.studio.None? || b.studio.None?)
  }

  /** Two steps that choose different participants and customers have the
      effect of one step making both steps' choices (the later step winning
      where both choose a type, date or duration). */
  lemma MergeTwiceIsMergeOnce(p: Option<NodePayload>, a: Overrides, b: Overrides)
    requires ParticipantsDisjoint(a, b)
    ensures Merge(Some(OrderBuilder(Merge(p, a))), b) == Merge(p, Later(a, b))
  {
  }

  /** The worked example of a two-step conversation: a love-story order with
      a photographer at 80, then a studio at 40 for one hour. */
  lemma TwoStepScenario(photographer: Uuid, studio: Uuid)
    ensures var first := Merge(None, NoOverrides.(orderType := Some(LoveStory),
                                                   photographer := Some(Participant(Some(photographer), 80.0))));
            var second := Merge(Some(OrderBuilder(first)),
                                NoOverrides.(studio := Some(Participant(Some(studio), 40.0)), duration := Some(3600.0)));
            && first.hourPrice == 80.0 && first.orderType == Some(LoveStory)
            && first.photographerId == Some(photographer)
            && second.hourPrice == 120.0 && Price(second) == 120.0
            && second.studioId == Some(studio) && second.photographerId == Some(photographer)
  {
  }
}
