/** Persisted orders: the record a checkout is materialised into, the
    field-by-field construction that hands it to the store, the clone of an
    existing order, and the projection of an order back into the
    conversation's order state. */
module Orders {
  import opened Wrappers
  import opened Basics
  import opened OrderTypes
  import opened OrderStates

  /** A span of time given by its start and its length in seconds. */
  datatype Interval = Interval(start: Date, duration: TimeInterval)

  datatype OrderCreateError = NoDateOrType

  /** The values of an order's fields, as handed to the store. */
  datatype OrderFields = OrderFields(
    id: Option<Uuid>,
    userId: Option<Uuid>,
    orderType: Option<OrderType>,
    stylistId: Option<Uuid>,
    makeuperId: Option<Uuid>,
    studioId: Option<Uuid>,
    interval: Interval,
    price: real,
    promotions: seq<Uuid>)

  /** The persistence store, seen only through the records written to it,
      oldest first. */
  class Store {
    var saved: seq<OrderFields>

    constructor ()
      ensures saved == []
    {
      saved := [];
    }

    /** Writes the order's current field values. */
    method SaveIfNeeded(o: Order)
      modifies this
      ensures saved == old(saved) + [o.Fields()]
    {
      saved := saved + [o.Fields()];
    }
  }

  class Order {
    var id: Option<Uuid>
    var userId: Option<Uuid>
    var orderType: Option<OrderType>
    var stylistId: Option<Uuid>
    var makeuperId: Option<Uuid>
    var studioId: Option<Uuid>
    var interval: Interval
    var price: real
    var promotions: seq<Uuid>

    function Fields(): OrderFields
      reads this
    {
      OrderFields(id, userId, orderType, stylistId, makeuperId, studioId, interval, price, promotions)
    }

    /** A blank order: no identity, no owner, no choices. The source's
        initialiser leaves the interval, price and promotions unset; the
        zero interval, zero price and empty list here are placeholders that
        `Create` always overwrites. */
    constructor ()
      ensures Fields() == OrderFields(None, None, None, None, None, None, Interval(0.0, 0.0), 0.0, [])
    {
      id, userId, orderType := None, None, None;
      stylistId, makeuperId, studioId := None, None, None;
      interval, price, promotions := Interval(0.0, 0.0), 0.0, [];
    }

    /** Builds a new order from the given field values, one field at a time,
        and saves it: the new order and the one record written both hold
        exactly the arguments. */
    static method Create(store: Store, id: Option<Uuid> := None, userId: Uuid, orderType: OrderType,
                         stylistId: Option<Uuid>, makeuperId: Option<Uuid>, studioId: Option<Uuid>,
                         interval: Interval, price: real := 0.0, promotions: seq<Uuid>)
      returns (instance: Order)
      modifies store
      ensures fresh(instance)
      ensures instance.Fields() ==
        OrderFields(id, Some(userId), Some(orderType), stylistId, makeuperId, studioId, interval, price, promotions)
      ensures store.saved == old(store.saved) + [instance.Fields()]
    {
      instance := new Order();
      instance.id := id;
      instance.userId := Some(userId);
      instance.orderType := Some(orderType);
      instance.stylistId := stylistId;
      instance.makeuperId := makeuperId;
      instance.studioId := studioId;
      instance.interval := interval;
      instance.price := price;
      instance.promotions := promotions;
      store.SaveIfNeeded(instance);
    }

    /** Creates a new order holding every field value of an existing one.
        The existing order's owner and kind are unwrapped, so they must be
        set. */
    static method Clone(store: Store, other: Order) returns (instance: Order)
      requires other.userId.Some? && other.orderType.Some?
      modifies store
      ensures fresh(instance) && instance != other
      ensures instance.Fields() == other.Fields()
      ensures store.saved == old(store.saved) + [other.Fields()]
    {
      instance := Create(store, other.id, other.userId.value, other.orderType.value, other.stylistId,
                         other.makeuperId, other.studioId, other.interval, other.price, other.promotions);
    }

    /** Materialises a checkout into a saved order. Without a date, a
        duration or an order kind it fails and writes nothing; otherwise it
        saves and returns the record Materialize describes. The `id`
        argument is not used. */
    static method CreateFromCheckout(store: Store, id: Option<Uuid> := None, userId: Uuid, checkoutState: CheckoutState)
      returns (r: Result<Order, OrderCreateError>)
      modifies store
      ensures r.Failure? <==> Materialize(userId, checkoutState).Failure?
      ensures r.Failure? ==> r.error == NoDateOrType && store.saved == old(store.saved)
      ensures r.Success? ==>
        && fresh(r.value)
        && r.value.Fields() == Materialize(userId, checkoutState).value
        && store.saved == old(store.saved) + [r.value.Fields()]
    {
      var order := checkoutState.order;
      if order.date.None? || order.duration.None? || order.orderType.None? {
        return Failure(NoDateOrType);
      }
      var instance := Create(
        store,
        userId := userId,
        orderType := order.orderType.value,
        stylistId := order.stylistId,
        makeuperId := order.makeuperId,
        studioId := order.studioId,
        interval := Interval(order.date.value, order.duration.value),
        price := Price(order),
        promotions := checkoutState.promotions);
      r := Success(instance);
    }
  }

  /** The record a checkout becomes: it needs a date, a duration and an order
      kind; the interval is built from date and duration, the price is the
      order state's price, the promotions are the checkout's, the owner is
      the given user and there is no identity yet. */
  function Materialize(userId: Uuid, checkoutState: CheckoutState): (r: Result<OrderFields, OrderCreateError>)
    ensures var s := checkoutState.order;
      r.Failure? <==> s.date.None? || s.duration.None? || s.orderType.None?
    ensures r.Failure? ==> r.error == NoDateOrType
    ensures r.Success? ==> var s := checkoutState.order;
      && r.value.interval.start == s.date.value && r.value.interval.duration == s.duration.value
      && r.value.orderType == s.orderType
      && r.value.stylistId == s.stylistId && r.value.makeuperId == s.makeuperId && r.value.studioId == s.studioId
      && r.value.promotions == checkoutState.promotions
      && r.value.price == Price(s)
      && r.value.id.None? && r.value.userId == Some(userId)
  {
    var s := checkoutState.order;
    if s.date.None? || s.duration.None? || s.orderType.None? then Failure(NoDateOrType)
    else Success(OrderFields(None, Some(userId), s.orderType, s.stylistId, s.makeuperId, s.studioId,
                             Interval(s.date.value, s.duration.value), Price(s), checkoutState.promotions))
  }

  /** The order state an existing order is shown as: its fields, with date
      and duration taken from its interval. The order has no photographer
      field, so the state has none. The hour price and the cancellation flag
      are supplied by the caller. Lacking a photographer, the projected
      state is never valid. */
  function StateFromOrder(o: OrderFields, hourPrice: real, isCancelled: bool): (s: OrderState)
    ensures s.orderType == o.orderType && s.stylistId == o.stylistId
    ensures s.makeuperId == o.makeuperId && s.studioId == o.studioId
    ensures s.date == Some(o.interval.start) && s.duration == Some(o.interval.duration)
    ensures s.hourPrice == hourPrice && s.isCancelled == isCancelled
    ensures s.id == o.id && s.userId == o.userId
    ensures s.photographerId.None? && !IsValid(s)
  {
    OrderState(o.orderType, o.stylistId, o.makeuperId, None, o.studioId,
               Some(o.interval.start), Some(o.interval.duration), hourPrice, isCancelled, o.id, o.userId)
  }

  /** The checkout state of an existing order, given the promotions fetched
      for it. */
  function CheckoutFromOrder(o: OrderFields, hourPrice: real, isCancelled: bool, promotions: seq<Uuid>): CheckoutState
  {
    CheckoutState(StateFromOrder(o, hourPrice, isCancelled), promotions)
  }

  /** Projecting an order to its checkout state and materialising that
      again gives back the order's kind, participants, interval and the
      fetched promotions, under the new owner, without identity, priced
      from the supplied hour price. */
  lemma MaterializeProjected(userId: Uuid, o: OrderFields, hourPrice: real, isCancelled: bool, promotions: seq<Uuid>)
    requires o.orderType.Some?
    ensures Materialize(userId, CheckoutFromOrder(o, hourPrice, isCancelled, promotions)) ==
      Success(o.(id := None, userId := Some(userId),
                 price := hourPrice * (o.interval.duration / 3600.0), promotions := promotions))
  {
    var s := StateFromOrder(o, hourPrice, isCancelled);
    assert Price(s) == hourPrice * (o.interval.duration / 3600.0);
  }

  /** The materialisation guard is weaker than validity in one direction
      and stronger in the other: a valid state with an order kind always
      materialises, but a state with no studio or photographer materialises
      too while not being valid. */
  lemma MaterializeVersusValidity(userId: Uuid, checkoutState: CheckoutState)
    ensures IsValid(checkoutState.order) && checkoutState.order.orderType.Some? ==>
              Materialize(userId, checkoutState).Success?
    ensures var s := checkoutState.order;
            s.date.Some? && s.duration.Some? && s.orderType.Some? && s.studioId.None? ==>
              Materialize(userId, checkoutState).Success? && !IsValid(s)
  {
  }

  /** A client of the store: a checkout without a date fails and leaves the
      store untouched; the same checkout with a date is saved once, owned by
      the caller and not by the state's own user. */
  method CheckoutScenario(userId: Uuid, other: Uuid, studio: Uuid)
  {
    var store := new Store();
    var state := EmptyState().(orderType := Some(Family), duration := Some(7200.0),
                                hourPrice := 100.0, userId := Some(other));
    var cs := CheckoutState(state, []);
    var r := Order.CreateFromCheckout(store, Some(other), userId, cs);
    assert r.Failure? && store.saved == [];
    var cs2 := CheckoutState(state.(date := Some(0.0)), []);
    r := Order.CreateFromCheckout(store, Some(other), userId, cs2);
    assert r.Success? && |store.saved| == 1;
    assert store.saved[0].userId == Some(userId) && store.saved[0].id.None?;
    assert store.saved[0].price == 200.0 && store.saved[0].studioId.None?;
  }
}
