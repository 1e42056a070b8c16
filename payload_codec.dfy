/** The wire form of the conversation payload: a keyed container in which
    every variant writes its own fixed keys and no discriminator, and a
    decoder that recognises the variant by which keys are present, trying
    the variants in a fixed order. */
module PayloadCodec {
  import opened Wrappers
  import opened Basics
  import opened OrderStates
  import opened Payloads

  /** The container's keys, named on the wire `editTextMessageId`,
      `createBuildableType`, `createBuildableObject`, `pageAt`, `orderState`,
      `checkoutState`, `calendarYear`, `calendarMonth`, `calendarDay`,
      `calendarTime` and `calendarNeedsConfirm`. */
  datatype Key =
    | EditTextMessageId
    | CreateBuildableType
    | CreateBuildableObject
    | PageAt
    | OrderStateKey
    | CheckoutStateKey
    | CalendarYear
    | CalendarMonth
    | CalendarDay
    | CalendarTime
    | CalendarNeedsConfirm

  /** A value written under a key. Numbers are untyped, as in JSON; nested
      order and checkout states and build objects are kept structural. */
  datatype Wire =
    | Num(n: real)
    | Flag(b: bool)
    | Buildable(t: BuildableType)
    | Object(fields: map<string, AnyValue>)
    | NestedOrder(state: OrderState)
    | NestedCheckout(checkout: CheckoutState)

  /** What a present key holds: an explicit null or a value. A key that is
      absent is simply not in the container. */
  datatype Field = Null | Val(w: Wire)

  type Container = map<Key, Field>

  datatype DecodeError =
    | KeyNotFound(key: Key)
    | ValueNotFound(key: Key)
    | TypeMismatch(key: Key)
    | NumberDoesNotFit(key: Key)
    /** No variant's keys are present. */
    | UnknownEnumCase
    /** A force-unwrap of a missing value: a runtime trap, not a thrown error. */
    | NilUnwrapped(key: Key)

  type Decoded<T> = Result<T, DecodeError>

  // ---- Encoding -----------------------------------------------------------

  function IntField(i: int): Field
  {
    Val(Num(i as real))
  }

  /** An optional value is written as null when it is nil. */
  function OptIntField(i: Option<int>): Field
  {
    if i.Some? then IntField(i.value) else Null
  }

  function OptTimeField(t: Option<TimeInterval>): Field
  {
    if t.Some? then Val(Num(t.value)) else Null
  }

  /** The keys each variant owns. */
  function OwnKeys(p: NodePayload): set<Key>
  {
    match p
    case EditText(_) => {EditTextMessageId}
    case Build(_, _) => {CreateBuildableType, CreateBuildableObject}
    case Page(_) => {PageAt}
    case OrderBuilder(_) => {OrderStateKey}
    case Checkout(_) => {CheckoutStateKey}
    case Calendar(_, _, _, _, _) =>
      {CalendarYear, CalendarMonth, CalendarDay, CalendarTime, CalendarNeedsConfirm}
  }

  /** The container a payload is written as: exactly its variant's own keys
      are present, and none of them holds null except a calendar's missing
      day or time. */
  function Encode(p: NodePayload): (m: Container)
    ensures m.Keys == OwnKeys(p)
    ensures forall k :: k in m && m[k].Null? ==>
              p.Calendar? && (k == CalendarDay || k == CalendarTime)
  {
    match p
    case EditText(messageId) => map[EditTextMessageId := IntField(messageId)]
    case Build(t, buildObject) =>
      map[CreateBuildableType := Val(Buildable(t)), CreateBuildableObject := Val(Object(buildObject))]
    case Page(num) => map[PageAt := IntField(num)]
    case OrderBuilder(state) => map[OrderStateKey := Val(NestedOrder(state))]
    case Checkout(checkout) => map[CheckoutStateKey := Val(NestedCheckout(checkout))]
    case Calendar(year, month, day, time, needsConfirm) =>
      map[CalendarYear := IntField(year),
          CalendarMonth := IntField(month),
          CalendarDay := OptIntField(day),
          CalendarTime := OptTimeField(time),
          CalendarNeedsConfirm := Val(Flag(needsConfirm))]
  }

  /** The position of a payload's variant in the declaration. */
  function VariantIndex(p: NodePayload): nat
  {
    match p
    case EditText(_) => 0
    case Build(_, _) => 1
    case Page(_) => 2
    case OrderBuilder(_) => 3
    case Checkout(_) => 4
    case Calendar(_, _, _, _, _) => 5
  }

  /** No two variants share a key. */
  lemma OwnKeysDisjoint(p: NodePayload, q: NodePayload)
    requires VariantIndex(p) != VariantIndex(q)
    ensures OwnKeys(p) !! OwnKeys(q)
  {
  }

  // ---- Decoding: the container's primitive reads ----------------------------

  /** Whether a present key holds an explicit null. */
  predicate DecodeNil(m: Container, k: Key)
    requires k in m
  {
    m[k].Null?
  }

  /** A required value: a missing key, a null and a value of another type are
      each an error. */
  function Required(m: Container, k: Key): Decoded<Wire>
  {
    if k !in m then Failure(KeyNotFound(k))
    else if m[k].Null? then Failure(ValueNotFound(k))
    else Success(m[k].w)
  }

  function AsInt(k: Key, w: Wire): Decoded<int>
  {
    if !w.Num? then Failure(TypeMismatch(k))
    else if w.n.Floor as real != w.n then Failure(NumberDoesNotFit(k))
    else Success(w.n.Floor)
  }

  function AsTime(k: Key, w: Wire): Decoded<TimeInterval>
  {
    if w.Num? then Success(w.n) else Failure(TypeMismatch(k))
  }

  function AsBool(k: Key, w: Wire): Decoded<bool>
  {
    if w.Flag? then Success(w.b) else Failure(TypeMismatch(k))
  }

  function DecodeInt(m: Container, k: Key): Decoded<int>
  {
    var w :- Required(m, k);
    AsInt(k, w)
  }

  /** An optional value: a missing key and a null both read as nil. */
  function DecodeIntIfPresent(m: Container, k: Key): Decoded<Option<int>>
  {
    if k !in m || m[k].Null? then Success(None)
    else
      var i :- AsInt(k, m[k].w);
      Success(Some(i))
  }

  function DecodeTimeIfPresent(m: Container, k: Key): Decoded<Option<TimeInterval>>
  {
    if k !in m || m[k].Null? then Success(None)
    else
      var t :- AsTime(k, m[k].w);
      Success(Some(t))
  }

  function DecodeBoolIfPresent(m: Container, k: Key): Decoded<Option<bool>>
  {
    if k !in m || m[k].Null? then Success(None)
    else
      var b :- AsBool(k, m[k].w);
      Success(Some(b))
  }

  function DecodeBuildableType(m: Container, k: Key): Decoded<BuildableType>
  {
    var w :- Required(m, k);
    if w.Buildable? then Success(w.t) else Failure(TypeMismatch(k))
  }

  function DecodeObject(m: Container, k: Key): Decoded<map<string, AnyValue>>
  {
    var w :- Required(m, k);
    if w.Object? then Success(w.fields) else Failure(TypeMismatch(k))
  }

  function DecodeOrderState(m: Container, k: Key): Decoded<OrderState>
  {
    var w :- Required(m, k);
    if w.NestedOrder? then Success(w.state) else Failure(TypeMismatch(k))
  }

  function DecodeCheckoutState(m: Container, k: Key): Decoded<CheckoutState>
  {
    var w :- Required(m, k);
    if w.NestedCheckout? then Success(w.checkout) else Failure(TypeMismatch(k))
  }

  /** Swift's `!` on an optional that was read from the container. */
  function ForceUnwrap<T>(k: Key, v: Option<T>): Decoded<T>
  {
    if v.Some? then Success(v.value) else Failure(NilUnwrapped(k))
  }

  // ---- Decoding: the variant dispatch ---------------------------------------

  /** Whether a key is present and not null. */
  predicate PresentNonNull(m: Container, k: Key)
  {
    k in m && !DecodeNil(m, k)
  }

  function DecodeCalendar(m: Container): Decoded<NodePayload>
  {
    var year :- DecodeInt(m, CalendarYear);
    var month :- DecodeInt(m, CalendarMonth);
    var day :- DecodeIntIfPresent(m, CalendarDay);
    var time :- DecodeTimeIfPresent(m, CalendarTime);
    var needsConfirm :- DecodeBoolIfPresent(m, CalendarNeedsConfirm);
    var confirm :- ForceUnwrap(CalendarNeedsConfirm, needsConfirm);
    Success(Calendar(year, month, day, time, confirm))
  }

  /** The payload a container holds. The rules are tried in order and the
      first one that claims the container decides: a decoded payload's
      variant is that of the first claiming rule, and decoding fails as an
      unknown case exactly when no rule claims the container. */
  function Decode(m: Container): (r: Decoded<NodePayload>)
    ensures r.Success? ==> Claims(VariantIndex(r.value), m)
    ensures r.Success? ==> forall i :: 0 <= i < VariantIndex(r.value) ==> !Claims(i, m)
    ensures r == Failure(UnknownEnumCase) <==> forall i :: 0 <= i <= 5 ==> !Claims(i, m)
  {
    assert (forall i :: 0 <= i <= 5 ==> !Claims(i, m)) <==>
      !Claims(0, m) && !Claims(1, m) && !Claims(2, m) && !Claims(3, m) && !Claims(4, m) && !Claims(5, m);
    if PresentNonNull(m, EditTextMessageId) then
      var messageId :- DecodeInt(m, EditTextMessageId);
      Success(EditText(messageId))
    else if PresentNonNull(m, CreateBuildableType) then
      var buildableType :- DecodeBuildableType(m, CreateBuildableType);
      var buildObject :- DecodeObject(m, CreateBuildableObject);
      Success(Build(buildableType, buildObject))
    else if PresentNonNull(m, PageAt) then
      var num :- DecodeInt(m, PageAt);
      Success(Page(num))
    else if OrderStateKey in m then
      var state :- DecodeOrderState(m, OrderStateKey);
      Success(OrderBuilder(state))
    else if CheckoutStateKey in m then
      var state :- DecodeCheckoutState(m, CheckoutStateKey);
      Success(Checkout(state))
    else if CalendarMonth in m && CalendarYear in m then
      DecodeCalendar(m)
    else
      Failure(UnknownEnumCase)
  }

  // ---- Properties ------------------------------------------------------------

  /** The condition under which the decoder commits to the variant with the
      given index: a non-null edit-text id, build type or page; a present
      order or checkout state; both calendar year and month. */
  predicate Claims(i: nat, m: Container)
  {
    match i
    case 0 => PresentNonNull(m, EditTextMessageId)
    case 1 => PresentNonNull(m, CreateBuildableType)
    case 2 => PresentNonNull(m, PageAt)
    case 3 => OrderStateKey in m
    case 4 => CheckoutStateKey in m
    case 5 => CalendarYear in m && CalendarMonth in m
    case _ => false
  }

  /** Every payload survives a round trip through its wire form. */
  lemma RoundTrip(p: NodePayload)
    ensures Decode(Encode(p)) == Success(p)
  {
  }

  /** Distinct payloads have distinct wire forms. */
  lemma EncodeInjective(p: NodePayload, q: NodePayload)
    requires Encode(p) == Encode(q)
    ensures p == q
  {
  }

  /** Once a rule claims the container and no earlier rule does, the
      decoder is committed: it yields that rule's variant or fails, and never
      falls through to a later rule. */
  lemma DecodeCommits(m: Container, i: nat)
    requires Claims(i, m)
    requires forall j :: 0 <= j < i ==> !Claims(j, m)
    ensures Decode(m).Success? ==> VariantIndex(Decode(m).value) == i
  {
  }

  /** An order state and a checkout state side by side decode as the order
      builder, whatever the checkout state is. */
  lemma OrderStateBeforeCheckout(s: OrderState, c: Container)
    requires OrderStateKey in c && c[OrderStateKey] == Val(NestedOrder(s))
    requires !PresentNonNull(c, EditTextMessageId)
    requires !PresentNonNull(c, CreateBuildableType)
    requires !PresentNonNull(c, PageAt)
    ensures Decode(c) == Success(OrderBuilder(s))
  {
  }

  /** A null edit-text id does not claim the container: the decoder moves on
      to the next rule. */
  lemma NullEditTextIsSkipped(p: NodePayload)
    requires !p.EditText?
    ensures Decode(Encode(p)[EditTextMessageId := Null]) == Success(p)
  {
  }

  /** A calendar container without the confirmation flag never decodes,
      and when its year and month are integral numbers and its day and time
      are absent or null, it stops at the force-unwrap of the missing flag. */
  lemma CalendarWithoutConfirmFails(m: Container)
    requires Claims(5, m) && forall j :: 0 <= j < 5 ==> !Claims(j, m)
    requires CalendarNeedsConfirm !in m || m[CalendarNeedsConfirm].Null?
    ensures Decode(m).Failure?
    ensures (exists y: int :: m[CalendarYear] == IntField(y))
            && (exists mo: int :: m[CalendarMonth] == IntField(mo))
            && (CalendarDay !in m || m[CalendarDay].Null?)
            && (CalendarTime !in m || m[CalendarTime].Null?)
            ==> Decode(m) == Failure(NilUnwrapped(CalendarNeedsConfirm))
  {
    assert Decode(m) == DecodeCalendar(m) by {
      assert !Claims(0, m) && !Claims(1, m) && !Claims(2, m) && !Claims(3, m) && !Claims(4, m);
    }
    if (exists y: int :: m[CalendarYear] == IntField(y)) && (exists mo: int :: m[CalendarMonth] == IntField(mo)) {
      var y: int :| m[CalendarYear] == IntField(y);
      var mo: int :| m[CalendarMonth] == IntField(mo);
      assert (y as real).Floor == y && (mo as real).Floor == mo;
    }
  }

  /** A build request without its object fails, even though its type is
      there, whenever no earlier rule claims the container. */
  lemma BuildWithoutObjectFails(m: Container, t: BuildableType)
    requires !Claims(0, m)
    requires CreateBuildableType in m && m[CreateBuildableType] == Val(Buildable(t))
    requires CreateBuildableObject !in m
    ensures Decode(m) == Failure(KeyNotFound(CreateBuildableObject))
  {
  }

  /** A successful decode agrees with the input on every value it read back:
      re-encoding the result reproduces every non-null entry of the result's
      own keys. */
  lemma DecodeAgreesWithInput(m: Container)
    requires Decode(m).Success?
    ensures forall k :: k in Encode(Decode(m).value) && Encode(Decode(m).value)[k].Val? ==>
              k in m && m[k] == Encode(Decode(m).value)[k]
  {
  }
}
