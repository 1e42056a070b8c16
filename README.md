# Order-builder conversation core, modelled in Dafny

This project models the conversation-state core of a chat-driven photo-session
order builder. A customer picks an order kind, a stylist, a make-up artist, a
photographer, a studio, a date and a duration. Each step is folded into a
running `OrderState` that accumulates an hour price. The state travels between
steps inside a `NodePayload`, a tagged union written to storage without a
discriminator and recognised by which keys are present. At checkout the state
becomes a persisted order record.

Files and modules:

- `wrappers.dfy` (`Wrappers`): `Option` (Swift's `T?`, with `OrElse` for `??`) and `Result` (a throwing call).
- `basics.dfy` (`Basics`): identifiers, dates and durations; the dynamic values of a build request; the opaque buildable-type tag.
- `order_type.dfy` (`OrderTypes`): `OrderType` and its display `Name`.
- `order_state.dfy` (`OrderStates`): `OrderState`, `CheckoutState`, `Price`, `IsValid`, `Watchers`.
- `payload.dfy` (`Payloads`): `NodePayload` and the merge of a step's choices into the previous order-builder state.
- `payload_codec.dfy` (`PayloadCodec`): the keyed wire form, `Encode` and the first-match `Decode`.
- `order.dfy` (`Orders`): the `Order` class filled field by field, the `Store` that records what is saved, and materialisation of a checkout.

The model follows the code on two points a reader might expect otherwise:

- The price is the hour price times the duration in hours, with no lower clamp at one hour. Only a missing duration counts as one hour.
- The watchers are the present make-up-artist and stylist ids in that order, not deduplicated.

## Model

| member | source | states |
|---|---|---|
| `OrderTypes.Name` | Sources/App/Cloneable/OrderProtocol.swift:20-31 | every order kind has a non-empty display title |
| `OrderTypes.NameInjective` | Sources/App/Cloneable/OrderProtocol.swift:20-31 | the three titles are pairwise distinct, so the title determines the kind |
| `OrderStates.EmptyState` | Sources/App/Types/Payload/NodePayload.swift:40 | the all-defaults state has hour price 0 and is not cancelled |
| `OrderStates.Price` | Sources/App/Types/Payload/NodePayload.swift:26-34 | with a duration, price × 3600 = hour price × duration; without one, price = hour price |
| `OrderStates.PriceNotClampedToOneHour` | Sources/App/Types/Payload/NodePayload.swift:28-33 | a half-hour duration costs half the hour price, less than the no-duration price: hours are not clamped to 1 |
| `OrderStates.OneHourIsDefault` | Sources/App/Types/Payload/NodePayload.swift:28-33 | a duration of 3600 s is priced like no duration |
| `OrderStates.AllPresent` | Sources/App/Types/Payload/NodePayload.swift:77 | `allSatisfy` over presence flags holds iff every flag is set |
| `OrderStates.IsValid` | Sources/App/Types/Payload/NodePayload.swift:68-78 | valid iff date, studio, duration and photographer are all present; kind, stylist and make-up artist play no part |
| `OrderStates.CompactMap` | Sources/App/Types/Payload/NodePayload.swift:65 | `compactMap` never lengthens its input, and a value is in the result iff it is present in the input |
| `OrderStates.CompactMapCount` | Sources/App/Types/Payload/NodePayload.swift:65 | `compactMap` keeps exactly as many values as there are present entries |
| `OrderStates.Watchers` | Sources/App/Types/Payload/NodePayload.swift:64-66 | watchers = the make-up artist's id if present, followed by the stylist's id if present |
| `OrderStates.WatchersCount` | Sources/App/Types/Payload/NodePayload.swift:64-66 | the number of watchers equals the number of present ids among the two, at most 2 |
| `OrderStates.WatchersKeepDuplicates` | Sources/App/Types/Payload/NodePayload.swift:65 | one person as both make-up artist and stylist is listed twice |
| `Payloads.AppendingPriceIsSum` | Sources/App/Types/Payload/NodePayload.swift:83-84 | the appended price is the sum of the four participant slots' prices, an empty slot adding 0 |
| `Payloads.Merge` | Sources/App/Types/Payload/NodePayload.swift:82-110 | each merged field is the step's choice if made (for a participant or customer: if it has an id), else the previous builder state's field, or absent without one; hour price = previous hour price + the chosen participants' prices; not cancelled, no id |
| `Payloads.MergeIgnoresOtherPayloads` | Sources/App/Types/Payload/NodePayload.swift:97-108 | an absent or non-order-builder previous payload merges like an empty builder state: fields come from the step alone, hour price = appended price |
| `Payloads.EmptyStepKeepsState` | Sources/App/Types/Payload/NodePayload.swift:85-96 | a step choosing nothing keeps every choice and the hour price, and only resets cancellation and id |
| `Payloads.SameStylistTwiceCountsTwice` | Sources/App/Types/Payload/NodePayload.swift:83-94 | choosing the same stylist twice from no order gives hour price 2 × the stylist's price: accumulation is not idempotent |
| `Payloads.MergeTwiceIsMergeOnce` | Sources/App/Types/Payload/NodePayload.swift:82-110 | two steps choosing different participants and customers equal one step with both steps' choices (later wins for kind, date, duration), hour price included |
| `Payloads.TwoStepScenario` | Sources/App/Types/Payload/NodePayload.swift:82-110 | love story + photographer at 80, then studio at 40 for 3600 s: hour price 80 then 120, price 120, photographer kept |
| `PayloadCodec.Encode` | Sources/App/Types/Payload/NodePayload.swift:192-219 | a payload writes exactly its own variant's keys; only a calendar's missing day or time is written as null |
| `PayloadCodec.OwnKeysDisjoint` | Sources/App/Types/Payload/NodePayload.swift:137-149 | no two variants share a key |
| `PayloadCodec.RoundTrip` | Sources/App/Types/Payload/NodePayload.swift:151-219 | decoding the encoding of any payload gives it back, a calendar's null day and time reading back as nil |
| `PayloadCodec.EncodeInjective` | Sources/App/Types/Payload/NodePayload.swift:192-219 | distinct payloads have distinct wire forms |
| `PayloadCodec.Decode` | Sources/App/Types/Payload/NodePayload.swift:151-190 | a decoded payload's variant is the first rule whose keys claim the container (non-null edit id, build type, page; present order state, checkout state; year and month); decoding fails with "Unknown enum case" iff no rule claims it |
| `PayloadCodec.DecodeCommits` | Sources/App/Types/Payload/NodePayload.swift:154-188 | once the first claiming rule is found, decoding yields that variant or fails; it never falls through |
| `PayloadCodec.OrderStateBeforeCheckout` | Sources/App/Types/Payload/NodePayload.swift:170-179 | an order state next to a checkout state decodes as the order builder |
| `PayloadCodec.NullEditTextIsSkipped` | Sources/App/Types/Payload/NodePayload.swift:154-158 | a null edit-text id does not claim the container; the payload behind it still decodes |
| `PayloadCodec.CalendarWithoutConfirmFails` | Sources/App/Types/Payload/NodePayload.swift:180-187 | a calendar container without the confirmation flag never decodes; with integral year and month and no day or time (absent or null) it stops at the force-unwrap |
| `PayloadCodec.BuildWithoutObjectFails` | Sources/App/Types/Payload/NodePayload.swift:159-163 | whenever no edit-text id claims the container, a build type without its object fails with key-not-found on the object key |
| `PayloadCodec.DecodeAgreesWithInput` | Sources/App/Types/Payload/NodePayload.swift:151-188 | every non-null value in the re-encoding of a decoded payload is the value the input held under that key |
| `Orders.Store.SaveIfNeeded` | Sources/App/Cloneable/OrderProtocol.swift:73 | saving appends the order's current field values to the store's records |
| `Orders.Order.constructor` | Sources/App/Cloneable/OrderProtocol.swift:63 | a new order has no identity, owner or choices |
| `Orders.Order.Create` | Sources/App/Cloneable/OrderProtocol.swift:62-73 | the new order and the one record saved hold exactly the arguments; id defaults to nil and price to 0 |
| `Orders.Order.Clone` | Sources/App/Cloneable/OrderProtocol.swift:58-60 | a new, distinct order with every field of the other one, saved once |
| `Orders.Order.CreateFromCheckout` | Sources/App/Cloneable/OrderProtocol.swift:76-92 | fails with `noDateOrType` and writes nothing iff date, duration or kind is missing; otherwise saves once the record `Materialize` gives; the `id` argument is unused |
| `Orders.Materialize` | Sources/App/Cloneable/OrderProtocol.swift:76-92 | fails iff date, duration or kind is absent; else interval = (date, duration), kind, stylist, make-up artist and studio copied, price = state price, promotions from the checkout, owner = the given user, no id |
| `Orders.StateFromOrder` | Sources/App/Types/Payload/NodePayload.swift:57-59 | the projected state copies kind, stylist, make-up artist, studio, id and owner, takes date and duration from the interval and the given hour price and cancellation; it has no photographer, so it is never valid |
| `Orders.MaterializeProjected` | Sources/App/Cloneable/OrderProtocol.swift:76-92 | projecting an order into a checkout state and materialising it returns the order's kind, participants, interval and the fetched promotions, under the new owner, with no id, priced from the hour price |
| `Orders.MaterializeVersusValidity` | Sources/App/Cloneable/OrderProtocol.swift:76-92 | a valid state with a kind always materialises; a state with date, duration and kind but no studio materialises yet is not valid |

## Left out

- `CheckoutState.create(from:app:)` (NodePayload.swift:118-124) fetches promotions over the network. `Orders.CheckoutFromOrder` models only its result, with the fetched promotions as a parameter.
- The `state` property of an order (OrderProtocol.swift:54-56) is not modelled. It calls an `OrderState` initialiser with a `price:` argument, and no initialiser of `OrderState` takes one.
- The public convenience initialiser of `OrderState` (NodePayload.swift:36-38) is not modelled. It only fills in defaults, and no modelled operation uses it.
- `OrderState(from:)` (NodePayload.swift:57-59) reads `hourPrice` and `isCancelled`, which an order record does not have. `Orders.StateFromOrder` takes them as parameters.
- Prices and durations are `real`. Single-precision rounding is not modelled. An order's price is an integer in the source but receives the state's floating-point price; the model keeps it `real`.
- Integers are unbounded. A JSON number outside the 64-bit range, which the source would reject, is not modelled.
- Promotions are represented by their identifiers, both in the checkout state and in the order record.
- Nested values are structural. An order state, a checkout state, a build object or a buildable type is one wire value; decoding errors inside them are not modelled. Keys outside the eleven payload keys are not representable; the source ignores them.
- `PayloadCodec.Decode`: the force-unwrap of a missing calendar confirmation flag traps in the source and stops the process; the model returns it as the failure `NilUnwrapped`.
- `Orders.Order.CreateFromCheckout`: a negative duration is accepted. Foundation's `DateInterval` would trap on it.
- `Orders.Store.SaveIfNeeded`: stands in for the persistence layer. It records the written values only; the identifier the database assigns and store failures are not modelled.
- `Orders.Order.Clone` requires the other order's owner and kind to be set. The source force-unwraps them, which would trap.
- Futures and the event loop are left out. Every operation completes synchronously.
- The twin-creation code for photographers, nodes, users and make-up artists (PhotographerProtocol.swift, NodeProtocol.swift, UserProtocol.swift, Makeuper.swift) is not part of this model. The database schema (CreateUsers.swift) is not part of it either.
