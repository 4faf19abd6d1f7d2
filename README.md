# Pushe React Native bridge: notification event relay

This project models the logic of the Pushe React Native bridge (`index.js`),
which has little logic of its own:

- **The notification event relay.** Native broadcasts ("received", "clicked",
  "dismissed", "button_clicked", "custom_content_received") reach a
  dispatch callback. The callback calls the application's handler for that
  event type if one is registered. Otherwise it caches the notification, and a
  newer one replaces an older one. `addEventListener` registers a handler,
  replacing any earlier one, and flushes a truthy cached notification to it
  once. `removeEventListener` drops the handler and keeps the cache.
- **The argument checks of `sendNotificationToUser`.** iOS is unsupported.
  `type` and `userId` must both be present. `type` must be an identifier kind
  of `Pushe.ANDROID_ID_TYPES`.
- **The static tables.** These are `EVENTS_TYPES`, the event-to-broadcast map
  `_pusheEvents`, `Pushe.EVENTS` and `Pushe.ANDROID_ID_TYPES`.

Layout:

- `js_values.dfy`: modules `Wrappers` (`Option`) and `JsValues`.
  - JavaScript values and truthiness.
  - `Map.get` returning `undefined` for a missing key.
  - The property key that `obj[v]` reads, including the decimal text of numbers.
- `pushe_tables.dfy`: module `PusheTables`.
  - The four tables and their consistency lemmas.
  - `BroadcastEvent`, the inverse of `_pusheEvents`.
- `relay_model.dfy`: module `RelayModel`.
  - The relay as a value: the handler registry, the cache and a log of handler
    calls.
  - The broadcast callback, `addEventListener` and `removeEventListener` as
    functions from state to state.
  - Traces of these operations (`Run`) and lemmas about them.
- `relay.dfy`: module `Relay`, class `EventRelay`.
  - The relay as the mutable object it is in the source.
  - Fields `userEventHandlers`, `cachedNotification` and `deliveries` are
    updated in place.
  - Each method states its new state and equals the matching `RelayModel` step.
- `send_notification.dfy`: module `SendNotification`.
  - The `sendNotificationToUser` checks, exactly as written.
  - The corrected checks (see Findings).
  - A lemma relating the two, and a counterexample.

Modelling choices:

- Handlers are functions known by identity: `Fn(id)`. A handler call is
  logged as `Delivery(handlerId, notification)`.
- No code in the bridge runs the dispatch callback, because the loop that
  attaches the native listeners is commented out at index.js:51-55. Dispatch
  is therefore an input event, `Dispatch(event, notification)`.
- Truthiness matters in two places, so notifications are full JavaScript
  values. First, `addEventListener` flushes a cached notification only when it
  is truthy (index.js:86). A falsy notification stays cached and is never
  flushed. Second, the dispatch callback calls a registered handler with any
  notification, falsy ones included.
- Event types are strings. `addEventListener` and `removeEventListener` use
  their argument as a `Map` key and would accept any JavaScript value. The
  dispatch callback only ever looks up the five listed strings, so a key of
  another kind could never receive a broadcast. String keys therefore lose
  no behaviour of the relay. The model still accepts any string, not only the
  five listed types.
- The tables are the constants `PusheTables.EventTypes` (`EVENTS_TYPES`,
  index.js:8-15), `PusheTables.PusheEvents` (`_pusheEvents`, index.js:20-27),
  `PusheTables.Events` (`Pushe.EVENTS`, index.js:63-69) and
  `PusheTables.AndroidIdTypes` (`Pushe.ANDROID_ID_TYPES`, index.js:71-75). The
  lemmas in the rows citing those lines state their contents.
- The platform (`Platform.OS`) is a parameter of `sendNotificationToUser`. The
  request is the map of the argument object's own enumerable properties.

Two places where the source's own wording promises more than its code does.
The model follows the code:

- The comment at index.js:83-84 says a cached notification is passed to the
  new handler. The test at line 86 passes it only if it is truthy. A falsy one
  stays cached (`RelayModel.LastWriteWins`, falsy case).
- The rejection message at index.js:337 asks for a type "from
  `Pushe.ANDROID_ID_TYPES`". The test at line 336 also accepts inherited
  property names (see Findings).

## Model

| member | source | states |
|---|---|---|
| `JsValues.NatKey` | index.js:336 | the decimal key of a number is non-empty and made only of digits |
| `JsValues.NumberKey` | index.js:336 | an integer's key starts with a digit or `-` |
| `JsValues.PropertyKey` | index.js:336 | a string is its own key; a number's key starts with a digit or `-`; only a function has no modelled key |
| `PusheTables.EventTypesDistinct` | index.js:8-15 | the five event types are pairwise distinct |
| `PusheTables.PusheEventsTotal` | index.js:20-27 | `_pusheEvents` has exactly the event types as keys |
| `PusheTables.PusheEventsInjective` | index.js:20-27 | no two event types share a native broadcast; there are five distinct broadcast names |
| `PusheTables.EventsCoverEventTypes` | index.js:63-69 | `Pushe.EVENTS` values are exactly the event types, one name each |
| `PusheTables.AndroidIdTypesSelfNamed` | index.js:71-75 | `ANDROID_ID_TYPES` has exactly the three kinds as keys, each mapped to its own non-empty name |
| `PusheTables.FindEvent` | index.js:20-27 | a found event type listens on the given broadcast; `None` means no listed event type does |
| `PusheTables.BroadcastEvent` | index.js:20-27 | a broadcast name has an event type exactly when it is a value of `_pusheEvents`, and that event type listens on it |
| `PusheTables.BroadcastEventRoundTrip` | index.js:20-27 | mapping an event type to its broadcast and back gives the same event type |
| `RelayModel.Dispatch` | index.js:36-47 | the broadcast callback as a state step, against which the trace lemmas and `Relay.EventRelay.Dispatch` are stated; its contract: handlers never change, other event types' cache entries never change, the log grows by exactly one call when a handler is registered for the event and by none otherwise |
| `RelayModel.AddEventListener` | index.js:77-90 | `addEventListener` as a state step, against which the trace lemmas and `Relay.EventRelay.AddEventListener` are stated; its contract: a falsy handler changes nothing; otherwise the handler is registered for the type and no truthy notification is left cached for it; other types' cache entries never change; at most one call is logged |
| `RelayModel.RemoveEventListener` | index.js:92-94 | `removeEventListener` as a state step; its contract: the type has no handler afterwards, every other handler is kept, and cache and log do not change |
| `RelayModel.ApplyKeepsNothingOwed` | index.js:35-94 | dispatch, add and remove each keep the invariant: no event type has a handler and a truthy cached notification at once |
| `RelayModel.FalsyHandlerIsNoOp` | index.js:78 | `addEventListener` with a falsy handler leaves the whole state unchanged and delivers nothing |
| `RelayModel.AddEventListenerEffect` | index.js:77-90 | the new handler is the only one for its type; other types' handlers and cache entries are unchanged; a truthy cached notification is delivered once and removed; otherwise nothing is delivered and the cache is unchanged |
| `RelayModel.RemoveThenBroadcastIsCached` | index.js:92-94 | after `removeEventListener`, the next broadcast for that type is cached instead of delivered |
| `RelayModel.RunKeepsNothingOwed` | index.js:35-94 | every state reached by any trace of broadcasts, adds and removes keeps the invariant |
| `RelayModel.RunOnlyDeliversWhatArrived` | index.js:35-94 | over any trace the delivery log only grows; each new delivery carries a notification that was broadcast or already cached, and goes to a handler that was registered; the cache holds only such notifications |
| `RelayModel.UnhandledBroadcastsKeepLast` | index.js:44-46 | with no handler, any run of broadcasts for a type leaves only the last notification cached and changes nothing else |
| `RelayModel.LastWriteWins` | index.js:44-89 | after unhandled broadcasts, a new handler receives exactly the last notification, once, if it is truthy, and the cache slot is then empty; a falsy last notification stays cached and nothing is delivered |
| `RelayModel.ReplacedHandlerNotCalled` | index.js:37-89 | of two handlers registered in turn, a later broadcast goes only to the second |
| `RelayModel.ClickedScenario` | index.js:35-89 | a "clicked" notification arriving before any handler is delivered once to the handler registered next, and nothing remains cached |
| `Relay.EventRelay.constructor` | index.js:32-33 | the relay starts with no handlers, no cache and no deliveries |
| `Relay.EventRelay.Dispatch` | index.js:36-47 | with a handler: it is called once with the notification, and handlers and cache are unchanged; without one: the notification overwrites the type's cache entry, nothing else changes and nothing is delivered; the invariant is kept |
| `Relay.EventRelay.AddEventListener` | index.js:77-90 | a falsy handler changes nothing; otherwise the handler replaces the type's entry, and a truthy cached notification is delivered to it once and removed; without one, deliveries and cache are unchanged; the invariant is kept |
| `Relay.EventRelay.RemoveEventListener` | index.js:92-94 | only the type's handler entry is removed; cache and deliveries are unchanged |
| `SendNotification.ReadAndroidIdTypes` | index.js:336 | the read `Pushe.ANDROID_ID_TYPES[type]` along the prototype chain, on which the Finding rests: an own key reads its own name; an inherited read is one of the `Object.prototype` names; the read is truthy exactly when the key is an own or inherited name |
| `SendNotification.PropertyNamesAreNotNumbers` | index.js:71-75 | no own or inherited property name of `ANDROID_ID_TYPES` can be a number's key |
| `SendNotification.OnlyStringsNameIdTypes` | index.js:336 | a `type` that is not a string never names a property of `ANDROID_ID_TYPES`, own or inherited |
| `SendNotification.SendNotificationToUserAsWritten` | index.js:331-341 | the checks as written: iOS exactly gives unsupported; a falsy `type` or `userId` exactly gives the missing-fields rejection; a request is forwarded exactly when `type` is a valid kind or an inherited `Object.prototype` name, and then carries the request's `type`, `userId` and remaining parameters; every other request is rejected with "Provide valid type from `Pushe.ANDROID_ID_TYPES`" |
| `SendNotification.SendNotificationToUser` | index.js:331-341 | the checks in order: iOS exactly gives unsupported; then a falsy `type` or `userId` exactly gives "Must specify `type` & `userId`"; then a type other than the three kinds exactly gives "Provide valid type from `Pushe.ANDROID_ID_TYPES`"; otherwise the request is forwarded with its own `type` and `userId` and all its other properties |
| `SendNotification.AsWrittenDiffersOnlyOnInheritedNames` | index.js:336 | the written and corrected checks agree on every request except one whose `type` is an inherited name; that request is forwarded by the first and rejected by the second |
| `SendNotification.InheritedNameIsForwarded` | index.js:336 | `{type: "toString", userId: "u1"}` on Android is forwarded by the written check and rejected by the corrected one |

## Left out

- The `RNPushe.*` pass-through methods (index.js:115-481, except the checks at
  331-339). They forward to the native SDK and contain no logic.
- The `NativeEventEmitter` subscription and the attach loop, which is commented
  out (index.js:6, 36, 51-55). The dispatch callback is modelled as an input
  event.
- `clearListeners` (index.js:96-101). It only acts on the emitter's
  subscriptions. It also calls `.delete` on a plain object, which throws.
- `JSON.stringify(otherParams)` and Promise semantics. The remaining
  parameters are forwarded as a map. Rejection and forwarding are values of
  `SendResult`.
- `RNPusheNotificationService.java` is not part of this model. It is an
  Android framework hook with no logic to state.
- Relay.EventRelay.AddEventListener: requires the handler to be a function or
  falsy. The source would store a truthy non-function and then throw a
  TypeError when calling it. `RelayModel.AddEventListener` carries the same
  precondition.
- Handler calls are log entries. The model does not cover a handler that
  throws, or one that calls back into the relay while it runs.
- Numbers are integers below 10^21 that a double holds exactly. NaN,
  fractions, `-0`, exponent notation ("1e+21") and precision loss above 2^53
  are not modelled. Such keys would still start with a digit, so the check at
  index.js:336 would read them the same way.
- A function's property key is its source text, which the model does not
  carry. A function `type` is treated as naming no property.
- An object's key assumes the default `toString`. Symbols are not modelled.
- A non-object argument to `sendNotificationToUser` is not modelled.
  Destructuring `undefined` throws.

## Findings

| source | as written | input that shows it | evidently intended | confidence | as-written member | corrected member |
|---|---|---|---|---|---|---|
| index.js:336 | `!Pushe.ANDROID_ID_TYPES[type]` reads the prototype chain, so the names of inherited `Object.prototype` members (functions, so truthy) pass as valid identifier kinds | `sendNotificationToUser({type: "toString", userId: "u1"})` on Android is forwarded to the native layer | accept only the object's own keys `CUSTOM_ID`, `ANDROID_ID`, `ADVERTISEMENT_ID` | high; not executed | `SendNotification.SendNotificationToUserAsWritten`, `SendNotification.InheritedNameIsForwarded` | `SendNotification.SendNotificationToUser` |
