/**
  The notification event relay as the mutable object it is in the bridge: the
  two module-level maps become fields updated in place, and every handler call
  is appended to a delivery log. Each method states its new state outright and
  ties it to the step function of `RelayModel`, so the trace lemmas there
  apply to any sequence of calls on the object.
 */
module Relay {
  import opened JsValues
  import RelayModel

  class EventRelay {
    /** `_userEventHandlers`: event type to its one active handler. */
    var userEventHandlers: map<string, HandlerId>
    /** `_cachedNotification`: event type to its last undelivered notification. */
    var cachedNotification: map<string, JsValue>
    /** Every handler call made so far, oldest first. */
    var deliveries: seq<RelayModel.Delivery>

    function State(): RelayModel.State
      reads this
    {
      RelayModel.State(userEventHandlers, cachedNotification, deliveries)
    }

    ghost predicate Valid()
      reads this
    {
      RelayModel.NothingOwed(State())
    }

    /** The relay at module load. */
    constructor ()
      ensures Valid()
      ensures State() == RelayModel.Initial
    {
      userEventHandlers := map[];
      cachedNotification := map[];
      deliveries := [];
    }

    /**
      The broadcast callback for `event`: a registered handler is called once
      with the notification and the cache is left alone; with no handler the
      notification replaces whatever was cached for `event`.
     */
    method Dispatch(event: string, notification: JsValue)
      requires Valid()
      modifies this
      ensures Valid()
      ensures userEventHandlers == old(userEventHandlers)
      ensures event in old(userEventHandlers) ==>
        && cachedNotification == old(cachedNotification)
        && deliveries == old(deliveries) + [RelayModel.Delivery(old(userEventHandlers)[event], notification)]
      ensures event !in old(userEventHandlers) ==>
        && cachedNotification == old(cachedNotification)[event := notification]
        && deliveries == old(deliveries)
      ensures State() == RelayModel.Dispatch(old(State()), event, notification)
    {
      if event in userEventHandlers {
        var userEventHandler := userEventHandlers[event];
        deliveries := deliveries + [RelayModel.Delivery(userEventHandler, notification)];
      } else {
        cachedNotification := cachedNotification[event := notification];
      }
    }

    /**
      `Pushe.addEventListener`: a falsy handler is ignored. Otherwise the handler
      replaces any earlier one for `eventType`, and a truthy cached notification
      is delivered to it once and dropped from the cache.
     */
    method AddEventListener(eventType: string, eventHandler: JsValue)
      requires Valid()
      requires RelayModel.AcceptableHandler(eventHandler)
      modifies this
      ensures Valid()
      ensures !Truthy(eventHandler) ==> unchanged(this)
      ensures Truthy(eventHandler) ==>
        userEventHandlers == old(userEventHandlers)[eventType := eventHandler.id]
      ensures Truthy(eventHandler) && Truthy(Get(old(cachedNotification), eventType)) ==>
        && deliveries == old(deliveries) + [RelayModel.Delivery(eventHandler.id, old(cachedNotification)[eventType])]
        && cachedNotification == old(cachedNotification) - {eventType}
      ensures !Truthy(Get(old(cachedNotification), eventType)) ==>
        && deliveries == old(deliveries)
        && cachedNotification == old(cachedNotification)
      ensures State() == RelayModel.AddEventListener(old(State()), eventType, eventHandler)
    {
      if !Truthy(eventHandler) {
        return;
      }
      userEventHandlers := userEventHandlers[eventType := eventHandler.id];
      var cached := Get(cachedNotification, eventType);
      if Truthy(cached) {
        deliveries := deliveries + [RelayModel.Delivery(eventHandler.id, cached)];
        cachedNotification := cachedNotification - {eventType};
      }
    }

    /** `Pushe.removeEventListener`: drop the handler for `eventType`, keep the cache. */
    method RemoveEventListener(eventType: string)
      requires Valid()
      modifies this
      ensures Valid()
      ensures userEventHandlers == old(userEventHandlers) - {eventType}
      ensures cachedNotification == old(cachedNotification)
      ensures deliveries == old(deliveries)
      ensures State() == RelayModel.RemoveEventListener(old(State()), eventType)
    {
      userEventHandlers := userEventHandlers - {eventType};
    }
  }
}
