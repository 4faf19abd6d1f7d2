/**
  The static tables of the bridge: the event types an application can listen
  on, the native broadcast each of them arrives on, the public `Pushe.EVENTS`
  names, and the identifier kinds of `Pushe.ANDROID_ID_TYPES`.
 */
module PusheTables {
  import opened Wrappers

  /** `EVENTS_TYPES`: the event types handlers can be attached to. */
  const EventTypes: seq<string> :=
    ["received", "clicked", "dismissed", "button_clicked", "custom_content_received"]

  /** `_pusheEvents`: event type to the name of the native broadcast it listens on. */
  const PusheEvents: map<string, string> := map[
    EventTypes[0] := "Pushe-NotificationReceived",
    EventTypes[1] := "Pushe-Clicked",
    EventTypes[2] := "Pushe-Dismissed",
    EventTypes[3] := "Pushe-ButtonClicked",
    EventTypes[4] := "Pushe-CustomContentReceived"
  ]

  /** `Pushe.EVENTS`: public constant names for the event types. */
  const Events: map<string, string> := map[
    "RECEIVED" := EventTypes[0],
    "CLICKED" := EventTypes[1],
    "DISMISSED" := EventTypes[2],
    "BUTTON_CLICKED" := EventTypes[3],
    "CUSTOM_CONTENT_RECEIVED" := EventTypes[4]
  ]

  /** `Pushe.ANDROID_ID_TYPES`: the identifier kinds a notification can be addressed by. */
  const AndroidIdTypes: map<string, string> := map[
    "CUSTOM_ID" := "CUSTOM_ID",
    "ANDROID_ID" := "ANDROID_ID",
    "ADVERTISEMENT_ID" := "ADVERTISEMENT_ID"
  ]

  /** No event type is listed twice. */
  lemma EventTypesDistinct()
    ensures |EventTypes| == 5
    ensures forall i, j :: 0 <= i < j < |EventTypes| ==> EventTypes[i] != EventTypes[j]
  {
  }

  /** `_pusheEvents` has exactly one entry per event type. */
  lemma PusheEventsTotal()
    ensures PusheEvents.Keys == set t | t in EventTypes
  {
  }

  /** No two event types listen on the same native broadcast. */
  lemma PusheEventsInjective()
    ensures forall a, b :: a in PusheEvents && b in PusheEvents && PusheEvents[a] == PusheEvents[b] ==> a == b
    ensures |PusheEvents.Values| == |EventTypes|
  {
    var names := {"Pushe-NotificationReceived", "Pushe-Clicked", "Pushe-Dismissed",
                  "Pushe-ButtonClicked", "Pushe-CustomContentReceived"};
    forall v | v in PusheEvents.Values ensures v in names {
      var k :| k in PusheEvents && PusheEvents[k] == v;
    }
    assert PusheEvents[EventTypes[0]] in PusheEvents.Values;
    assert PusheEvents[EventTypes[1]] in PusheEvents.Values;
    assert PusheEvents[EventTypes[2]] in PusheEvents.Values;
    assert PusheEvents[EventTypes[3]] in PusheEvents.Values;
    assert PusheEvents[EventTypes[4]] in PusheEvents.Values;
    assert PusheEvents.Values == names;
  }

  /** `Pushe.EVENTS` names every event type once and nothing else. */
  lemma EventsCoverEventTypes()
    ensures Events.Values == set t | t in EventTypes
    ensures |Events| == |EventTypes|
    ensures forall a, b :: a in Events && b in Events && Events[a] == Events[b] ==> a == b
  {
    assert Events.Keys == {"RECEIVED", "CLICKED", "DISMISSED", "BUTTON_CLICKED", "CUSTOM_CONTENT_RECEIVED"};
  }

  /** Every identifier kind is its own value, so `ANDROID_ID_TYPES[k]` is truthy exactly for the three keys. */
  lemma AndroidIdTypesSelfNamed()
    ensures AndroidIdTypes.Keys == {"CUSTOM_ID", "ANDROID_ID", "ADVERTISEMENT_ID"}
    ensures forall k :: k in AndroidIdTypes ==> AndroidIdTypes[k] == k && AndroidIdTypes[k] != ""
  {
  }

  /** The first event type in `types` whose broadcast is `name`. */
  function FindEvent(types: seq<string>, name: string): (r: Option<string>)
    requires forall t :: t in types ==> t in PusheEvents
    ensures r.Some? ==> r.value in types && PusheEvents[r.value] == name
    ensures r.None? ==> forall t :: t in types ==> PusheEvents[t] != name
  {
    if types == [] then None
    else if PusheEvents[types[0]] == name then Some(types[0])
    else FindEvent(types[1..], name)
  }

  /**
    The event type whose listener receives the native broadcast `name`: the
    inverse of `_pusheEvents`.
   */
  function BroadcastEvent(name: string): (r: Option<string>)
    ensures r.Some? <==> name in PusheEvents.Values
    ensures r.Some? ==> r.value in PusheEvents && PusheEvents[r.value] == name
  {
    PusheEventsTotal();
    FindEvent(EventTypes, name)
  }

  /** Reading an event type's broadcast back gives that event type. */
  lemma BroadcastEventRoundTrip(e: string)
    requires e in PusheEvents
    ensures BroadcastEvent(PusheEvents[e]) == Some(e)
  {
    PusheEventsInjective();
  }
}
