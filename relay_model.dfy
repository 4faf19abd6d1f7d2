/**
  The notification event relay as a value: the handler registry
  (`_userEventHandlers`), the single-slot cache per event type
  (`_cachedNotification`) and a log of the handler calls made so far. The
  three operations that change it are functions from state to state, and the
  lemmas below are about traces of them.
 */
module RelayModel {
  import opened JsValues

  /** One call `handler(notification)` made by the relay. */
  datatype Delivery = Delivery(handler: HandlerId, notification: JsValue)

  datatype State = State(
    userEventHandlers: map<string, HandlerId>,
    cachedNotification: map<string, JsValue>,
    deliveries: seq<Delivery>)

  /** The state at module load: no handler, nothing cached, nothing delivered. */
  const Initial: State := State(map[], map[], [])

  /** A handler the relay can be given: a function, or a falsy value it ignores. */
  predicate AcceptableHandler(h: JsValue) {
    !Truthy(h) || h.Fn?
  }

  /**
    The broadcast callback for `event`: call the registered handler, else cache.
    It never touches the handlers or another event type's cache entry, and it
    calls at most one handler.
   */
  function Dispatch(s: State, event: string, notification: JsValue): (r: State)
    ensures r.userEventHandlers == s.userEventHandlers
    ensures forall k :: k != event ==> Get(r.cachedNotification, k) == Get(s.cachedNotification, k)
    ensures s.deliveries <= r.deliveries && |r.deliveries| <= |s.deliveries| + 1
    ensures event in s.userEventHandlers <==> |r.deliveries| == |s.deliveries| + 1
  {
    if event in s.userEventHandlers then
      s.(deliveries := s.deliveries + [Delivery(s.userEventHandlers[event], notification)])
    else
      s.(cachedNotification := s.cachedNotification[event := notification])
  }

  /**
    `Pushe.addEventListener(eventType, eventHandler)`. A falsy handler changes
    nothing. Otherwise, afterwards the handler is registered and nothing truthy
    is left owed to `eventType`; other event types' cache entries are untouched,
    and at most the one cached notification is delivered.
   */
  function AddEventListener(s: State, eventType: string, eventHandler: JsValue): (r: State)
    requires AcceptableHandler(eventHandler)
    ensures !Truthy(eventHandler) ==> r == s
    ensures Truthy(eventHandler) ==>
      && eventType in r.userEventHandlers && r.userEventHandlers[eventType] == eventHandler.id
      && !Truthy(Get(r.cachedNotification, eventType))
    ensures forall k :: k != eventType ==> Get(r.cachedNotification, k) == Get(s.cachedNotification, k)
    ensures s.deliveries <= r.deliveries && |r.deliveries| <= |s.deliveries| + 1
  {
    if !Truthy(eventHandler) then s
    else
      var registered := s.(userEventHandlers := s.userEventHandlers[eventType := eventHandler.id]);
      var cached := Get(s.cachedNotification, eventType);
      if Truthy(cached) then
        registered.(deliveries := s.deliveries + [Delivery(eventHandler.id, cached)],
                    cachedNotification := s.cachedNotification - {eventType})
      else registered
  }

  /** `Pushe.removeEventListener(eventType)`: only that handler entry goes. */
  function RemoveEventListener(s: State, eventType: string): (r: State)
    ensures eventType !in r.userEventHandlers
    ensures forall k :: k != eventType && k in s.userEventHandlers ==>
      k in r.userEventHandlers && r.userEventHandlers[k] == s.userEventHandlers[k]
    ensures r.userEventHandlers.Keys <= s.userEventHandlers.Keys
    ensures r.cachedNotification == s.cachedNotification && r.deliveries == s.deliveries
  {
    s.(userEventHandlers := s.userEventHandlers - {eventType})
  }

  /**
    The relay's invariant: no event type has both an active handler and a
    truthy cached notification still owed to it.
   */
  predicate NothingOwed(s: State) {
    forall e :: e in s.userEventHandlers ==> !Truthy(Get(s.cachedNotification, e))
  }

  /** An input to the relay: a native broadcast, or a call of the public API. */
  datatype Op =
    | Broadcast(event: string, notification: JsValue)
    | Add(eventType: string, eventHandler: JsValue)
    | Remove(eventType: string)

  predicate WellFormed(op: Op) {
    op.Add? ==> AcceptableHandler(op.eventHandler)
  }

  predicate AllWellFormed(ops: seq<Op>) {
    forall i :: 0 <= i < |ops| ==> WellFormed(ops[i])
  }

  function Apply(s: State, op: Op): State
    requires WellFormed(op)
  {
    match op
    case Broadcast(e, n) => Dispatch(s, e, n)
    case Add(e, h) => AddEventListener(s, e, h)
    case Remove(e) => RemoveEventListener(s, e)
  }

  function Run(s: State, ops: seq<Op>): State
    requires AllWellFormed(ops)
    decreases ops
  {
    if ops == [] then s else Run(Apply(s, ops[0]), ops[1..])
  }

  /** Broadcasts of each of `ps`, in order, for one event type. */
  function BroadcastAll(event: string, ps: seq<JsValue>): (ops: seq<Op>)
    ensures |ops| == |ps|
    ensures forall i :: 0 <= i < |ps| ==> ops[i] == Broadcast(event, ps[i])
  {
    if ps == [] then [] else [Broadcast(event, ps[0])] + BroadcastAll(event, ps[1..])
  }

  /** The notifications a trace broadcasts. */
  function Arrived(ops: seq<Op>): set<JsValue> {
    set i | 0 <= i < |ops| && ops[i].Broadcast? :: ops[i].notification
  }

  /** The handlers a trace registers. */
  function Registered(ops: seq<Op>): set<HandlerId> {
    set i | 0 <= i < |ops| && ops[i].Add? && ops[i].eventHandler.Fn? :: ops[i].eventHandler.id
  }

  // ----- one operation -----

  /** Each operation keeps the invariant. */
  lemma ApplyKeepsNothingOwed(s: State, op: Op)
    requires WellFormed(op) && NothingOwed(s)
    ensures NothingOwed(Apply(s, op))
  {
  }

  /** A falsy handler changes nothing and delivers nothing. */
  lemma FalsyHandlerIsNoOp(s: State, eventType: string, eventHandler: JsValue)
    requires !Truthy(eventHandler)
    ensures AddEventListener(s, eventType, eventHandler) == s
  {
  }

  /**
    Registering a function makes it the only handler for its event type and
    leaves the other handlers alone; a truthy cached notification is delivered to
    it once and dropped, anything else stays in the cache undelivered.
   */
  lemma AddEventListenerEffect(s: State, eventType: string, h: HandlerId, other: string)
    requires other != eventType
    ensures var r := AddEventListener(s, eventType, Fn(h));
      && r.userEventHandlers[eventType] == h
      && (other in r.userEventHandlers <==> other in s.userEventHandlers)
      && (other in s.userEventHandlers ==> r.userEventHandlers[other] == s.userEventHandlers[other])
      && Get(r.cachedNotification, other) == Get(s.cachedNotification, other)
      && (Truthy(Get(s.cachedNotification, eventType)) ==>
            r.deliveries == s.deliveries + [Delivery(h, s.cachedNotification[eventType])]
            && eventType !in r.cachedNotification)
      && (!Truthy(Get(s.cachedNotification, eventType)) ==>
            r.deliveries == s.deliveries && r.cachedNotification == s.cachedNotification)
  {
  }

  /** Removing a handler makes the next broadcast for that event type cached, not delivered. */
  lemma RemoveThenBroadcastIsCached(s: State, eventType: string, n: JsValue)
    ensures Run(s, [Remove(eventType), Broadcast(eventType, n)])
         == s.(userEventHandlers := s.userEventHandlers - {eventType},
               cachedNotification := s.cachedNotification[eventType := n])
  {
    var ops := [Remove(eventType), Broadcast(eventType, n)];
    var s1 := RemoveEventListener(s, eventType);
    assert Run(s, ops) == Run(s1, ops[1..]);
    assert Run(s1, ops[1..]) == Run(Dispatch(s1, eventType, n), []);
  }

  // ----- traces -----

  lemma {:induction false} RunAppend(s: State, a: seq<Op>, b: seq<Op>)
    requires AllWellFormed(a) && AllWellFormed(b)
    ensures AllWellFormed(a + b)
    ensures Run(s, a + b) == Run(Run(s, a), b)
    decreases a
  {
    assert AllWellFormed(a + b) by {
      forall i | 0 <= i < |a + b| ensures WellFormed((a + b)[i]) {
        if i < |a| { assert (a + b)[i] == a[i]; } else { assert (a + b)[i] == b[i - |a|]; }
      }
    }
    if a != [] {
      assert (a + b)[0] == a[0];
      assert (a + b)[1..] == a[1..] + b;
      RunAppend(Apply(s, a[0]), a[1..], b);
    } else {
      assert a + b == b;
    }
  }

  /** Every reachable state keeps the invariant. */
  lemma {:induction false} RunKeepsNothingOwed(s: State, ops: seq<Op>)
    requires AllWellFormed(ops) && NothingOwed(s)
    ensures NothingOwed(Run(s, ops))
    decreases ops
  {
    if ops != [] {
      ApplyKeepsNothingOwed(s, ops[0]);
      RunKeepsNothingOwed(Apply(s, ops[0]), ops[1..]);
    }
  }

  /**
    The relay only appends to the delivery log, every notification it delivers
    arrived by broadcast (or was already cached), every handler it calls was
    registered, and nothing is cached that did not arrive.
   */
  lemma {:induction false} RunOnlyDeliversWhatArrived(s: State, ops: seq<Op>)
    requires AllWellFormed(ops)
    ensures var r := Run(s, ops);
      && s.deliveries <= r.deliveries
      && r.cachedNotification.Values <= s.cachedNotification.Values + Arrived(ops)
      && (forall i :: |s.deliveries| <= i < |r.deliveries| ==>
            r.deliveries[i].notification in s.cachedNotification.Values + Arrived(ops)
            && r.deliveries[i].handler in s.userEventHandlers.Values + Registered(ops))
    decreases ops
  {
    if ops != [] {
      var t := Apply(s, ops[0]);
      ApplyOnlyDeliversWhatArrived(s, ops[0]);
      RunOnlyDeliversWhatArrived(t, ops[1..]);
      ArrivedCons(ops);
      RegisteredCons(ops);
    }
  }

  /** One step of `RunOnlyDeliversWhatArrived`. */
  lemma ApplyOnlyDeliversWhatArrived(s: State, op: Op)
    requires WellFormed(op)
    ensures var t := Apply(s, op);
      && s.deliveries <= t.deliveries
      && t.cachedNotification.Values <= s.cachedNotification.Values + Arrived([op])
      && t.userEventHandlers.Values <= s.userEventHandlers.Values + Registered([op])
      && (forall i :: |s.deliveries| <= i < |t.deliveries| ==>
            t.deliveries[i].notification in s.cachedNotification.Values + Arrived([op])
            && t.deliveries[i].handler in s.userEventHandlers.Values + Registered([op]))
  {
    var t := Apply(s, op);
    assert [op][0] == op;
    forall i | |s.deliveries| <= i < |t.deliveries|
      ensures t.deliveries[i].notification in s.cachedNotification.Values + Arrived([op])
      ensures t.deliveries[i].handler in s.userEventHandlers.Values + Registered([op])
    {
      assert i == |s.deliveries|;
    }
  }

  lemma ArrivedCons(ops: seq<Op>)
    requires ops != []
    ensures Arrived(ops) == Arrived(ops[..1]) + Arrived(ops[1..])
  {
    forall v | v in Arrived(ops) ensures v in Arrived(ops[..1]) + Arrived(ops[1..]) {
      var i :| 0 <= i < |ops| && ops[i].Broadcast? && ops[i].notification == v;
      if i > 0 { assert ops[1..][i - 1] == ops[i]; }
    }
    forall v | v in Arrived(ops[1..]) ensures v in Arrived(ops) {
      var i :| 0 <= i < |ops[1..]| && ops[1..][i].Broadcast? && ops[1..][i].notification == v;
      assert ops[i + 1] == ops[1..][i];
    }
  }

  lemma RegisteredCons(ops: seq<Op>)
    requires ops != []
    ensures Registered(ops) == Registered(ops[..1]) + Registered(ops[1..])
  {
    forall h | h in Registered(ops) ensures h in Registered(ops[..1]) + Registered(ops[1..]) {
      var i :| 0 <= i < |ops| && ops[i].Add? && ops[i].eventHandler.Fn? && ops[i].eventHandler.id == h;
      if i > 0 { assert ops[1..][i - 1] == ops[i]; }
    }
    forall h | h in Registered(ops[1..]) ensures h in Registered(ops) {
      var i :| 0 <= i < |ops[1..]| && ops[1..][i].Add? && ops[1..][i].eventHandler.Fn? && ops[1..][i].eventHandler.id == h;
      assert ops[i + 1] == ops[1..][i];
    }
  }

  /** Broadcasts with no handler registered leave only the last one cached. */
  lemma {:induction false} UnhandledBroadcastsKeepLast(s: State, event: string, ps: seq<JsValue>)
    requires event !in s.userEventHandlers && |ps| > 0
    ensures AllWellFormed(BroadcastAll(event, ps))
    ensures Run(s, BroadcastAll(event, ps))
         == s.(cachedNotification := s.cachedNotification[event := ps[|ps| - 1]])
    decreases ps
  {
    BroadcastAllWellFormed(event, ps);
    if |ps| == 1 {
      RunBroadcastAllCons(s, event, ps);
    } else {
      UnhandledBroadcastsKeepLast(s.(cachedNotification := s.cachedNotification[event := ps[0]]), event, ps[1..]);
      KeepLastStep(s, event, ps);
    }
  }

  /** The inductive step of `UnhandledBroadcastsKeepLast`. */
  lemma KeepLastStep(s: State, event: string, ps: seq<JsValue>)
    requires event !in s.userEventHandlers && |ps| > 1
    requires var t := s.(cachedNotification := s.cachedNotification[event := ps[0]]);
      && AllWellFormed(BroadcastAll(event, ps[1..]))
      && Run(t, BroadcastAll(event, ps[1..])) == t.(cachedNotification := t.cachedNotification[event := ps[|ps| - 1]])
    ensures AllWellFormed(BroadcastAll(event, ps))
    ensures Run(s, BroadcastAll(event, ps))
         == s.(cachedNotification := s.cachedNotification[event := ps[|ps| - 1]])
  {
    RunBroadcastAllCons(s, event, ps);
    assert ps[1..][|ps[1..]| - 1] == ps[|ps| - 1];
    CacheOverwrite(s, event, ps[0], ps[|ps| - 1]);
  }

  /** Caching twice for one event type keeps only the second notification. */
  lemma CacheOverwrite(s: State, event: string, first: JsValue, second: JsValue)
    ensures var t := s.(cachedNotification := s.cachedNotification[event := first]);
      t.(cachedNotification := t.cachedNotification[event := second])
        == s.(cachedNotification := s.cachedNotification[event := second])
  {
    assert s.cachedNotification[event := first][event := second] == s.cachedNotification[event := second];
  }

  lemma BroadcastAllWellFormed(event: string, ps: seq<JsValue>)
    ensures AllWellFormed(BroadcastAll(event, ps))
  {
  }

  /** The first of a run of unhandled broadcasts is cached, then the rest run. */
  lemma RunBroadcastAllCons(s: State, event: string, ps: seq<JsValue>)
    requires event !in s.userEventHandlers && |ps| > 0
    ensures AllWellFormed(BroadcastAll(event, ps)) && AllWellFormed(BroadcastAll(event, ps[1..]))
    ensures Run(s, BroadcastAll(event, ps))
         == Run(s.(cachedNotification := s.cachedNotification[event := ps[0]]), BroadcastAll(event, ps[1..]))
  {
    var ops := BroadcastAll(event, ps);
    assert ops[1..] == BroadcastAll(event, ps[1..]);
  }

  /**
    Last write wins: after any number of unhandled broadcasts for an event type,
    a newly registered handler receives the last of them once, and only if it is
    truthy; the cache slot is then empty. A falsy last notification stays cached.
   */
  lemma LastWriteWins(s: State, event: string, ps: seq<JsValue>, h: HandlerId)
    requires event !in s.userEventHandlers && |ps| > 0
    ensures AllWellFormed(BroadcastAll(event, ps) + [Add(event, Fn(h))])
    ensures var r := Run(s, BroadcastAll(event, ps) + [Add(event, Fn(h))]);
      var last := ps[|ps| - 1];
      && r.userEventHandlers == s.userEventHandlers[event := h]
      && (Truthy(last) ==>
            r.deliveries == s.deliveries + [Delivery(h, last)]
            && r.cachedNotification == s.cachedNotification - {event})
      && (!Truthy(last) ==>
            r.deliveries == s.deliveries
            && r.cachedNotification == s.cachedNotification[event := last])
  {
    UnhandledBroadcastsKeepLast(s, event, ps);
    RunAppend(s, BroadcastAll(event, ps), [Add(event, Fn(h))]);
    assert s.cachedNotification[event := ps[|ps| - 1]] - {event} == s.cachedNotification - {event};
  }

  /**
    Of two handlers registered in turn, only the second receives later
    broadcasts; it receives no flush, since the first took any cached one.
   */
  lemma ReplacedHandlerNotCalled(s: State, event: string, h1: HandlerId, h2: HandlerId, n: JsValue)
    ensures Run(s, [Add(event, Fn(h1)), Add(event, Fn(h2)), Broadcast(event, n)]).deliveries
         == AddEventListener(s, event, Fn(h1)).deliveries + [Delivery(h2, n)]
  {
    var ops := [Add(event, Fn(h1)), Add(event, Fn(h2)), Broadcast(event, n)];
    var t := AddEventListener(s, event, Fn(h1));
    assert !Truthy(Get(t.cachedNotification, event));
    var t2 := AddEventListener(t, event, Fn(h2));
    assert Run(s, ops) == Run(t, ops[1..]);
    assert Run(t, ops[1..]) == Run(t2, ops[2..]);
    assert Run(t2, ops[2..]) == Run(Dispatch(t2, event, n), []);
  }

  /**
    A "clicked" notification arriving before any handler is
    cached, then delivered exactly once to the handler registered for it, after
    which no cached entry remains.
   */
  lemma ClickedScenario(notification: JsValue, h: HandlerId)
    requires notification.Obj?
    ensures Run(Initial, [Broadcast("clicked", notification), Add("clicked", Fn(h))])
         == State(map["clicked" := h], map[], [Delivery(h, notification)])
  {
    var ops := [Broadcast("clicked", notification), Add("clicked", Fn(h))];
    var s1 := Dispatch(Initial, "clicked", notification);
    assert Run(Initial, ops) == Run(s1, ops[1..]);
    assert Run(s1, ops[1..]) == Run(AddEventListener(s1, "clicked", Fn(h)), []);
    assert map["clicked" := notification] - {"clicked"} == map[];
  }
}
