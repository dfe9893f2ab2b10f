/**
 Event dispatch: a table from native event type to the handler that turns an
 event into calls of the script's `handle_event`. Event types without a route
 are dropped; a key event whose code has no name is dropped too.

 The script side is modelled as the trace of calls the bridge makes into it.
 */
module Events {
  import opened KeyMap

  /** A polled native event. `Other` stands for every event type the bridge does
      not route (text entry, mouse, joystick, touch, sensor). */
  datatype Event =
    | Closed
    | Resized(width: nat, height: nat)
    | LostFocus
    | GainedFocus
    | KeyPressed(code: KeyCode)
    | KeyReleased(code: KeyCode)
    | Other(tag: nat)

  /** The type tag of an event, the key of the dispatch table. */
  datatype EventType =
    | ClosedType
    | ResizedType
    | LostFocusType
    | GainedFocusType
    | KeyPressedType
    | KeyReleasedType
    | OtherType(tag: nat)

  function TypeOf(e: Event): EventType
  {
    match e
    case Closed => ClosedType
    case Resized(_, _) => ResizedType
    case LostFocus => LostFocusType
    case GainedFocus => GainedFocusType
    case KeyPressed(_) => KeyPressedType
    case KeyReleased(_) => KeyReleasedType
    case Other(tag) => OtherType(tag)
  }

  /** An argument passed to the script. */
  datatype Arg = Int(i: int) | Str(s: string)

  /** A call the bridge makes into the script. `dt` is the frame time, passed through untouched. */
  datatype Call = UpdateCall(dt: real) | HandleEvent(name: string, args: seq<Arg>)

  /** The three shapes of handler the bridge installs, each calling `handle_event`
      with the event name it captured. */
  datatype Route =
    | Notify(name: string)      // no payload
    | NotifySize(name: string)  // the new width and height
    | NotifyKey(name: string)   // the key's name, when its code has one

  /** A route reads only the payload that events of type `t` carry. */
  predicate Fits(route: Route, t: EventType)
  {
    match route
    case Notify(_) => true
    case NotifySize(_) => t == ResizedType
    case NotifyKey(_) => t == KeyPressedType || t == KeyReleasedType
  }

  ghost predicate WellFormed(routes: map<EventType, Route>)
  {
    forall t :: t in routes ==> Fits(routes[t], t)
  }

  /** Runs one handler on one event; `rev` is the reverse key map it looks key names up in. */
  function Handle(route: Route, rev: map<KeyCode, string>, e: Event): (calls: seq<Call>)
    requires Fits(route, TypeOf(e))
    ensures |calls| <= 1
    ensures forall c :: c in calls ==> c.HandleEvent? && c.name == route.name
    ensures route.NotifyKey? ==> (calls == [] <==> e.code !in rev)
  {
    match route
    case Notify(name) => [HandleEvent(name, [])]
    case NotifySize(name) => [HandleEvent(name, [Int(e.width), Int(e.height)])]
    case NotifyKey(name) => if e.code in rev then [HandleEvent(name, [Str(rev[e.code])])] else []
  }

  /** The calls one polled event causes: its route's, or none when its type has no route. */
  function Dispatch(routes: map<EventType, Route>, rev: map<KeyCode, string>, e: Event): (calls: seq<Call>)
    requires WellFormed(routes)
    ensures |calls| <= 1
    ensures TypeOf(e) !in routes ==> calls == []
    ensures forall c :: c in calls ==> c.HandleEvent?
  {
    if TypeOf(e) in routes then Handle(routes[TypeOf(e)], rev, e) else []
  }

  /** The calls a sequence of polled events causes, event by event in poll order. */
  function DispatchAll(routes: map<EventType, Route>, rev: map<KeyCode, string>, events: seq<Event>): (calls: seq<Call>)
    requires WellFormed(routes)
    ensures |calls| <= |events|
  {
    if events == [] then [] else Dispatch(routes, rev, events[0]) + DispatchAll(routes, rev, events[1..])
  }

  /** The table the bridge builds: one route per handled event type. */
  function DefaultRoutes(): (routes: map<EventType, Route>)
    ensures WellFormed(routes)
    ensures forall t :: t in routes <==> !t.OtherType?
  {
    map[
      ClosedType := Notify("closed"),
      ResizedType := NotifySize("resized"),
      LostFocusType := Notify("lost_focus"),
      GainedFocusType := Notify("gained_focus"),
      KeyPressedType := NotifyKey("key_pressed"),
      KeyReleasedType := NotifyKey("key_released")
    ]
  }

  /** Dispatch is compositional: the calls of a concatenation of event
      sequences are the calls of the first followed by those of the second. */
  lemma {:induction false} DispatchAllAppend(routes: map<EventType, Route>, rev: map<KeyCode, string>, a: seq<Event>, b: seq<Event>)
    requires WellFormed(routes)
    ensures DispatchAll(routes, rev, a + b) == DispatchAll(routes, rev, a) + DispatchAll(routes, rev, b)
  {
    if a == [] {
      assert a + b == b;
    } else {
      assert (a + b)[0] == a[0];
      assert (a + b)[1..] == a[1..] + b;
      DispatchAllAppend(routes, rev, a[1..], b);
    }
  }

  /** The calls of an event followed by more events. */
  lemma DispatchAllCons(routes: map<EventType, Route>, rev: map<KeyCode, string>, e: Event, rest: seq<Event>)
    requires WellFormed(routes)
    ensures DispatchAll(routes, rev, [e] + rest) == Dispatch(routes, rev, e) + DispatchAll(routes, rev, rest)
  {
    assert ([e] + rest)[0] == e;
    assert ([e] + rest)[1..] == rest;
  }

  /** The calls of some events followed by one more. */
  lemma DispatchAllSnoc(routes: map<EventType, Route>, rev: map<KeyCode, string>, events: seq<Event>, e: Event)
    requires WellFormed(routes)
    ensures DispatchAll(routes, rev, events + [e]) == DispatchAll(routes, rev, events) + Dispatch(routes, rev, e)
  {
    DispatchAllAppend(routes, rev, events, [e]);
    DispatchAllSingle(routes, rev, e);
  }

  /** A single event causes exactly its own dispatch. */
  lemma {:induction false} DispatchAllSingle(routes: map<EventType, Route>, rev: map<KeyCode, string>, e: Event)
    requires WellFormed(routes)
    ensures DispatchAll(routes, rev, [e]) == Dispatch(routes, rev, e)
  {
    assert [e][1..] == [];
  }

  /** Poll order is kept: the calls of event `i` come after those of every
      earlier event and before those of every later one. */
  lemma {:induction false} DispatchInOrder(routes: map<EventType, Route>, rev: map<KeyCode, string>, events: seq<Event>, i: nat)
    requires WellFormed(routes)
    requires i < |events|
    ensures DispatchAll(routes, rev, events)
         == DispatchAll(routes, rev, events[..i]) + Dispatch(routes, rev, events[i]) + DispatchAll(routes, rev, events[i + 1..])
  {
    var before, after := events[..i], events[i + 1..];
    assert events == before + [events[i]] + after;
    DispatchAllAppend(routes, rev, before + [events[i]], after);
    DispatchAllAppend(routes, rev, before, [events[i]]);
    DispatchAllSingle(routes, rev, events[i]);
  }

  /** Events whose types have no route cause no call at all. */
  lemma {:induction false} UnroutedEventsSilent(routes: map<EventType, Route>, rev: map<KeyCode, string>, events: seq<Event>)
    requires WellFormed(routes)
    requires forall i :: 0 <= i < |events| ==> TypeOf(events[i]) !in routes
    ensures DispatchAll(routes, rev, events) == []
  {
    if events != [] {
      assert TypeOf(events[0]) !in routes;
      UnroutedEventsSilent(routes, rev, events[1..]);
    }
  }

  /** An event whose type has no route can be removed from the poll sequence
      without changing a single call. */
  lemma {:induction false} UnroutedEventDropped(routes: map<EventType, Route>, rev: map<KeyCode, string>, a: seq<Event>, e: Event, b: seq<Event>)
    requires WellFormed(routes)
    requires TypeOf(e) !in routes
    ensures DispatchAll(routes, rev, a + [e] + b) == DispatchAll(routes, rev, a + b)
  {
    DispatchAllAppend(routes, rev, a + [e], b);
    DispatchAllAppend(routes, rev, a, [e]);
    DispatchAllAppend(routes, rev, a, b);
    DispatchAllSingle(routes, rev, e);
  }

  /** What each event causes under the bridge's table, event type by event type. */
  function DefaultOutcome(rev: map<KeyCode, string>, e: Event): seq<Call>
  {
    match e
    case Closed => [HandleEvent("closed", [])]
    case Resized(w, h) => [HandleEvent("resized", [Int(w), Int(h)])]
    case LostFocus => [HandleEvent("lost_focus", [])]
    case GainedFocus => [HandleEvent("gained_focus", [])]
    case KeyPressed(code) => if code in rev then [HandleEvent("key_pressed", [Str(rev[code])])] else []
    case KeyReleased(code) => if code in rev then [HandleEvent("key_released", [Str(rev[code])])] else []
    case Other(_) => []
  }

  /** The bridge's table routes every event as `DefaultOutcome` says. */
  lemma DefaultDispatch(rev: map<KeyCode, string>, e: Event)
    ensures Dispatch(DefaultRoutes(), rev, e) == DefaultOutcome(rev, e)
  {
  }

  /** Under the bridge's table, an event followed by more events causes its
      `DefaultOutcome` followed by the calls of the rest. */
  lemma DefaultDispatchAllCons(rev: map<KeyCode, string>, e: Event, rest: seq<Event>)
    ensures DispatchAll(DefaultRoutes(), rev, [e] + rest) == DefaultOutcome(rev, e) + DispatchAll(DefaultRoutes(), rev, rest)
  {
    DispatchAllCons(DefaultRoutes(), rev, e, rest);
    DefaultDispatch(rev, e);
  }
}
