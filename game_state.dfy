/**
 `GameState`, the bridge's frame driver: it holds the loaded script, the
 forward and reverse key maps and the event table, answers the script's
 key polls, and on each update calls the script's `update` and then routes
 every polled event to the script's `handle_event`.
 */
module Game {
  import opened Assets
  import opened KeyMap
  import opened Events

  /** A decoded sound buffer, identified by its handle. */
  datatype SoundBuffer = SoundBuffer(handle: nat)

  /** An opened music stream, identified by its handle. */
  datatype Music = Music(handle: nat)

  // The loaders are module-level: each maps a path (and the store standing for
  // the file system) to a value, and reads no GameState.

  function LoadScript(store: map<string, string>, path: string): (r: Outcome<string>)
    ensures r.Failed? <==> path !in store
    ensures r.Loaded? ==> r.value == store[path]
    ensures r.Failed? ==> EndsWith(r.message, path)
  {
    LoadFrom("script", store, path)
  }

  function LoadSound(store: map<string, SoundBuffer>, path: string): (r: Outcome<SoundBuffer>)
    ensures r.Failed? <==> path !in store
    ensures r.Loaded? ==> r.value == store[path]
    ensures r.Failed? ==> EndsWith(r.message, path)
  {
    LoadFrom("sound", store, path)
  }

  function LoadMusic(store: map<string, Music>, path: string): (r: Outcome<Music>)
    ensures r.Failed? <==> path !in store
    ensures r.Loaded? ==> r.value == store[path]
    ensures r.Failed? ==> EndsWith(r.message, path)
  {
    LoadFrom("music", store, path)
  }

  class GameState {
    var script: string
    var keymap: map<string, KeyCode>
    var keymapRev: map<KeyCode, string>
    var eventmap: map<EventType, Route>

    /** The reverse key table is the exact inverse of the forward one, and every
        route reads only the payload of the event type it is installed for. */
    ghost predicate Valid()
      reads this
    {
      IsInverse(keymap, keymapRev) && WellFormed(eventmap)
    }

    /** Builds the state around an already loaded script; see `Open` for the load. */
    constructor (script: string)
      ensures Valid()
      ensures this.script == script
      ensures keymap == DefaultKeymap() && eventmap == DefaultRoutes()
    {
      this.script := script;
      keymap, keymapRev, eventmap := map[], map[], map[];
      new;
      BuildKeymap();
      BuildEventmap();
    }

    method BuildKeymap()
      modifies this`keymap, this`keymapRev
      ensures keymap == DefaultKeymap()
      ensures keymapRev.Keys == old(keymapRev).Keys + keymap.Values
      ensures forall code :: code in keymap.Values ==> keymapRev[code] in keymap && keymap[keymapRev[code]] == code
      ensures forall code :: code in old(keymapRev) && code !in keymap.Values ==> keymapRev[code] == old(keymapRev)[code]
      ensures old(keymapRev) == map[] ==> IsInverse(keymap, keymapRev)
    {
      keymap := DefaultKeymap();
      keymapRev := ExtendReverse(keymap, keymapRev);
      if old(keymapRev) == map[] {
        InjectiveReverseIsInverse(keymap, keymapRev);
      }
    }

    method BuildEventmap()
      modifies this`eventmap
      ensures eventmap == old(eventmap) + DefaultRoutes()
    {
      eventmap := eventmap[ClosedType := Notify("closed")];
      eventmap := eventmap[ResizedType := NotifySize("resized")];
      eventmap := eventmap[LostFocusType := Notify("lost_focus")];
      eventmap := eventmap[GainedFocusType := Notify("gained_focus")];
      eventmap := eventmap[KeyPressedType := NotifyKey("key_pressed")];
      eventmap := eventmap[KeyReleasedType := NotifyKey("key_released")];
    }

    /** The script's `is_key_pressed`; `pressed` is the live keyboard state. */
    function IsKeyPressed(name: string, pressed: KeyCode -> bool): (r: bool)
      reads this
      ensures name !in keymap ==> !r
      ensures r ==> pressed(keymap[name])
      ensures name in keymap && pressed(keymap[name]) ==> r
    {
      if name in keymap then pressed(keymap[name]) else false
    }

    /** One update: the script's `update(dt)` first, then the calls the polled
        events cause, in poll order. */
    method Update(dt: real, polled: seq<Event>) returns (calls: seq<Call>)
      requires Valid()
      ensures calls == [UpdateCall(dt)] + DispatchAll(eventmap, keymapRev, polled)
    {
      calls := [UpdateCall(dt)];
      var i := 0;
      while i < |polled|
        invariant 0 <= i <= |polled|
        invariant calls == [UpdateCall(dt)] + DispatchAll(eventmap, keymapRev, polled[..i])
      {
        var e := polled[i];
        if TypeOf(e) in eventmap {
          calls := calls + Handle(eventmap[TypeOf(e)], keymapRev, e);
        }
        assert polled[..i + 1] == polled[..i] + [e];
        DispatchAllSnoc(eventmap, keymapRev, polled[..i], e);
        i := i + 1;
      }
      assert polled[..i] == polled;
    }
  }

  /** Construction: load the script, failing with its path when it cannot be read. */
  method Open(store: map<string, string>, path: string) returns (r: Outcome<GameState>)
    ensures r.Failed? <==> path !in store
    ensures r.Failed? ==> EndsWith(r.message, path)
    ensures r.Loaded? ==> fresh(r.value) && r.value.Valid() && r.value.script == store[path]
    ensures r.Loaded? ==> r.value.keymap == DefaultKeymap() && r.value.eventmap == DefaultRoutes()
  {
    var loaded := LoadScript(store, path);
    if loaded.Failed? {
      return Failed(loaded.message);
    }
    var state := new GameState(loaded.value);
    return Loaded(state);
  }

  /** After construction every arrow name polls its own key, and any other name is
      reported as not pressed. */
  lemma KeyPollAfterBuild(state: GameState, name: string, pressed: KeyCode -> bool)
    requires state.keymap == DefaultKeymap()
    ensures name == "up" ==> state.IsKeyPressed(name, pressed) == pressed(UpKey)
    ensures name == "down" ==> state.IsKeyPressed(name, pressed) == pressed(DownKey)
    ensures name == "left" ==> state.IsKeyPressed(name, pressed) == pressed(LeftKey)
    ensures name == "right" ==> state.IsKeyPressed(name, pressed) == pressed(RightKey)
    ensures name !in {"up", "down", "left", "right"} ==> !state.IsKeyPressed(name, pressed)
  {
  }

  /** The tail of `MixedEventsDispatch`: an unrouted event, a named key
      released, and a close. */
  lemma {:induction false} MixedEventsTail(rev: map<KeyCode, string>, named: KeyCode, tag: nat)
    requires named in rev
    ensures DispatchAll(DefaultRoutes(), rev, [Other(tag), KeyReleased(named), Closed])
         == [HandleEvent("key_released", [Str(rev[named])]), HandleEvent("closed", [])]
  {
    var routes := DefaultRoutes();
    var t2 := [Closed];
    var t1 := [KeyReleased(named)] + t2;
    var t0 := [Other(tag)] + t1;
    assert t0 == [Other(tag), KeyReleased(named), Closed];
    assert DispatchAll(routes, rev, t2) == [HandleEvent("closed", [])] by {
      DefaultDispatchAllCons(rev, Closed, []);
      assert t2 == [Closed] + [];
    }
    DefaultDispatchAllCons(rev, KeyReleased(named), t2);
    DefaultDispatchAllCons(rev, Other(tag), t1);
  }

  /** The calls a frame's worth of polled events causes under the bridge's table:
      a resize, a named key pressed, an unnamed key pressed, an unrouted event,
      the named key released, and a close. */
  lemma {:induction false} MixedEventsDispatch(rev: map<KeyCode, string>, w: nat, h: nat, named: KeyCode, unnamed: KeyCode, tag: nat)
    requires named in rev && unnamed !in rev
    ensures DispatchAll(DefaultRoutes(), rev, [Resized(w, h), KeyPressed(named), KeyPressed(unnamed), Other(tag), KeyReleased(named), Closed])
         == [HandleEvent("resized", [Int(w), Int(h)]), HandleEvent("key_pressed", [Str(rev[named])]),
             HandleEvent("key_released", [Str(rev[named])]), HandleEvent("closed", [])]
  {
    var t3 := [Other(tag), KeyReleased(named), Closed];
    var t2 := [KeyPressed(unnamed)] + t3;
    var t1 := [KeyPressed(named)] + t2;
    var t0 := [Resized(w, h)] + t1;
    assert t0 == [Resized(w, h), KeyPressed(named), KeyPressed(unnamed), Other(tag), KeyReleased(named), Closed];
    MixedEventsTail(rev, named, tag);
    DefaultDispatchAllCons(rev, KeyPressed(unnamed), t3);
    DefaultDispatchAllCons(rev, KeyPressed(named), t2);
    DefaultDispatchAllCons(rev, Resized(w, h), t1);
  }

  /** One frame on a freshly built state: the update comes first, routed events
      follow in poll order, and the unmapped key (code 0, the A key) and the
      unrouted event cause nothing. */
  method FrameScenario(dt: real) returns (calls: seq<Call>)
    ensures calls == [
      UpdateCall(dt),
      HandleEvent("resized", [Int(640), Int(480)]),
      HandleEvent("key_pressed", [Str("up")]),
      HandleEvent("key_released", [Str("up")]),
      HandleEvent("closed", [])
    ]
  {
    var state := new GameState("");
    var polled := [Resized(640, 480), KeyPressed(UpKey), KeyPressed(0), Other(7), KeyReleased(UpKey), Closed];
    calls := state.Update(dt, polled);
    var rev := state.keymapRev;
    assert rev[UpKey] == "up" by { assert "up" in state.keymap; }
    assert 0 !in rev;
    MixedEventsDispatch(rev, 640, 480, UpKey, 0, 7);
  }
}
