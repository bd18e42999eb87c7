/** The client's input dispatcher (`InputController` in
    src/core/client/InputController.ts, and its legacy copy
    src/client/classes/InputController.js): named handlers that can be
    switched off all at once, keyboard events with a 50 ms re-press
    debounce after a release, and mouse events passed straight through.
    The window listeners the constructor installs are the events' source:
    here each event is a method call, the clock reading `now` is a
    parameter, and every callback invocation is appended to a log. */
module Input {
  import opened Common

  /** A registered callback, by reference. */
  type Callback = nat

  /** `{disabled, cb}`. */
  datatype Handler = Handler(disabled: bool, cb: Callback)

  /** A browser mouse event, opaque here. */
  datatype MouseEvent = MouseEvent(handle: nat)

  /** What a callback receives: the key name or the mouse event. */
  datatype Payload = KeyArg(key: string) | MouseArg(event: MouseEvent)

  /** One invocation of a callback. */
  datatype Call = Call(cb: Callback, arg: Payload)

  /** `_maxKeyDelay`, in milliseconds. */
  const MaxKeyDelay := 50

  /** A handler is registered under `name` and not disabled. */
  predicate Active(inputs: map<string, Handler>, name: string)
  {
    name in inputs && !inputs[name].disabled
  }

  /** A key press at `now` is swallowed when the key's release time is set
      and not zero (a JavaScript falsy 0 counts as unset) and fewer than
      50 ms have passed since it. */
  predicate Debounced<K>(releaseTime: map<K, int>, key: K, now: int)
  {
    key in releaseTime && releaseTime[key] != 0 && now < releaseTime[key] + MaxKeyDelay
  }

  /** A release at a nonzero time `r` swallows exactly the presses of the
      same key before `r + 50`, and leaves other keys' debounce as it was. */
  lemma DebounceWindow<K>(releaseTime: map<K, int>, key: K, r: int, now: int, other: K)
    requires r != 0
    ensures Debounced(releaseTime[key := r], key, now) <==> now < r + MaxKeyDelay
    ensures other != key ==> (Debounced(releaseTime[key := r], other, now) <==> Debounced(releaseTime, other, now))
  {
  }

  /** Every registered handler with its flag set to `flag`. */
  function WithDisabled(inputs: map<string, Handler>, flag: bool): (r: map<string, Handler>)
    ensures r.Keys == inputs.Keys
    ensures forall name :: name in r ==> r[name].disabled == flag && r[name].cb == inputs[name].cb
  {
    map name | name in inputs :: inputs[name].(disabled := flag)
  }

  /** Of two successive `enable`/`disable` calls only the last one matters,
      and neither loses a handler or a callback. */
  lemma LastSwitchWins(inputs: map<string, Handler>, first: bool, second: bool)
    ensures WithDisabled(WithDisabled(inputs, first), second) == WithDisabled(inputs, second)
  {
    var a := WithDisabled(WithDisabled(inputs, first), second);
    var b := WithDisabled(inputs, second);
    assert a.Keys == b.Keys;
    forall name | name in a
      ensures a[name] == b[name]
    {
    }
  }

  class InputController {
    var pressed: map<string, bool>
    var releaseTime: map<string, int>
    var inputs: map<string, Handler>
    /** The callback invocations so far, oldest first. */
    var calls: seq<Call>

    constructor ()
      ensures pressed == map[] && releaseTime == map[] && inputs == map[] && calls == []
    {
      pressed := map[];
      releaseTime := map[];
      inputs := map[];
      calls := [];
    }

    /** `on(name, cb, opts)`: registers `cb` under `name`, replacing any
        handler there; `disabled` is `opts.disabled` when given, else false
        (`None` covers both an absent `opts` and an absent field). */
    method On(name: string, cb: Callback, disabled: Option<bool>)
      modifies this
      ensures inputs == old(inputs)[name := Handler(if disabled.Some? then disabled.value else false, cb)]
      ensures pressed == old(pressed) && releaseTime == old(releaseTime) && calls == old(calls)
    {
      inputs := inputs[name := Handler(if disabled.Some? then disabled.value else false, cb)];
    }

    /** Sets the flag of every registered handler, one key at a time. */
    method SetAll(flag: bool)
      modifies this
      ensures inputs == WithDisabled(old(inputs), flag)
      ensures pressed == old(pressed) && releaseTime == old(releaseTime) && calls == old(calls)
    {
      var pending := inputs.Keys;
      while pending != {}
        invariant pending <= inputs.Keys && inputs.Keys == old(inputs).Keys
        invariant forall name :: name in inputs ==>
                    inputs[name] == if name in pending then old(inputs)[name] else old(inputs)[name].(disabled := flag)
        invariant pressed == old(pressed) && releaseTime == old(releaseTime) && calls == old(calls)
        decreases pending
      {
        var name :| name in pending;
        inputs := inputs[name := inputs[name].(disabled := flag)];
        pending := pending - {name};
      }
      assert inputs.Keys == WithDisabled(old(inputs), flag).Keys;
    }

    /** `enable()`. */
    method Enable()
      modifies this
      ensures inputs == WithDisabled(old(inputs), false)
      ensures pressed == old(pressed) && releaseTime == old(releaseTime) && calls == old(calls)
    {
      SetAll(false);
    }

    /** `disable()`. */
    method Disable()
      modifies this
      ensures inputs == WithDisabled(old(inputs), true)
      ensures pressed == old(pressed) && releaseTime == old(releaseTime) && calls == old(calls)
    {
      SetAll(true);
    }

    /** `_keydown`: with an active "keydown" handler and no pending
        debounce, marks the key pressed and calls the handler once with the
        key; otherwise nothing happens. The pressed mark is never read, so
        repeated presses all fire. */
    method KeyDown(key: string, now: int)
      modifies this
      ensures Active(old(inputs), "keydown") && !Debounced(old(releaseTime), key, now) ==>
                pressed == old(pressed)[key := true]
                && calls == old(calls) + [Call(old(inputs)["keydown"].cb, KeyArg(key))]
      ensures !(Active(old(inputs), "keydown") && !Debounced(old(releaseTime), key, now)) ==>
                pressed == old(pressed) && calls == old(calls)
      ensures inputs == old(inputs) && releaseTime == old(releaseTime)
    {
      if "keydown" !in inputs { return; }
      var input := inputs["keydown"];
      if input.disabled { return; }
      if key in releaseTime && releaseTime[key] != 0 && now < releaseTime[key] + MaxKeyDelay {
        return;
      }
      pressed := pressed[key := true];
      calls := calls + [Call(input.cb, KeyArg(key))];
    }

    /** `_keyup`: with an active "keyup" handler, unmarks the key, records
        `now` as its release time and calls the handler once with the key;
        otherwise nothing happens, so a release while disabled arms no
        debounce. */
    method KeyUp(key: string, now: int)
      modifies this
      ensures Active(old(inputs), "keyup") ==>
                pressed == old(pressed) - {key} && releaseTime == old(releaseTime)[key := now]
                && calls == old(calls) + [Call(old(inputs)["keyup"].cb, KeyArg(key))]
      ensures !Active(old(inputs), "keyup") ==>
                pressed == old(pressed) && releaseTime == old(releaseTime) && calls == old(calls)
      ensures inputs == old(inputs)
    {
      if "keyup" !in inputs { return; }
      var input := inputs["keyup"];
      if input.disabled { return; }
      pressed := pressed - {key};
      releaseTime := releaseTime[key := now];
      calls := calls + [Call(input.cb, KeyArg(key))];
    }

    /** `_mousedown`: the event goes to the "mousedown" handler when it is
        active, and nowhere otherwise. */
    method MouseDown(event: MouseEvent)
      modifies this
      ensures Active(old(inputs), "mousedown") ==> calls == old(calls) + [Call(old(inputs)["mousedown"].cb, MouseArg(event))]
      ensures !Active(old(inputs), "mousedown") ==> calls == old(calls)
      ensures inputs == old(inputs) && pressed == old(pressed) && releaseTime == old(releaseTime)
    {
      if "mousedown" !in inputs { return; }
      var input := inputs["mousedown"];
      if input.disabled { return; }
      calls := calls + [Call(input.cb, MouseArg(event))];
    }

    /** `_mousemove`: the same for the "mousemove" handler. */
    method MouseMove(event: MouseEvent)
      modifies this
      ensures Active(old(inputs), "mousemove") ==> calls == old(calls) + [Call(old(inputs)["mousemove"].cb, MouseArg(event))]
      ensures !Active(old(inputs), "mousemove") ==> calls == old(calls)
      ensures inputs == old(inputs) && pressed == old(pressed) && releaseTime == old(releaseTime)
    {
      if "mousemove" !in inputs { return; }
      var input := inputs["mousemove"];
      if input.disabled { return; }
      calls := calls + [Call(input.cb, MouseArg(event))];
    }
  }
}
/** The legacy dispatcher: the same handlers and switches, but the pressed
    marks and the debounce are keyed by the numeric `keyCode`, while the
    callback still receives the key name. */
module LegacyInput {
  import opened Common
  import opened Input

  class InputController {
    var pressed: map<int, bool>
    var releaseTime: map<int, int>
    var inputs: map<string, Handler>
    var calls: seq<Call>

    constructor ()
      ensures pressed == map[] && releaseTime == map[] && inputs == map[] && calls == []
    {
      pressed := map[];
      releaseTime := map[];
      inputs := map[];
      calls := [];
    }

    method On(name: string, cb: Callback, disabled: Option<bool>)
      modifies this
      ensures inputs == old(inputs)[name := Handler(if disabled.Some? then disabled.value else false, cb)]
      ensures pressed == old(pressed) && releaseTime == old(releaseTime) && calls == old(calls)
    {
      inputs := inputs[name := Handler(if disabled.Some? then disabled.value else false, cb)];
    }

    method SetAll(flag: bool)
      modifies this
      ensures inputs == WithDisabled(old(inputs), flag)
      ensures pressed == old(pressed) && releaseTime == old(releaseTime) && calls == old(calls)
    {
      var pending := inputs.Keys;
      while pending != {}
        invariant pending <= inputs.Keys && inputs.Keys == old(inputs).Keys
        invariant forall name :: name in inputs ==>
                    inputs[name] == if name in pending then old(inputs)[name] else old(inputs)[name].(disabled := flag)
        invariant pressed == old(pressed) && releaseTime == old(releaseTime) && calls == old(calls)
        decreases pending
      {
        var name :| name in pending;
        inputs := inputs[name := inputs[name].(disabled := flag)];
        pending := pending - {name};
      }
      assert inputs.Keys == WithDisabled(old(inputs), flag).Keys;
    }

    method Enable()
      modifies this
      ensures inputs == WithDisabled(old(inputs), false)
      ensures pressed == old(pressed) && releaseTime == old(releaseTime) && calls == old(calls)
    {
      SetAll(false);
    }

    method Disable()
      modifies this
      ensures inputs == WithDisabled(old(inputs), true)
      ensures pressed == old(pressed) && releaseTime == old(releaseTime) && calls == old(calls)
    {
      SetAll(true);
    }

    /** `_keydown`: the debounce is looked up by `keyCode`; the callback gets `key`. */
    method KeyDown(key: string, keyCode: int, now: int)
      modifies this
      ensures Active(old(inputs), "keydown") && !Debounced(old(releaseTime), keyCode, now) ==>
                pressed == old(pressed)[keyCode := true]
                && calls == old(calls) + [Call(old(inputs)["keydown"].cb, KeyArg(key))]
      ensures !(Active(old(inputs), "keydown") && !Debounced(old(releaseTime), keyCode, now)) ==>
                pressed == old(pressed) && calls == old(calls)
      ensures inputs == old(inputs) && releaseTime == old(releaseTime)
    {
      if "keydown" !in inputs { return; }
      var input := inputs["keydown"];
      if input.disabled { return; }
      if keyCode in releaseTime && releaseTime[keyCode] != 0 && now < releaseTime[keyCode] + MaxKeyDelay {
        return;
      }
      pressed := pressed[keyCode := true];
      calls := calls + [Call(input.cb, KeyArg(key))];
    }

    /** `_keyup`: the release time is recorded under `keyCode`; the callback gets `key`. */
    method KeyUp(key: string, keyCode: int, now: int)
      modifies this
      ensures Active(old(inputs), "keyup") ==>
                pressed == old(pressed) - {keyCode} && releaseTime == old(releaseTime)[keyCode := now]
                && calls == old(calls) + [Call(old(inputs)["keyup"].cb, KeyArg(key))]
      ensures !Active(old(inputs), "keyup") ==>
                pressed == old(pressed) && releaseTime == old(releaseTime) && calls == old(calls)
      ensures inputs == old(inputs)
    {
      if "keyup" !in inputs { return; }
      var input := inputs["keyup"];
      if input.disabled { return; }
      pressed := pressed - {keyCode};
      releaseTime := releaseTime[keyCode := now];
      calls := calls + [Call(input.cb, KeyArg(key))];
    }

    method MouseDown(event: MouseEvent)
      modifies this
      ensures Active(old(inputs), "mousedown") ==> calls == old(calls) + [Call(old(inputs)["mousedown"].cb, MouseArg(event))]
      ensures !Active(old(inputs), "mousedown") ==> calls == old(calls)
      ensures inputs == old(inputs) && pressed == old(pressed) && releaseTime == old(releaseTime)
    {
      if "mousedown" !in inputs { return; }
      var input := inputs["mousedown"];
      if input.disabled { return; }
      calls := calls + [Call(input.cb, MouseArg(event))];
    }

    method MouseMove(event: MouseEvent)
      modifies this
      ensures Active(old(inputs), "mousemove") ==> calls == old(calls) + [Call(old(inputs)["mousemove"].cb, MouseArg(event))]
      ensures !Active(old(inputs), "mousemove") ==> calls == old(calls)
      ensures inputs == old(inputs) && pressed == old(pressed) && releaseTime == old(releaseTime)
    {
      if "mousemove" !in inputs { return; }
      var input := inputs["mousemove"];
      if input.disabled { return; }
      calls := calls + [Call(input.cb, MouseArg(event))];
    }
  }
}