/** The action sequencer and the chat-command sender as step plans: the
    exact order of primitive calls each routine of `MacroController` makes,
    with the points where its own code raises (main.py:90-110, 144-160,
    182-190). */
module Routines {
  import opened PyValue
  import opened Config
  import opened Events

  /** `config.get('general', 'mouse_button')`, `None` when absent. */
  function Button(cfg: Json): Json
  {
    OrNone(Lookup(cfg, [KStr("general"), KStr("mouse_button")]))
  }

  /** `config.get('general', 'chat_key')`. */
  function ChatKey(cfg: Json): Json
  {
    OrNone(Lookup(cfg, [KStr("general"), KStr("chat_key")]))
  }

  /** `config.get('commands', name)`. */
  function Command(cfg: Json, name: string): Json
  {
    OrNone(Lookup(cfg, [KStr("commands"), KStr(name)]))
  }

  /** `config.get('macros', name)`. */
  function MacroConfig(cfg: Json, name: string): Json
  {
    OrNone(Lookup(cfg, [KStr("macros"), KStr(name)]))
  }

  /** `time.sleep(ms / 1000.0)`: a non-number raises `TypeError`, a
      negative length `ValueError`. */
  function SleepMillis(v: Json): (p: seq<Step>)
    ensures |p| == 1
    ensures p[0].Emit? <==> AsNumber(v).Ok? && AsNumber(v).value >= 0
    ensures p[0].Emit? ==> p[0].event == Sleep(AsNumber(v).value)
  {
    match AsNumber(v)
    case Err(e) => [Raise(e)]
    case Ok(n) => if n < 0 then [Raise(ValueError)] else [Emit(Sleep(n))]
  }

  /** `time.sleep(seconds)` with a whole number of seconds. */
  function SleepSeconds(v: Json): (p: seq<Step>)
    ensures |p| == 1
    ensures p[0].Emit? <==> AsNumber(v).Ok? && AsNumber(v).value >= 0
    ensures p[0].Emit? ==> p[0].event == Sleep(AsNumber(v).value * 1000)
  {
    match AsNumber(v)
    case Err(e) => [Raise(e)]
    case Ok(n) => if n < 0 then [Raise(ValueError)] else [Emit(Sleep(n * 1000))]
  }

  /** The extra wait of `execute_route`: only when `use_cocoa_wait` is truthy
      is `cocoa_wait_time >= 1` evaluated, and only then may it raise. */
  function ExtraWait(useCocoaWait: Json, cocoaWaitTime: Json): seq<Step>
  {
    if !Truthy(useCocoaWait) then []
    else match AtLeastOne(cocoaWaitTime)
      case Err(e) => [Raise(e)]
      case Ok(long) => if long then SleepSeconds(cocoaWaitTime) else []
  }

  /** A one-step plan: it completes iff its step is an attempt, and then it
      produces that attempt's event. */
  lemma Single(p: seq<Step>)
    requires |p| == 1
    ensures Completes(p) <==> p[0].Emit?
    ensures p[0].Emit? ==> Emitted(p) == [p[0].event]
  {
    assert p[1..] == [];
  }

  /** The extra wait completes unless, while switched on, its duration is
      not a number; it sleeps only for a duration of at least one second. */
  lemma ExtraWaitSpec(useCocoaWait: Json, cocoaWaitTime: Json)
    ensures Completes(ExtraWait(useCocoaWait, cocoaWaitTime)) <==>
              (Truthy(useCocoaWait) ==> AsNumber(cocoaWaitTime).Ok?)
    ensures Completes(ExtraWait(useCocoaWait, cocoaWaitTime)) && Truthy(useCocoaWait) ==>
              var n := AsNumber(cocoaWaitTime).value;
              Emitted(ExtraWait(useCocoaWait, cocoaWaitTime)) == if n >= 1 then [Sleep(n * 1000)] else []
    ensures !Truthy(useCocoaWait) ==> Emitted(ExtraWait(useCocoaWait, cocoaWaitTime)) == []
  {
    var p := ExtraWait(useCocoaWait, cocoaWaitTime);
    if Truthy(useCocoaWait) {
      if AtLeastOne(cocoaWaitTime).Err? {
        assert p[0].Raise?;
      } else if AtLeastOne(cocoaWaitTime).value {
        Single(SleepSeconds(cocoaWaitTime));
      }
    }
  }

  /** `execute_route(keys, use_cocoa_wait, cocoa_wait_time, timing_ms)`. */
  function RoutePlan(button: Json, keys: Json, useCocoaWait: Json, cocoaWaitTime: Json, timingMs: Json): seq<Step>
  {
    Emits([MouseDown(button)]) + RouteAfterDown(button, keys, useCocoaWait, cocoaWaitTime, timingMs)
  }

  /** The part of a route after the mouse button went down. */
  function RouteAfterDown(button: Json, keys: Json, useCocoaWait: Json, cocoaWaitTime: Json, timingMs: Json): seq<Step>
  {
    match Index(keys, 0)
    case Err(e) => [Raise(e)]
    case Ok(k0) =>
      Emits([Press(k0)]) + (ExtraWait(useCocoaWait, cocoaWaitTime) + RouteTail(button, keys, k0, timingMs))
  }

  /** The part of a route after the first key went down and the extra wait. */
  function RouteTail(button: Json, keys: Json, k0: Json, timingMs: Json): seq<Step>
  {
    match Index(keys, 1)
    case Err(e) => [Raise(e)]
    case Ok(k1) =>
      Emits([Press(k1)]) + (SleepMillis(timingMs) + Emits([MouseUp(button), Release(k0), Release(k1)]))
  }

  /** The events of a route that runs to its end; `waitSeconds` is the extra
      wait in effect (none below one second). */
  function RouteEvents(button: Json, k0: Json, k1: Json, waitSeconds: int, timing: int): seq<Event>
  {
    [MouseDown(button), Press(k0)] +
    (if waitSeconds >= 1 then [Sleep(waitSeconds * 1000)] else []) +
    [Press(k1), Sleep(timing), MouseUp(button), Release(k0), Release(k1)]
  }

  /** A route sleeps for the extra wait, when it is at least one second,
      plus the step timing. */
  lemma RouteSleep(button: Json, k0: Json, k1: Json, waitSeconds: int, timing: int)
    ensures SleepTotal(RouteEvents(button, k0, k1, waitSeconds, timing)) ==
            (if waitSeconds >= 1 then waitSeconds * 1000 else 0) + timing
  {
    var head := [MouseDown(button), Press(k0)];
    var extra: seq<Event> := if waitSeconds >= 1 then [Sleep(waitSeconds * 1000)] else [];
    var tail := [Press(k1), Sleep(timing), MouseUp(button), Release(k0), Release(k1)];
    SleepTotalAppend(head + extra, tail);
    SleepTotalAppend(head, extra);
    assert SleepTotal(head) == 0 by {
      assert head[1..][1..] == [];
    }
    assert SleepTotal(extra) == if waitSeconds >= 1 then waitSeconds * 1000 else 0 by {
      if waitSeconds >= 1 { assert extra[1..] == []; }
    }
    assert SleepTotal(tail) == timing by {
      assert tail[5..] == [];
      assert SleepTotal(tail[4..]) == 0 by { assert tail[4..][1..] == tail[5..]; }
      assert SleepTotal(tail[3..]) == 0 by { assert tail[3..][1..] == tail[4..]; }
      assert SleepTotal(tail[2..]) == 0 by { assert tail[2..][1..] == tail[3..]; }
      assert SleepTotal(tail[1..]) == timing by { assert tail[1..][1..] == tail[2..]; }
    }
  }

  lemma CompletesAppend(a: seq<Step>, b: seq<Step>)
    ensures Completes(a + b) <==> Completes(a) && Completes(b)
  {
    if Completes(a) && Completes(b) {
      forall i | 0 <= i < |a + b| ensures (a + b)[i].Emit? {
        if i >= |a| { assert (a + b)[i] == b[i - |a|]; }
      }
    }
    if Completes(a + b) {
      forall i | 0 <= i < |a| ensures a[i].Emit? { assert a[i] == (a + b)[i]; }
      forall i | 0 <= i < |b| ensures b[i].Emit? { assert b[i] == (a + b)[i + |a|]; }
    }
  }

  /** The completion and the fault-free events of `a + b` from those of its
      parts, when `a` completes. */
  lemma Sequenced(a: seq<Step>, b: seq<Step>)
    requires Completes(a)
    ensures Completes(a + b) <==> Completes(b)
    ensures Emitted(a + b) == Emitted(a) + Emitted(b)
  {
    CompletesAppend(a, b);
    EmittedAppend(a, b);
  }

  /** The tail of a route runs to its end iff there is a second key and the
      step timing is a non-negative number. */
  lemma RouteTailCompletesIff(button: Json, keys: Json, k0: Json, timingMs: Json)
    ensures Completes(RouteTail(button, keys, k0, timingMs)) <==>
              Index(keys, 1).Ok? && AsNumber(timingMs).Ok? && AsNumber(timingMs).value >= 0
  {
    var tail := RouteTail(button, keys, k0, timingMs);
    if Index(keys, 1).Ok? {
      var k1 := Index(keys, 1).value;
      var last := Emits([MouseUp(button), Release(k0), Release(k1)]);
      EmitsSpec([Press(k1)]);
      EmitsSpec([MouseUp(button), Release(k0), Release(k1)]);
      Single(SleepMillis(timingMs));
      Sequenced(Emits([Press(k1)]), SleepMillis(timingMs) + last);
      CompletesAppend(SleepMillis(timingMs), last);
    } else {
      assert tail[0].Raise?;
    }
  }

  /** A route runs to its end exactly when the key list has two entries, the
      step timing is a non-negative number and, if the extra wait is on, its
      duration is a number. */
  lemma RouteCompletesIff(button: Json, keys: Json, useCocoaWait: Json, cocoaWaitTime: Json, timingMs: Json)
    ensures Completes(RoutePlan(button, keys, useCocoaWait, cocoaWaitTime, timingMs)) <==>
              Index(keys, 1).Ok? && AsNumber(timingMs).Ok? && AsNumber(timingMs).value >= 0 &&
              (Truthy(useCocoaWait) ==> AsNumber(cocoaWaitTime).Ok?)
  {
    ExtraWaitSpec(useCocoaWait, cocoaWaitTime);
    var extra := ExtraWait(useCocoaWait, cocoaWaitTime);
    EmitsSpec([MouseDown(button)]);
    if Index(keys, 0).Err? {
      Sequenced(Emits([MouseDown(button)]), [Raise(Index(keys, 0).error)]);
      assert !Completes([Raise(Index(keys, 0).error)]) by {
        assert [Raise(Index(keys, 0).error)][0].Raise?;
      }
    } else {
      var k0 := Index(keys, 0).value;
      EmitsSpec([Press(k0)]);
      var tail := RouteTail(button, keys, k0, timingMs);
      Sequenced(Emits([MouseDown(button)]), Emits([Press(k0)]) + (extra + tail));
      Sequenced(Emits([Press(k0)]), extra + tail);
      CompletesAppend(extra, tail);
      RouteTailCompletesIff(button, keys, k0, timingMs);
    }
  }

  /** Without any failure, a route emits exactly: mouse down, first key
      down, the extra wait when it is on and at least one second, second key
      down, the step timing, mouse up, first key up, second key up. */
  lemma RouteFaultFree(button: Json, keys: Json, useCocoaWait: Json, cocoaWaitTime: Json, timingMs: Json,
                       k0: Json, k1: Json, wait: int, timing: int)
    requires Index(keys, 0) == Ok(k0) && Index(keys, 1) == Ok(k1)
    requires AsNumber(timingMs) == Ok(timing) && timing >= 0
    requires Truthy(useCocoaWait) ==> AsNumber(cocoaWaitTime) == Ok(wait)
    ensures Completes(RoutePlan(button, keys, useCocoaWait, cocoaWaitTime, timingMs))
    ensures Emitted(RoutePlan(button, keys, useCocoaWait, cocoaWaitTime, timingMs)) ==
            RouteEvents(button, k0, k1, if Truthy(useCocoaWait) then wait else 0, timing)
  {
    RouteCompletesIff(button, keys, useCocoaWait, cocoaWaitTime, timingMs);
    ExtraWaitSpec(useCocoaWait, cocoaWaitTime);
    var extra := ExtraWait(useCocoaWait, cocoaWaitTime);
    var head := Emits([MouseDown(button)]);
    var second := Emits([Press(k0)]);
    var mid := Emits([Press(k1)]);
    var last := Emits([MouseUp(button), Release(k0), Release(k1)]);
    EmitsSpec([MouseDown(button)]);
    EmitsSpec([Press(k0)]);
    EmitsSpec([Press(k1)]);
    EmitsSpec([MouseUp(button), Release(k0), Release(k1)]);
    Single(SleepMillis(timingMs));
    var rest := mid + (SleepMillis(timingMs) + last);
    Sequenced(SleepMillis(timingMs), last);
    Sequenced(mid, SleepMillis(timingMs) + last);
    Sequenced(extra, rest);
    Sequenced(second, extra + rest);
    Sequenced(head, second + (extra + rest));
    assert Emitted(rest) == [Press(k1), Sleep(timing), MouseUp(button), Release(k0), Release(k1)];
  }

  /** Whatever fails, a route's trace is a prefix of its full event list. */
  lemma RouteTracePrefix(button: Json, keys: Json, useCocoaWait: Json, cocoaWaitTime: Json, timingMs: Json,
                         k0: Json, k1: Json, wait: int, timing: int, faults: set<nat>, w: World)
    requires Index(keys, 0) == Ok(k0) && Index(keys, 1) == Ok(k1)
    requires AsNumber(timingMs) == Ok(timing) && timing >= 0
    requires Truthy(useCocoaWait) ==> AsNumber(cocoaWaitTime) == Ok(wait)
    ensures var t := Play(RoutePlan(button, keys, useCocoaWait, cocoaWaitTime, timingMs), faults, w).world.trace;
            w.trace <= t &&
            t[|w.trace|..] <= RouteEvents(button, k0, k1, if Truthy(useCocoaWait) then wait else 0, timing)
  {
    RouteFaultFree(button, keys, useCocoaWait, cocoaWaitTime, timingMs, k0, k1, wait, timing);
    PlayPrefix(RoutePlan(button, keys, useCocoaWait, cocoaWaitTime, timingMs), faults, w);
  }

  /** A key list with no first entry stops the route right after the mouse
      button went down: the button is never released. */
  lemma RouteWithoutKeys(button: Json, keys: Json, useCocoaWait: Json, cocoaWaitTime: Json, timingMs: Json)
    requires Index(keys, 0).Err?
    ensures Emitted(RoutePlan(button, keys, useCocoaWait, cocoaWaitTime, timingMs)) == [MouseDown(button)]
  {
    EmitsSpec([MouseDown(button)]);
    Sequenced(Emits([MouseDown(button)]), [Raise(Index(keys, 0).error)]);
  }

  /** `execute_cobblestone_route()`: every entry of the cobblestone section,
      including the unused `hub_wait_seconds`, is read before anything is
      pressed. */
  function CobblestoneRoutePlan(cfg: Json): seq<Step>
  {
    var section := MacroConfig(cfg, "cobblestone");
    match Subscript(section, "key")
    case Err(e) => [Raise(e)]
    case Ok(key) =>
      match Subscript(section, "mining_duration_seconds")
      case Err(e) => [Raise(e)]
      case Ok(duration) =>
        match Subscript(section, "hub_wait_seconds")
        case Err(e) => [Raise(e)]
        case Ok(_) =>
          var b := Button(cfg);
          Emits([MouseDown(b), Press(key)]) + (SleepSeconds(duration) + Emits([MouseUp(b), Release(key)]))
  }

  function CobblestoneEvents(button: Json, key: Json, seconds: int): seq<Event>
  {
    [MouseDown(button), Press(key), Sleep(seconds * 1000), MouseUp(button), Release(key)]
  }

  /** Without any failure, a well-formed cobblestone section gives: mouse
      down, key down, the mining duration, mouse up, key up. */
  lemma CobblestoneRouteFaultFree(cfg: Json, key: Json, seconds: int)
    requires MacroConfig(cfg, "cobblestone").Obj?
    requires Subscript(MacroConfig(cfg, "cobblestone"), "key") == Ok(key)
    requires Subscript(MacroConfig(cfg, "cobblestone"), "mining_duration_seconds").Ok?
    requires AsNumber(Subscript(MacroConfig(cfg, "cobblestone"), "mining_duration_seconds").value) == Ok(seconds)
    requires seconds >= 0
    requires "hub_wait_seconds" in MacroConfig(cfg, "cobblestone").fields
    ensures Completes(CobblestoneRoutePlan(cfg))
    ensures Emitted(CobblestoneRoutePlan(cfg)) == CobblestoneEvents(Button(cfg), key, seconds)
  {
    var section := MacroConfig(cfg, "cobblestone");
    var duration := section.fields["mining_duration_seconds"];
    var b := Button(cfg);
    EmitsSpec([MouseDown(b), Press(key)]);
    EmitsSpec([MouseUp(b), Release(key)]);
    Single(SleepSeconds(duration));
    Sequenced(SleepSeconds(duration), Emits([MouseUp(b), Release(key)]));
    Sequenced(Emits([MouseDown(b), Press(key)]), SleepSeconds(duration) + Emits([MouseUp(b), Release(key)]));
  }

  /** A cobblestone section without `hub_wait_seconds` raises before the
      mouse button goes down, so nothing happens, whatever the faults. */
  lemma CobblestoneRouteWithoutHubWait(cfg: Json, faults: set<nat>, w: World)
    requires MacroConfig(cfg, "cobblestone").Obj?
    requires "hub_wait_seconds" !in MacroConfig(cfg, "cobblestone").fields
    ensures Emitted(CobblestoneRoutePlan(cfg)) == []
    ensures Play(CobblestoneRoutePlan(cfg), faults, w) == Outcome(w, true)
  {
  }

  /** `_send_command(command)`: open the chat, type, press enter. */
  function CommandPlan(cfg: Json, command: Json): seq<Step>
  {
    Emits(CommandEvents(ChatKey(cfg), command))
  }

  function CommandEvents(chatKey: Json, command: Json): seq<Event>
  {
    [Tap(chatKey), Write(command), Tap(Str("enter"))]
  }

  /** Sending a command never raises on its own account, and without
      failures it types exactly the chat key, the command and enter. */
  lemma CommandFaultFree(cfg: Json, command: Json)
    ensures Completes(CommandPlan(cfg, command))
    ensures Emitted(CommandPlan(cfg, command)) == CommandEvents(ChatKey(cfg), command)
  {
    EmitsSpec(CommandEvents(ChatKey(cfg), command));
  }
}
