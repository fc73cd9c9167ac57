/** The macro runner (main.py, class MacroController): the run flag, the
    action routines that drive the input injector, and the two macro loops.
    Of the flag checks only the outer `while self.is_running` of each loop
    is modelled (the inner re-checks always hold); that loop never ends on
    its own, so each run is bounded by `fuel`, the number of outer cycles
    modelled. */
module Controller {
  import opened PyValue
  import opened Config
  import opened Events
  import opened Routines

  /** The entries `execute_route_set` reads from a macro section. */
  datatype RouteSettings = RouteSettings(
    keys: Json, routesPerWarp: Json, useCocoaWait: Json, timingMs: Json, cocoaWait: Json)

  /** main.py:115-123: the section must be truthy, and `keys`,
      `routes_per_warp` and `timing_ms` must be present. */
  function RouteSettingsOf(cfg: Json, macroType: string): (r: Result<RouteSettings>)
    ensures var mc := MacroConfig(cfg, macroType);
            r.Ok? <==> Truthy(mc) && mc.Obj? && "keys" in mc.fields &&
                       "routes_per_warp" in mc.fields && "timing_ms" in mc.fields
    ensures !Truthy(MacroConfig(cfg, macroType)) ==> r == Err(ValueError)
    ensures Truthy(MacroConfig(cfg, macroType)) && !MacroConfig(cfg, macroType).Obj? ==> r == Err(TypeError)
    ensures r.Ok? ==> var m := MacroConfig(cfg, macroType).fields;
              r.value.keys == m["keys"] && r.value.routesPerWarp == m["routes_per_warp"] &&
              r.value.timingMs == m["timing_ms"] &&
              r.value.useCocoaWait == (if "use_cocoa_wait" in m then m["use_cocoa_wait"] else Bool(false)) &&
              r.value.cocoaWait == (if "cocoa_wait_seconds" in m then m["cocoa_wait_seconds"] else Int(0))
  {
    var mc := MacroConfig(cfg, macroType);
    if !Truthy(mc) then Err(ValueError)
    else match Subscript(mc, "keys")
      case Err(e) => Err(e)
      case Ok(keys) =>
        match Subscript(mc, "routes_per_warp")
        case Err(e) => Err(e)
        case Ok(rpw) =>
          match Subscript(mc, "timing_ms")
          case Err(e) => Err(e)
          case Ok(timing) =>
            Ok(RouteSettings(keys, rpw, DictGet(mc.fields, "use_cocoa_wait", Bool(false)), timing,
                             DictGet(mc.fields, "cocoa_wait_seconds", Int(0))))
  }

  /** The world after one `execute_route` call, whose exceptions stay inside. */
  function RouteWorld(cfg: Json, faults: set<nat>, pair: Json, useCocoaWait: Json, wait: Json, timing: Json, w: World): World
  {
    Play(RoutePlan(Button(cfg), pair, useCocoaWait, wait, timing), faults, w).world
  }

  /** `execute_route` presses the mouse button first; unless that attempt
      faults, the rest of the route follows. */
  lemma RouteWorldStart(cfg: Json, faults: set<nat>, pair: Json, useCocoaWait: Json, wait: Json, timing: Json, w: World)
    ensures RouteWorld(cfg, faults, pair, useCocoaWait, wait, timing, w) ==
            (var o := Attempted(w, faults, MouseDown(Button(cfg)));
             if o.raised then o.world
             else Play(RouteAfterDown(Button(cfg), pair, useCocoaWait, wait, timing), faults, o.world).world)
  {
    var afterDown := RouteAfterDown(Button(cfg), pair, useCocoaWait, wait, timing);
    PlayFirst([MouseDown(Button(cfg))], afterDown, faults, w);
    assert Emits([MouseDown(Button(cfg))][1..]) + afterDown == afterDown;
  }

  /** `n` more iterations of the inner `for` loop (main.py:127-134); slicing
      the key list is the only thing in it that raises out of the loop, and
      only the first slice can (the second fails only if the first did). */
  function Batch(cfg: Json, faults: set<nat>, rs: RouteSettings, n: nat, w: World): Outcome
    decreases n
  {
    if n == 0 then Outcome(w, false)
    else match Slice(rs.keys, 0, 2)
      case Err(_) => Outcome(w, true)
      case Ok(_) => Batch(cfg, faults, rs, n - 1, PairWorld(cfg, faults, rs, w))
  }

  /** One pass of the outer loop of `execute_route_set`: the batch, then the
      warp to the garden. */
  function RouteCycle(cfg: Json, faults: set<nat>, rs: RouteSettings, w: World): Outcome
  {
    match RangeCount(rs.routesPerWarp)
    case Err(_) => Outcome(w, true)
    case Ok(n) =>
      var b := Batch(cfg, faults, rs, n, w);
      if b.raised then b
      else Outcome(Play(CommandPlan(cfg, Command(cfg, "warp_garden")), faults, b.world).world, false)
  }

  function RouteCycles(cfg: Json, faults: set<nat>, rs: RouteSettings, fuel: nat, w: World): Outcome
    decreases fuel
  {
    if fuel == 0 then Outcome(w, false)
    else
      var c := RouteCycle(cfg, faults, rs, w);
      if c.raised then c else RouteCycles(cfg, faults, rs, fuel - 1, c.world)
  }

  /** `execute_route_set(macro_type)` for `fuel` cycles; `raised` means the
      handler at main.py:140-142 stopped the macro. */
  function RouteSetRun(cfg: Json, faults: set<nat>, macroType: string, fuel: nat, w: World): Outcome
  {
    match RouteSettingsOf(cfg, macroType)
    case Err(_) => Outcome(w, true)
    case Ok(rs) => RouteCycles(cfg, faults, rs, fuel, w)
  }

  /** `config.get('macros', 'cobblestone', 'hub_wait_seconds')` (main.py:165). */
  function HubWait(cfg: Json): Json
  {
    OrNone(Lookup(cfg, [KStr("macros"), KStr("cobblestone"), KStr("hub_wait_seconds")]))
  }

  /** One call made by a pass of the cobblestone loop, with its plan: a
      `Guarded` routine catches its own exceptions (`execute_cobblestone_route`,
      `_send_command`); an exception of a `Bare` call leaves the pass. */
  datatype Call = Guarded(plan: seq<Step>) | Bare(plan: seq<Step>)

  /** Making the calls one after another, until a bare one raises. */
  function RunCalls(cs: seq<Call>, faults: set<nat>, w: World): Outcome
    decreases |cs|
  {
    if cs == [] then Outcome(w, false)
    else
      var o := Play(cs[0].plan, faults, w);
      if cs[0].Bare? && o.raised then o else RunCalls(cs[1..], faults, o.world)
  }

  /** The calls of one pass of `execute_cobblestone_set` (main.py:168-176):
      the route, the warp to the hub, the hub wait (outside any inner `try`),
      the warp back. */
  function CobblestoneCalls(cfg: Json): seq<Call>
  {
    [Guarded(CobblestoneRoutePlan(cfg)), Guarded(CommandPlan(cfg, Command(cfg, "warp_hub"))),
     Bare(SleepSeconds(HubWait(cfg))), Guarded(CommandPlan(cfg, Command(cfg, "warp_island")))]
  }

  function CobblestoneCycle(cfg: Json, faults: set<nat>, w: World): Outcome
  {
    RunCalls(CobblestoneCalls(cfg), faults, w)
  }

  /** One pass, call by call: only the hub wait can end it with an
      exception. */
  lemma CobblestoneCycleCalls(cfg: Json, faults: set<nat>, w: World)
    ensures CobblestoneCycle(cfg, faults, w) ==
            var w1 := Play(CobblestoneRoutePlan(cfg), faults, w).world;
            var w2 := Play(CommandPlan(cfg, Command(cfg, "warp_hub")), faults, w1).world;
            var s := Play(SleepSeconds(HubWait(cfg)), faults, w2);
            if s.raised then s
            else Outcome(Play(CommandPlan(cfg, Command(cfg, "warp_island")), faults, s.world).world, false)
  {
    var cs := CobblestoneCalls(cfg);
    var w1 := Play(CobblestoneRoutePlan(cfg), faults, w).world;
    var w2 := Play(CommandPlan(cfg, Command(cfg, "warp_hub")), faults, w1).world;
    var s := Play(SleepSeconds(HubWait(cfg)), faults, w2);
    var w3 := Play(CommandPlan(cfg, Command(cfg, "warp_island")), faults, s.world).world;
    assert cs[3..][1..] == [];
    assert RunCalls(cs[3..], faults, s.world) == Outcome(w3, false);
    assert cs[2..][1..] == cs[3..];
    assert RunCalls(cs[2..], faults, w2) == if s.raised then s else Outcome(w3, false);
    assert cs[1..][1..] == cs[2..];
    assert RunCalls(cs[1..], faults, w1) == RunCalls(cs[2..], faults, w2);
  }

  function CobblestoneCycles(cfg: Json, faults: set<nat>, fuel: nat, w: World): Outcome
    decreases fuel
  {
    if fuel == 0 then Outcome(w, false)
    else
      var c := CobblestoneCycle(cfg, faults, w);
      if c.raised then c else CobblestoneCycles(cfg, faults, fuel - 1, c.world)
  }

  /** One more pass of the cobblestone loop. */
  lemma CobblestoneCyclesStep(cfg: Json, faults: set<nat>, fuel: nat, w: World)
    requires fuel > 0
    ensures CobblestoneCycles(cfg, faults, fuel, w) ==
            var c := CobblestoneCycle(cfg, faults, w);
            if c.raised then c else CobblestoneCycles(cfg, faults, fuel - 1, c.world)
  {
  }

  /** The macro `start_macro(macro_type)` dispatches to. */
  function MacroRun(cfg: Json, faults: set<nat>, macroType: string, fuel: nat, w: World): Outcome
  {
    if macroType == "cobblestone" then CobblestoneCycles(cfg, faults, fuel, w)
    else RouteSetRun(cfg, faults, macroType, fuel, w)
  }

  class MacroController {
    const config: ConfigManager
    /** The input injector's failure plan: the attempt numbers that raise. */
    const faults: set<nat>
    var isRunning: bool
    var trace: seq<Event>
    var calls: nat

    function Seen(): World
      reads this
    {
      World(trace, calls)
    }

    constructor (config: ConfigManager, faults: set<nat>)
      ensures this.config == config && this.faults == faults
      ensures !isRunning && trace == [] && calls == 0
    {
      this.config := config;
      this.faults := faults;
      isRunning := false;
      trace := [];
      calls := 0;
    }

    /** One call into the input-injection library. */
    method Attempt(e: Event) returns (ok: bool)
      modifies this
      ensures ok == (old(calls) !in faults)
      ensures Seen() == Attempted(old(Seen()), faults, e).world
      ensures isRunning == old(isRunning)
    {
      ok := calls !in faults;
      if ok {
        trace := trace + [e];
      }
      calls := calls + 1;
    }

    /** `time.sleep(seconds)`. */
    method Wait(seconds: Json) returns (ok: bool)
      modifies this
      ensures Seen() == Play(SleepSeconds(seconds), faults, old(Seen())).world
      ensures ok == !Play(SleepSeconds(seconds), faults, old(Seen())).raised
      ensures isRunning == old(isRunning)
    {
      var n := AsNumber(seconds);
      if n.Err? || n.value < 0 {
        return false;
      }
      ok := Attempt(Sleep(n.value * 1000));
    }

    /** `time.sleep(ms / 1000.0)`. */
    method WaitMillis(ms: Json) returns (ok: bool)
      modifies this
      ensures Seen() == Play(SleepMillis(ms), faults, old(Seen())).world
      ensures ok == !Play(SleepMillis(ms), faults, old(Seen())).raised
      ensures isRunning == old(isRunning)
    {
      var n := AsNumber(ms);
      if n.Err? || n.value < 0 {
        return false;
      }
      ok := Attempt(Sleep(n.value));
    }

    /** `execute_route` (main.py:90-110): any exception abandons the rest. */
    method ExecuteRoute(keys: Json, useCocoaWait: Json, cocoaWaitTime: Json, timingMs: Json)
      modifies this
      ensures Seen() == RouteWorld(config.config, faults, keys, useCocoaWait, cocoaWaitTime, timingMs, old(Seen()))
      ensures isRunning == old(isRunning)
    {
      var found := config.Get([KStr("general"), KStr("mouse_button")]);
      var button := OrNone(found);
      RouteWorldStart(config.config, faults, keys, useCocoaWait, cocoaWaitTime, timingMs, Seen());
      var ok := Attempt(MouseDown(button));
      if !ok { return; }
      RouteAfterDownStep(button, keys, useCocoaWait, cocoaWaitTime, timingMs);
    }

    /** The route after the mouse button went down (main.py:97-108). */
    method RouteAfterDownStep(button: Json, keys: Json, useCocoaWait: Json, cocoaWaitTime: Json, timingMs: Json)
      modifies this
      ensures Seen() == Play(RouteAfterDown(button, keys, useCocoaWait, cocoaWaitTime, timingMs), faults, old(Seen())).world
      ensures isRunning == old(isRunning)
    {
      var k0 := Index(keys, 0);
      if k0.Err? { return; }
      ghost var tail := RouteTail(button, keys, k0.value, timingMs);
      ghost var extra := ExtraWait(useCocoaWait, cocoaWaitTime);
      PlayFirst([Press(k0.value)], extra + tail, faults, Seen());
      assert Emits([Press(k0.value)][1..]) + (extra + tail) == extra + tail;
      var ok := Attempt(Press(k0.value));
      if !ok { return; }
      PlayAppend(extra, tail, faults, Seen());
      ok := ExtraWaitStep(useCocoaWait, cocoaWaitTime);
      if !ok { return; }
      RouteTailStep(button, keys, k0.value, timingMs);
    }

    /** The route after the first key went down and the extra wait
        (main.py:102-108). */
    method RouteTailStep(button: Json, keys: Json, k0: Json, timingMs: Json)
      modifies this
      ensures Seen() == Play(RouteTail(button, keys, k0, timingMs), faults, old(Seen())).world
      ensures isRunning == old(isRunning)
    {
      var k1 := Index(keys, 1);
      if k1.Err? { return; }
      ghost var last := [MouseUp(button), Release(k0), Release(k1.value)];
      PlayFirst([Press(k1.value)], SleepMillis(timingMs) + Emits(last), faults, Seen());
      assert Emits([Press(k1.value)][1..]) + (SleepMillis(timingMs) + Emits(last)) == SleepMillis(timingMs) + Emits(last);
      var ok := Attempt(Press(k1.value));
      if !ok { return; }
      PlayAppend(SleepMillis(timingMs), Emits(last), faults, Seen());
      ok := WaitMillis(timingMs);
      if !ok { return; }
      ReleaseStep(button, k0, k1.value);
    }

    /** Releasing the mouse button and both keys (main.py:106-108). */
    method ReleaseStep(button: Json, k0: Json, k1: Json)
      modifies this
      ensures Seen() == Play(Emits([MouseUp(button), Release(k0), Release(k1)]), faults, old(Seen())).world
      ensures isRunning == old(isRunning)
    {
      ghost var last := [MouseUp(button), Release(k0), Release(k1)];
      PlayFirst(last, [], faults, Seen());
      var ok := Attempt(MouseUp(button));
      if !ok { return; }
      PlayFirst(last[1..], [], faults, Seen());
      ok := Attempt(Release(k0));
      if !ok { return; }
      PlayFirst(last[2..], [], faults, Seen());
      assert last[2..][1..] == [];
      ok := Attempt(Release(k1));
    }

    /** The extra wait of `execute_route` (main.py:99-100). */
    method ExtraWaitStep(useCocoaWait: Json, cocoaWaitTime: Json) returns (ok: bool)
      modifies this
      ensures Seen() == Play(ExtraWait(useCocoaWait, cocoaWaitTime), faults, old(Seen())).world
      ensures ok == !Play(ExtraWait(useCocoaWait, cocoaWaitTime), faults, old(Seen())).raised
      ensures isRunning == old(isRunning)
    {
      ok := true;
      if Truthy(useCocoaWait) {
        var long := AtLeastOne(cocoaWaitTime);
        if long.Err? { return false; }
        if long.value {
          ok := Wait(cocoaWaitTime);
        }
      }
    }

    /** `_send_command` (main.py:182-190). */
    method SendCommand(command: Json)
      modifies this
      ensures Seen() == Play(CommandPlan(config.config, command), faults, old(Seen())).world
      ensures isRunning == old(isRunning)
    {
      var found := config.Get([KStr("general"), KStr("chat_key")]);
      var chatKey := OrNone(found);
      ghost var es := CommandEvents(chatKey, command);
      PlayFirst(es, [], faults, Seen());
      var ok := Attempt(Tap(chatKey));
      if !ok { return; }
      PlayFirst(es[1..], [], faults, Seen());
      ok := Attempt(Write(command));
      if !ok { return; }
      PlayFirst(es[2..], [], faults, Seen());
      assert es[2..][1..] == [];
      ok := Attempt(Tap(Str("enter")));
    }

    /** `execute_cobblestone_route` (main.py:144-160). */
    method ExecuteCobblestoneRoute()
      modifies this
      ensures Seen() == Play(CobblestoneRoutePlan(config.config), faults, old(Seen())).world
      ensures isRunning == old(isRunning)
    {
      var found := config.Get([KStr("macros"), KStr("cobblestone")]);
      var section := OrNone(found);
      var key := Subscript(section, "key");
      if key.Err? { return; }
      var duration := Subscript(section, "mining_duration_seconds");
      if duration.Err? { return; }
      var hubWait := Subscript(section, "hub_wait_seconds");
      if hubWait.Err? { return; }
      var foundButton := config.Get([KStr("general"), KStr("mouse_button")]);
      var button := OrNone(foundButton);
      ghost var target := Play(CobblestoneRoutePlan(config.config), faults, Seen()).world;
      ghost var first := [MouseDown(button), Press(key.value)];
      ghost var last := [MouseUp(button), Release(key.value)];
      ghost var rest := SleepSeconds(duration.value) + Emits(last);
      assert target == Play(Emits(first) + rest, faults, Seen()).world;
      PlayFirst(first, rest, faults, Seen());
      var ok := Attempt(MouseDown(button));
      if !ok { return; }
      PlayFirst(first[1..], rest, faults, Seen());
      assert first[1..][1..] == [];
      ok := Attempt(Press(key.value));
      if !ok { return; }
      assert target == Play(rest, faults, Seen()).world;
      PlayAppend(SleepSeconds(duration.value), Emits(last), faults, Seen());
      ok := Wait(duration.value);
      if !ok { return; }
      PlayFirst(last, [], faults, Seen());
      ok := Attempt(MouseUp(button));
      if !ok { return; }
      PlayFirst(last[1..], [], faults, Seen());
      assert last[1..][1..] == [];
      ok := Attempt(Release(key.value));
    }

    /** `stop_macro` (main.py:210-214). */
    method StopMacro()
      modifies this
      ensures !isRunning
      ensures Seen() == old(Seen())
    {
      if isRunning {
        isRunning := false;
      }
    }

    /** `execute_route_set` (main.py:112-142) for at most `fuel` cycles. */
    method ExecuteRouteSet(macroType: string, fuel: nat)
      modifies this
      ensures old(isRunning) ==>
                var o := RouteSetRun(config.config, faults, macroType, fuel, old(Seen()));
                Seen() == o.world && isRunning == !o.raised
      ensures !old(isRunning) ==> Seen() == old(Seen()) && !isRunning
    {
      ghost var w0 := Seen();
      ghost var running0 := isRunning;
      var found := config.Get([KStr("macros"), KStr(macroType)]);
      var macroConfig := OrNone(found);
      if !Truthy(macroConfig) { StopMacro(); return; }
      var keysEntry := Subscript(macroConfig, "keys");
      if keysEntry.Err? { StopMacro(); return; }
      var rpwEntry := Subscript(macroConfig, "routes_per_warp");
      if rpwEntry.Err? { StopMacro(); return; }
      var keys := keysEntry.value;
      var routesPerWarp := rpwEntry.value;
      var useCocoaWait := DictGet(macroConfig.fields, "use_cocoa_wait", Bool(false));
      var timingEntry := Subscript(macroConfig, "timing_ms");
      if timingEntry.Err? { StopMacro(); return; }
      var timingMs := timingEntry.value;
      var cocoaWait := DictGet(macroConfig.fields, "cocoa_wait_seconds", Int(0));
      ghost var rs := RouteSettings(keys, routesPerWarp, useCocoaWait, timingMs, cocoaWait);
      assert RouteSettingsOf(config.config, macroType) == Ok(rs);
      ghost var cfg := config.config;
      ghost var target := RouteSetRun(cfg, faults, macroType, fuel, w0);
      assert target == RouteCycles(cfg, faults, rs, fuel, w0);

      var cycles := 0;
      while isRunning && cycles < fuel
        invariant cycles <= fuel
        invariant !running0 ==> !isRunning && Seen() == w0
        invariant running0 ==> isRunning
        invariant running0 ==> target == RouteCycles(cfg, faults, rs, fuel - cycles, Seen())
        decreases fuel - cycles
      {
        ghost var c := RouteCycle(cfg, faults, rs, Seen());
        assert RouteCycles(cfg, faults, rs, fuel - cycles, Seen()) ==
               if c.raised then c else RouteCycles(cfg, faults, rs, fuel - cycles - 1, c.world);
        var ok := RoutePass(keys, routesPerWarp, useCocoaWait, timingMs, cocoaWait);
        if !ok {
          assert running0 ==> target == c;
          StopMacro();
          return;
        }
        cycles := cycles + 1;
      }
      assert running0 ==> cycles == fuel && target == Outcome(Seen(), false);
    }

    /** One pass of the outer loop of `execute_route_set` (main.py:125-138);
        `false` when an exception left the pass.  The flag re-checks at
        main.py:128 and 137 always hold: nothing in the pass clears the flag. */
    method RoutePass(keys: Json, routesPerWarp: Json, useCocoaWait: Json, timingMs: Json, cocoaWait: Json)
      returns (ok: bool)
      modifies this
      ensures var c := RouteCycle(config.config, faults, RouteSettings(keys, routesPerWarp, useCocoaWait, timingMs, cocoaWait), old(Seen()));
              Seen() == c.world && ok == !c.raised
      ensures isRunning == old(isRunning)
    {
      ghost var rs := RouteSettings(keys, routesPerWarp, useCocoaWait, timingMs, cocoaWait);
      ghost var cfg := config.config;
      ghost var w0 := Seen();
      var count := RangeCount(routesPerWarp);
      if count.Err? {
        return false;
      }
      var i := 0;
      while i < count.value
        invariant i <= count.value
        invariant isRunning == old(isRunning)
        invariant Batch(cfg, faults, rs, count.value, w0) == Batch(cfg, faults, rs, count.value - i, Seen())
        decreases count.value - i
      {
        var first := Slice(keys, 0, 2);
        if first.Err? {
          return false;
        }
        ExecuteRoute(first.value, useCocoaWait, cocoaWait, timingMs);
        // keys[2:4] cannot raise once keys[0:2] did not
        var second := Slice(keys, 2, 4);
        ExecuteRoute(second.value, useCocoaWait, Int(0), timingMs);
        i := i + 1;
      }
      var warp := config.Get([KStr("commands"), KStr("warp_garden")]);
      SendCommand(OrNone(warp));
      ok := true;
    }

    /** `execute_cobblestone_set` (main.py:162-180) for at most `fuel` cycles. */
    method ExecuteCobblestoneSet(fuel: nat)
      modifies this
      ensures old(isRunning) ==>
                var o := CobblestoneCycles(config.config, faults, fuel, old(Seen()));
                Seen() == o.world && isRunning == !o.raised
      ensures !old(isRunning) ==> Seen() == old(Seen()) && !isRunning
    {
      var found := config.Get([KStr("macros"), KStr("cobblestone"), KStr("hub_wait_seconds")]);
      var hubWait := OrNone(found);
      if isRunning {
        CobblestoneLoop(hubWait, fuel);
      }
    }

    /** The loop `while self.is_running` of `execute_cobblestone_set`
        (main.py:167-176), entered running, for at most `fuel` passes; an
        exception out of a pass ends in `stop_macro` (main.py:178-180). */
    method CobblestoneLoop(hubWait: Json, fuel: nat)
      requires hubWait == HubWait(config.config)
      requires isRunning
      modifies this
      ensures var o := CobblestoneCycles(config.config, faults, fuel, old(Seen()));
              Seen() == o.world && isRunning == !o.raised
    {
      ghost var target := CobblestoneCycles(config.config, faults, fuel, Seen());
      var cycles := 0;
      while isRunning && cycles < fuel
        invariant cycles <= fuel
        invariant isRunning
        invariant target == CobblestoneCycles(config.config, faults, fuel - cycles, Seen())
        decreases fuel - cycles
      {
        var ok := CobblestonePass(hubWait, fuel - cycles);
        if !ok {
          assert target == Outcome(Seen(), true);
          StopMacro();
          return;
        }
        cycles := cycles + 1;
      }
      assert cycles == fuel && target == Outcome(Seen(), false);
    }

    /** One pass of the loop of `execute_cobblestone_set` (main.py:167-176);
        `false` when the hub wait raised out of it.  The flag re-check at
        main.py:170 always holds: nothing in the pass clears the flag. */
    method CobblestonePass(hubWait: Json, ghost left: nat) returns (ok: bool)
      requires hubWait == HubWait(config.config)
      requires left > 0
      modifies this
      ensures var c := CobblestoneCycle(config.config, faults, old(Seen()));
              Seen() == c.world && ok == !c.raised
      ensures CobblestoneCycles(config.config, faults, left, old(Seen())) ==
              if ok then CobblestoneCycles(config.config, faults, left - 1, Seen()) else Outcome(Seen(), true)
      ensures isRunning == old(isRunning)
    {
      CobblestoneCyclesStep(config.config, faults, left, Seen());
      CobblestoneCycleCalls(config.config, faults, Seen());
      ExecuteCobblestoneRoute();
      var warpHub := config.Get([KStr("commands"), KStr("warp_hub")]);
      SendCommand(OrNone(warpHub));
      ok := Wait(hubWait);
      if !ok {
        return;
      }
      var warpIsland := config.Get([KStr("commands"), KStr("warp_island")]);
      SendCommand(OrNone(warpIsland));
    }

    /** `start_macro` (main.py:192-208): a no-op while a macro runs. */
    method StartMacro(macroType: string, fuel: nat)
      modifies this
      ensures old(isRunning) ==> isRunning && Seen() == old(Seen())
      ensures !old(isRunning) ==>
                var o := MacroRun(config.config, faults, macroType, fuel, old(Seen()));
                Seen() == o.world && isRunning == !o.raised
    {
      if isRunning {
        return;
      }
      isRunning := true;
      if macroType == "cobblestone" {
        ExecuteCobblestoneSet(fuel);
      } else {
        ExecuteRouteSet(macroType, fuel);
      }
    }
  }

  /** `n` copies of `es`, one after another. */
  function Repeat(es: seq<Event>, n: nat): seq<Event>
    decreases n
  {
    if n == 0 then [] else es + Repeat(es, n - 1)
  }

  /** The events of one iteration of the inner loop when nothing fails: the
      route over the first two keys, with the extra wait, then the route over
      the next two keys, without it. */
  function PairEvents(cfg: Json, ks: seq<Json>, wait: int, timing: int): seq<Event>
    requires |ks| >= 4
  {
    RouteEvents(Button(cfg), ks[0], ks[1], wait, timing) + RouteEvents(Button(cfg), ks[2], ks[3], 0, timing)
  }

  /** Of the two routes of an iteration, the first sleeps the extra wait
      (when at least one second) longer than the second; both sleep the step
      timing. */
  lemma PairSleep(cfg: Json, ks: seq<Json>, wait: int, timing: int)
    requires |ks| >= 4
    ensures SleepTotal(PairEvents(cfg, ks, wait, timing)) ==
            (if wait >= 1 then wait * 1000 else 0) + 2 * timing
    ensures SleepTotal(RouteEvents(Button(cfg), ks[0], ks[1], wait, timing)) ==
            SleepTotal(RouteEvents(Button(cfg), ks[2], ks[3], 0, timing)) + (if wait >= 1 then wait * 1000 else 0)
  {
    RouteSleep(Button(cfg), ks[0], ks[1], wait, timing);
    RouteSleep(Button(cfg), ks[2], ks[3], 0, timing);
    SleepTotalAppend(RouteEvents(Button(cfg), ks[0], ks[1], wait, timing), RouteEvents(Button(cfg), ks[2], ks[3], 0, timing));
  }

  /** The conditions under which every route of a set runs to its end. */
  predicate WellFormed(rs: RouteSettings, ks: seq<Json>, timing: int, wait: int)
  {
    rs.keys == Arr(ks) && |ks| >= 4 &&
    AsNumber(rs.timingMs) == Ok(timing) && timing >= 0 &&
    (Truthy(rs.useCocoaWait) ==> AsNumber(rs.cocoaWait) == Ok(wait))
  }

  /** Without failures, a route over a well-formed key list emits its full
      event list and leaves the run going. */
  lemma RouteWorldFaultFree(cfg: Json, pair: seq<Json>, useCocoaWait: Json, wait: Json, timingMs: Json,
                            waitSeconds: int, timing: int, w: World)
    requires |pair| == 2
    requires AsNumber(timingMs) == Ok(timing) && timing >= 0
    requires Truthy(useCocoaWait) ==> AsNumber(wait) == Ok(waitSeconds)
    ensures RouteWorld(cfg, {}, Arr(pair), useCocoaWait, wait, timingMs, w).trace ==
            w.trace + RouteEvents(Button(cfg), pair[0], pair[1], if Truthy(useCocoaWait) then waitSeconds else 0, timing)
  {
    var plan := RoutePlan(Button(cfg), Arr(pair), useCocoaWait, wait, timingMs);
    RouteFaultFree(Button(cfg), Arr(pair), useCocoaWait, wait, timingMs, pair[0], pair[1], waitSeconds, timing);
    PlayReliable(plan, {}, w);
  }

  /** Without failures, one iteration of the inner loop over a well-formed
      key list emits the pair of routes. */
  lemma PairFaultFree(cfg: Json, rs: RouteSettings, ks: seq<Json>, timing: int, wait: int, w: World)
    requires WellFormed(rs, ks, timing, wait)
    ensures Slice(rs.keys, 0, 2) == Ok(Arr(ks[0..2])) && Slice(rs.keys, 2, 4) == Ok(Arr(ks[2..4]))
    ensures PairWorld(cfg, {}, rs, w).trace == w.trace + PairEvents(cfg, ks, if Truthy(rs.useCocoaWait) then wait else 0, timing)
  {
    assert Slice(rs.keys, 0, 2) == Ok(Arr(ks[0..2])) && Slice(rs.keys, 2, 4) == Ok(Arr(ks[2..4]));
    var w1 := RouteWorld(cfg, {}, Arr(ks[0..2]), rs.useCocoaWait, rs.cocoaWait, rs.timingMs, w);
    var w2 := RouteWorld(cfg, {}, Arr(ks[2..4]), rs.useCocoaWait, Int(0), rs.timingMs, w1);
    var wt := if Truthy(rs.useCocoaWait) then wait else 0;
    RouteWorldFaultFree(cfg, ks[0..2], rs.useCocoaWait, rs.cocoaWait, rs.timingMs, wait, timing, w);
    RouteWorldFaultFree(cfg, ks[2..4], rs.useCocoaWait, Int(0), rs.timingMs, 0, timing, w1);
    Chain(w.trace, w1.trace, w2.trace, RouteEvents(Button(cfg), ks[0], ks[1], wt, timing),
          RouteEvents(Button(cfg), ks[2], ks[3], 0, timing));
  }

  /** Appending `n` copies is appending one, then `n - 1`. */
  lemma RepeatStep(t0: seq<Event>, t1: seq<Event>, es: seq<Event>, n: nat)
    requires n > 0 && t1 == t0 + es
    ensures t0 + Repeat(es, n) == t1 + Repeat(es, n - 1)
  {
  }

  lemma Chain(t0: seq<Event>, t1: seq<Event>, t2: seq<Event>, a: seq<Event>, b: seq<Event>)
    requires t1 == t0 + a && t2 == t1 + b
    ensures t2 == t0 + (a + b)
  {
  }

  /** Without failures, `n` iterations of the inner loop emit `n` copies of
      the pair of routes, and the second route of each pair never takes the
      extra wait. */
  lemma BatchFaultFree(cfg: Json, rs: RouteSettings, ks: seq<Json>, timing: int, wait: int, n: nat, w: World)
    requires WellFormed(rs, ks, timing, wait)
    ensures Batch(cfg, {}, rs, n, w).world.trace ==
            w.trace + Repeat(PairEvents(cfg, ks, if Truthy(rs.useCocoaWait) then wait else 0, timing), n)
    ensures !Batch(cfg, {}, rs, n, w).raised
  {
    var pe := PairEvents(cfg, ks, if Truthy(rs.useCocoaWait) then wait else 0, timing);
    assert Slice(rs.keys, 0, 2).Ok?;
    forall v: World ensures PairAppends(cfg, rs, pe, v) {
      PairFaultFree(cfg, rs, ks, timing, wait, v);
    }
    BatchUniform(cfg, rs, pe, n, w);
  }

  /** The world after one iteration of the inner loop over a sliceable key
      list. */
  function PairWorld(cfg: Json, faults: set<nat>, rs: RouteSettings, w: World): World
    requires rs.keys.Arr? || rs.keys.Str?
  {
    var w1 := RouteWorld(cfg, faults, Slice(rs.keys, 0, 2).value, rs.useCocoaWait, rs.cocoaWait, rs.timingMs, w);
    RouteWorld(cfg, faults, Slice(rs.keys, 2, 4).value, rs.useCocoaWait, Int(0), rs.timingMs, w1)
  }

  /** One iteration from `v` appends `pe`. */
  predicate PairAppends(cfg: Json, rs: RouteSettings, pe: seq<Event>, v: World)
    requires rs.keys.Arr? || rs.keys.Str?
  {
    PairWorld(cfg, {}, rs, v).trace == v.trace + pe
  }

  /** When every iteration appends the same events `pe`, `n` iterations
      append `n` copies and do not raise. */
  lemma {:induction false} BatchUniform(cfg: Json, rs: RouteSettings, pe: seq<Event>, n: nat, w: World)
    requires rs.keys.Arr? || rs.keys.Str?
    requires forall v: World :: PairAppends(cfg, rs, pe, v)
    ensures Batch(cfg, {}, rs, n, w).world.trace == w.trace + Repeat(pe, n)
    ensures !Batch(cfg, {}, rs, n, w).raised
    decreases n
  {
    if n > 0 {
      assert PairAppends(cfg, rs, pe, w);
      var v := PairWorld(cfg, {}, rs, w);
      assert Batch(cfg, {}, rs, n, w) == Batch(cfg, {}, rs, n - 1, v);
      BatchUniform(cfg, rs, pe, n - 1, v);
      RepeatStep(w.trace, v.trace, pe, n);
    }
  }

  /** Whatever fails inside the routes, the inner loop raises only when the
      key list cannot be sliced, and then on its first iteration: the
      routes' own exceptions never leave `execute_route`. */
  lemma {:induction false} BatchRaises(cfg: Json, faults: set<nat>, rs: RouteSettings, n: nat, w: World)
    ensures Batch(cfg, faults, rs, n, w).raised <==> n > 0 && !(rs.keys.Arr? || rs.keys.Str?)
    ensures Batch(cfg, faults, rs, n, w).raised ==> Batch(cfg, faults, rs, n, w).world == w
    decreases n
  {
    if n > 0 && Slice(rs.keys, 0, 2).Ok? {
      BatchRaises(cfg, faults, rs, n - 1, PairWorld(cfg, faults, rs, w));
    }
  }

  /** The events of one pass of the outer loop when nothing fails. */
  function CycleEvents(cfg: Json, ks: seq<Json>, wait: int, timing: int, routes: nat): seq<Event>
    requires |ks| >= 4
  {
    Repeat(PairEvents(cfg, ks, wait, timing), routes) + CommandEvents(ChatKey(cfg), Command(cfg, "warp_garden"))
  }

  /** Without failures, one pass does `routes_per_warp` pairs of routes (none
      for a count below one) and then types the garden warp command. */
  lemma RouteCycleFaultFree(cfg: Json, rs: RouteSettings, ks: seq<Json>, timing: int, wait: int,
                            routes: int, w: World)
    requires WellFormed(rs, ks, timing, wait)
    requires AsNumber(rs.routesPerWarp) == Ok(routes)
    ensures RouteCycle(cfg, {}, rs, w).world.trace ==
            w.trace + CycleEvents(cfg, ks, if Truthy(rs.useCocoaWait) then wait else 0, timing, if routes <= 0 then 0 else routes)
    ensures !RouteCycle(cfg, {}, rs, w).raised
  {
    var n: nat := if routes <= 0 then 0 else routes;
    BatchFaultFree(cfg, rs, ks, timing, wait, n, w);
    var b := Batch(cfg, {}, rs, n, w);
    var pe := PairEvents(cfg, ks, if Truthy(rs.useCocoaWait) then wait else 0, timing);
    var plan := CommandPlan(cfg, Command(cfg, "warp_garden"));
    assert RangeCount(rs.routesPerWarp) == Ok(n);
    assert RouteCycle(cfg, {}, rs, w) == Outcome(Play(plan, {}, b.world).world, false);
    CommandFaultFree(cfg, Command(cfg, "warp_garden"));
    PlayReliable(plan, {}, b.world);
    ConcatAssoc(w.trace, Repeat(pe, n), CommandEvents(ChatKey(cfg), Command(cfg, "warp_garden")));
  }

  /** A pass with no routes to do (a count of zero or less) only warps to
      the garden, even when the key list is unusable. */
  lemma RouteCycleNoRoutes(cfg: Json, rs: RouteSettings, w: World)
    requires RangeCount(rs.routesPerWarp) == Ok(0)
    ensures RouteCycle(cfg, {}, rs, w) ==
            Outcome(World(w.trace + CommandEvents(ChatKey(cfg), Command(cfg, "warp_garden")), w.calls + 3), false)
  {
    CommandFaultFree(cfg, Command(cfg, "warp_garden"));
    PlayReliable(CommandPlan(cfg, Command(cfg, "warp_garden")), {}, w);
    EmitsSpec(CommandEvents(ChatKey(cfg), Command(cfg, "warp_garden")));
  }

  /** An unusable or missing macro section stops the macro before anything
      is pressed, whatever the faults and however long it would have run. */
  lemma RouteSetBadSettings(cfg: Json, faults: set<nat>, macroType: string, fuel: nat, w: World)
    requires !(var mc := MacroConfig(cfg, macroType);
               Truthy(mc) && mc.Obj? && "keys" in mc.fields &&
               "routes_per_warp" in mc.fields && "timing_ms" in mc.fields)
    ensures RouteSetRun(cfg, faults, macroType, fuel, w) == Outcome(w, true)
  {
  }

  /** Without failures, one cobblestone pass mines, warps to the hub, waits
      `hub_wait_seconds`, and warps back to the island. */
  lemma CobblestoneCycleFaultFree(cfg: Json, key: Json, seconds: int, hub: int, w: World)
    requires MacroConfig(cfg, "cobblestone").Obj?
    requires Subscript(MacroConfig(cfg, "cobblestone"), "key") == Ok(key)
    requires Subscript(MacroConfig(cfg, "cobblestone"), "mining_duration_seconds").Ok?
    requires AsNumber(Subscript(MacroConfig(cfg, "cobblestone"), "mining_duration_seconds").value) == Ok(seconds)
    requires seconds >= 0
    requires Subscript(MacroConfig(cfg, "cobblestone"), "hub_wait_seconds").Ok?
    requires AsNumber(Subscript(MacroConfig(cfg, "cobblestone"), "hub_wait_seconds").value) == Ok(hub)
    requires hub >= 0
    ensures CobblestoneCycle(cfg, {}, w).world.trace ==
            w.trace + CobblestoneEvents(Button(cfg), key, seconds) +
            CommandEvents(ChatKey(cfg), Command(cfg, "warp_hub")) + [Sleep(hub * 1000)] +
            CommandEvents(ChatKey(cfg), Command(cfg, "warp_island"))
    ensures !CobblestoneCycle(cfg, {}, w).raised
  {
    CobblestoneCycleCalls(cfg, {}, w);
    HubWaitFromSection(cfg);
    CobblestoneRouteFaultFree(cfg, key, seconds);
    PlayReliable(CobblestoneRoutePlan(cfg), {}, w);
    var w1 := Play(CobblestoneRoutePlan(cfg), {}, w).world;
    CommandFaultFree(cfg, Command(cfg, "warp_hub"));
    PlayReliable(CommandPlan(cfg, Command(cfg, "warp_hub")), {}, w1);
    var w2 := Play(CommandPlan(cfg, Command(cfg, "warp_hub")), {}, w1).world;
    Single(SleepSeconds(HubWait(cfg)));
    PlayReliable(SleepSeconds(HubWait(cfg)), {}, w2);
    var s := Play(SleepSeconds(HubWait(cfg)), {}, w2);
    CommandFaultFree(cfg, Command(cfg, "warp_island"));
    PlayReliable(CommandPlan(cfg, Command(cfg, "warp_island")), {}, s.world);
  }

  /** The hub wait read once before the loop is the section's entry. */
  lemma HubWaitFromSection(cfg: Json)
    requires MacroConfig(cfg, "cobblestone").Obj?
    ensures HubWait(cfg) == DictGet(MacroConfig(cfg, "cobblestone").fields, "hub_wait_seconds", Null)
  {
    LookupAppend(cfg, [KStr("macros"), KStr("cobblestone")], [KStr("hub_wait_seconds")]);
    assert [KStr("macros"), KStr("cobblestone")] + [KStr("hub_wait_seconds")] ==
           [KStr("macros"), KStr("cobblestone"), KStr("hub_wait_seconds")];
  }

  /** A cobblestone section without `hub_wait_seconds`: every pass mines
      nothing, and the hub wait, `time.sleep(None)`, then raises, so the
      macro stops after sending only the hub warp, whatever the faults. */
  lemma CobblestoneWithoutHubWait(cfg: Json, faults: set<nat>, fuel: nat, w: World)
    requires MacroConfig(cfg, "cobblestone").Obj?
    requires "hub_wait_seconds" !in MacroConfig(cfg, "cobblestone").fields
    requires fuel >= 1
    ensures CobblestoneCycles(cfg, faults, fuel, w) ==
            Outcome(Play(CommandPlan(cfg, Command(cfg, "warp_hub")), faults, w).world, true)
  {
    CobblestoneCycleCalls(cfg, faults, w);
    HubWaitFromSection(cfg);
    CobblestoneRouteWithoutHubWait(cfg, faults, w);
  }

  /** A hub wait that is not a non-negative number raises on the first
      pass, so the macro stops after one pass, whatever the faults and
      however many passes it was given. */
  lemma CobblestoneBadHubWait(cfg: Json, faults: set<nat>, fuel: nat, w: World)
    requires !(AsNumber(HubWait(cfg)).Ok? && AsNumber(HubWait(cfg)).value >= 0)
    requires fuel >= 1
    ensures CobblestoneCycles(cfg, faults, fuel, w) == CobblestoneCycle(cfg, faults, w)
    ensures CobblestoneCycle(cfg, faults, w).raised
  {
    CobblestoneCycleCalls(cfg, faults, w);
    assert SleepSeconds(HubWait(cfg))[0].Raise?;
  }
}
