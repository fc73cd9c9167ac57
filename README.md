# HyMacro macro engine, modelled in Dafny

HyMacro is a keyboard-and-mouse automation tool for the Garden mode of
Hypixel Skyblock (`main.py`). A JSON configuration holds the macros. Each
macro is a list of keys, a repetition count, timings and chat commands. Three
function keys start the cocoa-beans, nether-wart and cobblestone macros.
A running macro repeats "routes" (hold the mouse button and walk keys for a
while) and then warps back with a chat command. It does this until an
exception stops it.

This project models that core:

- `pyvalue.dfy` (module `PyValue`) holds the configuration values (JSON shapes) and the few
  Python operations the engine applies to them: truthiness, `d[k]`,
  `d.get(k, default)`, indexing, slicing, `>= 1`, `range(n)`, `in`, and the
  numeric coercion of `bool`.
- `config.dfy` (module `Config`) is `ConfigManager`: path lookup `get(*keys)` as a loop
  proved equal to a recursive `Lookup`, and `_validate_config` as a loop
  proved equal to `Validate`, with its characterisation. It also holds the
  run loop's delay lookup (see Findings).
- `events.dfy` (module `Events`) is the input injector as a trace of events. A routine is a
  plan of steps. `Play` runs a plan the way a `try` block does: the first
  exception abandons the rest. Which primitive calls of the foreign
  libraries raise is a parameter, the fault plan: the set of attempt numbers
  that fail.
- `routines.dfy` (module `Routines`) holds the plans of `execute_route`,
  `execute_cobblestone_route` and `_send_command`, in the exact call order of
  the source. It states their fault-free event lists, when they run to the
  end, and what a missing entry cuts short.
- `controller.dfy` (module `Controller`) is `MacroController` as a class. It has the run flag, the
  trace and the attempt counter as fields, and one method per routine and
  macro loop. Each method is proved to produce the world its plan or loop
  specification function (`RouteSetRun`, `CobblestoneCycles`, `MacroRun`)
  gives. Lemmas about those functions say what whole passes do.
- `app.dfy` (module `App`) is `HyMacroApp`: start-up, which builds an
  application only over a configuration that passes validation, and
  `handle_keybinds`, with the priority choice among the three bindings and
  starting the chosen macro only when none is running.

Three details of the source shape the model:

- The second route of each pair gets `0` only as `cocoa_wait_time`.
  `timing_ms` and `use_cocoa_wait` are passed unchanged.
- `execute_cobblestone_route` reads `hub_wait_seconds` without using it. A
  section without that entry therefore makes the route raise before anything
  is pressed.
- Slicing is the only step of the inner loop of `execute_route_set` that
  raises out of it, and the second slice `keys[2:4]` cannot fail once
  `keys[0:2]` did not.

## Model

| member | source | states |
|---|---|---|
| Config.ConfigManager.constructor | main.py:25-37 | the manager holds the parsed document unchanged; validation is a separate step (see `App.Launch`) |
| Config.ConfigManager.Get | main.py:54-62 | the result is the value reached by following the keys through nested dictionaries, `None` as soon as a value is not a dictionary or lacks the key; no keys give the whole document |
| Config.LookupAppend | main.py:54-62 | looking up a path `p + q` is looking up `p` and then `q` from the value reached |
| Config.LookupLast | main.py:54-62 | a lookup ending in string key `k` reaches `x` iff the path before it reaches a dictionary that maps `k` to `x` |
| Config.LookupIntKeyNone | main.py:54-62 | a path whose last key is an integer never reaches anything (JSON dictionaries have only string keys) |
| Config.ConfigManager.ValidateConfig | main.py:47-52 | the loop returns the first required section (macros, commands, keybinds, general, in that order) that is absent, or `Valid` |
| Config.CheckSectionsSpec | main.py:47-52 | on a dictionary, the check is `Valid` iff every section is present, and names `s` iff `s` is the first absent one; it never fails with an exception |
| Config.ValidateSpec | main.py:47-52 | each of the five outcomes for the four required sections, both directions |
| Config.ValidateNonObject | main.py:47-52 | a number, boolean or null document makes `in` raise `TypeError` |
| Config.LoopDelayAsWrittenFails | main.py:278 | as written, the delay lookup is `None` for every configuration, and dividing it raises `TypeError` |
| Config.LoopDelayCorrected | main.py:278 | the corrected lookup gives the configured whole number, or 100 ms when the entry or `general` is absent or null |
| Events.PlayPrefix | main.py:93-110 | whatever fails, a `try`-wrapped routine only appends to the trace, what it appends is a prefix of its fault-free events, and it makes at most one attempt per step |
| Events.PlayReliable | main.py:93-110 | with no fault among its attempts, a routine appends exactly its fault-free events, raises iff it does not complete, and a complete run makes one attempt per step |
| Events.PlayFaultTruncates | main.py:93-110 | a fault on attempt `k` of a complete routine leaves exactly its first `k` events and raises |
| Events.EmitsSpec | main.py:182-190 | a plan of plain calls completes and emits exactly those calls |
| Routines.SleepMillis | main.py:103 | `time.sleep(ms / 1000.0)` sleeps iff `ms` is a non-negative number, for that many ms, and raises otherwise |
| Routines.SleepSeconds | main.py:100 | `time.sleep(s)` sleeps iff `s` is a non-negative number, for `s * 1000` ms |
| Routines.ExtraWaitSpec | main.py:99-100 | the extra wait completes unless it is switched on and its duration is not a number; it sleeps only when on and for at least one second |
| Routines.RouteCompletesIff | main.py:90-110 | a route runs to its end iff the key list has a second entry, the timing is a non-negative number and, when the extra wait is on, its duration is a number |
| Routines.RouteTailCompletesIff | main.py:102-107 | the part of a route after the extra wait runs to its end iff there is a second key and the timing is a non-negative number |
| Routines.RouteFaultFree | main.py:90-110 | a route's fault-free events: button down, first key down, the extra wait when on and at least one second, second key down, the timing, button up, first key up, second key up |
| Routines.RouteSleep | main.py:99-103 | a complete route sleeps the extra wait (when at least one second) plus the step timing |
| Routines.RouteTracePrefix | main.py:90-110 | whatever fails, the trace of a well-formed route is a prefix of that event list |
| Routines.RouteWithoutKeys | main.py:93-97 | with no first key, the route presses the mouse button and raises: the button is never released |
| Routines.CobblestoneRouteFaultFree | main.py:144-160 | a well-formed section gives button down, key down, the mining duration, button up, key up |
| Routines.CobblestoneRouteWithoutHubWait | main.py:146-150 | a section without `hub_wait_seconds` raises before anything is pressed, whatever the faults |
| Routines.CommandFaultFree | main.py:182-190 | sending a command never raises on its own account and types chat key, command, enter |
| Controller.RouteSettingsOf | main.py:115-123 | the settings are read iff the section is truthy and holds `keys`, `routes_per_warp` and `timing_ms`; a falsy section gives `ValueError`, a non-dictionary `TypeError`; the two optional entries default to `False` and `0` |
| Controller.MacroController.constructor | main.py:68-72 | a new controller is idle, with an empty trace |
| Controller.MacroController.Wait | main.py:100 | the world after `time.sleep(seconds)` is the sleep plan's, and the result says whether it raised |
| Controller.MacroController.WaitMillis | main.py:103 | the same for `time.sleep(ms / 1000.0)` |
| Controller.MacroController.ExtraWaitStep | main.py:99-100 | the conditional extra wait leaves the world its plan gives, and reports whether it raised |
| Controller.MacroController.ExecuteRoute | main.py:90-110 | the new trace and attempt count are those of running the route plan from the old world; the run flag is untouched |
| Controller.RouteWorldStart | main.py:94-97 | a route first attempts the button press; a fault there ends it, otherwise the rest of the route runs from there |
| Controller.MacroController.RouteAfterDownStep | main.py:97-107 | after the button press, the world is that of the rest of the route plan: the first key (raising without one), the extra wait, then the tail |
| Controller.MacroController.RouteTailStep | main.py:102-107 | the world is that of the route's tail: second key down (raising without one), the timing sleep, then the releases |
| Controller.MacroController.ReleaseStep | main.py:105-107 | the world is that of attempting button up, first key up and second key up in that order, stopping at the first fault |
| Controller.MacroController.SendCommand | main.py:182-190 | the new world is that of the command plan; the run flag is untouched |
| Controller.MacroController.ExecuteCobblestoneRoute | main.py:144-160 | the new world is that of the cobblestone route plan; the run flag is untouched |
| Controller.MacroController.StopMacro | main.py:210-214 | afterwards the flag is clear and nothing else changed |
| Controller.MacroController.ExecuteRouteSet | main.py:112-142 | when started while running, the world is `RouteSetRun`'s and the flag is cleared exactly when the set raised; when idle, nothing changes |
| Controller.MacroController.RoutePass | main.py:125-138 | one pass leaves the world `RouteCycle` gives (the `routes_per_warp` pairs of routes, then the garden warp) and reports whether the count or the key slicing raised |
| Controller.MacroController.CobblestonePass | main.py:167-176 | one pass leaves the world `CobblestoneCycle` gives and reports whether the hub wait raised |
| Controller.MacroController.ExecuteCobblestoneSet | main.py:162-180 | when running, the world is `CobblestoneCycles`'s and the flag is cleared exactly when a pass raised; when idle, nothing changes |
| Controller.MacroController.CobblestoneLoop | main.py:167-180 | entered running, the loop leaves the world `CobblestoneCycles` gives and stops the macro exactly when a pass raised |
| Controller.MacroController.StartMacro | main.py:192-208 | a busy controller is left as it is; an idle one runs the macro `MacroRun` selects (cobblestone or a route set) and ends running iff it did not raise |
| Controller.RouteWorldFaultFree | main.py:131-134 | without faults, a route over a two-key slice appends exactly its event list |
| Controller.PairFaultFree | main.py:131-134 | both slices of a list of at least four keys succeed, and the pair of routes appends the first route (with the extra wait) and then the second (without it) |
| Controller.PairSleep | main.py:131-134 | the first route of a pair sleeps the extra wait longer than the second; together they sleep it once plus twice the timing |
| Controller.BatchFaultFree | main.py:127-134 | without faults, `n` iterations append `n` copies of the pair and do not raise |
| Controller.BatchUniform | main.py:127-134 | when every iteration appends the same events, `n` iterations append them `n` times and do not raise |
| Controller.BatchRaises | main.py:127-134 | whatever the faults, the inner loop raises iff it has an iteration to do and the key list cannot be sliced, and then nothing has happened |
| Controller.RouteCycleFaultFree | main.py:125-138 | without faults, one pass does `routes_per_warp` pairs (none for a count below one), then the garden warp |
| Controller.RouteCycleNoRoutes | main.py:127-138 | with a count of zero or less, a pass only types the garden warp, even with an unusable key list |
| Controller.RouteSetBadSettings | main.py:115-142 | a missing, falsy or incomplete section stops the macro with nothing pressed, whatever the faults |
| Controller.HubWaitFromSection | main.py:165 | the hub wait read before the loop is the section's `hub_wait_seconds`, or `None` |
| Controller.CobblestoneCycleCalls | main.py:167-176 | a pass is the route, the hub warp, the hub wait and the island warp in that order; only the hub wait, which no inner `try` guards, can end it with an exception |
| Controller.CobblestoneCycleFaultFree | main.py:162-176 | without faults, one pass mines, warps to the hub, sleeps the hub wait, and warps to the island |
| Controller.CobblestoneWithoutHubWait | main.py:144-180 | without `hub_wait_seconds`, the first pass presses nothing, sends the hub warp, then `time.sleep(None)` raises and the macro stops |
| Controller.CobblestoneBadHubWait | main.py:162-180 | a hub wait that is not a non-negative number stops the macro after its first pass, whatever the faults |
| App.SelectFromSpec | main.py:250-271 | with dictionary bindings, a name is chosen iff it is the first bound name whose key is down; none iff all are bound and up; the lookup raises `KeyError` iff it reaches an unbound name first |
| App.SelectMacroSpec | main.py:254-267 | cocoa beans wins over nether wart, which wins over cobblestone; a missing cocoa binding always raises |
| App.SelectWithoutKeybinds | main.py:252-254 | with a `null` `keybinds` section the first lookup subscripts `None` and raises `TypeError` (an absent section never gets past start-up) |
| App.HyMacroApp.constructor | main.py:220-223 | over a configuration that passed validation, the application shares it with a new, idle controller and is running |
| App.Launch | main.py:37-52 | start-up builds an application iff the document passes `_validate_config`; the validation error escapes `load_config` and `main()` exits (main.py:297-303); a built application is idle, running, and shares its configuration with its controller |
| App.HyMacroApp.HandleKeybinds | main.py:250-271 | when the poll selects a macro and none runs, the controller ends as `MacroRun` says; otherwise (busy, nothing down, or a lookup raised) the controller is unchanged |

## Left out

- Loading the file: `Path.exists`, `open`, `json.load` and their errors (main.py:30-45). The configuration manager is built from an already parsed document; `_validate_config` and the exit it causes are modelled by `App.Launch`.
- Floating-point configuration values. Numbers are whole numbers. A bool counts as a number, as in Python.
- Logging, `print`, the banner, `_setup_logging` and `_setup_pyautogui` (main.py:74-88). The 10 ms `pyautogui.PAUSE` after each pyautogui call is not a `Sleep` event.
- The foreign libraries' own argument checks, such as `mouseDown(button=None)` or `write(None)`. The fault plan says which of their calls raise.
- The clock: a sleep is an event with its length, and no time passes.
- `run()` and `main()` (main.py:273-302): the polling loop, `KeyboardInterrupt` and `finally` are left out. Only the loop-delay lookup at main.py:278 is modelled.
- `KeyboardInterrupt` raised inside a macro. It is not an `Exception`, so it escapes every handler up to `run()`.
- Controller.MacroController.ExecuteRouteSet: models at most `fuel` passes of the outer loop, because the source's `while self.is_running` never ends on its own.
- Controller.MacroController.ExecuteCobblestoneSet: models at most `fuel` passes, for the same reason.
- Controller.MacroController.StartMacro: bounded by `fuel` passes, like the two loops it starts.
- App.HyMacroApp.HandleKeybinds: `keyboard.is_pressed` is a total parameter, so an exception from the poll itself (an unknown key name) is not modelled. It starts the macro with at most `fuel` passes.
- The flag re-checks inside the loops (main.py:128, 137, 170) are not modelled, because they always hold. Nothing clears the flag during a pass: the code is single-threaded, and `stop_macro` is called only by the handlers that end the loop.

## Findings

| source | as written | input that shows it | evidently intended | confidence | as-written member | corrected member |
|---|---|---|---|---|---|---|
| main.py:278 | `get('general', 'loop_delay_ms', 100)` passes 100 as a third key, so the lookup is always `None`, and `None / 1000.0` raises `TypeError`; `run()` reports a critical error before it polls the hotkeys once | any configuration, for example one whose `general` section holds `"loop_delay_ms": 10` | the configured `loop_delay_ms`, or 100 ms when it is absent | not executed | Config.LoopDelayAsWrittenFails | Config.LoopDelayCorrected |
