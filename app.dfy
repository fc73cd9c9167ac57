/** The application shell (main.py, class HyMacroApp): which macro the
    function keys select, and the hotkey handler that starts it.  The
    keyboard poll `keyboard.is_pressed` is a parameter: `pressed(k)` says
    whether the key bound as `k` is down at the moment of the poll. */
module App {
  import opened PyValue
  import opened Config
  import opened Events
  import opened Controller

  /** The bindings `handle_keybinds` consults, in its `if`/`elif` order. */
  const PriorityOrder: seq<string> := ["cocoa_beans", "nether_wart", "cobblestone"]

  /** Walking the bindings in order: the first name whose bound key is down
      is selected; looking up a binding raises when the bindings are not a
      dictionary or lack that name, and later names are then not looked at. */
  function SelectFrom(keybinds: Json, pressed: Json -> bool, names: seq<string>): Result<Option<string>>
    decreases |names|
  {
    if names == [] then Ok(None)
    else match Subscript(keybinds, names[0])
      case Err(e) => Err(e)
      case Ok(k) => if pressed(k) then Ok(Some(names[0])) else SelectFrom(keybinds, pressed, names[1..])
  }

  /** The macro the hotkeys select, if any. */
  function SelectMacro(keybinds: Json, pressed: Json -> bool): Result<Option<string>>
  {
    SelectFrom(keybinds, pressed, PriorityOrder)
  }

  /** Every one of the first `i` names is bound, and its key is up. */
  predicate Passed(m: map<string, Json>, pressed: Json -> bool, names: seq<string>, i: nat)
    requires i <= |names|
  {
    forall j :: 0 <= j < i ==> names[j] in m && !pressed(m[names[j]])
  }

  lemma PassedShift(m: map<string, Json>, pressed: Json -> bool, names: seq<string>, i: nat)
    requires names != [] && i < |names|
    ensures Passed(m, pressed, names, i + 1) <==>
            names[0] in m && !pressed(m[names[0]]) && Passed(m, pressed, names[1..], i)
  {
    if names[0] in m && !pressed(m[names[0]]) && Passed(m, pressed, names[1..], i) {
      forall j | 0 <= j < i + 1 ensures names[j] in m && !pressed(m[names[j]]) {
        if j > 0 { assert names[j] == names[1..][j - 1]; }
      }
    }
    if Passed(m, pressed, names, i + 1) {
      forall j | 0 <= j < i ensures names[1..][j] in m && !pressed(m[names[1..][j]]) {
        assert names[1..][j] == names[j + 1];
      }
    }
  }

  /** With the bindings a dictionary: a name is selected exactly when it is
      the first whose key is down and every name before it is bound; nothing
      is selected exactly when all names are bound and up; and the lookup
      fails, with `KeyError`, exactly at the first unbound name reached. */
  lemma {:induction false} SelectFromSpec(m: map<string, Json>, pressed: Json -> bool, names: seq<string>)
    ensures forall n :: SelectFrom(Obj(m), pressed, names) == Ok(Some(n)) <==>
              exists i :: 0 <= i < |names| && names[i] == n && n in m && pressed(m[n]) && Passed(m, pressed, names, i)
    ensures SelectFrom(Obj(m), pressed, names) == Ok(None) <==> Passed(m, pressed, names, |names|)
    ensures SelectFrom(Obj(m), pressed, names).Err? <==>
              exists i :: 0 <= i < |names| && names[i] !in m && Passed(m, pressed, names, i)
    ensures SelectFrom(Obj(m), pressed, names).Err? ==> SelectFrom(Obj(m), pressed, names).error == KeyError
    decreases |names|
  {
    var r := SelectFrom(Obj(m), pressed, names);
    if names == [] {
      assert Passed(m, pressed, names, 0);
    } else {
      assert Passed(m, pressed, names, 0);
      var rest := names[1..];
      SelectFromSpec(m, pressed, rest);
      forall i | 0 <= i < |rest| ensures rest[i] == names[i + 1] { }
      if names[0] !in m || pressed(m[names[0]]) {
        // the first name stops the walk, so no longer prefix has passed
        forall i | 0 < i <= |names| ensures !Passed(m, pressed, names, i) {
          PassedShift(m, pressed, names, i - 1);
        }
      } else {
        assert r == SelectFrom(Obj(m), pressed, rest);
        PassedShift(m, pressed, names, |rest|);
        forall n ensures r == Ok(Some(n)) <==> exists i :: 0 <= i < |names| && names[i] == n && n in m && pressed(m[n]) && Passed(m, pressed, names, i)
        {
          if r == Ok(Some(n)) {
            var i :| 0 <= i < |rest| && rest[i] == n && n in m && pressed(m[n]) && Passed(m, pressed, rest, i);
            PassedShift(m, pressed, names, i);
            assert names[i + 1] == n;
          }
          if exists i :: 0 <= i < |names| && names[i] == n && n in m && pressed(m[n]) && Passed(m, pressed, names, i) {
            var i :| 0 <= i < |names| && names[i] == n && n in m && pressed(m[n]) && Passed(m, pressed, names, i);
            assert i > 0;
            PassedShift(m, pressed, names, i - 1);
            assert rest[i - 1] == n;
          }
        }
        if r.Err? {
          var i :| 0 <= i < |rest| && rest[i] !in m && Passed(m, pressed, rest, i);
          PassedShift(m, pressed, names, i);
          assert names[i + 1] !in m;
        }
        if exists i :: 0 <= i < |names| && names[i] !in m && Passed(m, pressed, names, i) {
          var i :| 0 <= i < |names| && names[i] !in m && Passed(m, pressed, names, i);
          assert i > 0;
          PassedShift(m, pressed, names, i - 1);
          assert rest[i - 1] !in m;
        }
      }
    }
  }

  /** The three function keys: cocoa beans wins over nether wart, which wins
      over cobblestone; a binding is only looked up when the ones before it
      are up. */
  lemma SelectMacroSpec(m: map<string, Json>, pressed: Json -> bool)
    ensures "cocoa_beans" in m && pressed(m["cocoa_beans"]) ==> SelectMacro(Obj(m), pressed) == Ok(Some("cocoa_beans"))
    ensures "cocoa_beans" in m && !pressed(m["cocoa_beans"]) && "nether_wart" in m && pressed(m["nether_wart"]) ==>
              SelectMacro(Obj(m), pressed) == Ok(Some("nether_wart"))
    ensures "cocoa_beans" in m && !pressed(m["cocoa_beans"]) && "nether_wart" in m && !pressed(m["nether_wart"]) &&
            "cobblestone" in m ==>
              SelectMacro(Obj(m), pressed) == if pressed(m["cobblestone"]) then Ok(Some("cobblestone")) else Ok(None)
    ensures "cocoa_beans" !in m ==> SelectMacro(Obj(m), pressed) == Err(KeyError)
  {
  }

  /** With a `null` `keybinds` section the handler raises on its first
      lookup (it subscripts `None`), whatever is pressed. */
  lemma SelectWithoutKeybinds(pressed: Json -> bool)
    ensures SelectMacro(Null, pressed) == Err(TypeError)
  {
  }

  class HyMacroApp {
    const config: ConfigManager
    const controller: MacroController
    var running: bool

    /** The controller works on the application's configuration. */
    predicate Valid()
      reads this
    {
      controller.config == config
    }

    /** `HyMacroApp()` over a configuration manager whose document passed
        `_validate_config`: `ConfigManager()` raises on any other, and no
        application is built (see `Launch`). */
    constructor (cm: ConfigManager, faults: set<nat>)
      requires Validate(cm.config).Valid?
      ensures Valid()
      ensures config == cm && controller.faults == faults
      ensures !controller.isRunning && controller.Seen() == World([], 0)
      ensures running
      ensures fresh(controller)
    {
      config := cm;
      controller := new MacroController(cm, faults);
      running := true;
    }

    /** `handle_keybinds` (main.py:250-271) with at most `fuel` outer cycles
        of the macro it starts.  The selected macro starts only while none is
        running; the handler's own exception leaves everything as it was. */
    method HandleKeybinds(pressed: Json -> bool, fuel: nat)
      requires Valid()
      modifies controller
      ensures var sel := SelectMacro(OrNone(Lookup(config.config, [KStr("keybinds")])), pressed);
              if !old(controller.isRunning) && sel.Ok? && sel.value.Some? then
                var o := MacroRun(config.config, controller.faults, sel.value.value, fuel, old(controller.Seen()));
                controller.Seen() == o.world && controller.isRunning == !o.raised
              else
                controller.Seen() == old(controller.Seen()) && controller.isRunning == old(controller.isRunning)
    {
      var found := config.Get([KStr("keybinds")]);
      var keybinds := OrNone(found);
      ghost var names := PriorityOrder;
      assert names[1..] == ["nether_wart", "cobblestone"];
      assert names[1..][1..] == ["cobblestone"];
      assert names[1..][1..][1..] == [];
      var cocoa := Subscript(keybinds, "cocoa_beans");
      if cocoa.Err? { return; }
      if pressed(cocoa.value) {
        if !controller.isRunning {
          controller.StartMacro("cocoa_beans", fuel);
        }
      } else {
        var wart := Subscript(keybinds, "nether_wart");
        if wart.Err? { return; }
        if pressed(wart.value) {
          if !controller.isRunning {
            controller.StartMacro("nether_wart", fuel);
          }
        } else {
          var cobble := Subscript(keybinds, "cobblestone");
          if cobble.Err? { return; }
          if pressed(cobble.value) {
            if !controller.isRunning {
              controller.StartMacro("cobblestone", fuel);
            }
          }
        }
      }
    }
  }

  /** The start of `main()`: `HyMacroApp()` loads the configuration, and the
      `ValueError` (or `TypeError`) of `_validate_config` escapes
      `load_config`, which only catches decoding and missing-file errors, so
      `main()` exits and no application exists.  `null` stands for that exit. */
  method Launch(parsed: Json, faults: set<nat>) returns (app: HyMacroApp?)
    ensures app == null <==> !Validate(parsed).Valid?
    ensures app != null ==>
              fresh(app) && fresh(app.config) && fresh(app.controller) && app.Valid() &&
              app.config.config == parsed && app.controller.faults == faults &&
              !app.controller.isRunning && app.controller.Seen() == World([], 0) && app.running
  {
    var cm := new ConfigManager(parsed);
    var v := cm.ValidateConfig();
    if !v.Valid? {
      return null;
    }
    app := new HyMacroApp(cm, faults);
  }
}
