/** The configuration provider: a parsed configuration document, path lookup
    through nested dictionaries, and the check for the required top-level
    sections (main.py, class ConfigManager). */
module Config {
  import opened PyValue

  /** One argument of `get(*keys)`.  The call sites pass strings, and one
      passes the integer 100; JSON dictionaries only have string keys. */
  datatype Key = KStr(name: string) | KInt(n: int)

  /** The value reached by following `keys` one at a time from `v`: `None`
      as soon as the current value is not a dictionary or lacks the key. */
  function Lookup(v: Json, keys: seq<Key>): (r: Option<Json>)
    decreases |keys|
  {
    if keys == [] then Some(v)
    else match v
      case Obj(m) =>
        (match keys[0]
         case KStr(k) => if k in m then Lookup(m[k], keys[1..]) else None
         case KInt(_) => None)
      case _ => None
  }

  /** Looking up `p + q` is looking up `p`, then `q` from where `p` ended. */
  lemma {:induction false} LookupAppend(v: Json, p: seq<Key>, q: seq<Key>)
    ensures Lookup(v, p + q) == (match Lookup(v, p) case None => None case Some(x) => Lookup(x, q))
    decreases |p|
  {
    if p == [] {
      assert p + q == q;
    } else {
      assert (p + q)[0] == p[0];
      assert (p + q)[1..] == p[1..] + q;
      if v.Obj? && p[0].KStr? && p[0].name in v.fields {
        LookupAppend(v.fields[p[0].name], p[1..], q);
      }
    }
  }

  /** A successful lookup ends in a value that the last key selects from a
      dictionary reached by the path before it. */
  lemma LookupLast(v: Json, p: seq<Key>, k: string, x: Json)
    ensures Lookup(v, p + [KStr(k)]) == Some(x) <==>
            exists m :: Lookup(v, p) == Some(Obj(m)) && k in m && m[k] == x
  {
    LookupAppend(v, p, [KStr(k)]);
  }

  /** A path whose last key is an integer never reaches anything. */
  lemma LookupIntKeyNone(v: Json, p: seq<Key>, n: int)
    ensures Lookup(v, p + [KInt(n)]) == None
  {
    LookupAppend(v, p, [KInt(n)]);
  }

  /** The sections `_validate_config` requires, in the order it checks them. */
  const RequiredSections: seq<string> := ["macros", "commands", "keybinds", "general"]

  datatype Validation = Valid | Missing(section: string) | Invalid(error: PyError)

  /** The first of `sections` that `cfg` lacks; a value that does not support
      `in` fails on the first section it is asked about. */
  function CheckSections(cfg: Json, sections: seq<string>): Validation
    decreases |sections|
  {
    if sections == [] then Valid
    else match Contains(cfg, sections[0])
      case Err(e) => Invalid(e)
      case Ok(present) => if present then CheckSections(cfg, sections[1..]) else Missing(sections[0])
  }

  function Validate(cfg: Json): Validation
  {
    CheckSections(cfg, RequiredSections)
  }

  /** Each of the first `i` sections is a key of `m`. */
  predicate PresentUpTo(m: map<string, Json>, sections: seq<string>, i: nat)
    requires i <= |sections|
  {
    forall j :: 0 <= j < i ==> sections[j] in m
  }

  lemma PresentShift(m: map<string, Json>, sections: seq<string>, i: nat)
    requires sections != [] && i < |sections|
    ensures PresentUpTo(m, sections, i + 1) <==> sections[0] in m && PresentUpTo(m, sections[1..], i)
  {
    if sections[0] in m && PresentUpTo(m, sections[1..], i) {
      forall j | 0 <= j < i + 1 ensures sections[j] in m {
        if j > 0 { assert sections[j] == sections[1..][j - 1]; }
      }
    }
    if PresentUpTo(m, sections, i + 1) {
      forall j | 0 <= j < i ensures sections[1..][j] in m {
        assert sections[1..][j] == sections[j + 1];
      }
    }
  }

  /** `CheckSections` on a dictionary succeeds exactly when every section is
      present, and otherwise names the first absent one; it never raises. */
  lemma {:induction false} CheckSectionsSpec(m: map<string, Json>, sections: seq<string>)
    ensures CheckSections(Obj(m), sections) == Valid <==> PresentUpTo(m, sections, |sections|)
    ensures forall s :: CheckSections(Obj(m), sections) == Missing(s) <==>
              exists i :: 0 <= i < |sections| && sections[i] == s && s !in m && PresentUpTo(m, sections, i)
    ensures !CheckSections(Obj(m), sections).Invalid?
    decreases |sections|
  {
    var r := CheckSections(Obj(m), sections);
    assert PresentUpTo(m, sections, 0);
    if sections != [] {
      var rest := sections[1..];
      CheckSectionsSpec(m, rest);
      if sections[0] !in m {
        // the first section is absent, so no longer prefix is present
        forall i | 0 < i <= |sections| ensures !PresentUpTo(m, sections, i) {
          PresentShift(m, sections, i - 1);
        }
      } else {
        assert r == CheckSections(Obj(m), rest);
        PresentShift(m, sections, |rest|);
        forall s ensures r == Missing(s) <==>
              exists i :: 0 <= i < |sections| && sections[i] == s && s !in m && PresentUpTo(m, sections, i)
        {
          if r == Missing(s) {
            var i :| 0 <= i < |rest| && rest[i] == s && s !in m && PresentUpTo(m, rest, i);
            PresentShift(m, sections, i);
            assert sections[i + 1] == s;
          }
          if exists i :: 0 <= i < |sections| && sections[i] == s && s !in m && PresentUpTo(m, sections, i) {
            var i :| 0 <= i < |sections| && sections[i] == s && s !in m && PresentUpTo(m, sections, i);
            assert i > 0;
            PresentShift(m, sections, i - 1);
            assert rest[i - 1] == s;
          }
        }
      }
    }
  }

  /** `_validate_config` on a dictionary: valid iff macros, commands,
      keybinds and general are all present; otherwise it names the first
      missing one in that order. */
  lemma ValidateSpec(cfg: Json)
    requires cfg.Obj?
    ensures Validate(cfg) == Valid <==>
              "macros" in cfg.fields && "commands" in cfg.fields &&
              "keybinds" in cfg.fields && "general" in cfg.fields
    ensures Validate(cfg) == Missing("macros") <==> "macros" !in cfg.fields
    ensures Validate(cfg) == Missing("commands") <==>
              "macros" in cfg.fields && "commands" !in cfg.fields
    ensures Validate(cfg) == Missing("keybinds") <==>
              "macros" in cfg.fields && "commands" in cfg.fields && "keybinds" !in cfg.fields
    ensures Validate(cfg) == Missing("general") <==>
              "macros" in cfg.fields && "commands" in cfg.fields &&
              "keybinds" in cfg.fields && "general" !in cfg.fields
  {
    CheckSectionsSpec(cfg.fields, RequiredSections);
  }

  /** A document that is not a dictionary is rejected too: a number, a
      boolean or `null` cannot be asked `in`, and a list or string must
      contain all four names. */
  lemma ValidateNonObject(cfg: Json)
    requires cfg.Null? || cfg.Bool? || cfg.Int?
    ensures Validate(cfg) == Invalid(TypeError)
  {
  }

  /** `get('general', 'loop_delay_ms', 100)` as written at main.py:278: the
      100 is a third key, so the lookup is always `None`. */
  function LoopDelayAsWritten(cfg: Json): Option<Json>
  {
    Lookup(cfg, [KStr("general"), KStr("loop_delay_ms"), KInt(100)])
  }

  /** The poll delay in milliseconds that the run loop derives from a lookup
      result: `x / 1000.0` raises `TypeError` unless `x` is a number. */
  function PollDelayMs(x: Option<Json>): Result<int>
  {
    AsNumber(OrNone(x))
  }

  /** As written, the poll delay can never be computed, whatever the
      configuration: the run loop raises before its first poll. */
  lemma LoopDelayAsWrittenFails(cfg: Json)
    ensures LoopDelayAsWritten(cfg) == None
    ensures PollDelayMs(LoopDelayAsWritten(cfg)) == Err(TypeError)
  {
    LookupIntKeyNone(cfg, [KStr("general"), KStr("loop_delay_ms")], 100);
    assert [KStr("general"), KStr("loop_delay_ms")] + [KInt(100)] ==
           [KStr("general"), KStr("loop_delay_ms"), KInt(100)];
  }

  /** `get(*keys)` followed by a default for an absent or `None` value, as
      main.py:278 evidently intends. */
  function GetOr(cfg: Json, keys: seq<Key>, default: Json): Json
  {
    match Lookup(cfg, keys)
    case Some(x) => if x.Null? then default else x
    case None => default
  }

  function LoopDelay(cfg: Json): Json
  {
    GetOr(cfg, [KStr("general"), KStr("loop_delay_ms")], Int(100))
  }

  /** The corrected lookup yields the configured delay when there is one and
      100 ms when `general` or `loop_delay_ms` is absent (or `null`). */
  lemma LoopDelayCorrected(cfg: Json)
    ensures Lookup(cfg, [KStr("general"), KStr("loop_delay_ms")]) in {None, Some(Null)} ==>
              PollDelayMs(Some(LoopDelay(cfg))) == Ok(100)
    ensures forall n :: Lookup(cfg, [KStr("general"), KStr("loop_delay_ms")]) == Some(Int(n)) ==>
              PollDelayMs(Some(LoopDelay(cfg))) == Ok(n)
  {
  }

  /** The configuration manager over an already parsed document. */
  class ConfigManager {
    const config: Json

    constructor (parsed: Json)
      ensures config == parsed
    {
      config := parsed;
    }

    /** `get(*keys)`: walks the path one key at a time. */
    method Get(keys: seq<Key>) returns (r: Option<Json>)
      ensures r == Lookup(config, keys)
      ensures keys == [] ==> r == Some(config)
    {
      var value := config;
      var i := 0;
      while i < |keys|
        invariant 0 <= i <= |keys|
        invariant Lookup(config, keys) == Lookup(value, keys[i..])
      {
        var found := false;
        if value.Obj? && keys[i].KStr? && keys[i].name in value.fields {
          found := true;
        }
        if !found {
          return None;
        }
        value := value.fields[keys[i].name];
        i := i + 1;
      }
      r := Some(value);
    }

    /** `_validate_config`: the first required section that is not present. */
    method ValidateConfig() returns (r: Validation)
      ensures r == Validate(config)
    {
      var i := 0;
      while i < |RequiredSections|
        invariant 0 <= i <= |RequiredSections|
        invariant Validate(config) == CheckSections(config, RequiredSections[i..])
      {
        var section := RequiredSections[i];
        var present := Contains(config, section);
        if present.Err? {
          return Invalid(present.error);
        }
        if !present.value {
          return Missing(section);
        }
        i := i + 1;
      }
      r := Valid;
    }
  }
}
