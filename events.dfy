/** The abstract input-injection layer.  Instead of moving the mouse and
    pressing keys, the model records each primitive call as an event.  Any
    such call of the foreign libraries may raise; which attempts raise is
    given by a fault plan, the set of attempt numbers (counted from 0 over
    the whole run) that fail. */
module Events {
  import opened PyValue

  /** One primitive call, with the argument the Python code passes.
      `Press`/`Release` are `keyboard.press`/`keyboard.release`; `Tap` is
      `pyautogui.press` (down and up); `Sleep` is `time.sleep`, in ms. */
  datatype Event =
    | MouseDown(button: Json)
    | MouseUp(button: Json)
    | Press(key: Json)
    | Release(key: Json)
    | Tap(key: Json)
    | Write(text: Json)
    | Sleep(ms: int)

  /** One step of a routine: attempt a primitive call, or raise an
      exception of the routine's own making (a bad index, a bad type). */
  datatype Step = Emit(event: Event) | Raise(error: PyError)

  /** What the outside world has seen: the events that happened, and the
      number of primitive calls attempted so far. */
  datatype World = World(trace: seq<Event>, calls: nat)

  /** The world after a run of steps, and whether the run ended with an
      exception. */
  datatype Outcome = Outcome(world: World, raised: bool)

  /** One attempt of a primitive call, which counts as an attempt either
      way: a planned fault raises and records nothing; otherwise the event
      happens. */
  function Attempted(w: World, faults: set<nat>, e: Event): Outcome
  {
    if w.calls in faults then Outcome(World(w.trace, w.calls + 1), true)
    else Outcome(World(w.trace + [e], w.calls + 1), false)
  }

  /** Running a straight-line routine inside `try`: the first exception
      abandons the remaining steps. */
  function Play(steps: seq<Step>, faults: set<nat>, w: World): Outcome
    decreases |steps|
  {
    if steps == [] then Outcome(w, false)
    else match steps[0]
      case Raise(_) => Outcome(w, true)
      case Emit(e) =>
        var o := Attempted(w, faults, e);
        if o.raised then o else Play(steps[1..], faults, o.world)
  }

  /** The events a routine would produce if no primitive call failed: those
      before its first own exception. */
  function Emitted(steps: seq<Step>): seq<Event>
    decreases |steps|
  {
    if steps == [] then []
    else match steps[0]
      case Raise(_) => []
      case Emit(e) => [e] + Emitted(steps[1..])
  }

  /** The plan that attempts the given events one after another. */
  function Emits(es: seq<Event>): seq<Step>
    decreases |es|
  {
    if es == [] then [] else [Emit(es[0])] + Emits(es[1..])
  }

  /** Does the routine run to its end when no primitive call fails? */
  predicate Completes(steps: seq<Step>)
  {
    forall i :: 0 <= i < |steps| ==> steps[i].Emit?
  }

  /** Whatever the faults, a routine only appends to the trace, and what it
      appends is a prefix of the events it would produce without faults. */
  lemma {:induction false} PlayPrefix(steps: seq<Step>, faults: set<nat>, w: World)
    ensures w.trace <= Play(steps, faults, w).world.trace
    ensures Play(steps, faults, w).world.trace[|w.trace|..] <= Emitted(steps)
    ensures w.calls <= Play(steps, faults, w).world.calls <= w.calls + |steps|
    decreases |steps|
  {
    if steps != [] && steps[0].Emit? {
      var o := Attempted(w, faults, steps[0].event);
      if !o.raised {
        PlayPrefix(steps[1..], faults, o.world);
        var t := Play(steps[1..], faults, o.world).world.trace;
        assert t[|w.trace|..] == [steps[0].event] + t[|o.world.trace|..];
      }
    }
  }

  /** A routine completes iff its first step is an attempt and the rest
      completes. */
  lemma CompletesCons(steps: seq<Step>)
    requires steps != []
    ensures Completes(steps) <==> steps[0].Emit? && Completes(steps[1..])
  {
    if steps[0].Emit? && Completes(steps[1..]) {
      forall i | 0 <= i < |steps| ensures steps[i].Emit? {
        if i > 0 { assert steps[i] == steps[1..][i - 1]; }
      }
    }
    if Completes(steps) {
      forall i | 0 <= i < |steps[1..]| ensures steps[1..][i].Emit? {
        assert steps[1..][i] == steps[i + 1];
      }
    }
  }

  /** With no fault among the attempts it makes, a routine produces exactly
      its fault-free events, and it raises exactly when it does not
      complete. */
  lemma {:induction false} PlayReliable(steps: seq<Step>, faults: set<nat>, w: World)
    requires forall i :: w.calls <= i < w.calls + |steps| ==> i !in faults
    ensures Play(steps, faults, w).world.trace == w.trace + Emitted(steps)
    ensures Play(steps, faults, w).raised <==> !Completes(steps)
    ensures Completes(steps) ==> Play(steps, faults, w).world.calls == w.calls + |steps|
    decreases |steps|
  {
    if steps != [] {
      CompletesCons(steps);
      if steps[0].Emit? {
        var o := Attempted(w, faults, steps[0].event);
        assert w.calls !in faults;
        assert Play(steps, faults, w) == Play(steps[1..], faults, o.world);
        PlayReliable(steps[1..], faults, o.world);
      }
    }
  }

  /** A routine that completes produces one event per step. */
  lemma {:induction false} EmittedComplete(steps: seq<Step>)
    requires Completes(steps)
    ensures |Emitted(steps)| == |steps|
    ensures forall i :: 0 <= i < |steps| ==> Emitted(steps)[i] == steps[i].event
    decreases |steps|
  {
    if steps != [] {
      CompletesCons(steps);
      EmittedComplete(steps[1..]);
    }
  }

  lemma {:induction false} EmitsSpec(es: seq<Event>)
    ensures |Emits(es)| == |es|
    ensures Completes(Emits(es))
    ensures Emitted(Emits(es)) == es
    decreases |es|
  {
    if es != [] {
      EmitsSpec(es[1..]);
      var p := Emits(es);
      assert p[1..] == Emits(es[1..]);
      forall i | 0 <= i < |p| ensures p[i].Emit? {
        if i > 0 { assert p[i] == Emits(es[1..])[i - 1]; }
      }
    }
  }

  /** Running a plan that starts with an attempt: the first event happens
      unless the attempt faults, and then the rest runs. */
  lemma PlayFirst(es: seq<Event>, rest: seq<Step>, faults: set<nat>, w: World)
    requires es != []
    ensures Play(Emits(es) + rest, faults, w) ==
            (var o := Attempted(w, faults, es[0]); if o.raised then o else Play(Emits(es[1..]) + rest, faults, o.world))
    ensures Play(Emits(es), faults, w) ==
            (var o := Attempted(w, faults, es[0]); if o.raised then o else Play(Emits(es[1..]), faults, o.world))
  {
    assert (Emits(es) + rest)[1..] == Emits(es[1..]) + rest;
  }

  /** A fault on the very first attempt abandons the routine with nothing
      recorded; a fault on a later attempt leaves a strict prefix. */
  lemma {:induction false} PlayFaultTruncates(steps: seq<Step>, faults: set<nat>, w: World, k: nat)
    requires Completes(steps) && k < |steps|
    requires w.calls + k in faults
    requires forall i :: w.calls <= i < w.calls + k ==> i !in faults
    ensures |Emitted(steps)| == |steps|
    ensures Play(steps, faults, w) == Outcome(World(w.trace + Emitted(steps)[..k], w.calls + k + 1), true)
    decreases k
  {
    EmittedComplete(steps);
    CompletesCons(steps);
    var e := steps[0].event;
    var o := Attempted(w, faults, e);
    if k == 0 {
      assert w.trace + Emitted(steps)[..0] == w.trace;
    } else {
      assert !o.raised;
      PlayFaultTruncates(steps[1..], faults, o.world, k - 1);
      var rest := Emitted(steps[1..]);
      assert Emitted(steps)[..k] == [e] + rest[..k - 1];
      ConcatAssoc(w.trace, [e], rest[..k - 1]);
    }
  }

  lemma ConcatAssoc(a: seq<Event>, b: seq<Event>, c: seq<Event>)
    ensures (a + b) + c == a + (b + c)
  {
  }

  /** Running `a + b` is running `a`, then `b` unless `a` raised. */
  lemma {:induction false} PlayAppend(a: seq<Step>, b: seq<Step>, faults: set<nat>, w: World)
    ensures Play(a + b, faults, w) ==
            (var o := Play(a, faults, w); if o.raised then o else Play(b, faults, o.world))
    decreases |a|
  {
    if a == [] {
      assert a + b == b;
    } else {
      assert (a + b)[0] == a[0];
      assert (a + b)[1..] == a[1..] + b;
      if a[0].Emit? {
        var o := Attempted(w, faults, a[0].event);
        if !o.raised { PlayAppend(a[1..], b, faults, o.world); }
      }
    }
  }

  /** The fault-free events of `a + b`. */
  lemma {:induction false} EmittedAppend(a: seq<Step>, b: seq<Step>)
    ensures Emitted(a + b) == if Completes(a) then Emitted(a) + Emitted(b) else Emitted(a)
    decreases |a|
  {
    if a == [] {
      assert a + b == b;
    } else {
      assert (a + b)[0] == a[0];
      assert (a + b)[1..] == a[1..] + b;
      EmittedAppend(a[1..], b);
      CompletesCons(a);
    }
  }

  /** Total time asleep, in milliseconds, over a trace. */
  function SleepTotal(t: seq<Event>): int
    decreases |t|
  {
    if t == [] then 0
    else (if t[0].Sleep? then t[0].ms else 0) + SleepTotal(t[1..])
  }

  lemma {:induction false} SleepTotalAppend(a: seq<Event>, b: seq<Event>)
    ensures SleepTotal(a + b) == SleepTotal(a) + SleepTotal(b)
    decreases |a|
  {
    if a == [] {
      assert a + b == b;
    } else {
      assert (a + b)[1..] == a[1..] + b;
      SleepTotalAppend(a[1..], b);
    }
  }
}
