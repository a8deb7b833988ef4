// Emitting a paste chord on a virtual keyboard that may fail at any event.
module ShortcutChord {
  import opened Prelude

  type Key = nat

  datatype KeyStep = KeyStep(key: Key, down: bool)

  // One attempt to emit a key event, and whether the device took it.
  datatype Emit = Emit(key: Key, down: bool, ok: bool)

  class KeyEmitter {
    // Whether the n-th attempt succeeds.
    const accepts: nat -> bool
    var log: seq<Emit>

    constructor (accepts: nat -> bool)
      ensures this.accepts == accepts && log == []
    {
      this.accepts := accepts;
      log := [];
    }

    method EmitKey(key: Key, down: bool) returns (ok: bool)
      modifies this
      ensures ok == accepts(|old(log)|) && log == old(log) + [Emit(key, down, ok)]
    {
      ok := accepts(|log|);
      log := log + [Emit(key, down, ok)];
    }
  }

  // ---------------------------------------------------------------- what a chord is

  function Reversed(keys: seq<Key>): (r: seq<Key>)
    ensures |r| == |keys| && forall k :: 0 <= k < |r| ==> r[k] == keys[|keys| - 1 - k]
  {
    seq(|keys|, k requires 0 <= k < |keys| => keys[|keys| - 1 - k])
  }

  // Press the modifiers, press and release the key, release the modifiers in reverse.
  function PlanAt(modifiers: seq<Key>, key: Key, k: nat): KeyStep
    requires k < 2 * |modifiers| + 2
  {
    var n := |modifiers|;
    if k < n then KeyStep(modifiers[k], true)
    else if k == n then KeyStep(key, true)
    else if k == n + 1 then KeyStep(key, false)
    else KeyStep(modifiers[2 * n + 1 - k], false)
  }

  function PlanLength(modifiers: seq<Key>): nat { 2 * |modifiers| + 2 }

  // The first `count` steps of the plan, all taken.
  function Taken(modifiers: seq<Key>, key: Key, count: nat): (r: seq<Emit>)
    requires count <= PlanLength(modifiers)
    ensures |r| == count
    ensures forall k :: 0 <= k < count ==>
              r[k] == Emit(PlanAt(modifiers, key, k).key, PlanAt(modifiers, key, k).down, true)
  {
    if count == 0 then []
    else
      var step := PlanAt(modifiers, key, count - 1);
      Taken(modifiers, key, count - 1) + [Emit(step.key, step.down, true)]
  }

  // How many modifiers are still pressed when step `f` of the plan fails.
  function StillPressed(modifiers: seq<Key>, f: nat): (r: nat)
    requires f < PlanLength(modifiers)
    ensures r <= |modifiers|
  {
    var n := |modifiers|;
    if f <= n then f else if f == n + 1 then n else 2 * n + 2 - f
  }

  // What is released after step `f` failed: the key if it is down, then the pressed modifiers,
  // the last pressed first.
  function CleanupKeys(modifiers: seq<Key>, key: Key, f: nat): seq<Key>
    requires f < PlanLength(modifiers)
  {
    (if f == |modifiers| + 1 then [key] else []) + Reversed(modifiers[..StillPressed(modifiers, f)])
  }

  predicate ReleasesOf(emits: seq<Emit>, keys: seq<Key>) {
    |emits| == |keys| && forall k :: 0 <= k < |keys| ==> emits[k].key == keys[k] && !emits[k].down
  }

  // The attempts of one chord: the whole plan, or the plan up to its first failure followed by
  // one release attempt for everything still down.
  predicate ChordLog(emits: seq<Emit>, modifiers: seq<Key>, key: Key, failed: Option<nat>) {
    match failed
    case None => emits == Taken(modifiers, key, PlanLength(modifiers))
    case Some(f) =>
      && f < PlanLength(modifiers) && f < |emits|
      && emits[..f] == Taken(modifiers, key, f)
      && emits[f] == Emit(PlanAt(modifiers, key, f).key, PlanAt(modifiers, key, f).down, false)
      && ReleasesOf(emits[f + 1..], CleanupKeys(modifiers, key, f))
  }

  // ---------------------------------------------------------------- sending it

  // The returned error is the first failure, named by its place among this chord's attempts.
  method SendShortcut(emitter: KeyEmitter, modifiers: seq<Key>, key: Key) returns (failed: Option<nat>)
    modifies emitter
    ensures old(emitter.log) <= emitter.log
    ensures ChordLog(emitter.log[|old(emitter.log)|..], modifiers, key, failed)
  {
    ghost var before := emitter.log;
    var pressedModifiers, keyPressed;
    failed, pressedModifiers, keyPressed := Attempt(emitter, modifiers, key);
    if failed.Some? {
      ghost var reached := emitter.log;
      CleanUp(emitter, pressedModifiers, key, keyPressed);
      ghost var all, f := emitter.log[|before|..], failed.value;
      assert all == reached[|before|..] + emitter.log[|reached|..];
      assert all[..f] == Taken(modifiers, key, f);
      assert all[f + 1..] == emitter.log[|reached|..];
    }
  }

  // The log after a phase of the plan: it went through, or stopped at its first failure.
  ghost predicate Reached(
    before: seq<Emit>, log: seq<Emit>, modifiers: seq<Key>, key: Key, failed: Option<nat>, count: nat)
    requires count <= PlanLength(modifiers)
  {
    match failed
    case None => log == before + Taken(modifiers, key, count)
    case Some(f) =>
      && f < PlanLength(modifiers)
      && var step := PlanAt(modifiers, key, f);
         log == before + Taken(modifiers, key, f) + [Emit(step.key, step.down, false)]
  }

  method Attempt(emitter: KeyEmitter, modifiers: seq<Key>, key: Key)
    returns (failed: Option<nat>, pressedModifiers: seq<Key>, keyPressed: bool)
    modifies emitter
    ensures Reached(old(emitter.log), emitter.log, modifiers, key, failed, PlanLength(modifiers))
    ensures failed.Some? ==>
              && pressedModifiers == modifiers[..StillPressed(modifiers, failed.value)]
              && (keyPressed <==> failed.value == |modifiers| + 1)
  {
    keyPressed := false;
    failed, pressedModifiers := PressModifiers(emitter, modifiers, key);
    if failed.Some? {
      return;
    }
    var ok := emitter.EmitKey(key, true);
    if !ok {
      return Some(|modifiers|), pressedModifiers, false;
    }
    ok := emitter.EmitKey(key, false);
    if !ok {
      return Some(|modifiers| + 1), pressedModifiers, true;
    }
    failed, pressedModifiers := ReleaseModifiers(emitter, modifiers, key, old(emitter.log));
  }

  method PressModifiers(emitter: KeyEmitter, modifiers: seq<Key>, key: Key)
    returns (failed: Option<nat>, pressed: seq<Key>)
    modifies emitter
    ensures Reached(old(emitter.log), emitter.log, modifiers, key, failed, |modifiers|)
    ensures match failed
            case None => pressed == modifiers
            case Some(f) => f < |modifiers| && pressed == modifiers[..f]
  {
    pressed := [];
    for i := 0 to |modifiers|
      invariant pressed == modifiers[..i]
      invariant emitter.log == old(emitter.log) + Taken(modifiers, key, i)
    {
      var ok := emitter.EmitKey(modifiers[i], true);
      if !ok {
        return Some(i), pressed;
      }
      pressed := pressed + [modifiers[i]];
    }
    failed := None;
  }

  method ReleaseModifiers(emitter: KeyEmitter, modifiers: seq<Key>, key: Key, ghost before: seq<Emit>)
    returns (failed: Option<nat>, pressed: seq<Key>)
    requires emitter.log == before + Taken(modifiers, key, |modifiers| + 2)
    modifies emitter
    ensures Reached(before, emitter.log, modifiers, key, failed, PlanLength(modifiers))
    ensures failed.Some? ==>
              failed.value > |modifiers| + 1 && pressed == modifiers[..StillPressed(modifiers, failed.value)]
  {
    var n := |modifiers|;
    var step := n + 2;
    pressed := modifiers;
    while pressed != []
      invariant n + 2 <= step <= 2 * n + 2 && pressed == modifiers[..2 * n + 2 - step]
      invariant emitter.log == before + Taken(modifiers, key, step)
      decreases |pressed|
    {
      var ok := emitter.EmitKey(pressed[|pressed| - 1], false);
      if !ok {
        return Some(step), pressed;
      }
      pressed := pressed[..|pressed| - 1];
      step := step + 1;
    }
    failed := None;
  }

  method CleanUp(emitter: KeyEmitter, modifiers: seq<Key>, key: Key, keyPressed: bool)
    modifies emitter
    ensures old(emitter.log) <= emitter.log
    ensures ReleasesOf(emitter.log[|old(emitter.log)|..], (if keyPressed then [key] else []) + Reversed(modifiers))
  {
    ghost var before := emitter.log;
    ghost var done: seq<Emit> := [];
    if keyPressed {
      var ok := emitter.EmitKey(key, false);
      done := [Emit(key, false, ok)];
    }
    ghost var first := if keyPressed then [key] else [];
    assert first + Reversed([]) == first;
    var left := modifiers;
    assert modifiers[|left|..] == [];
    while left != []
      invariant left <= modifiers && emitter.log == before + done
      invariant ReleasesOf(done, first + Reversed(modifiers[|left|..]))
      decreases |left|
    {
      var modifier := left[|left| - 1];
      left := left[..|left| - 1];
      var ok := emitter.EmitKey(modifier, false);
      ReversedOneMore(modifiers, |left|, first);
      ReleasesOneMore(done, first + Reversed(modifiers[|left| + 1..]), modifier, ok);
      assert before + done + [Emit(modifier, false, ok)] == before + (done + [Emit(modifier, false, ok)]);
      done := done + [Emit(modifier, false, ok)];
    }
    assert modifiers[0..] == modifiers;
    assert emitter.log[|before|..] == done;
  }

  lemma ReversedOneMore(keys: seq<Key>, n: nat, first: seq<Key>)
    requires n < |keys|
    ensures first + Reversed(keys[n..]) == first + Reversed(keys[n + 1..]) + [keys[n]]
  {
    assert Reversed(keys[n..]) == Reversed(keys[n + 1..]) + [keys[n]];
  }

  lemma ReleasesOneMore(done: seq<Emit>, keys: seq<Key>, key: Key, ok: bool)
    requires ReleasesOf(done, keys)
    ensures ReleasesOf(done + [Emit(key, false, ok)], keys + [key])
  {
  }

  // ---------------------------------------------------------------- what a chord guarantees

  lemma AfterFailureOnlyReleases(emits: seq<Emit>, modifiers: seq<Key>, key: Key, f: nat, i: nat)
    requires ChordLog(emits, modifiers, key, Some(f)) && f < i < |emits|
    ensures !emits[i].down
  {
    assert emits[i] == emits[f + 1..][i - f - 1];
  }

  lemma PressesAreEarly(emits: seq<Emit>, modifiers: seq<Key>, key: Key, failed: Option<nat>, i: nat)
    requires ChordLog(emits, modifiers, key, failed)
    requires i < |emits| && emits[i].down && emits[i].ok
    ensures i <= |modifiers| && emits[i].key == PlanAt(modifiers, key, i).key
    ensures failed.Some? ==> i < failed.value
  {
    if failed.Some? {
      if i > failed.value { AfterFailureOnlyReleases(emits, modifiers, key, failed.value, i); }
      assert i < failed.value;
      assert emits[i] == emits[..failed.value][i];
    }
  }

  // Where the release of the `i`-th press is attempted.
  function ReleasePlace(modifiers: seq<Key>, failed: Option<nat>, i: nat): nat
    requires i <= |modifiers| && (failed.Some? ==> i < failed.value < PlanLength(modifiers))
  {
    var n := |modifiers|;
    if failed.None? || 2 * n + 1 - i < failed.value then 2 * n + 1 - i
    else
      var f := failed.value;
      if i == n then f + 1
      else f + StillPressed(modifiers, f) - i + if f == n + 1 then 1 else 0
  }

  // Every press the device took has a later attempt to release the same key, other than the
  // attempt that failed.
  lemma EveryPressIsReleased(emits: seq<Emit>, modifiers: seq<Key>, key: Key, failed: Option<nat>, i: nat)
    returns (j: nat)
    requires ChordLog(emits, modifiers, key, failed)
    requires i < |emits| && emits[i].down && emits[i].ok
    ensures i <= |modifiers| && (failed.Some? ==> i < failed.value) && j == ReleasePlace(modifiers, failed, i)
    ensures i < j < |emits| && emits[j].key == emits[i].key && !emits[j].down && failed != Some(j)
  {
    var n := |modifiers|;
    PressesAreEarly(emits, modifiers, key, failed, i);
    j := ReleasePlace(modifiers, failed, i);
    if failed.Some? {
      var f, cleanup := failed.value, CleanupKeys(modifiers, key, failed.value);
      if 2 * n + 1 - i < f {
        assert emits[j] == emits[..f][j];
      } else {
        var k := j - f - 1;
        assert emits[j] == emits[f + 1..][k];
        assert cleanup[k] == PlanAt(modifiers, key, i).key;
      }
    }
  }

  // What was pressed later is released earlier, on success and after any failure.
  lemma ReleasedInReverse(emits: seq<Emit>, modifiers: seq<Key>, key: Key, failed: Option<nat>, i: nat, k: nat)
    requires ChordLog(emits, modifiers, key, failed)
    requires i < k < |emits| && emits[i].down && emits[i].ok && emits[k].down && emits[k].ok
    ensures k <= |modifiers| && (failed.Some? ==> k < failed.value)
    ensures ReleasePlace(modifiers, failed, k) < ReleasePlace(modifiers, failed, i)
  {
    var at_i := EveryPressIsReleased(emits, modifiers, key, failed, i);
    var at_k := EveryPressIsReleased(emits, modifiers, key, failed, k);
  }

  // The keys that are down after a log.
  function HeldAfter(emits: seq<Emit>): set<Key> {
    if emits == [] then {}
    else
      var before, last := HeldAfter(emits[..|emits| - 1]), emits[|emits| - 1];
      if !last.ok then before else if last.down then before + {last.key} else before - {last.key}
  }

  predicate ReleasedAfter(emits: seq<Emit>, k: Key, i: nat) {
    exists j :: i < j < |emits| && emits[j] == Emit(k, false, true)
  }

  // A key is down only if it was pressed and not released since.
  lemma {:induction false} HeldWasPressed(emits: seq<Emit>, k: Key) returns (i: nat)
    requires k in HeldAfter(emits)
    ensures i < |emits| && emits[i] == Emit(k, true, true) && !ReleasedAfter(emits, k, i)
    decreases |emits|
  {
    var last, before := emits[|emits| - 1], emits[..|emits| - 1];
    if last == Emit(k, true, true) {
      i := |emits| - 1;
    } else {
      i := HeldWasPressed(before, k);
      assert before[i] == emits[i];
      forall j | i < j < |emits|
        ensures emits[j] != Emit(k, false, true)
      {
        if j < |emits| - 1 { assert before[j] == emits[j]; }
      }
    }
  }

  lemma OthersSucceed(emits: seq<Emit>, modifiers: seq<Key>, key: Key, failed: Option<nat>, j: nat)
    requires ChordLog(emits, modifiers, key, failed) && j < |emits| && failed != Some(j)
    requires failed.Some? ==> forall j :: failed.value < j < |emits| ==> emits[j].ok
    ensures emits[j].ok
  {
    if failed.Some? && j < failed.value { assert emits[j] == emits[..failed.value][j]; }
  }

  lemma NotHeld(emits: seq<Emit>, k: Key)
    requires forall i: nat :: i < |emits| && emits[i] == Emit(k, true, true) ==> ReleasedAfter(emits, k, i)
    ensures k !in HeldAfter(emits)
  {
    if k in HeldAfter(emits) {
      var i := HeldWasPressed(emits, k);
      assert false;
    }
  }

  // When the chord succeeds, or the releases after its failure do, no key is left down.
  lemma NoKeyIsLeftDown(emits: seq<Emit>, modifiers: seq<Key>, key: Key, failed: Option<nat>)
    requires ChordLog(emits, modifiers, key, failed)
    requires failed.Some? ==> forall j :: failed.value < j < |emits| ==> emits[j].ok
    ensures HeldAfter(emits) == {}
  {
    forall k
      ensures k !in HeldAfter(emits)
    {
      forall i: nat | i < |emits| && emits[i] == Emit(k, true, true)
        ensures ReleasedAfter(emits, k, i)
      {
        var j := EveryPressIsReleased(emits, modifiers, key, failed, i);
        OthersSucceed(emits, modifiers, key, failed, j);
        assert emits[j] == Emit(k, false, true);
      }
      NotHeld(emits, k);
    }
  }

  // Until it fails, a chord presses the modifiers in order and the key, and then releases the key and
  // the modifiers in reverse; all these attempts succeed but the one that fails.
  lemma AttemptsInOrder(emits: seq<Emit>, modifiers: seq<Key>, key: Key, failed: Option<nat>, k: nat)
    requires ChordLog(emits, modifiers, key, failed)
    requires k < |emits| && (failed.Some? ==> k <= failed.value)
    ensures var n := |modifiers|;
            && k < 2 * n + 2
            && emits[k].key == (if k < n then modifiers[k] else if k <= n + 1 then key else modifiers[2 * n + 1 - k])
            && (emits[k].down <==> k <= n) && (emits[k].ok <==> failed != Some(k))
  {
    if failed.Some? && k < failed.value { assert emits[k] == emits[..failed.value][k]; }
  }

  // After a failure only keys that are down are released: each release undoes one press that is not
  // undone yet.
  lemma OnlyPressedIsReleased(emits: seq<Emit>, modifiers: seq<Key>, key: Key, f: nat, j: nat) returns (i: nat)
    requires ChordLog(emits, modifiers, key, Some(f)) && f < j < |emits|
    ensures !emits[j].down && i < f && emits[i].down && emits[i].ok && emits[i].key == emits[j].key
    ensures i <= |modifiers| && ReleasePlace(modifiers, Some(f), i) == j
  {
    var n, place, cleanup := |modifiers|, j - f - 1, CleanupKeys(modifiers, key, f);
    assert emits[j] == emits[f + 1..][place];
    if f == n + 1 && place == 0 {
      i := n;
    } else {
      i := StillPressed(modifiers, f) - 1 - (place - if f == n + 1 then 1 else 0);
      assert cleanup[place] == modifiers[i];
    }
    assert emits[i] == emits[..f][i];
  }

  // A chord that succeeds is balanced: the step that undoes a press lies as far from the end as
  // the press lies from the start.
  lemma SuccessIsNested(emits: seq<Emit>, modifiers: seq<Key>, key: Key, k: nat)
    requires ChordLog(emits, modifiers, key, None) && k <= |modifiers|
    ensures |emits| == 2 * |modifiers| + 2
    ensures emits[k].down && emits[k].ok
    ensures emits[|emits| - 1 - k] == Emit(emits[k].key, false, true)
  {
  }
}
