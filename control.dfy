/** The control process: the fader state that `child_main` keeps (the base
    volume read once from the mixer, the current volume it updates in place)
    and its tick loop, which polls one key per tick and applies one ramp
    step.  The mixer element is represented by the sequence of values the
    process has set on it. */
module Control {
  import opened Ramp

  /** The key that applies the gain. */
  const FADE_KEY: char := 'f'

  /** What one non-blocking `getch` returns: no key (ERR) or one character. */
  datatype Key = NoKey | Pressed(c: char)

  /** The tick rule: the trigger key ramps the volume up, anything else
      (another key, or no key at all) ramps it down. */
  predicate IsFadeKey(key: Key) {
    key == Pressed(FADE_KEY)
  }

  /** The volume after one tick.  A tick whose selected step fails its guard
      changes nothing; an `f` tick never lowers the volume, and any other
      tick never raises a volume at or below the ceiling. */
  function NextVolume(base: int, current: int, key: Key): (r: int)
    ensures !WritesMixer(base, current, key) ==> r == current
    ensures IsFadeKey(key) ==> current <= r
    ensures !IsFadeKey(key) && (current as real) <= Ceiling(base) ==> r <= current
  {
    if IsFadeKey(key) then UpStep(base, current) else DownStep(base, current)
  }

  /** Whether the step selected by `key` passes its guard, and so writes the
      mixer. */
  predicate WritesMixer(base: int, current: int, key: Key) {
    if IsFadeKey(key) then UpGuard(base, current) else DownGuard(base, current)
  }

  /** The volume after a run of ticks, one per key, from `start`. */
  function Run(base: int, start: int, keys: seq<Key>): int
    decreases |keys|
  {
    if keys == [] then start
    else NextVolume(base, Run(base, start, keys[..|keys| - 1]), keys[|keys| - 1])
  }

  /** The values set on the mixer during a run of ticks, in order: at most
      one per tick, and the last one is the volume the run ends at. */
  function MixerWrites(base: int, start: int, keys: seq<Key>): (w: seq<int>)
    ensures |w| <= |keys|
    ensures 0 < |w| ==> w[|w| - 1] == Run(base, start, keys)
    decreases |keys|
  {
    if keys == [] then []
    else
      var before := Run(base, start, keys[..|keys| - 1]);
      var key := keys[|keys| - 1];
      MixerWrites(base, start, keys[..|keys| - 1]) +
        (if WritesMixer(base, before, key) then [NextVolume(base, before, key)] else [])
  }

  /** Every key is the trigger key: the operator holds the gain. */
  predicate Held(keys: seq<Key>) {
    forall i | 0 <= i < |keys| :: IsFadeKey(keys[i])
  }

  /** No key is the trigger key: the keyboard is idle or other keys are hit. */
  predicate Idle(keys: seq<Key>) {
    forall i | 0 <= i < |keys| :: !IsFadeKey(keys[i])
  }

  /** The volumes a run from the base volume can reach, for a non-negative
      base: above Lower(base), at most the ceiling, and strictly below the
      ceiling when the base is positive. */
  predicate Bounded(base: int, current: int) {
    Lower(base) < current as real <= Ceiling(base) &&
    (0 < base ==> (current as real) < Ceiling(base))
  }

  class Fader {
    const base: int
    var current: int
    var mixer: seq<int>

    /** `child_main` reads the base volume from the mixer and starts the
        current volume there. */
    constructor (base: int)
      ensures this.base == base && current == base && mixer == []
    {
      this.base := base;
      current := base;
      mixer := [];
    }

    /** `volume_fader_up`: below the ceiling, add a tenth of the remaining
        distance and set the mixer to the new volume; otherwise do nothing. */
    method FadeUp()
      modifies this
      ensures current == UpStep(base, old(current))
      ensures mixer == if UpGuard(base, old(current)) then old(mixer) + [current] else old(mixer)
    {
      if UpGuard(base, current) {
        current := UpStep(base, current);
        mixer := mixer + [current];
      }
    }

    /** `volume_fader_down`: above the base, subtract a twentieth of the
        distance to the ceiling and set the mixer to the new volume;
        otherwise do nothing. */
    method FadeDown()
      modifies this
      ensures current == DownStep(base, old(current))
      ensures mixer == if DownGuard(base, old(current)) then old(mixer) + [current] else old(mixer)
    {
      if DownGuard(base, current) {
        current := DownStep(base, current);
        mixer := mixer + [current];
      }
    }

    /** One tick of `child_main`'s loop: down unless the key read is the
        trigger key, up if it is. */
    method Tick(key: Key)
      modifies this
      ensures current == NextVolume(base, old(current), key)
      ensures mixer == if WritesMixer(base, old(current), key)
                       then old(mixer) + [current] else old(mixer)
    {
      if key != Pressed(FADE_KEY) {
        FadeDown();
      } else {
        FadeUp();
      }
    }

    /** `child_main`'s loop, one tick per key until the keys run out (the
        stop request). */
    method Loop(keys: seq<Key>)
      modifies this
      ensures current == Run(base, old(current), keys)
      ensures mixer == old(mixer) + MixerWrites(base, old(current), keys)
    {
      var i := 0;
      while i < |keys|
        invariant 0 <= i <= |keys|
        invariant current == Run(base, old(current), keys[..i])
        invariant mixer == old(mixer) + MixerWrites(base, old(current), keys[..i])
      {
        assert keys[..i + 1][..i] == keys[..i];
        Tick(keys[i]);
        i := i + 1;
      }
      assert keys[..i] == keys;
    }
  }

  /** A run splits at any point into a run to that point and a run of the
      remaining keys from there. */
  lemma {:induction false} RunSplit(base: int, start: int, keys: seq<Key>, i: nat)
    requires i <= |keys|
    ensures Run(base, start, keys) == Run(base, Run(base, start, keys[..i]), keys[i..])
    decreases |keys|
  {
    if i == |keys| {
      assert keys[..i] == keys;
      assert keys[i..] == [];
    } else {
      var n := |keys| - 1;
      RunSplit(base, start, keys[..n], i);
      assert keys[..n][..i] == keys[..i];
      assert keys[i..][..|keys[i..]| - 1] == keys[..n][i..];
      assert keys[i..][|keys[i..]| - 1] == keys[n];
    }
  }

  /** Holding the trigger key never lowers the volume. */
  lemma {:induction false} HeldNeverLowers(base: int, start: int, keys: seq<Key>)
    requires Held(keys)
    ensures start <= Run(base, start, keys)
    decreases |keys|
  {
    if keys != [] {
      var n := |keys| - 1;
      assert Held(keys[..n]);
      HeldNeverLowers(base, start, keys[..n]);
      assert IsFadeKey(keys[n]);
    }
  }

  /** A run of trigger-key ticks is non-decreasing. */
  lemma HeldMonotone(base: int, start: int, keys: seq<Key>, i: nat, j: nat)
    requires Held(keys) && i <= j <= |keys|
    ensures Run(base, start, keys[..i]) <= Run(base, start, keys[..j])
  {
    var prefix := keys[..j];
    RunSplit(base, start, prefix, i);
    assert prefix[..i] == keys[..i];
    assert Held(prefix[i..]);
    HeldNeverLowers(base, Run(base, start, keys[..i]), prefix[i..]);
  }

  /** Without the trigger key, from at most the ceiling, the volume never
      rises. */
  lemma {:induction false} IdleNeverRaises(base: int, start: int, keys: seq<Key>)
    requires Idle(keys) && (start as real) <= Ceiling(base)
    ensures Run(base, start, keys) <= start
    decreases |keys|
  {
    if keys != [] {
      var n := |keys| - 1;
      assert Idle(keys[..n]);
      IdleNeverRaises(base, start, keys[..n]);
      assert !IsFadeKey(keys[n]);
    }
  }

  /** A run of non-trigger ticks from at most the ceiling is non-increasing. */
  lemma IdleMonotone(base: int, start: int, keys: seq<Key>, i: nat, j: nat)
    requires Idle(keys) && (start as real) <= Ceiling(base) && i <= j <= |keys|
    ensures Run(base, start, keys[..j]) <= Run(base, start, keys[..i])
  {
    var prefix := keys[..j];
    assert Idle(keys[..i]);
    IdleNeverRaises(base, start, keys[..i]);
    RunSplit(base, start, prefix, i);
    assert prefix[..i] == keys[..i];
    assert Idle(prefix[i..]);
    IdleNeverRaises(base, Run(base, start, keys[..i]), prefix[i..]);
  }

  /** One tick keeps a volume bounded. */
  lemma TickKeepsBounded(base: int, current: int, key: Key)
    requires 0 <= base && Bounded(base, current)
    ensures Bounded(base, NextVolume(base, current, key))
  {
  }

  /** Every run from a bounded volume, in particular from the base volume
      itself, ends bounded: the volume never exceeds the ceiling. */
  lemma {:induction false} RunKeepsBounded(base: int, start: int, keys: seq<Key>)
    requires 0 <= base && Bounded(base, start)
    ensures Bounded(base, Run(base, start, keys))
    decreases |keys|
  {
    if keys != [] {
      var n := |keys| - 1;
      RunKeepsBounded(base, start, keys[..n]);
      TickKeepsBounded(base, Run(base, start, keys[..n]), keys[n]);
    }
  }

  /** Starting from the base volume with a non-negative base, no sequence of
      ticks takes the volume above the ceiling (or down to Lower(base)). */
  lemma Reachable(base: int, keys: seq<Key>)
    requires 0 <= base
    ensures Bounded(base, Run(base, base, keys))
    ensures 0 <= Run(base, base, keys) && Run(base, base, keys) as real <= Ceiling(base)
  {
    RunKeepsBounded(base, base, keys);
  }

  /** Every value a run sets on the mixer is bounded too. */
  lemma {:induction false} MixerWritesBounded(base: int, start: int, keys: seq<Key>)
    requires 0 <= base && Bounded(base, start)
    ensures forall k | 0 <= k < |MixerWrites(base, start, keys)| ::
              Bounded(base, MixerWrites(base, start, keys)[k])
    decreases |keys|
  {
    if keys != [] {
      var n := |keys| - 1;
      MixerWritesBounded(base, start, keys[..n]);
      RunKeepsBounded(base, start, keys[..n]);
      TickKeepsBounded(base, Run(base, start, keys[..n]), keys[n]);
    }
  }

  /** With no trigger key, from below the ceiling, each tick either lowers an
      above-base volume by at least one or leaves an at-most-base volume
      alone; so after `keys` ticks the volume is at most the base or at
      least |keys| below where it started. */
  lemma {:induction false} IdleDescends(base: int, start: int, keys: seq<Key>)
    requires Idle(keys) && (start as real) < Ceiling(base)
    ensures Run(base, start, keys) <= base || Run(base, start, keys) <= start - |keys|
    decreases |keys|
  {
    if keys != [] {
      var n := |keys| - 1;
      assert Idle(keys[..n]);
      IdleDescends(base, start, keys[..n]);
      IdleNeverRaises(base, start, keys[..n]);
      assert !IsFadeKey(keys[n]);
    }
  }

  /** An idle keyboard brings the volume down to at most the base within
      start - base ticks. */
  lemma IdleSettles(base: int, start: int, keys: seq<Key>)
    requires Idle(keys) && (start as real) < Ceiling(base) && start - base <= |keys|
    ensures Run(base, start, keys) <= base
  {
    IdleDescends(base, start, keys);
  }

  /** Holding the trigger key from a non-negative volume, each tick either
      raises the volume by at least one or the volume has already stalled
      within 10 of the ceiling; so after `keys` ticks the volume is within 10
      of the ceiling or at least |keys| above where it started. */
  lemma {:induction false} HeldClimbs(base: int, start: int, keys: seq<Key>)
    requires Held(keys) && 0 <= start
    ensures Ceiling(base) - Run(base, start, keys) as real < 10.0 ||
            start + |keys| <= Run(base, start, keys)
    decreases |keys|
  {
    if keys != [] {
      var n := |keys| - 1;
      var before := Run(base, start, keys[..n]);
      assert Held(keys[..n]);
      HeldClimbs(base, start, keys[..n]);
      HeldNeverLowers(base, start, keys[..n]);
      assert IsFadeKey(keys[n]);
      UpStallsIff(base, before);
    }
  }

  /** Holding the trigger key long enough brings the volume within 10 of the
      ceiling, where it stalls. */
  lemma HeldStalls(base: int, start: int, keys: seq<Key>)
    requires Held(keys) && 0 <= start && Ceiling(base) - start as real <= |keys| as real
    ensures Ceiling(base) - Run(base, start, keys) as real < 10.0
    ensures UpStep(base, Run(base, start, keys)) == Run(base, start, keys)
  {
    HeldClimbs(base, start, keys);
    HeldNeverLowers(base, start, keys);
    UpStallsIff(base, Run(base, start, keys));
  }
}
