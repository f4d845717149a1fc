/** The rule that decides, once per frame, whether a tone sounds: the tone
    is edge-triggered on the ball entering a new slot, and the component
    remembers the slot of the last tone it actually played. */
module Tones {
  import Notes
  import Physics

  datatype Option<T> = None | Some(value: T)

  /** What the frame sees of the audio side: whether the user enabled
      sound, whether an audio context exists and is running, and whether
      building the tone throws (an error that is logged and swallowed). */
  datatype AudioEnv = AudioEnv(enabled: bool, running: bool, fails: bool)

  /** A short tone: its pitch in hertz and its starting gain. */
  datatype Tone = Tone(frequency: real, volume: real)

  const MaxVolume: real := 0.3
  const VolumeGain: real := 10.0

  /** Gain of a tone: faster means louder, up to a cap of 0.3. */
  function Volume(velocity: real): (r: real)
    ensures 0.0 <= r <= MaxVolume
    ensures r == MaxVolume <==> Physics.Abs(velocity) * VolumeGain >= MaxVolume
    ensures r < MaxVolume ==> r == Physics.Abs(velocity) * VolumeGain
  {
    var loud := Physics.Abs(velocity) * VolumeGain;
    if MaxVolume < loud then MaxVolume else loud
  }

  /** Volume depends on speed only, and never falls as the speed grows. */
  lemma VolumeMonotone(v: real, w: real)
    requires Physics.Abs(v) <= Physics.Abs(w)
    ensures Volume(v) <= Volume(w)
    ensures Volume(-v) == Volume(v)
  {
  }

  /** A ball at rest is silent; one at 0.03 per frame or faster is at full volume. */
  lemma VolumeExtremes(v: real)
    ensures Volume(0.0) == 0.0
    ensures Physics.Abs(v) >= 0.03 ==> Volume(v) == MaxVolume
  {
  }

  /** Sound is on and the context is running. */
  predicate Audible(env: AudioEnv)
  {
    env.enabled && env.running
  }

  /** A tone is played this frame: audible, the slot index differs from
      the remembered one, and building the tone did not throw. */
  predicate Fires(env: AudioEnv, prev: int, index: int): (b: bool)
    ensures b ==> index != prev && env.enabled && env.running
    ensures index == prev || !env.enabled || !env.running || env.fails ==> !b
  {
    Audible(env) && index != prev && !env.fails
  }

  /** The tone played this frame, for slot index `index`, character `ch`
      and the frame's damped velocity, given the remembered slot `prev`. */
  function Cue(env: AudioEnv, prev: int, index: int, ch: char, velocity: real): (t: Option<Tone>)
    ensures t.Some? ==> index != prev && Audible(env) && !env.fails
    ensures t.Some? ==> 0.0 <= t.value.volume <= MaxVolume
    ensures t.Some? ==> Notes.LowestNote <= t.value.frequency <= Notes.HighestNote
  {
    if Fires(env, prev, index) then Some(Tone(Notes.NoteFrequency(ch), Volume(velocity))) else None
  }

  /** The remembered slot after the frame: it moves only when a tone is played. */
  function NextPrev(env: AudioEnv, prev: int, index: int): (p: int)
    ensures p != prev ==> Fires(env, prev, index) && p == index
    ensures Fires(env, prev, index) ==> p == index
  {
    if Fires(env, prev, index) then index else prev
  }

  /** The remembered slot tracks the tones: no tone, no change. */
  lemma CueTracksPrev(env: AudioEnv, prev: int, index: int, ch: char, velocity: real)
    ensures Cue(env, prev, index, ch, velocity).None? <==> NextPrev(env, prev, index) == prev
  {
  }

  /** Number of tones played over a run of frames whose slot indices are
      `indices`, with the audio side constant, starting from remembered slot `prev`. */
  function TonesOver(env: AudioEnv, prev: int, indices: seq<int>): (r: nat)
    ensures r <= |indices|
    decreases |indices|
  {
    if indices == [] then 0
    else (if Fires(env, prev, indices[0]) then 1 else 0)
         + TonesOver(env, NextPrev(env, prev, indices[0]), indices[1..])
  }

  /** Number of slot changes along a run: frames whose index differs from
      the one before (the first frame compared with `prev`). */
  function Transitions(prev: int, indices: seq<int>): nat
    decreases |indices|
  {
    if indices == [] then 0
    else (if indices[0] != prev then 1 else 0) + Transitions(indices[0], indices[1..])
  }

  /** While the audio side stays audible and healthy, exactly one tone
      sounds per slot change: the rule is edge-triggered. */
  lemma {:induction false} OneTonePerTransition(env: AudioEnv, prev: int, indices: seq<int>)
    requires Audible(env) && !env.fails
    ensures TonesOver(env, prev, indices) == Transitions(prev, indices)
    decreases |indices|
  {
    if indices != [] {
      OneTonePerTransition(env, indices[0], indices[1..]);
    }
  }

  /** With sound off, the context not running, or tone building failing,
      no run of frames plays anything. */
  lemma {:induction false} SilentWhenUnavailable(env: AudioEnv, prev: int, indices: seq<int>)
    requires !Audible(env) || env.fails
    ensures TonesOver(env, prev, indices) == 0
    decreases |indices|
  {
    if indices != [] {
      SilentWhenUnavailable(env, prev, indices[1..]);
    }
  }

  /** A ball that stays in the remembered slot never sounds, however long
      it stays and whatever the audio side does. */
  lemma {:induction false} NoToneWhileHovering(env: AudioEnv, prev: int, indices: seq<int>)
    requires forall i :: 0 <= i < |indices| ==> indices[i] == prev
    ensures TonesOver(env, prev, indices) == 0
    decreases |indices|
  {
    if indices != [] {
      NoToneWhileHovering(env, prev, indices[1..]);
    }
  }

  /** A ball that stays in any one slot sounds at most once, on entering it. */
  lemma AtMostOneTonePerSlot(env: AudioEnv, prev: int, indices: seq<int>, k: int)
    requires forall i :: 0 <= i < |indices| ==> indices[i] == k
    ensures TonesOver(env, prev, indices) <= 1
  {
    if indices != [] {
      var rest := indices[1..];
      var p := NextPrev(env, prev, k);
      if Fires(env, prev, k) {
        NoToneWhileHovering(env, k, rest);
      } else if !Audible(env) || env.fails {
        SilentWhenUnavailable(env, p, rest);
      } else {
        NoToneWhileHovering(env, prev, rest);
      }
    }
  }

  /** The remembered slot after a run of frames with the audio side constant. */
  function PrevAfter(env: AudioEnv, prev: int, indices: seq<int>): (p: int)
    ensures p == prev || p in indices
    decreases |indices|
  {
    if indices == [] then prev else PrevAfter(env, NextPrev(env, prev, indices[0]), indices[1..])
  }

  /** While no tone can sound the remembered slot is frozen, however far the ball moves. */
  lemma {:induction false} SilentRunKeepsPrev(env: AudioEnv, prev: int, indices: seq<int>)
    requires !Audible(env) || env.fails
    ensures PrevAfter(env, prev, indices) == prev
    decreases |indices|
  {
    if indices != [] {
      SilentRunKeepsPrev(env, prev, indices[1..]);
    }
  }

  /** As written, enabling sound can play a tone with no slot change: with
      sound off the remembered slot stays where the last tone left it, so a
      ball that came to rest in another slot sounds on the first audible
      frame although its slot index did not change. */
  lemma EnablingSoundsStaleSlot(prev: int, k: int, quiet: seq<int>)
    requires k != prev && forall i :: 0 <= i < |quiet| ==> quiet[i] == k
    ensures var off, on := AudioEnv(false, true, false), AudioEnv(true, true, false);
            TonesOver(off, prev, quiet) == 0 &&
            TonesOver(on, PrevAfter(off, prev, quiet), [k]) == 1 &&
            Transitions(k, [k]) == 0
  {
    var off := AudioEnv(false, true, false);
    SilentWhenUnavailable(off, prev, quiet);
    SilentRunKeepsPrev(off, prev, quiet);
  }

  /** The concrete case: a fresh widget remembers slot 0 and the US ball
      rests in slot 32; turning sound on there plays a tone. */
  lemma EnablingSoundsAtStart()
    ensures TonesOver(AudioEnv(false, true, false), 0, [32, 32]) == 0
    ensures TonesOver(AudioEnv(true, true, false), PrevAfter(AudioEnv(false, true, false), 0, [32, 32]), [32]) == 1
  {
    EnablingSoundsStaleSlot(0, 32, [32, 32]);
  }

  /** The intended rule: the remembered slot follows the ball on every
      frame, audible or not, and a tone still sounds only on an audible,
      healthy frame whose slot differs from the previous frame's. */
  function TrackedTonesOver(env: AudioEnv, last: int, indices: seq<int>): (r: nat)
    ensures r <= |indices|
    decreases |indices|
  {
    if indices == [] then 0
    else (if Fires(env, last, indices[0]) then 1 else 0) + TrackedTonesOver(env, indices[0], indices[1..])
  }

  /** The slot the tracked rule remembers after a run, threaded frame by
      frame as TrackedTonesOver threads it: it is the last frame's slot. */
  function TrackedLast(last: int, indices: seq<int>): (p: int)
    ensures indices != [] ==> p == indices[|indices| - 1]
    ensures indices == [] ==> p == last
    decreases |indices|
  {
    if indices == [] then last else TrackedLast(indices[0], indices[1..])
  }

  /** A run under the tracked rule splits at any frame: the tones of the
      whole run are those of its first part plus those of the rest, started
      from the slot the first part leaves remembered. */
  lemma {:induction false} TrackedTonesSplit(env: AudioEnv, last: int, a: seq<int>, b: seq<int>)
    ensures TrackedTonesOver(env, last, a + b)
            == TrackedTonesOver(env, last, a) + TrackedTonesOver(env, TrackedLast(last, a), b)
    decreases |a|
  {
    if a != [] {
      assert (a + b)[0] == a[0];
      assert (a + b)[1..] == a[1..] + b;
      TrackedTonesSplit(env, a[0], a[1..], b);
    } else {
      assert a + b == b;
    }
  }

  /** Under the tracked rule, a tone sounds exactly on the audible, healthy
      slot changes: never more than the slot changes, and all of them while
      the audio side is available. */
  lemma {:induction false} TrackedTonesAreTransitions(env: AudioEnv, last: int, indices: seq<int>)
    ensures TrackedTonesOver(env, last, indices) <= Transitions(last, indices)
    ensures Audible(env) && !env.fails ==> TrackedTonesOver(env, last, indices) == Transitions(last, indices)
    ensures !Audible(env) || env.fails ==> TrackedTonesOver(env, last, indices) == 0
    decreases |indices|
  {
    if indices != [] {
      TrackedTonesAreTransitions(env, indices[0], indices[1..]);
    }
  }

  /** Under the tracked rule, turning sound on while the ball stays in one
      slot plays nothing: a quiet run of at least one frame followed by an
      audible run in the same slot is silent throughout. */
  lemma EnablingIsSilentWhenTracked(env: AudioEnv, prev: int, k: int, quiet: seq<int>, loud: seq<int>)
    requires !Audible(env) || env.fails
    requires quiet != [] && forall i :: 0 <= i < |quiet| ==> quiet[i] == k
    requires forall i :: 0 <= i < |loud| ==> loud[i] == k
    ensures TrackedTonesOver(env, prev, quiet) == 0
    ensures forall on: AudioEnv :: TrackedTonesOver(on, TrackedLast(prev, quiet), loud) == 0
  {
    TrackedTonesAreTransitions(env, prev, quiet);
    forall on: AudioEnv
      ensures TrackedTonesOver(on, TrackedLast(prev, quiet), loud) == 0
    {
      TrackedTonesAreTransitions(on, k, loud);
      ConstantRunHasNoTransitions(k, loud);
    }
  }

  /** A run that stays in slot `k`, measured from `k`, has no slot change. */
  lemma {:induction false} ConstantRunHasNoTransitions(k: int, indices: seq<int>)
    requires forall i :: 0 <= i < |indices| ==> indices[i] == k
    ensures Transitions(k, indices) == 0
    decreases |indices|
  {
    if indices != [] {
      ConstantRunHasNoTransitions(k, indices[1..]);
    }
  }
}
