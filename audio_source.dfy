/**
 * AudioSource: the volume, pitch and looping settings of one clip.  A setter
 * takes a new volume only inside [0, 2] and a new pitch only inside [-1, 1];
 * every accepted change is pushed to the clip's sound as the three current
 * settings.
 */
module AudioSource {
  const MinVolume: real := 0.0
  const MaxVolume: real := 2.0
  const MinPitch: real := -1.0
  const MaxPitch: real := 1.0

  /** A call made on the clip's sound. */
  datatype SoundCall = SetSoundVolume(volume: real) | SetSoundPitch(pitch: real) | SetSoundLooping(looping: bool) | StartSound | StopSound

  /** The calls UpdateValues makes, in order. */
  function PushedValues(volume: real, pitch: real, looping: bool): seq<SoundCall>
  {
    [SetSoundVolume(volume), SetSoundPitch(pitch), SetSoundLooping(looping)]
  }

  /** A range-checked setting: the candidate when it lies in [lo, hi], otherwise the current value. */
  function Accept(lo: real, hi: real, current: real, candidate: real): (r: real)
    ensures lo <= candidate <= hi ==> r == candidate
    ensures !(lo <= candidate <= hi) ==> r == current
    ensures lo <= current <= hi ==> lo <= r <= hi
  {
    if candidate < lo || candidate > hi then current else candidate
  }

  /** SetLooping takes a float: any non-zero value turns looping on. */
  function LoopingOf(state: real): (looping: bool)
    ensures looping <==> state != 0.0
  {
    state != 0.0
  }

  class AudioSource {
    var clip: nat
    var volume: real
    var pitch: real
    var looping: bool
    var sound: seq<SoundCall>

    /** The settings always lie inside their ranges. */
    ghost predicate Valid()
      reads this
    {
      MinVolume <= volume <= MaxVolume && MinPitch <= pitch <= MaxPitch
    }

    /** AudioSource(clip): volume 1, pitch 0, not looping, and these pushed once. */
    constructor (audioClip: nat)
      ensures Valid() && clip == audioClip
      ensures volume == 1.0 && pitch == 0.0 && !looping
      ensures sound == PushedValues(1.0, 0.0, false)
    {
      clip := audioClip;
      volume := (MaxVolume - MinVolume) / 2.0;
      pitch := MinPitch + (MaxPitch - MinPitch) / 2.0;
      looping := false;
      sound := [];
      new;
      UpdateValues();
    }

    /** Play: starts the clip's sound. */
    method Play()
      modifies this
      ensures sound == old(sound) + [StartSound]
      ensures clip == old(clip) && volume == old(volume) && pitch == old(pitch) && looping == old(looping)
    {
      sound := sound + [StartSound];
    }

    /** Stop: stops the clip's sound. */
    method Stop()
      modifies this
      ensures sound == old(sound) + [StopSound]
      ensures clip == old(clip) && volume == old(volume) && pitch == old(pitch) && looping == old(looping)
    {
      sound := sound + [StopSound];
    }

    /** SetVolume: outside [0, 2] nothing happens; inside, the volume is set and the settings pushed. */
    method SetVolume(v: real)
      requires Valid()
      modifies this
      ensures Valid()
      ensures volume == Accept(MinVolume, MaxVolume, old(volume), v)
      ensures clip == old(clip) && pitch == old(pitch) && looping == old(looping)
      ensures MinVolume <= v <= MaxVolume ==> sound == old(sound) + PushedValues(v, pitch, looping)
      ensures !(MinVolume <= v <= MaxVolume) ==> sound == old(sound)
    {
      if v < MinVolume || v > MaxVolume {
        return;
      }
      volume := v;
      UpdateValues();
    }

    /** SetPitch: outside [-1, 1] nothing happens; inside, the pitch is set and the settings pushed. */
    method SetPitch(p: real)
      requires Valid()
      modifies this
      ensures Valid()
      ensures pitch == Accept(MinPitch, MaxPitch, old(pitch), p)
      ensures clip == old(clip) && volume == old(volume) && looping == old(looping)
      ensures MinPitch <= p <= MaxPitch ==> sound == old(sound) + PushedValues(volume, p, looping)
      ensures !(MinPitch <= p <= MaxPitch) ==> sound == old(sound)
    {
      if p < MinPitch || p > MaxPitch {
        return;
      }
      pitch := p;
      UpdateValues();
    }

    /** SetLooping: looping is on exactly when the argument is non-zero; the settings are pushed. */
    method SetLooping(state: real)
      modifies this
      ensures looping == LoopingOf(state)
      ensures clip == old(clip) && volume == old(volume) && pitch == old(pitch)
      ensures sound == old(sound) + PushedValues(volume, pitch, looping)
    {
      looping := state != 0.0;
      UpdateValues();
    }

    /** UpdateValues: pushes exactly the current volume, pitch and looping. */
    method UpdateValues()
      modifies this
      ensures sound == old(sound) + PushedValues(volume, pitch, looping)
      ensures clip == old(clip) && volume == old(volume) && pitch == old(pitch) && looping == old(looping)
    {
      sound := sound + [SetSoundVolume(volume), SetSoundPitch(pitch), SetSoundLooping(looping)];
    }
  }

  /** A setting after a sequence of setter calls, applied first to last. */
  function AcceptAll(lo: real, hi: real, current: real, candidates: seq<real>): real
    decreases |candidates|
  {
    if |candidates| == 0 then current else AcceptAll(lo, hi, Accept(lo, hi, current, candidates[0]), candidates[1..])
  }

  /** The last candidate inside [lo, hi], or the start value when there is none. */
  function LastAccepted(lo: real, hi: real, current: real, candidates: seq<real>): real
    decreases |candidates|
  {
    if |candidates| == 0 then current
    else if lo <= candidates[|candidates| - 1] <= hi then candidates[|candidates| - 1]
    else LastAccepted(lo, hi, current, candidates[..|candidates| - 1])
  }

  /**
   * Whatever sequence of candidates the setters receive, a setting that
   * starts in range stays in range, and it always equals the last accepted
   * candidate (or the start value when none was accepted).
   */
  lemma {:induction false} AcceptAllKeepsRange(lo: real, hi: real, current: real, candidates: seq<real>)
    requires lo <= current <= hi
    ensures lo <= AcceptAll(lo, hi, current, candidates) <= hi
    ensures AcceptAll(lo, hi, current, candidates) == LastAccepted(lo, hi, current, candidates)
    decreases |candidates|
  {
    if |candidates| > 0 {
      var next := Accept(lo, hi, current, candidates[0]);
      AcceptAllKeepsRange(lo, hi, next, candidates[1..]);
      LastAcceptedOfFirst(lo, hi, current, candidates);
    }
  }

  /** Looking for the last accepted candidate can start from the first one's outcome. */
  lemma {:induction false} LastAcceptedOfFirst(lo: real, hi: real, current: real, candidates: seq<real>)
    requires |candidates| > 0
    ensures LastAccepted(lo, hi, current, candidates) == LastAccepted(lo, hi, Accept(lo, hi, current, candidates[0]), candidates[1..])
    decreases |candidates|
  {
    var n := |candidates|;
    if n > 1 {
      var init := candidates[..n - 1];
      assert init[0] == candidates[0];
      assert init[1..] == candidates[1..][..n - 2];
      LastAcceptedOfFirst(lo, hi, current, init);
    }
  }
}
