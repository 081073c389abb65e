/**
 * audioSystem.js: the button-sound settings object. A volume clamped to [0, 1],
 * an enabled flag, and four sound methods that schedule a tone only when an
 * audio context exists and sounds are enabled; plus the two console helpers.
 */
module Audio {

  /** The four interface sounds. */
  datatype SoundKind = Click | Success | Hover | Error

  /** A scheduled tone: which sound, and the peak gain of its envelope. */
  datatype Tone = Tone(kind: SoundKind, peak: real)

  /** The settings the object keeps. */
  datatype Settings = Settings(hasContext: bool, isEnabled: bool, volume: real)

  /** `Math.max(0, Math.min(1, v))`. */
  function Clamp01(v: real): (r: real)
    ensures 0.0 <= r <= 1.0
    ensures 0.0 <= v <= 1.0 ==> r == v
    ensures v < 0.0 ==> r == 0.0
    ensures v > 1.0 ==> r == 1.0
  {
    if v < 0.0 then 0.0 else if v > 1.0 then 1.0 else v
  }

  /** Clamping an already clamped value changes nothing. */
  lemma Clamp01Idempotent(v: real)
    ensures Clamp01(Clamp01(v)) == Clamp01(v)
  {
  }

  /** The share of the volume each sound's envelope peaks at: click 1, success 0.6, hover 0.2, error 0.4. */
  function PeakShare(k: SoundKind): (r: real)
    ensures 0.0 < r <= 1.0
  {
    match k
    case Click => 1.0
    case Success => 0.6
    case Hover => 0.2
    case Error => 0.4
  }

  /** The settings after construction: volume 0.3, enabled exactly when the audio context could be created. */
  function InitialSettings(contextAvailable: bool): (r: Settings)
    ensures r.volume == 0.3 && r.isEnabled == contextAvailable && r.hasContext == contextAvailable
  {
    Settings(contextAvailable, contextAvailable, 0.3)
  }

  /** The settings after `setVolume(v)`. */
  function WithVolume(s: Settings, v: real): (r: Settings)
    ensures 0.0 <= r.volume <= 1.0 && (0.0 <= v <= 1.0 ==> r.volume == v)
    ensures r.isEnabled == s.isEnabled && r.hasContext == s.hasContext
  {
    s.(volume := Clamp01(v))
  }

  /** The settings after `setEnabled(!isEnabled)`. */
  function Toggled(s: Settings): (r: Settings)
    ensures r.isEnabled != s.isEnabled
    ensures r.volume == s.volume && r.hasContext == s.hasContext
  {
    s.(isEnabled := !s.isEnabled)
  }

  /** Whether a sound method gets past its guard `!this.audioContext || !this.isEnabled`. */
  predicate Plays(s: Settings) {
    s.hasContext && s.isEnabled
  }

  /** The tones one sound call adds: its tone when the guard lets it through, else none. */
  function Scheduled(s: Settings, k: SoundKind): (r: seq<Tone>)
    ensures |r| <= 1
    ensures r != [] <==> s.hasContext && s.isEnabled
    ensures r != [] ==> r[0].kind == k && r[0].peak == s.volume * PeakShare(k)
  {
    if Plays(s) then [Tone(k, s.volume * PeakShare(k))] else []
  }

  /** Setting the same volume twice is setting it once; only the volume changes, and it ends in [0, 1]. */
  lemma SetVolumeIdempotent(s: Settings, v: real)
    ensures WithVolume(WithVolume(s, v), v) == WithVolume(s, v)
    ensures WithVolume(s, v).isEnabled == s.isEnabled && WithVolume(s, v).hasContext == s.hasContext
    ensures 0.0 <= WithVolume(s, v).volume <= 1.0
  {
  }

  /** Toggling twice restores the settings; one toggle negates the flag and keeps the volume. */
  lemma ToggleTwiceRestores(s: Settings)
    ensures Toggled(Toggled(s)) == s
    ensures Toggled(s).isEnabled == !s.isEnabled && Toggled(s).volume == s.volume
  {
  }

  /** With the volume in [0, 1] every tone peaks within [0, volume]; disabling silences every sound. */
  lemma TonesStayWithinVolume(s: Settings, k: SoundKind)
    requires 0.0 <= s.volume <= 1.0
    ensures forall t :: t in Scheduled(s, k) ==> 0.0 <= t.peak <= s.volume
    ensures Scheduled(s.(isEnabled := false), k) == []
    ensures Scheduled(s.(hasContext := false), k) == []
  {
    if Plays(s) {
      assert s.volume * PeakShare(k) <= s.volume * 1.0;
    }
  }

  /** The `AudioSystem` object. */
  class AudioSystem {
    var hasContext: bool      // whether `audioContext` is non-null
    var isEnabled: bool
    var volume: real
    var tones: seq<Tone>      // the tones scheduled so far

    ghost predicate Valid()
      reads this
    {
      && 0.0 <= volume <= 1.0
      && forall t :: t in tones ==> 0.0 <= t.peak <= 1.0
    }

    function Current(): Settings
      reads this
    {
      Settings(hasContext, isEnabled, volume)
    }

    /** The constructor and `init()`: when the context cannot be created, sounds start disabled. */
    constructor(contextAvailable: bool)
      ensures Valid() && Current() == InitialSettings(contextAvailable) && tones == []
    {
      hasContext := contextAvailable;
      isEnabled := contextAvailable;
      volume := 0.3;
      tones := [];
    }

    /** `setVolume`. */
    method SetVolume(v: real)
      requires Valid()
      modifies this
      ensures Valid() && Current() == WithVolume(old(Current()), v) && tones == old(tones)
    {
      volume := if 0.0 > (if 1.0 < v then 1.0 else v) then 0.0 else (if 1.0 < v then 1.0 else v);
    }

    /** `setEnabled`: only the flag changes. */
    method SetEnabled(enabled: bool)
      requires Valid()
      modifies this
      ensures Valid() && Current() == old(Current()).(isEnabled := enabled) && tones == old(tones)
    {
      isEnabled := enabled;
    }

    /** `getVolume`. */
    method GetVolume() returns (v: real)
      requires Valid()
      ensures v == volume && 0.0 <= v <= 1.0
    {
      v := volume;
    }

    /** `getEnabled`. */
    method GetEnabled() returns (e: bool)
      ensures e == isEnabled
    {
      e := isEnabled;
    }

    /** The common shape of the four sound methods: the guard, then one tone at the sound's share of the volume. */
    method Play(k: SoundKind)
      requires Valid()
      modifies this
      ensures Valid() && Current() == old(Current())
      ensures tones == old(tones) + Scheduled(old(Current()), k)
    {
      if !hasContext || !isEnabled {
        return;
      }
      TonesStayWithinVolume(Current(), k);
      tones := tones + [Tone(k, volume * PeakShare(k))];
    }

    /** `createClickSound`. */
    method CreateClickSound()
      requires Valid()
      modifies this
      ensures Valid() && Current() == old(Current()) && tones == old(tones) + Scheduled(old(Current()), Click)
    {
      Play(Click);
    }

    /** `createSuccessSound`. */
    method CreateSuccessSound()
      requires Valid()
      modifies this
      ensures Valid() && Current() == old(Current()) && tones == old(tones) + Scheduled(old(Current()), Success)
    {
      Play(Success);
    }

    /** `createHoverSound`. */
    method CreateHoverSound()
      requires Valid()
      modifies this
      ensures Valid() && Current() == old(Current()) && tones == old(tones) + Scheduled(old(Current()), Hover)
    {
      Play(Hover);
    }

    /** `createErrorSound`. */
    method CreateErrorSound()
      requires Valid()
      modifies this
      ensures Valid() && Current() == old(Current()) && tones == old(tones) + Scheduled(old(Current()), Error)
    {
      Play(Error);
    }
  }

  /** `toggleButtonSounds`: negates the flag and returns its new value. */
  method ToggleButtonSounds(sys: AudioSystem) returns (enabled: bool)
    requires sys.Valid()
    modifies sys
    ensures sys.Valid() && sys.Current() == Toggled(old(sys.Current())) && sys.tones == old(sys.tones)
    ensures enabled == !old(sys.isEnabled) && enabled == sys.isEnabled
  {
    sys.SetEnabled(!sys.isEnabled);
    enabled := sys.isEnabled;
  }

  /** `setButtonVolume`: stores the clamped volume and returns it. */
  method SetButtonVolume(sys: AudioSystem, v: real) returns (stored: real)
    requires sys.Valid()
    modifies sys
    ensures sys.Valid() && sys.Current() == WithVolume(old(sys.Current()), v) && sys.tones == old(sys.tones)
    ensures stored == Clamp01(v) && stored == sys.volume
  {
    sys.SetVolume(v);
    stored := sys.volume;
  }
}
