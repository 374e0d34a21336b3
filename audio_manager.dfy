/**
 * `AudioManager`: the background-music flags, the persisted mute flag and the
 * singleton.
 *
 * The Phaser sound object is the flag `musicCreated`; whether a scene has a
 * sound system is a parameter. The `bgMusicMuted` entry of `localStorage` is
 * a `MuteStorage` object, and the class-level `instance` is a field of
 * `AudioRuntime`.
 */
module Audio {
  import opened Wrappers

  /** The `bgMusicMuted` entry of `localStorage`: absent, or the JSON of a boolean. */
  class MuteStorage {
    var bgMusicMuted: Option<bool>

    constructor (initial: Option<bool>)
      ensures bgMusicMuted == initial
    {
      bgMusicMuted := initial;
    }
  }

  /** The snapshot `getState` returns. */
  datatype AudioState = AudioState(isMuted: bool, isPlaying: bool, hasUserInteracted: bool, volume: real)

  /** `loadMuteState`: an absent entry means not muted. */
  function LoadMuteState(saved: Option<bool>): (muted: bool)
    ensures saved.None? ==> !muted
    ensures saved.Some? ==> muted == saved.value
  {
    if saved.Some? then saved.value else false
  }

  class AudioManager {
    var musicCreated: bool
    var isMuted: bool
    var hasUserInteracted: bool
    var isPlaying: bool
    const volume: real
    const storage: MuteStorage

    /** Music plays only when it exists; the volume is fixed. */
    ghost predicate Backed()
      reads this
    {
      && (isPlaying ==> musicCreated)
      && volume == 0.2
    }

    /** ... and is not muted. */
    ghost predicate Valid()
      reads this
    {
      Backed() && (isPlaying ==> !isMuted)
    }

    /** ... and, through every path but a direct `play()`, only after the user interacted. */
    ghost predicate Gated()
      reads this
    {
      Valid() && (isPlaying ==> hasUserInteracted)
    }

    constructor (storage: MuteStorage)
      ensures Gated()
      ensures this.storage == storage
      ensures !musicCreated && !hasUserInteracted && !isPlaying
      ensures isMuted == LoadMuteState(storage.bgMusicMuted)
    {
      this.storage := storage;
      musicCreated := false;
      isMuted := LoadMuteState(storage.bgMusicMuted);
      hasUserInteracted := false;
      volume := 0.2;
      isPlaying := false;
    }

    /** `saveMuteState`. */
    method SaveMuteState()
      modifies storage
      ensures storage.bgMusicMuted == Some(isMuted)
    {
      storage.bgMusicMuted := Some(isMuted);
    }

    /** `initMusic`: create the music once, and play if allowed and not already playing. */
    method InitMusic(sceneHasSound: bool)
      requires Valid()
      modifies this`musicCreated, this`isPlaying
      ensures Valid() && (old(Gated()) ==> Gated())
      ensures !sceneHasSound ==> musicCreated == old(musicCreated) && isPlaying == old(isPlaying)
      ensures sceneHasSound ==> musicCreated
      ensures sceneHasSound ==> isPlaying == (old(isPlaying) || (hasUserInteracted && !isMuted))
    {
      if !sceneHasSound {
        return;
      }
      if !musicCreated {
        musicCreated := true;
      }
      if hasUserInteracted && !isMuted && !isPlaying {
        Play();
      }
    }

    /** `play`. */
    method Play()
      requires Valid()
      modifies this`isPlaying
      ensures Valid()
      ensures old(Gated()) && hasUserInteracted ==> Gated()
      ensures isPlaying == (old(isPlaying) || (musicCreated && !isMuted))
    {
      if musicCreated && !isMuted {
        isPlaying := true;
      }
    }

    /** `pause`. */
    method Pause()
      requires Backed()
      modifies this`isPlaying
      ensures Gated()
      ensures !isPlaying
    {
      if musicCreated {
        isPlaying := false;
      }
    }

    /** `stop`: for the flags, the same as `pause`. */
    method Stop()
      requires Backed()
      modifies this`isPlaying
      ensures Gated()
      ensures !isPlaying
    {
      if musicCreated {
        isPlaying := false;
      }
    }

    /** `toggleMute`: flip, persist, then pause or (after an interaction) play. */
    method ToggleMute() returns (muted: bool)
      requires Valid()
      modifies this`isMuted, this`isPlaying, storage
      ensures Valid() && (old(Gated()) ==> Gated())
      ensures muted == isMuted == !old(isMuted)
      ensures storage.bgMusicMuted == Some(isMuted)
      ensures isMuted ==> !isPlaying
      ensures !isMuted ==> isPlaying == (hasUserInteracted && musicCreated)
    {
      isMuted := !isMuted;
      SaveMuteState();
      if isMuted {
        Pause();
      } else if hasUserInteracted {
        Play();
      }
      muted := isMuted;
    }

    /** `setUserInteracted`: remember the interaction and start the music if it may play. */
    method SetUserInteracted()
      requires Valid()
      modifies this`hasUserInteracted, this`isPlaying
      ensures Gated()
      ensures Valid() && hasUserInteracted
      ensures isPlaying == (old(isPlaying) || (musicCreated && !isMuted))
    {
      hasUserInteracted := true;
      if !isMuted && !isPlaying {
        Play();
      }
    }

    /** `getState`. */
    function GetState(): (s: AudioState)
      reads this
      requires Valid()
      ensures s.isPlaying ==> !s.isMuted
      ensures s.volume == 0.2
      ensures s == AudioState(isMuted, isPlaying, hasUserInteracted, volume)
    {
      AudioState(isMuted, isPlaying, hasUserInteracted, volume)
    }
  }

  /** The class-level `AudioManager.instance`. */
  class AudioRuntime {
    var instance: AudioManager?
    const storage: MuteStorage

    constructor (storage: MuteStorage)
      ensures instance == null && this.storage == storage
    {
      instance := null;
      this.storage := storage;
    }

    /** `new AudioManager()`: the existing instance if there is one. */
    method Construct() returns (m: AudioManager)
      modifies this
      ensures old(instance) != null ==> m == old(instance) && instance == old(instance)
      ensures old(instance) == null ==> fresh(m) && instance == m && m.Gated() && m.storage == storage &&
                                        m.isMuted == LoadMuteState(storage.bgMusicMuted)
    {
      if instance != null {
        return instance;
      }
      m := new AudioManager(storage);
      instance := m;
    }

    /** `getInstance`. */
    method GetInstance() returns (m: AudioManager)
      modifies this
      ensures instance == m
      ensures old(instance) != null ==> m == old(instance)
      ensures old(instance) == null ==> fresh(m) && m.Gated()
    {
      m := Construct();
    }
  }

  /** However often it is asked for, there is only ever one manager. */
  method OneInstance(runtime: AudioRuntime) returns (a: AudioManager, b: AudioManager)
    modifies runtime
    ensures a == b && runtime.instance == a
  {
    a := runtime.GetInstance();
    b := runtime.Construct();
  }

  /** Muting twice restores the mute flag and persists it; the music stays off without an interaction. */
  method ToggleTwice(m: AudioManager) returns (muted: bool)
    requires m.Gated() && !m.hasUserInteracted
    modifies m, m.storage
    ensures muted == m.isMuted == old(m.isMuted)
    ensures m.storage.bgMusicMuted == Some(old(m.isMuted))
    ensures !m.isPlaying
  {
    var _ := m.ToggleMute();
    muted := m.ToggleMute();
  }
}
