/**
 * The editor's audio choice: a library music track or a custom audio URL,
 * never both, and three sound-effect switches.
 *
 * The preview player (`playPreview`, `stopPreview`) holds a live audio
 * element and is not part of this model.
 */
module AudioManager {
  import opened Base

  /** `'rotation' | 'scale' | 'particle'` */
  datatype SoundEffect = RotationEffect | ScaleEffect | ParticleEffect

  /** `{ rotation: boolean; scale: boolean; particle: boolean }` */
  datatype SoundEffects = SoundEffects(rotation: bool, scale: bool, particle: bool)

  /** The switch of one sound effect (`prev[effect]`). */
  function IsOn(s: SoundEffects, e: SoundEffect): bool
  {
    match e
    case RotationEffect => s.rotation
    case ScaleEffect => s.scale
    case ParticleEffect => s.particle
  }

  /** `{ ...prev, [effect]: !prev[effect] }`: only the named switch flips. */
  function Toggled(s: SoundEffects, e: SoundEffect): (r: SoundEffects)
    ensures IsOn(r, e) == !IsOn(s, e)
    ensures forall other :: other != e ==> IsOn(r, other) == IsOn(s, other)
  {
    match e
    case RotationEffect => s.(rotation := !s.rotation)
    case ScaleEffect => s.(scale := !s.scale)
    case ParticleEffect => s.(particle := !s.particle)
  }

  /** Toggling the same effect twice restores the switches. */
  lemma ToggleTwice(s: SoundEffects, e: SoundEffect)
    ensures Toggled(Toggled(s, e), e) == s
  {
  }

  /** Toggling two different effects gives the same switches in either order. */
  lemma TogglesCommute(s: SoundEffects, a: SoundEffect, b: SoundEffect)
    ensures Toggled(Toggled(s, a), b) == Toggled(Toggled(s, b), a)
  {
  }

  /** `/assets/music/<trackId>.mp3` */
  function TrackUrl(trackId: string): (url: string)
    ensures |url| == |trackId| + 18
    ensures url[..14] == "/assets/music/" && url[|url| - 4..] == ".mp3"
    ensures url[14..|url| - 4] == trackId
  {
    "/assets/music/" + trackId + ".mp3"
  }

  /**
   * `getSelectedAudioUrl()`: the custom URL when it is a non-empty string,
   * else the track's asset path when the track id is a non-empty string,
   * else nothing.
   */
  function SelectedAudioUrl(selectedMusicTrack: Option<string>, customAudioUrl: Option<string>): (r: Option<string>)
    ensures Truthy(customAudioUrl) ==> r == customAudioUrl
    ensures !Truthy(customAudioUrl) && Truthy(selectedMusicTrack) ==> r == Some(TrackUrl(selectedMusicTrack.value))
    ensures r.None? <==> !Truthy(customAudioUrl) && !Truthy(selectedMusicTrack)
  {
    if Truthy(customAudioUrl) then customAudioUrl
    else if Truthy(selectedMusicTrack) then Some(TrackUrl(selectedMusicTrack.value))
    else None
  }

  /** The audio store (`useAudioManager`). */
  class AudioStore {
    var selectedMusicTrack: Option<string>
    var customAudioUrl: Option<string>
    var soundEffects: SoundEffects

    /** At most one of the track and the custom URL is chosen. */
    predicate Valid()
      reads this
    {
      selectedMusicTrack.None? || customAudioUrl.None?
    }

    /** Nothing chosen, every sound effect off. */
    constructor()
      ensures Valid()
      ensures selectedMusicTrack == None && customAudioUrl == None
      ensures soundEffects == SoundEffects(false, false, false)
    {
      selectedMusicTrack := None;
      customAudioUrl := None;
      soundEffects := SoundEffects(false, false, false);
    }

    /** `selectMusicTrack(trackId)`: the track replaces any custom audio. */
    method SelectMusicTrack(trackId: string)
      modifies this
      ensures Valid()
      ensures selectedMusicTrack == Some(trackId) && customAudioUrl == None
      ensures soundEffects == old(soundEffects)
    {
      selectedMusicTrack := Some(trackId);
      customAudioUrl := None;
    }

    /** `selectCustomAudio(audioUrl)`: the custom audio replaces any track. */
    method SelectCustomAudio(audioUrl: string)
      modifies this
      ensures Valid()
      ensures customAudioUrl == Some(audioUrl) && selectedMusicTrack == None
      ensures soundEffects == old(soundEffects)
    {
      customAudioUrl := Some(audioUrl);
      selectedMusicTrack := None;
    }

    /** `toggleSoundEffect(effect)` */
    method ToggleSoundEffect(effect: SoundEffect)
      modifies this
      requires Valid()
      ensures Valid()
      ensures soundEffects == Toggled(old(soundEffects), effect)
      ensures selectedMusicTrack == old(selectedMusicTrack) && customAudioUrl == old(customAudioUrl)
    {
      soundEffects := Toggled(soundEffects, effect);
    }

    /** `getSelectedAudioUrl()` */
    function GetSelectedAudioUrl(): Option<string>
      reads this
    {
      SelectedAudioUrl(selectedMusicTrack, customAudioUrl)
    }
  }

  /** After choosing a track, the URL to play is that track's asset path, or nothing for an empty id. */
  lemma UrlAfterTrack(trackId: string)
    ensures SelectedAudioUrl(Some(trackId), None) == if trackId == "" then None else Some(TrackUrl(trackId))
  {
  }

  /** After choosing custom audio, the URL to play is that URL, or nothing for an empty URL. */
  lemma UrlAfterCustom(audioUrl: string)
    ensures SelectedAudioUrl(None, Some(audioUrl)) == if audioUrl == "" then None else Some(audioUrl)
  {
  }

  /** Different tracks play from different paths. */
  lemma TrackUrlInjective(a: string, b: string)
    requires TrackUrl(a) == TrackUrl(b)
    ensures a == b
  {
    assert a == TrackUrl(a)[14..|TrackUrl(a)| - 4];
  }
}
