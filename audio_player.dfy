/** `AudioPlayer` (app/components/AudioPlayer.tsx). The React state and the
    `<audio>` element it drives are fields of one object; `mounted` says
    whether the element and the progress bar are rendered (`audioRef.current`
    and `progressRef.current` are set). Times, volumes and rates are real
    numbers; `parseFloat` yielding NaN is not modelled. */
module AudioPlayer {
  import opened Text
  import TimeFormat

  /** `(currentTime / duration) * 100` when the duration is known, else 0:
      the progress bar's width in percent. */
  function Percent(currentTime: real, duration: real): (p: real)
    ensures duration <= 0.0 ==> p == 0.0
    ensures duration > 0.0 && 0.0 <= currentTime <= duration ==> 0.0 <= p <= 100.0
    ensures duration > 0.0 && currentTime == duration ==> p == 100.0
  {
    if duration > 0.0 then currentTime / duration * 100.0 else 0.0
  }

  /** A JavaScript number as the player sees a duration or a time. */
  datatype Num = NaN | Finite(value: real)

  /** This player's `formatTime`: `0:00` for NaN, otherwise `m:ss`. */
  function FormatPlayerTime(time: Num): string {
    match time
    case NaN => "0:00"
    case Finite(t) => TimeFormat.FormatTime(t)
  }

  /** NaN reads the same as time zero, and every non-negative time gives an
      `m:ss` text with two-digit seconds that reads back as the time's whole
      minutes and seconds. */
  lemma FormatPlayerTimeContract(time: Num)
    ensures FormatPlayerTime(NaN) == FormatPlayerTime(Finite(0.0)) == "0:00"
    ensures time.Finite? && time.value >= 0.0 ==>
              TimeFormat.ParseClock(FormatPlayerTime(time)) ==
                Some(((time.value / 60.0).Floor, TimeFormat.SecondsOf(time.value)))
  {
    assert NatToString(0) == "0";
    assert TimeFormat.JsRem60(0.0) == 0.0;
    if time.Finite? && time.value >= 0.0 {
      TimeFormat.FormatTimeRoundTrip(time.value);
    }
  }

  class Player {
    var isPlaying: bool
    var currentTime: real
    var duration: real
    var volume: real
    var isMuted: bool
    var playbackRate: real
    var mounted: bool
    var elementTime: real
    var elementVolume: real
    var elementRate: real

    /** The element's volume is 0 while muted and the stored volume
        otherwise. */
    predicate VolumeSynced()
      reads this
    {
      mounted ==> elementVolume == (if isMuted then 0.0 else volume)
    }

    /** The first render: playing stopped, time and duration 0, full
        volume, unmuted, normal speed; the effect then copies volume and rate
        to the element. */
    constructor (mounted: bool)
      ensures !isPlaying && currentTime == 0.0 && duration == 0.0
      ensures volume == 1.0 && !isMuted && playbackRate == 1.0
      ensures this.mounted == mounted && elementTime == 0.0
      ensures VolumeSynced() && (mounted ==> elementRate == 1.0)
    {
      isPlaying, currentTime, duration := false, 0.0, 0.0;
      volume, isMuted, playbackRate := 1.0, false, 1.0;
      this.mounted := mounted;
      elementTime, elementVolume, elementRate := 0.0, 1.0, 1.0;
    }

    /** The effect on `[volume, isMuted, playbackRate]`. */
    method SyncElement()
      modifies this
      ensures VolumeSynced()
      ensures mounted ==> elementRate == playbackRate
      ensures !mounted ==> elementVolume == old(elementVolume) && elementRate == old(elementRate)
      ensures isPlaying == old(isPlaying) && currentTime == old(currentTime) && duration == old(duration)
      ensures volume == old(volume) && isMuted == old(isMuted) && playbackRate == old(playbackRate)
      ensures mounted == old(mounted) && elementTime == old(elementTime)
    {
      if mounted {
        elementVolume := if isMuted then 0.0 else volume;
        elementRate := playbackRate;
      }
    }

    /** `togglePlay`. */
    method TogglePlay()
      modifies this
      ensures isPlaying == !old(isPlaying)
      ensures currentTime == old(currentTime) && duration == old(duration) && volume == old(volume)
      ensures isMuted == old(isMuted) && playbackRate == old(playbackRate) && mounted == old(mounted)
      ensures elementTime == old(elementTime) && elementVolume == old(elementVolume) && elementRate == old(elementRate)
    {
      isPlaying := !isPlaying;
    }

    /** `handleSeek` for a click at `position` (the click's offset over the
        bar's width): only with a known duration, and the time is clamped
        into `[0, duration]`. */
    method HandleSeek(position: real)
      modifies this
      ensures mounted && old(duration) > 0.0 ==>
                0.0 <= currentTime <= duration && elementTime == currentTime &&
                (0.0 <= position <= 1.0 ==> currentTime == position * duration) &&
                (position < 0.0 ==> currentTime == 0.0) && (position > 1.0 ==> currentTime == duration)
      ensures !(mounted && old(duration) > 0.0) ==>
                currentTime == old(currentTime) && elementTime == old(elementTime)
      ensures isPlaying == old(isPlaying) && duration == old(duration) && volume == old(volume)
      ensures isMuted == old(isMuted) && playbackRate == old(playbackRate) && mounted == old(mounted)
      ensures elementVolume == old(elementVolume) && elementRate == old(elementRate)
    {
      if mounted && duration > 0.0 {
        var target := position * duration;
        var seekTime := Max(0.0, Min(target, duration));
        elementTime := seekTime;
        currentTime := seekTime;
      }
    }

    /** `handleVolumeChange` for a slider value (the slider runs from 0 to
        1): stores the volume and mutes exactly at 0. */
    method HandleVolumeChange(newVolume: real)
      requires 0.0 <= newVolume <= 1.0
      modifies this
      ensures mounted ==> volume == newVolume && isMuted == (newVolume == 0.0) && elementVolume == newVolume
      ensures !mounted ==> volume == old(volume) && isMuted == old(isMuted) && elementVolume == old(elementVolume)
      ensures VolumeSynced() <== old(VolumeSynced())
      ensures mounted ==> VolumeSynced()
      ensures isPlaying == old(isPlaying) && currentTime == old(currentTime) && duration == old(duration)
      ensures playbackRate == old(playbackRate) && mounted == old(mounted)
      ensures elementTime == old(elementTime) && elementRate == old(elementRate)
    {
      if !mounted {
        return;
      }
      elementVolume := newVolume;
      volume := newVolume;
      isMuted := newVolume == 0.0;
    }

    /** `toggleMute`: flips the mute flag and keeps the stored volume, so
        unmuting restores it on the element. */
    method ToggleMute()
      modifies this
      ensures isMuted == !old(isMuted) && volume == old(volume)
      ensures VolumeSynced() <== old(VolumeSynced())
      ensures mounted ==> VolumeSynced()
      ensures isPlaying == old(isPlaying) && currentTime == old(currentTime) && duration == old(duration)
      ensures playbackRate == old(playbackRate) && mounted == old(mounted)
      ensures elementTime == old(elementTime) && elementRate == old(elementRate)
      ensures !mounted ==> elementVolume == old(elementVolume)
    {
      var newMutedState := !isMuted;
      isMuted := newMutedState;
      if mounted {
        elementVolume := if newMutedState then 0.0 else volume;
      }
    }

    /** `handlePlaybackRateChange`. */
    method HandlePlaybackRateChange(rate: real)
      modifies this
      ensures playbackRate == rate && (mounted ==> elementRate == rate)
      ensures !mounted ==> elementRate == old(elementRate)
      ensures isPlaying == old(isPlaying) && currentTime == old(currentTime) && duration == old(duration)
      ensures volume == old(volume) && isMuted == old(isMuted) && mounted == old(mounted)
      ensures elementTime == old(elementTime) && elementVolume == old(elementVolume)
    {
      playbackRate := rate;
      if mounted {
        elementRate := rate;
      }
    }

    /** `skip(seconds)`: nothing without a known duration; otherwise the
        time moves by `seconds`, clamped into `[0, duration]`. */
    method Skip(seconds: real)
      modifies this
      ensures mounted && old(duration) > 0.0 ==>
                0.0 <= currentTime <= duration && elementTime == currentTime &&
                (0.0 <= old(currentTime) + seconds <= duration ==> currentTime == old(currentTime) + seconds) &&
                (old(currentTime) + seconds < 0.0 ==> currentTime == 0.0) &&
                (old(currentTime) + seconds > duration ==> currentTime == duration)
      ensures !(mounted && old(duration) > 0.0) ==>
                currentTime == old(currentTime) && elementTime == old(elementTime)
      ensures isPlaying == old(isPlaying) && duration == old(duration) && volume == old(volume)
      ensures isMuted == old(isMuted) && playbackRate == old(playbackRate) && mounted == old(mounted)
      ensures elementVolume == old(elementVolume) && elementRate == old(elementRate)
    {
      if mounted && duration > 0.0 {
        var newTime := Min(Max(currentTime + seconds, 0.0), duration);
        elementTime := newTime;
        currentTime := newTime;
      }
    }

    /** The progress bar's width in percent. */
    function ProgressWidth(): (w: real)
      reads this
      ensures duration <= 0.0 ==> w == 0.0
      ensures duration > 0.0 && 0.0 <= currentTime <= duration ==> 0.0 <= w <= 100.0
    {
      Percent(currentTime, duration)
    }
  }

  function Max(a: real, b: real): real { if a >= b then a else b }
  function Min(a: real, b: real): real { if a <= b then a else b }
}
