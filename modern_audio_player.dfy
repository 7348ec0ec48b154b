/** `ModernAudioPlayer` (app/components/ModernAudioPlayer.tsx). The handlers
    write the `<audio>` element's time; the React `currentTime` follows it
    through the `timeupdate` listener. `mounted` says whether the element
    and the progress bar are rendered. The element's own clamping of
    assigned times is not modelled. */
module ModernAudioPlayer {
  import AudioPlayer

  /** Seconds moved by the rewind and forward buttons. */
  const Step := 10.0

  class Player {
    var isPlaying: bool
    var currentTime: real
    var duration: real
    var mounted: bool
    var elementTime: real
    var elementPlaying: bool

    constructor (mounted: bool)
      ensures !isPlaying && currentTime == 0.0 && duration == 0.0
      ensures this.mounted == mounted && elementTime == 0.0 && !elementPlaying
    {
      isPlaying, currentTime, duration := false, 0.0, 0.0;
      this.mounted := mounted;
      elementTime, elementPlaying := 0.0, false;
    }

    /** The `loadedmetadata` listener: the duration is the element's. */
    method OnLoadedMetadata(elementDuration: real)
      modifies this
      ensures duration == elementDuration
      ensures isPlaying == old(isPlaying) && currentTime == old(currentTime) && mounted == old(mounted)
      ensures elementTime == old(elementTime) && elementPlaying == old(elementPlaying)
    {
      duration := elementDuration;
    }

    /** The `ended` listener: the flag drops to not playing (the `onEnded`
        callback is the parent's). */
    method OnEnded()
      modifies this
      ensures !isPlaying
      ensures currentTime == old(currentTime) && duration == old(duration) && mounted == old(mounted)
      ensures elementTime == old(elementTime) && elementPlaying == old(elementPlaying)
    {
      isPlaying := false;
    }

    /** `togglePlayPause`: pauses or plays the element and flips the flag;
        nothing when the element is not rendered. */
    method TogglePlayPause()
      modifies this
      ensures mounted ==> isPlaying == !old(isPlaying) && elementPlaying == isPlaying
      ensures !mounted ==> isPlaying == old(isPlaying) && elementPlaying == old(elementPlaying)
      ensures currentTime == old(currentTime) && duration == old(duration)
      ensures mounted == old(mounted) && elementTime == old(elementTime)
    {
      if !mounted {
        return;
      }
      if isPlaying {
        elementPlaying := false;
      } else {
        elementPlaying := true;
      }
      isPlaying := !isPlaying;
    }

    /** `handleProgressClick` for a click at `percent` of the bar: the time
        becomes `percent * duration`, without any clamping. */
    method HandleProgressClick(percent: real)
      modifies this
      ensures mounted ==> elementTime == percent * duration
      ensures !mounted ==> elementTime == old(elementTime)
      ensures isPlaying == old(isPlaying) && currentTime == old(currentTime) && duration == old(duration)
      ensures mounted == old(mounted) && elementPlaying == old(elementPlaying)
    {
      if !mounted {
        return;
      }
      elementTime := percent * duration;
    }

    /** `handleRewind`: ten seconds back, never below 0. */
    method HandleRewind()
      modifies this
      ensures mounted ==> elementTime >= 0.0 && elementTime <= AudioPlayer.Max(0.0, old(elementTime))
      ensures mounted && old(elementTime) >= Step ==> elementTime == old(elementTime) - Step
      ensures mounted && old(elementTime) < Step ==> elementTime == 0.0
      ensures !mounted ==> elementTime == old(elementTime)
      ensures isPlaying == old(isPlaying) && currentTime == old(currentTime) && duration == old(duration)
      ensures mounted == old(mounted) && elementPlaying == old(elementPlaying)
    {
      if !mounted {
        return;
      }
      elementTime := AudioPlayer.Max(0.0, elementTime - Step);
    }

    /** `handleForward`: ten seconds on, never past the duration. */
    method HandleForward()
      modifies this
      ensures mounted ==> elementTime <= duration
      ensures mounted && old(elementTime) + Step <= duration ==> elementTime == old(elementTime) + Step
      ensures mounted && old(elementTime) + Step > duration ==> elementTime == duration
      ensures !mounted ==> elementTime == old(elementTime)
      ensures isPlaying == old(isPlaying) && currentTime == old(currentTime) && duration == old(duration)
      ensures mounted == old(mounted) && elementPlaying == old(elementPlaying)
    {
      if !mounted {
        return;
      }
      elementTime := AudioPlayer.Min(duration, elementTime + Step);
    }

    /** The `timeupdate` listener: the state follows the element. */
    method OnTimeUpdate()
      modifies this
      ensures currentTime == elementTime
      ensures isPlaying == old(isPlaying) && duration == old(duration) && mounted == old(mounted)
      ensures elementTime == old(elementTime) && elementPlaying == old(elementPlaying)
    {
      currentTime := elementTime;
    }

    /** `progressPercent`. */
    function ProgressPercent(): (p: real)
      reads this
      ensures duration <= 0.0 ==> p == 0.0
      ensures duration > 0.0 && 0.0 <= currentTime <= duration ==> 0.0 <= p <= 100.0
    {
      AudioPlayer.Percent(currentTime, duration)
    }
  }

  /** A click past the bar's end on a rendered player with a known duration
      puts the element's time past the duration: HandleProgressClick clamps
      nothing. */
  method ProgressClickIsUnclamped(p: Player, percent: real)
    requires p.mounted && p.duration > 0.0 && percent > 1.0
    modifies p
    ensures p.elementTime > p.duration
  {
    p.HandleProgressClick(percent);
    PastTheEnd(percent, p.duration, p.elementTime);
  }

  /** A fraction above 1 of a positive duration exceeds it. */
  lemma PastTheEnd(percent: real, duration: real, time: real)
    requires duration > 0.0 && percent > 1.0 && time == percent * duration
    ensures time > duration
  {
    assert percent * duration > 1.0 * duration;
  }

  /** HandleRewind followed by HandleForward on a rendered player, from a
      time `t` inside a track of duration `d`: back at `t` when the rewind
      was not clamped at 0, otherwise ten seconds in (or at the end of a
      shorter track). */
  method RewindForwardCancel(p: Player, t: real, d: real)
    requires p.mounted && p.elementTime == t && p.duration == d && 0.0 <= t <= d
    modifies p
    ensures p.duration == d && p.mounted
    ensures t >= Step ==> p.elementTime == t
    ensures t < Step ==> p.elementTime == AudioPlayer.Min(d, Step)
  {
    p.HandleRewind();
    p.HandleForward();
  }
}
