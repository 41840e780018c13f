/** The state of the `a-audio` player element: whether it plays, the clock string and slider
    percentage it shows, and whether its half-second update timer is running. The media element
    itself is outside the model; what the player reads from it (the duration when playback
    starts, the current time at each update) is passed in. */
module AudioPlayer {

  import opened AudioClock

  class Player {
    var playing: bool
    var time: string
    var sliderValue: Parsed
    /** Whether the update timer started by `countTime` is scheduled. */
    var timerActive: bool
    /** The duration `countTime` read when it started the timer; every update divides by it. */
    var timerDuration: Parsed

    /** The timer runs exactly while the player plays, and the clock string is well formed. */
    ghost predicate Valid()
      reads this
    {
      timerActive == playing && IsClockString(time)
    }

    /** The element's initial state: "00:00" and a slider at 0 as the properties declare, no
        timer, and not playing (`playing` has no declared value, so it starts undefined, which
        the only test of it, in the thumbnail toggle, reads as false). */
    constructor ()
      ensures Valid()
      ensures !playing && time == "00:00" && sliderValue == Int(0) && !timerActive
    {
      ClockStartsAtZero();
      playing := false;
      time := "00:00";
      sliderValue := Int(0);
      timerActive := false;
      timerDuration := NaN;
    }

    /** Starts playback: marks the player as playing and starts the update timer with the
        media duration as it is now. */
    method Play(duration: Parsed)
      requires Valid()
      modifies this
      ensures Valid()
      ensures playing && timerActive && timerDuration == duration
      ensures time == old(time) && sliderValue == old(sliderValue)
    {
      playing := true;
      CountTime(duration);
    }

    /** Starts the update timer; `duration` is `parseInt(audio.duration)`. It is called by
        `Play` once `playing` is set, and completes the invariant. */
    method CountTime(duration: Parsed)
      requires playing && IsClockString(time)
      modifies this`timerActive, this`timerDuration
      ensures Valid()
      ensures timerActive && timerDuration == duration
    {
      timerDuration := duration;
      timerActive := true;
    }

    /** One firing of the update timer, with the media's current time in whole seconds. */
    method TimerTick(currentTime: nat)
      requires Valid() && timerActive
      modifies this`time, this`sliderValue
      ensures Valid()
      ensures time == ClockString(currentTime)
      ensures sliderValue == SliderValue(currentTime, timerDuration)
    {
      time := ClockString(currentTime);
      sliderValue := SliderValue(currentTime, timerDuration);
    }

    /** Stops playback and clears the update timer; what is shown stays. */
    method Pause()
      requires Valid()
      modifies this
      ensures Valid()
      ensures !playing && !timerActive
      ensures time == old(time) && sliderValue == old(sliderValue)
      ensures timerDuration == old(timerDuration)
    {
      playing := false;
      timerActive := false;
    }

    /** Pauses and puts the clock and the slider back to the start. */
    method Reset()
      requires Valid()
      modifies this
      ensures Valid()
      ensures !playing && !timerActive && time == "00:00" && sliderValue == Int(0)
      ensures timerDuration == old(timerDuration)
    {
      Pause();
      ClockStartsAtZero();
      time := "00:00";
      sliderValue := Int(0);
    }

    /** `_handleAudioEnd` called on the player: it resets the player. This is what the `ended`
        listener evidently means to do; `EndedAsWired` is what the registered listener does. */
    method HandleAudioEnd()
      requires Valid()
      modifies this
      ensures Valid()
      ensures !playing && !timerActive && time == "00:00" && sliderValue == Int(0)
      ensures timerDuration == old(timerDuration)
    {
      Reset();
    }

    /** The `ended` listener as registered: `_handleAudioEnd` is a plain method passed without
        binding, so it runs with the media element as `this`, and `this.reset()` fails with a
        type error before anything changes. The player keeps playing, its timer keeps running
        and no `ended` event is dispatched. */
    method EndedAsWired() returns (threw: bool)
      requires Valid()
      ensures threw
      ensures Valid()
      ensures unchanged(this)
    {
      threw := true;
    }

    /** A click on the thumbnail pauses a playing player and plays a paused one. */
    method HandleThumbToggle(duration: Parsed)
      requires Valid()
      modifies this
      ensures Valid()
      ensures playing == !old(playing) && timerActive == playing
      ensures playing ==> timerDuration == duration
      ensures !playing ==> timerDuration == old(timerDuration)
      ensures time == old(time) && sliderValue == old(sliderValue)
    {
      if playing {
        Pause();
      } else {
        Play(duration);
      }
    }
  }

  /** Media that ends while the player plays: as wired, the player still plays and its timer
      still runs; reset as intended, it stops and its timer is cleared. */
  method EndedWhilePlaying(duration: Parsed) returns (playingAsWired: bool, timerAsWired: bool,
                                                      playingAsIntended: bool, timerAsIntended: bool)
    ensures playingAsWired && timerAsWired
    ensures !playingAsIntended && !timerAsIntended
  {
    var wired := new Player();
    wired.Play(duration);
    var threw := wired.EndedAsWired();
    playingAsWired, timerAsWired := wired.playing, wired.timerActive;

    var intended := new Player();
    intended.Play(duration);
    intended.HandleAudioEnd();
    playingAsIntended, timerAsIntended := intended.playing, intended.timerActive;
  }
}
