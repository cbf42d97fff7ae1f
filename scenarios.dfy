/** Sequences of user actions and element events on one component, proved
    from the method contracts alone. */
module Scenarios {
  import opened TimeFormat
  import opened Playback

  /** play, pause, resume ends playing, and no extra listener is added by
      pausing or resuming. */
  method PlayPauseResume(c: AppComponent)
    requires c.Valid()
    modifies c, c.audio
    ensures c.Valid() && c.Phase() == Playing && !c.audio.paused
    ensures c.audio.listeners == old(c.audio.listeners) + PlaySubscriptions
  {
    c.PlayAudio();
    c.PauseAudio();
    c.ResetPause();
  }

  /** Two pauses leave exactly the state one pause leaves: paused, not
      playing, the element paused, and everything else as before. */
  method PauseTwice(c: AppComponent)
    requires c.Valid()
    modifies c, c.audio
    ensures c.Valid() && c.Phase() == Paused && !c.isPlaying && c.isPaused && c.audio.paused
    ensures c.audio.listeners == old(c.audio.listeners) && c.audio.volume == old(c.audio.volume)
    ensures c.isMuted == old(c.isMuted) && c.audio.muted == old(c.audio.muted)
    ensures c.currentTime == old(c.currentTime) && c.audio.currentTime == old(c.audio.currentTime)
    ensures c.audio.src == old(c.audio.src) && c.plays == old(c.plays)
  {
    c.PauseAudio();
    c.PauseAudio();
  }

  /** play then stop rewinds the element to the start. */
  method PlayThenStop(c: AppComponent)
    requires c.Valid()
    modifies c, c.audio
    ensures c.Valid() && c.Phase() == NotPlaying
    ensures c.audio.currentTime == 0.0 && c.audio.paused
  {
    c.PlayAudio();
    c.StopAudio();
  }

  /** The end of the track while playing leaves the component not playing
      without a stop, at the same position and the same display. */
  method PlayThenEnd(c: AppComponent)
    requires c.Valid() && c.isPlaying
    modifies c
    ensures c.Valid() && c.Phase() == NotPlaying
    ensures c.audio.currentTime == old(c.audio.currentTime)
    ensures c.currentTime == old(c.currentTime)
  {
    c.AudioEnded();
  }

  /** Muting and unmuting restores both flags and never touches the volume. */
  method ToggleMuteTwice(c: AppComponent)
    requires c.Valid()
    modifies c, c.audio
    ensures c.Valid()
    ensures c.isMuted == old(c.isMuted) && c.audio.muted == old(c.audio.muted)
    ensures c.audio.volume == old(c.audio.volume)
    ensures c.isPlaying == old(c.isPlaying) && c.isPaused == old(c.isPaused)
  {
    c.ToggleMute();
    c.ToggleMute();
  }

  /** Two plays register every handler twice, so one `ended` or
      `timeupdate` event runs each of its handlers twice. */
  method PlayTwice() returns (endedHandlers: nat, progressHandlers: nat, timeHandlers: nat)
    ensures endedHandlers == 2 && progressHandlers == 2 && timeHandlers == 2
  {
    var c := new AppComponent();
    c.PlayAudio();
    c.PlayAudio();
    RegistrationsShape(2);
    endedHandlers := Count(c.audio.listeners, Subscription("ended", OnEnded));
    progressHandlers := Count(c.audio.listeners, Subscription("timeupdate", OnProgress));
    timeHandlers := Count(c.audio.listeners, Subscription("timeupdate", OnTime));
  }

  /** A fresh component is played, the element reports 65.5 seconds and the
      display then reads `01:05`. */
  method PlayAndShow() returns (shown: string)
    ensures shown == "01:05"
  {
    var c := new AppComponent();
    c.PlayAudio();
    c.audio.currentTime := 65.5;
    c.CalculateTime();
    assert c.currentTime == Time(1, 5);
    ToStringExamples();
    shown := ToString(c.currentTime);
  }
}
