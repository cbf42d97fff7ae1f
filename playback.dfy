/** The player component (`AppComponent`): three flags, the displayed
    elapsed time, and an audio element it drives. The audio element is the
    browser's; here it is a small object with the fields the component reads
    and writes, and its methods do to those fields what the component relies
    on and nothing more. */
module Playback {
  import opened TimeFormat

  /** The bundled track that `playAudio` loads. */
  const Track: string := "assets/liqwyd-birthday(chosic.com).mp3"

  /** A playback position in seconds; the element never reports a negative one. */
  type Seconds = r: real | r >= 0.0

  /** `x % 60` of JavaScript for a non-negative `x`: `x - 60 * trunc(x / 60)`,
      and for such `x` the truncation is the floor. The result is
      non-negative, below 60, and leaves a whole multiple of 60 when taken
      from `x`. */
  function Rem60(x: real): (r: real)
    requires x >= 0.0
    ensures 0.0 <= r < 60.0
    ensures ((x - r) / 60.0).Floor as real == (x - r) / 60.0
  {
    x - 60.0 * ((x / 60.0).Floor as real)
  }

  /** Whole minutes of a position and whole seconds of what is left over
      are the quotient and remainder of its whole seconds by 60. */
  lemma FloorSplit(p: Seconds)
    ensures (p / 60.0).Floor == p.Floor / 60
    ensures Rem60(p).Floor == p.Floor % 60
  {
    // With n = floor(p) = 60 * q + r and 0 <= r < 60: q <= p / 60 < q + 1,
    // so floor(p / 60) = q, and p - 60 * q lies in [r, r + 1).
  }

  /** `calculateTime`'s arithmetic: `Math.floor(t / 60)` minutes and
      `Math.floor(t % 60)` seconds. */
  function SplitPosition(p: Seconds): (t: Time)
    ensures t.minutes == p.Floor / 60 && t.seconds == p.Floor % 60
    ensures t.seconds < 60 && t.minutes * 60 + t.seconds == p.Floor
  {
    FloorSplit(p);
    Time((p / 60.0).Floor, Rem60(p).Floor)
  }

  /** On a whole-second position the split loses nothing. */
  lemma SplitWholeSeconds(n: nat)
    ensures SplitPosition(n as real) == Time(n / 60, n % 60)
    ensures SplitPosition(n as real).minutes * 60 + SplitPosition(n as real).seconds == n
  {
  }

  /** The component methods an element event is bound to. */
  datatype Handler = OnEnded | OnProgress | OnTime

  /** One `addEventListener(event, handler)` registration. */
  datatype Subscription = Subscription(event: string, handler: Handler)

  /** What one `playAudio` call registers, in order. */
  const PlaySubscriptions: seq<Subscription> :=
    [Subscription("ended", OnEnded), Subscription("timeupdate", OnProgress), Subscription("timeupdate", OnTime)]

  /** The element's listener list after `k` calls of `playAudio`: nothing is
      ever removed. */
  function Registrations(k: nat): seq<Subscription> {
    if k == 0 then [] else Registrations(k - 1) + PlaySubscriptions
  }

  function Count(s: seq<Subscription>, x: Subscription): nat {
    if s == [] then 0 else Count(s[..|s| - 1], x) + (if s[|s| - 1] == x then 1 else 0)
  }

  lemma {:induction false} CountAppend(s: seq<Subscription>, u: seq<Subscription>, x: Subscription)
    ensures Count(s + u, x) == Count(s, x) + Count(u, x)
    decreases |u|
  {
    if u == [] {
      assert s + u == s;
    } else {
      assert (s + u)[..|s + u| - 1] == s + u[..|u| - 1];
      CountAppend(s, u[..|u| - 1], x);
    }
  }

  /** The three registrations of one play are distinct. */
  lemma CountPlaySubscriptions(x: Subscription)
    requires x in PlaySubscriptions
    ensures Count(PlaySubscriptions, x) == 1
  {
    var a, b, c := PlaySubscriptions[0], PlaySubscriptions[1], PlaySubscriptions[2];
    assert PlaySubscriptions == [a, b, c];
    assert [a, b, c][..2] == [a, b] && [a, b][..1] == [a] && [a][..0] == [];
    assert Count([a], x) == if a == x then 1 else 0;
    assert Count([a, b], x) == Count([a], x) + if b == x then 1 else 0;
    assert Count([a, b, c], x) == Count([a, b], x) + if c == x then 1 else 0;
  }

  /** After `k` plays the list holds `3 * k` registrations, the three of one
      play repeated in order, so each handler is registered `k` times and an
      event runs it `k` times. */
  lemma {:induction false} RegistrationsShape(k: nat)
    ensures |Registrations(k)| == 3 * k
    ensures forall i :: 0 <= i < |Registrations(k)| ==> Registrations(k)[i] == PlaySubscriptions[i % 3]
    ensures forall x :: x in PlaySubscriptions ==> Count(Registrations(k), x) == k
  {
    if k > 0 {
      RegistrationsShape(k - 1);
      var prev := Registrations(k - 1);
      forall i | 0 <= i < |Registrations(k)|
        ensures Registrations(k)[i] == PlaySubscriptions[i % 3]
      {
        if i >= |prev| {
          assert Registrations(k)[i] == PlaySubscriptions[i - |prev|];
        }
      }
      forall x | x in PlaySubscriptions
        ensures Count(Registrations(k), x) == k
      {
        CountAppend(prev, PlaySubscriptions, x);
        CountPlaySubscriptions(x);
      }
    }
  }

  /** The browser's audio element, reduced to the state the component
      touches. */
  class AudioHandle {
    var src: string
    var currentTime: Seconds
    var paused: bool
    var muted: bool
    var volume: real
    var listeners: seq<Subscription>

    /** `new Audio()`: no source, at the start, paused, audible, full volume. */
    constructor ()
      ensures src == "" && currentTime == 0.0 && paused && !muted && volume == 1.0
      ensures listeners == []
    {
      src := "";
      currentTime := 0.0;
      paused := true;
      muted := false;
      volume := 1.0;
      listeners := [];
    }

    /** `load()`: rewinds to the start and stops, keeping source, volume,
        mute and listeners. */
    method Load()
      modifies this`currentTime, this`paused
      ensures currentTime == 0.0 && paused
    {
      currentTime := 0.0;
      paused := true;
    }

    /** `play()`: asks for playback; the request is taken as granted. */
    method Play()
      modifies this`paused
      ensures !paused
    {
      paused := false;
    }

    /** `pause()`. */
    method Pause()
      modifies this`paused
      ensures paused
    {
      paused := true;
    }

    /** `addEventListener(event, handler)`: appends. The DOM skips a
        listener whose callback is already registered for the event, but
        each `bind` in `playAudio` is a new callback, so nothing is ever
        skipped as a duplicate. */
    method AddEventListener(event: string, handler: Handler)
      modifies this`listeners
      ensures listeners == old(listeners) + [Subscription(event, handler)]
    {
      listeners := listeners + [Subscription(event, handler)];
    }
  }

  /** The playback phase the two flags encode. */
  datatype PlaybackPhase = Playing | Paused | NotPlaying

  class AppComponent {
    var isPlaying: bool
    var isPaused: bool
    var isMuted: bool
    const audio: AudioHandle
    /** The `currentTime` signal: what the display shows. */
    var currentTime: Time
    /** How many times `playAudio` has run. */
    ghost var plays: nat

    /** Never both playing and paused; the element's mute follows the flag;
        the listeners are exactly those of the plays so far. */
    ghost predicate Valid()
      reads this, audio
    {
      !(isPlaying && isPaused) &&
      audio.muted == isMuted &&
      audio.listeners == Registrations(plays)
    }

    function Phase(): (p: PlaybackPhase)
      reads this
      ensures p == Playing <==> isPlaying
      ensures p == Paused <==> isPaused && !isPlaying
    {
      if isPlaying then Playing else if isPaused then Paused else NotPlaying
    }

    constructor ()
      ensures Valid() && fresh(audio)
      ensures !isPlaying && !isPaused && !isMuted && Phase() == NotPlaying
      ensures currentTime == Time(0, 0) && plays == 0
      ensures audio.src == "" && audio.currentTime == 0.0 && audio.paused && audio.volume == 1.0
    {
      isPlaying := false;
      isPaused := false;
      audio := new AudioHandle();
      isMuted := false;
      currentTime := Time(0, 0);
      plays := 0;
    }

    /** `playAudio`: from any state, (re)loads the track from the start,
        plays it and registers its three listeners once more. */
    method PlayAudio()
      requires Valid()
      modifies this`isPlaying, this`isPaused, this`plays, audio`src, audio`currentTime, audio`paused, audio`listeners
      ensures Valid()
      ensures isPlaying && !isPaused && Phase() == Playing
      ensures isMuted == old(isMuted) && currentTime == old(currentTime)
      ensures audio.src == Track && audio.currentTime == 0.0 && !audio.paused
      ensures audio.listeners == old(audio.listeners) + PlaySubscriptions
      ensures |audio.listeners| == |old(audio.listeners)| + 3
      ensures plays == old(plays) + 1
    {
      audio.src := Track;
      audio.Load();
      isPlaying := true;
      isPaused := false;
      audio.Play();
      audio.AddEventListener("ended", OnEnded);
      audio.AddEventListener("timeupdate", OnProgress);
      audio.AddEventListener("timeupdate", OnTime);
      plays := plays + 1;
    }

    /** `calculateTime`, run on a `timeupdate` event from the element:
        shows the element's position as minutes and seconds. */
    method CalculateTime()
      requires Valid()
      modifies this`currentTime
      ensures Valid()
      ensures currentTime == SplitPosition(audio.currentTime)
      ensures currentTime.seconds < 60
      ensures currentTime.minutes * 60 + currentTime.seconds == audio.currentTime.Floor
    {
      var position := audio.currentTime;
      var minutes := (position / 60.0).Floor;
      var seconds := Rem60(position).Floor;
      FloorSplit(position);
      currentTime := Time(minutes, seconds);
    }

    /** `audioEnded`, run on the element's `ended` event: neither playing
        nor paused; the position and the display stay as they are. */
    method AudioEnded()
      requires Valid()
      modifies this`isPlaying, this`isPaused
      ensures Valid()
      ensures !isPlaying && !isPaused && Phase() == NotPlaying
      ensures isMuted == old(isMuted) && currentTime == old(currentTime)
      ensures audio.currentTime == old(audio.currentTime)
    {
      isPlaying := false;
      isPaused := false;
    }

    /** `resetPause`: resumes playing; not guarded, so it also runs when
        nothing was paused. */
    method ResetPause()
      requires Valid()
      modifies this`isPlaying, this`isPaused, audio`paused
      ensures Valid()
      ensures isPlaying && !isPaused && Phase() == Playing
      ensures !audio.paused
      ensures isMuted == old(isMuted) && currentTime == old(currentTime)
      ensures audio.currentTime == old(audio.currentTime)
    {
      isPaused := false;
      isPlaying := true;
      audio.Play();
    }

    /** `pauseAudio`: pauses where it is; not guarded either. */
    method PauseAudio()
      requires Valid()
      modifies this`isPlaying, this`isPaused, audio`paused
      ensures Valid()
      ensures !isPlaying && isPaused && Phase() == Paused
      ensures audio.paused
      ensures isMuted == old(isMuted) && currentTime == old(currentTime)
      ensures audio.currentTime == old(audio.currentTime)
    {
      audio.Pause();
      isPlaying := false;
      isPaused := true;
    }

    /** `stopAudio`: pauses and rewinds the element to the start;
        `stopAudio` itself does not touch the display. */
    method StopAudio()
      requires Valid()
      modifies this`isPlaying, this`isPaused, audio`paused, audio`currentTime
      ensures Valid()
      ensures !isPlaying && !isPaused && Phase() == NotPlaying
      ensures audio.paused && audio.currentTime == 0.0
      ensures isMuted == old(isMuted) && currentTime == old(currentTime)
    {
      audio.Pause();
      isPlaying := false;
      isPaused := false;
      audio.currentTime := 0.0;
    }

    /** `toggleMute`: flips the flag and hands the new value to the element;
        the volume is not touched. */
    method ToggleMute()
      requires Valid()
      modifies this`isMuted, audio`muted
      ensures Valid()
      ensures isMuted == !old(isMuted) && audio.muted == isMuted
      ensures audio.volume == old(audio.volume)
      ensures isPlaying == old(isPlaying) && isPaused == old(isPaused)
    {
      isMuted := !isMuted;
      audio.muted := isMuted;
    }
  }
}
