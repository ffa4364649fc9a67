/** The `QuitManager` behaviour: a process-wide first-instance-wins singleton
    that intercepts the application's quit request, plays a quit sound chosen
    by whether the ending was seen, fades the screen to black and then quits. */
module Quit {
  import opened Base

  /** An audio clip; only its length in seconds matters here. */
  datatype AudioClip = AudioClip(length: real)

  const DefaultFadeDuration: real := 2.0

  /** `Mathf.Max`. */
  function Max(a: real, b: real): (m: real)
    ensures m >= a && m >= b
    ensures m == a || m == b
  {
    if a > b then a else b
  }

  /** How long the quit sequence waits before quitting. */
  function WaitTime(clip: Option<AudioClip>, fadeDuration: real): (w: real)
    ensures w >= fadeDuration
    ensures clip.None? ==> w == fadeDuration
    ensures clip.Some? ==> w >= clip.value.length && (w == clip.value.length || w == fadeDuration)
  {
    if clip.Some? then Max(clip.value.length, fadeDuration) else fadeDuration
  }

  /** `Mathf.Clamp01`. */
  function Clamp01(x: real): (r: real)
    ensures 0.0 <= r <= 1.0
    ensures 0.0 <= x <= 1.0 ==> r == x
    ensures x < 0.0 ==> r == 0.0
    ensures x > 1.0 ==> r == 1.0
  {
    if x < 0.0 then 0.0 else if x > 1.0 then 1.0 else x
  }

  /** The overlay opacity after `timer` seconds of fading. */
  function FadeAlpha(timer: real, fadeDuration: real): (a: real)
    requires fadeDuration > 0.0
    ensures 0.0 <= a <= 1.0
    ensures timer >= fadeDuration ==> a == 1.0
    ensures timer <= 0.0 ==> a == 0.0
    ensures 0.0 <= timer <= fadeDuration ==> a * fadeDuration == timer
  {
    Clamp01(timer / fadeDuration)
  }

  lemma FadeAlphaMonotone(t1: real, t2: real, fadeDuration: real)
    requires fadeDuration > 0.0 && t1 <= t2
    ensures FadeAlpha(t1, fadeDuration) <= FadeAlpha(t2, fadeDuration)
  {
    assert t1 / fadeDuration <= t2 / fadeDuration by {
      assert t2 / fadeDuration - t1 / fadeDuration == (t2 - t1) / fadeDuration;
    }
  }

  function Sum(ds: seq<real>): real {
    if ds == [] then 0.0 else ds[0] + Sum(ds[1..])
  }

  /** The opacities the fade loop writes, one per frame, when it starts at
      `timer` and the frames last `frames[0]`, `frames[1]`, ... seconds: it
      runs while the timer is below `waitTime`. */
  function FadeWrites(timer: real, frames: seq<real>, waitTime: real, fadeDuration: real): seq<real>
    requires fadeDuration > 0.0
    decreases |frames|
  {
    if timer >= waitTime || frames == [] then []
    else [FadeAlpha(timer + frames[0], fadeDuration)]
         + FadeWrites(timer + frames[0], frames[1..], waitTime, fadeDuration)
  }

  predicate AllInUnit(s: seq<real>) {
    forall i :: 0 <= i < |s| ==> 0.0 <= s[i] <= 1.0
  }

  /** The last of a non-empty sequence of opacities is full opacity. */
  predicate EndsOpaque(s: seq<real>) {
    |s| > 0 && s[|s| - 1] == 1.0
  }

  /** Every opacity the loop writes lies in [0, 1]. */
  lemma {:induction false} FadeWritesBounded(timer: real, frames: seq<real>, waitTime: real, fadeDuration: real)
    requires fadeDuration > 0.0
    ensures AllInUnit(FadeWrites(timer, frames, waitTime, fadeDuration))
    decreases |frames|
  {
    if !(timer >= waitTime || frames == []) {
      FadeWritesBounded(timer + frames[0], frames[1..], waitTime, fadeDuration);
    }
  }

  /** With frames of non-negative length the screen only ever gets darker. */
  lemma {:induction false} FadeWritesNondecreasing(timer: real, frames: seq<real>, waitTime: real, fadeDuration: real)
    requires fadeDuration > 0.0
    requires forall i :: 0 <= i < |frames| ==> frames[i] >= 0.0
    ensures var w := FadeWrites(timer, frames, waitTime, fadeDuration);
      forall i :: 0 <= i < |w| - 1 ==> w[i] <= w[i + 1]
    ensures var w := FadeWrites(timer, frames, waitTime, fadeDuration);
      |w| > 0 ==> FadeAlpha(timer, fadeDuration) <= w[0]
    decreases |frames|
  {
    if !(timer >= waitTime || frames == []) {
      var t := timer + frames[0];
      FadeWritesNondecreasing(t, frames[1..], waitTime, fadeDuration);
      FadeAlphaMonotone(timer, t, fadeDuration);
    }
  }

  /** When the wait lasts at least the fade and the frames cover the wait, the
      loop runs at least once and its last write is already full opacity. */
  lemma {:induction false} FadeWritesEndOpaque(timer: real, frames: seq<real>, waitTime: real, fadeDuration: real)
    requires fadeDuration > 0.0 && waitTime >= fadeDuration
    requires timer < waitTime && timer + Sum(frames) >= waitTime
    ensures EndsOpaque(FadeWrites(timer, frames, waitTime, fadeDuration))
    decreases |frames|
  {
    var t := timer + frames[0];
    if t < waitTime {
      FadeWritesEndOpaque(t, frames[1..], waitTime, fadeDuration);
    }
  }

  /** The quit sequence's state between its first await and QuitGame. */
  datatype FadeJob = FadeJob(waitTime: real)

  /** The static `Instance` and the `Application.wantsToQuit` subscribers. */
  class QuitHost {
    var instance: QuitManager?
    var wantsToQuit: seq<QuitManager>
    var destroyed: set<QuitManager>

    ghost predicate Valid()
      reads this
    {
      wantsToQuit == (if instance == null then [] else [instance])
      && (instance != null ==> instance !in destroyed)
    }

    constructor ()
      ensures Valid() && instance == null && destroyed == {}
    {
      instance, wantsToQuit, destroyed := null, [], {};
    }
  }

  class QuitManager {
    const normalQuitClip: Option<AudioClip>
    const endingQuitClip: Option<AudioClip>
    const fadeDuration: real

    var hasSeenEnding: bool
    var isQuitting: bool

    /** Whether `_fadeCanvasGroup` is set, its alpha and blocksRaycasts. */
    var hasFadeCanvas: bool
    var alpha: real
    var blocksRaycasts: bool

    /** The clips handed to PlayOneShot, in order. */
    var played: seq<AudioClip>
    /** The part of QuitSequence still to run after its first await. */
    var pending: Option<FadeJob>
    /** QuitGame has been called. */
    var quitCalled: bool
    /** Every value written to the overlay's alpha by the quit sequence. */
    var alphaWrites: seq<real>

    ghost predicate Valid()
      reads this
    {
      fadeDuration > 0.0 && 0.0 <= alpha <= 1.0
      && (!isQuitting ==> pending.None? && !quitCalled)
      && (isQuitting ==> (pending.Some? <==> !quitCalled))
      && (pending.Some? ==> hasFadeCanvas && pending.value.waitTime >= fadeDuration)
    }

    /** The serialized fields and the field initialisers. */
    constructor (normalQuitClip: Option<AudioClip>, endingQuitClip: Option<AudioClip>, fadeDuration: real)
      requires fadeDuration > 0.0
      ensures Valid()
      ensures this.normalQuitClip == normalQuitClip && this.endingQuitClip == endingQuitClip
      ensures this.fadeDuration == fadeDuration
      ensures !hasSeenEnding && !isQuitting && !hasFadeCanvas && played == [] && alphaWrites == []
    {
      this.normalQuitClip := normalQuitClip;
      this.endingQuitClip := endingQuitClip;
      this.fadeDuration := fadeDuration;
      hasSeenEnding, isQuitting := false, false;
      hasFadeCanvas, alpha, blocksRaycasts := false, 0.0, false;
      played, pending, quitCalled := [], None, false;
      alphaWrites := [];
    }

    /** The first instance to wake becomes Instance, builds the transparent
        overlay and subscribes to wantsToQuit; any later one is destroyed. */
    method Awake(host: QuitHost)
      requires Valid() && host.Valid()
      requires this != host.instance && this !in host.destroyed
      modifies this, host
      ensures Valid() && host.Valid()
      ensures old(host.instance) == null ==>
        host.instance == this && host.wantsToQuit == [this] && host.destroyed == old(host.destroyed)
        && hasFadeCanvas && alpha == 0.0 && !blocksRaycasts
      ensures old(host.instance) != null ==>
        host.instance == old(host.instance) && host.wantsToQuit == old(host.wantsToQuit)
        && host.destroyed == old(host.destroyed) + {this}
        && hasFadeCanvas == old(hasFadeCanvas) && alpha == old(alpha) && blocksRaycasts == old(blocksRaycasts)
      ensures hasSeenEnding == old(hasSeenEnding) && isQuitting == old(isQuitting)
      ensures pending == old(pending) && quitCalled == old(quitCalled) && played == old(played)
      ensures alphaWrites == old(alphaWrites)
    {
      if host.instance == null {
        host.instance := this;
        hasFadeCanvas, alpha, blocksRaycasts := true, 0.0, false;
      } else {
        host.destroyed := host.destroyed + {this};
        return;
      }
      host.wantsToQuit := host.wantsToQuit + [this];
    }

    method SetEndingFlag()
      requires Valid()
      modifies this`hasSeenEnding
      ensures Valid() && hasSeenEnding
    {
      hasSeenEnding := true;
    }

    /** The wantsToQuit handler: true lets the application exit. */
    method HandleQuitRequest() returns (allowExit: bool)
      requires Valid()
      modifies this
      ensures Valid()
      ensures allowExit == old(isQuitting)
      ensures old(isQuitting) ==> unchanged(this)
      ensures !old(isQuitting) ==> isQuitting && QuitSequenceStarted(old(played), old(alpha), old(alphaWrites), old(blocksRaycasts))
      ensures hasSeenEnding == old(hasSeenEnding) && hasFadeCanvas == old(hasFadeCanvas)
    {
      if isQuitting {
        return true;
      }
      QuitSequence();
      return false;
    }

    /** The clip the quit sequence plays. */
    function QuitClip(): (c: Option<AudioClip>)
      reads this
    {
      if hasSeenEnding then endingQuitClip else normalQuitClip
    }

    /** The state the quit sequence leaves when it first suspends (or, with no
        overlay, when it has already quit), given the state it started from. */
    ghost predicate QuitSequenceStarted(played0: seq<AudioClip>, alpha0: real, alphaWrites0: seq<real>, blocks0: bool)
      reads this
    {
      isQuitting
      && played == played0 + (if QuitClip().Some? then [QuitClip().value] else [])
      && alphaWrites == alphaWrites0 && alpha == alpha0
      && (hasFadeCanvas ==>
            blocksRaycasts && !quitCalled
            && pending == Some(FadeJob(WaitTime(QuitClip(), fadeDuration))))
      && (!hasFadeCanvas ==> quitCalled && pending.None? && blocksRaycasts == blocks0)
    }

    /** QuitSequence up to its first await. */
    method QuitSequence()
      requires Valid() && !isQuitting
      modifies this
      ensures Valid()
      ensures QuitSequenceStarted(old(played), old(alpha), old(alphaWrites), old(blocksRaycasts))
      ensures hasSeenEnding == old(hasSeenEnding) && hasFadeCanvas == old(hasFadeCanvas)
    {
      isQuitting := true;
      var clip := QuitClip();
      if clip.Some? {
        played := played + [clip.value];
      }
      if hasFadeCanvas {
        blocksRaycasts := true;
        pending := Some(FadeJob(WaitTime(clip, fadeDuration)));
      } else {
        QuitGame();
      }
    }

    method QuitGame()
      modifies this`quitCalled
      ensures quitCalled
    {
      quitCalled := true;
    }

    /** The rest of QuitSequence: the fade loop from timer 0, frame by frame,
        with the frame lengths the host supplies, then full opacity and
        QuitGame. The frames must cover the wait. */
    method RunFade(frames: seq<real>)
      requires Valid() && pending.Some?
      requires Sum(frames) >= pending.value.waitTime
      modifies this`alpha, this`alphaWrites, this`pending, this`quitCalled
      ensures Valid() && pending.None? && quitCalled && alpha == 1.0
      ensures alphaWrites ==
        old(alphaWrites) + FadeWrites(0.0, frames, old(pending).value.waitTime, fadeDuration) + [1.0]
    {
      var waitTime := pending.value.waitTime;
      var timer := 0.0;
      var i := 0;
      while timer < waitTime
        invariant 0 <= i <= |frames|
        invariant timer + Sum(frames[i..]) == Sum(frames)
        invariant alphaWrites + FadeWrites(timer, frames[i..], waitTime, fadeDuration)
               == old(alphaWrites) + FadeWrites(0.0, frames, waitTime, fadeDuration)
        invariant 0.0 <= alpha <= 1.0
        decreases |frames| - i
      {
        assert frames[i..][1..] == frames[i + 1..];
        timer := timer + frames[i];
        alpha := FadeAlpha(timer, fadeDuration);
        alphaWrites := alphaWrites + [alpha];
        i := i + 1;
      }
      alpha := 1.0;
      alphaWrites := alphaWrites + [1.0];
      pending := None;
      QuitGame();
    }
  }

  /** Two managers wake; the second is discarded. After the ending was seen,
      a first quit request is refused and plays the ending clip; with frames
      of half a second the overlay reads 0.25, 0.5, 1, 1 and is then forced
      to 1; a second request is allowed. */
  method QuitScenario() returns (first: bool, second: bool, sounds: seq<AudioClip>, writes: seq<real>)
    ensures !first && second
    ensures sounds == [AudioClip(3.0)]
    ensures writes == [0.25, 0.5, 1.0, 1.0, 1.0]
  {
    var host := new QuitHost();
    var a := new QuitManager(Some(AudioClip(1.0)), Some(AudioClip(3.0)), DefaultFadeDuration);
    var b := new QuitManager(Some(AudioClip(1.0)), Some(AudioClip(3.0)), DefaultFadeDuration);
    a.Awake(host);
    b.Awake(host);
    assert host.instance == a && b in host.destroyed;
    a.SetEndingFlag();
    first := a.HandleQuitRequest();
    assert a.pending == Some(FadeJob(3.0));
    var frames := [0.5, 0.5, 1.0, 1.0];
    assert Sum(frames) == 3.0;
    a.RunFade(frames);
    second := a.HandleQuitRequest();
    sounds := a.played;
    writes := a.alphaWrites;
  }

  /** A manager without an overlay skips the fade and quits at once, still
      refusing the first request. In the game every subscribed instance has
      run Awake and so built the overlay; this branch is reached only if the
      overlay is destroyed afterwards, which the manager here stands for by
      never having built one. */
  method NoOverlayScenario() returns (allowExit: bool, quit: bool, sounds: seq<AudioClip>)
    ensures !allowExit && quit
    ensures sounds == [AudioClip(1.0)]
  {
    var m := new QuitManager(Some(AudioClip(1.0)), None, DefaultFadeDuration);
    allowExit := m.HandleQuitRequest();
    quit, sounds := m.quitCalled, m.played;
  }
}
