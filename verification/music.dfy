/**
 * The background-music button: an audio element is created on mount, its
 * `canplaythrough` event unlocks the button, and each press either pauses
 * the audio or asks it to play. Whether `play()` resolves or is rejected
 * (autoplay policy, decoding errors) is an input of the press.
 */
module MusicPlayer {

  datatype PlayerState = PlayerState(
    hasAudio: bool,    // `audioRef.current` is set
    listening: bool,   // the `canplaythrough` listener is attached
    isLoaded: bool,
    isPlaying: bool,
    audioPaused: bool) // the audio element's own paused flag

  /** Right after mount: an audio element, loading, nothing playing. */
  const Mounted: PlayerState := PlayerState(true, true, false, false, true)

  /** `canplaythrough`: unlock the button, if the listener is still attached. */
  function CanPlayThrough(s: PlayerState): (t: PlayerState)
    ensures s.listening ==> t.isLoaded
    ensures !s.listening ==> t == s
    ensures t.isPlaying == s.isPlaying && t.audioPaused == s.audioPaused && t.hasAudio == s.hasAudio
  {
    if s.listening then s.(isLoaded := true) else s
  }

  /** The gate at the top of `toggleAudio`. */
  predicate CanToggle(s: PlayerState) {
    s.hasAudio && s.isLoaded
  }

  /**
   * `toggleAudio`, with `playResolves` telling how the `play()` promise
   * settles when one is requested.
   */
  function ToggleAudio(s: PlayerState, playResolves: bool): (t: PlayerState)
    ensures !CanToggle(s) ==> t == s
    ensures CanToggle(s) && s.isPlaying ==> !t.isPlaying && t.audioPaused
    ensures CanToggle(s) && !s.isPlaying ==> (t.isPlaying <==> playResolves)
    ensures CanToggle(s) && !s.isPlaying ==> (if playResolves then !t.audioPaused else t.audioPaused == s.audioPaused)
    ensures t.isLoaded == s.isLoaded && t.hasAudio == s.hasAudio && t.listening == s.listening
  {
    if !CanToggle(s) then s
    else if !s.isPlaying then
      if playResolves then s.(isPlaying := true, audioPaused := false) else s.(isPlaying := false)
    else s.(isPlaying := false, audioPaused := true)
  }

  /** The effect's cleanup: pause, detach the listener, drop the element. */
  function Unmount(s: PlayerState): (t: PlayerState)
    ensures !t.hasAudio && !t.listening
    ensures s.hasAudio ==> t.audioPaused
    ensures t.isLoaded == s.isLoaded && t.isPlaying == s.isPlaying
  {
    if s.hasAudio then s.(hasAudio := false, listening := false, audioPaused := true)
    else s.(listening := false)
  }

  /**
   * The element pausing on its own: a media key, a lost audio focus, a
   * stalled stream. The component registers no `pause` listener, so
   * `isPlaying` is left as it was.
   */
  function OutsidePause(s: PlayerState): (t: PlayerState)
    ensures s.hasAudio ==> t.audioPaused
    ensures t.isPlaying == s.isPlaying && t.isLoaded == s.isLoaded
    ensures t.hasAudio == s.hasAudio && t.listening == s.listening
  {
    if s.hasAudio then s.(audioPaused := true) else s
  }

  /**
   * The element resuming on its own: the browser's global media controls or
   * a media key. The component registers no `play` listener either, so
   * `isPlaying` is again left as it was.
   */
  function OutsidePlay(s: PlayerState): (t: PlayerState)
    ensures s.hasAudio ==> !t.audioPaused
    ensures t.isPlaying == s.isPlaying && t.isLoaded == s.isLoaded
    ensures t.hasAudio == s.hasAudio && t.listening == s.listening
  {
    if s.hasAudio then s.(audioPaused := false) else s
  }

  /** The outside pause and resume are the two events the component does not hear. */
  datatype PlayerEvent = CanPlay | Toggle(playResolves: bool) | Unmounted | ExternalPause | ExternalPlay

  predicate FromOutside(e: PlayerEvent) {
    e.ExternalPause? || e.ExternalPlay?
  }

  function Step(s: PlayerState, e: PlayerEvent): PlayerState {
    match e
    case CanPlay => CanPlayThrough(s)
    case Toggle(ok) => ToggleAudio(s, ok)
    case Unmounted => Unmount(s)
    case ExternalPause => OutsidePause(s)
    case ExternalPlay => OutsidePlay(s)
  }

  function Run(s: PlayerState, es: seq<PlayerEvent>): PlayerState
    decreases |es|
  {
    if es == [] then s else Run(Step(s, es[0]), es[1..])
  }

  /**
   * The button never says "Pause music" before the audio can play through,
   * and the listener is only attached to a live element. What the element
   * itself does is not tied to the button: outside events move it alone.
   */
  predicate Inv(s: PlayerState) {
    && (s.isPlaying ==> s.isLoaded)
    && (s.listening ==> s.hasAudio)
  }

  lemma {:induction false} RunKeepsInv(s: PlayerState, es: seq<PlayerEvent>)
    requires Inv(s)
    ensures Inv(Run(s, es))
    decreases |es|
  {
    if es != [] {
      RunKeepsInv(Step(s, es[0]), es[1..]);
    }
  }

  /** Every state reachable from mount keeps the invariant. */
  lemma ReachableInv(es: seq<PlayerEvent>)
    ensures Inv(Run(Mounted, es))
  {
    RunKeepsInv(Mounted, es);
  }

  /** The element sounds exactly while the button says "Pause music". */
  predicate InSync(s: PlayerState) {
    Inv(s) && (s.hasAudio ==> (s.isPlaying <==> !s.audioPaused))
  }

  /** Without outside pauses or resumes, the element plays exactly while `isPlaying` holds. */
  lemma {:induction false} RunKeepsInSync(s: PlayerState, es: seq<PlayerEvent>)
    requires InSync(s)
    requires forall k :: 0 <= k < |es| ==> !FromOutside(es[k])
    ensures InSync(Run(s, es))
    decreases |es|
  {
    if es != [] {
      RunKeepsInSync(Step(s, es[0]), es[1..]);
    }
  }

  /**
   * An outside pause while playing leaves the button saying "Pause music"
   * over a silent element; the next press only resets the button to "Play
   * music", and a second press plays again.
   */
  lemma OutsidePauseDesyncs(ok: bool)
    ensures var s := Run(Mounted, [CanPlay, Toggle(true), ExternalPause]);
      s.isPlaying && s.audioPaused && View(s).ariaLabel == "Pause music"
    ensures var s := Step(Run(Mounted, [CanPlay, Toggle(true), ExternalPause]), Toggle(ok));
      !s.isPlaying && s.audioPaused && View(s).ariaLabel == "Play music"
    ensures var s := Step(Step(Run(Mounted, [CanPlay, Toggle(true), ExternalPause]), Toggle(ok)), Toggle(true));
      s.isPlaying && !s.audioPaused
  {
    assert Run(Mounted, [CanPlay, Toggle(true), ExternalPause]) == PlayerState(true, true, true, true, true);
  }
  /**
   * An outside resume after a pause leaves the button offering "Play music"
   * over a sounding element; a press whose `play()` resolves brings the two
   * back in step.
   */
  lemma OutsidePlayDesyncs(ok: bool)
    ensures var s := Step(Step(Step(Step(Mounted, CanPlay), Toggle(true)), Toggle(ok)), ExternalPlay);
      !s.isPlaying && !s.audioPaused && View(s).ariaLabel == "Play music"
    ensures var s := Step(Step(Step(Step(Step(Mounted, CanPlay), Toggle(true)), Toggle(ok)), ExternalPlay), Toggle(true));
      s.isPlaying && !s.audioPaused && InSync(s)
  {
  }




  /** Once loaded, always loaded: no event resets `isLoaded`. */
  lemma {:induction false} LoadedStaysLoaded(s: PlayerState, es: seq<PlayerEvent>)
    requires s.isLoaded
    ensures Run(s, es).isLoaded
    decreases |es|
  {
    if es != [] {
      LoadedStaysLoaded(Step(s, es[0]), es[1..]);
    }
  }

  /** Only `canplaythrough` sets `isLoaded`. */
  lemma OnlyCanPlayLoads(s: PlayerState, e: PlayerEvent)
    requires !s.isLoaded && Step(s, e).isLoaded
    ensures e == CanPlay
  {
  }

  /** Before `canplaythrough`, presses do nothing at all. */
  lemma {:induction false} PressesBeforeLoadIgnored(s: PlayerState, es: seq<PlayerEvent>)
    requires !s.isLoaded
    requires forall k :: 0 <= k < |es| ==> es[k].Toggle?
    ensures Run(s, es) == s
    decreases |es|
  {
    if es != [] {
      PressesBeforeLoadIgnored(Step(s, es[0]), es[1..]);
    }
  }

  /** A rejected play leaves the button showing "Play music". */
  lemma RejectedPlayKeepsStopped(s: PlayerState)
    requires Inv(s) && !s.isPlaying
    ensures !ToggleAudio(s, false).isPlaying && Inv(ToggleAudio(s, false))
  {
  }

  datatype ButtonView = ButtonView(disabled: bool, ariaLabel: string, tooltip: string, pulsing: bool)

  /** The button as drawn. */
  function View(s: PlayerState): (v: ButtonView)
    ensures v.disabled <==> !s.isLoaded
    ensures v.ariaLabel == "Pause music" <==> s.isPlaying
    ensures v.tooltip == "Pause background music" <==> s.isPlaying
    ensures v.pulsing <==> s.isPlaying
  {
    ButtonView(!s.isLoaded,
      if s.isPlaying then "Pause music" else "Play music",
      if s.isPlaying then "Pause background music" else "Play background music",
      s.isPlaying)
  }

  /** The button is enabled exactly when a press can reach the player (while mounted). */
  lemma EnabledIffTogglable(s: PlayerState)
    requires s.hasAudio
    ensures !View(s).disabled <==> CanToggle(s)
  {
  }
}
