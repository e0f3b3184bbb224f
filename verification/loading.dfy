/**
 * The loading screen: three interval phases push `progress` towards caps of
 * 30, 70 and 100 by random increments, the last one sets `isComplete`, and
 * 500 ms later `isVisible` is cleared. Each call to `Math.random()` is an
 * input draw in [0, 1); progress is an exact real. The two start timeouts,
 * the ticks of each interval and the fade timeout are events, so phases may
 * interleave in any order.
 */
module LoadingScreen {

  datatype Phase = Quick | Medium | Final

  /** The value at which a phase stops its interval. */
  function Cap(p: Phase): real {
    match p
    case Quick => 30.0
    case Medium => 70.0
    case Final => 100.0
  }

  /** The smallest increment a phase can draw. */
  function MinIncrement(p: Phase): real {
    match p
    case Quick => 2.0
    case Medium => 1.0
    case Final => 0.5
  }

  /** One past the largest increment a phase can draw. */
  function MaxIncrement(p: Phase): real {
    match p
    case Quick => 10.0
    case Medium => 6.0
    case Final => 3.5
  }

  /** The increment of one tick: `random() * 8 + 2`, `random() * 5 + 1` or `random() * 3 + 0.5`. */
  function Increment(p: Phase, r: real): (inc: real)
    requires 0.0 <= r < 1.0
    ensures MinIncrement(p) <= inc < MaxIncrement(p)
  {
    match p
    case Quick => r * 8.0 + 2.0
    case Medium => r * 5.0 + 1.0
    case Final => r * 3.0 + 0.5
  }

  /**
   * The state updater of one tick: the new progress, or the cap once the new
   * progress reaches it.
   */
  function PhaseStep(p: Phase, prev: real, r: real): (n: real)
    requires 0.0 <= r < 1.0
    ensures n <= Cap(p)
    ensures n == Cap(p) <==> prev + Increment(p, r) >= Cap(p)
    ensures prev < Cap(p) ==> prev < n
    ensures prev <= Cap(p) ==> n == Cap(p) || n >= prev + MinIncrement(p)
    ensures prev > Cap(p) ==> n == Cap(p) && n < prev
  {
    var next := prev + Increment(p, r);
    if next >= Cap(p) then Cap(p) else next
  }

  /** Every value in `draws` is a possible result of `Math.random()`. */
  predicate ValidDraws(draws: seq<real>) {
    forall k :: 0 <= k < |draws| ==> 0.0 <= draws[k] < 1.0
  }

  /** The outcome of running one phase alone: final progress, ticks taken, and whether the interval was cleared. */
  datatype PhaseRun = PhaseRun(progress: real, ticks: nat, cleared: bool)

  /** One phase ticking on its own with the given draws, until it clears its interval or the draws run out. */
  function RunPhase(p: Phase, prev: real, draws: seq<real>): (res: PhaseRun)
    requires ValidDraws(draws)
    ensures res.ticks <= |draws|
    ensures res.cleared ==> res.progress == Cap(p) && res.ticks >= 1
    ensures !res.cleared ==> res.ticks == |draws|
    ensures prev <= Cap(p) ==> prev <= res.progress <= Cap(p)
    decreases |draws|
  {
    if draws == [] then PhaseRun(prev, 0, false)
    else
      var n := PhaseStep(p, prev, draws[0]);
      if n == Cap(p) then PhaseRun(n, 1, true)
      else
        var rest := RunPhase(p, n, draws[1..]);
        PhaseRun(rest.progress, rest.ticks + 1, rest.cleared)
  }

  /**
   * A phase that starts within `k` minimal increments of its cap clears its
   * interval within `k` ticks, whatever the draws.
   */
  lemma {:induction false} PhaseClearsWithin(p: Phase, prev: real, draws: seq<real>, k: nat)
    requires ValidDraws(draws)
    requires k >= 1 && |draws| >= k
    requires prev >= Cap(p) - MinIncrement(p) * k as real
    ensures RunPhase(p, prev, draws).cleared
    ensures RunPhase(p, prev, draws).ticks <= k
    decreases k
  {
    var n := PhaseStep(p, prev, draws[0]);
    if n != Cap(p) {
      assert n >= prev + MinIncrement(p);
      assert k >= 2;
      assert ValidDraws(draws[1..]);
      PhaseClearsWithin(p, n, draws[1..], k - 1);
    }
  }

  /** The quick phase goes from 0 to 30 in at most 15 ticks. */
  lemma QuickPhaseWithin15Ticks(draws: seq<real>)
    requires ValidDraws(draws) && |draws| >= 15
    ensures var res := RunPhase(Quick, 0.0, draws); res.cleared && res.ticks <= 15 && res.progress == 30.0
  {
    PhaseClearsWithin(Quick, 0.0, draws, 15);
  }

  /** The medium phase goes from 30 to 70 in at most 40 ticks. */
  lemma MediumPhaseWithin40Ticks(prev: real, draws: seq<real>)
    requires ValidDraws(draws) && |draws| >= 40 && prev >= 30.0
    ensures var res := RunPhase(Medium, prev, draws); res.cleared && res.ticks <= 40 && res.progress == 70.0
  {
    PhaseClearsWithin(Medium, prev, draws, 40);
  }

  /** The final phase goes from 70 to 100 in at most 60 ticks. */
  lemma FinalPhaseWithin60Ticks(prev: real, draws: seq<real>)
    requires ValidDraws(draws) && |draws| >= 60 && prev >= 70.0
    ensures var res := RunPhase(Final, prev, draws); res.cleared && res.ticks <= 60 && res.progress == 100.0
  {
    PhaseClearsWithin(Final, prev, draws, 60);
  }

  /** Whether a phase's interval has not been started yet, is ticking, or has been cleared. */
  datatype PhaseStatus = Pending | Running | Cleared

  datatype LoadingState = LoadingState(
    progress: real,
    quick: PhaseStatus,
    medium: PhaseStatus,
    final: PhaseStatus,
    isComplete: bool,
    isVisible: bool,
    fadePending: bool,
    removed: bool)

  /** On mount: progress 0, the quick interval running, the other two waiting for their timeouts. */
  const Initial: LoadingState := LoadingState(0.0, Running, Pending, Pending, false, true, false, false)

  /**
   * `MediumStarts` and `FinalStarts` are the 800 ms and 2000 ms timeouts,
   * `Tick` one firing of a phase's interval with its draw, `FadeFires` the
   * 500 ms timeout after completion. `FadeEnds` belongs to the intended
   * design only (see `RendersIntended`): the end of the 1000 ms opacity
   * transition.
   */
  datatype LoadingEvent = MediumStarts | FinalStarts | Tick(phase: Phase, draw: real) | FadeFires | FadeEnds

  predicate ValidEvent(e: LoadingEvent) {
    e.Tick? ==> 0.0 <= e.draw < 1.0
  }

  function StatusOf(s: LoadingState, p: Phase): PhaseStatus {
    match p
    case Quick => s.quick
    case Medium => s.medium
    case Final => s.final
  }

  /** One tick of a running phase; a cleared or pending interval does nothing. */
  function TickPhase(s: LoadingState, p: Phase, r: real): (t: LoadingState)
    requires 0.0 <= r < 1.0
    ensures StatusOf(s, p) != Running ==> t == s
    ensures StatusOf(s, p) == Running ==> t.progress == PhaseStep(p, s.progress, r)
    ensures StatusOf(s, p) == Running ==> (StatusOf(t, p) == Cleared <==> t.progress == Cap(p))
    ensures t.isComplete <==> s.isComplete || (p == Final && StatusOf(s, p) == Running && t.progress == 100.0)
    ensures t.isVisible == s.isVisible && t.removed == s.removed
  {
    if StatusOf(s, p) != Running then s
    else
      var n := PhaseStep(p, s.progress, r);
      var done := n == Cap(p);
      match p
      case Quick => s.(progress := n, quick := if done then Cleared else Running)
      case Medium => s.(progress := n, medium := if done then Cleared else Running)
      case Final =>
        s.(progress := n, final := if done then Cleared else Running,
           isComplete := s.isComplete || done, fadePending := s.fadePending || (done && !s.isComplete))
  }

  function Step(s: LoadingState, e: LoadingEvent): LoadingState
    requires ValidEvent(e)
  {
    match e
    case MediumStarts => if s.medium == Pending then s.(medium := Running) else s
    case FinalStarts => if s.final == Pending then s.(final := Running) else s
    case Tick(p, r) => TickPhase(s, p, r)
    case FadeFires => if s.fadePending then s.(isVisible := false, fadePending := false) else s
    case FadeEnds => if !s.isVisible then s.(removed := true) else s
  }

  predicate ValidEvents(es: seq<LoadingEvent>) {
    forall k :: 0 <= k < |es| ==> ValidEvent(es[k])
  }

  function Run(s: LoadingState, es: seq<LoadingEvent>): LoadingState
    requires ValidEvents(es)
    decreases |es|
  {
    if es == [] then s else Run(Step(s, es[0]), es[1..])
  }

  /** The facts every reachable state keeps. */
  predicate Inv(s: LoadingState) {
    && 0.0 <= s.progress <= 100.0
    && (s.isComplete <==> s.final == Cleared)
    && (!s.isVisible ==> s.isComplete)
    && (s.fadePending ==> s.isComplete && s.isVisible)
    && (s.isComplete ==> s.fadePending || !s.isVisible)
    && (s.removed ==> !s.isVisible)
  }

  lemma StepKeepsInv(s: LoadingState, e: LoadingEvent)
    requires Inv(s) && ValidEvent(e)
    ensures Inv(Step(s, e))
  {
  }

  lemma {:induction false} RunKeepsInv(s: LoadingState, es: seq<LoadingEvent>)
    requires Inv(s) && ValidEvents(es)
    ensures Inv(Run(s, es))
    decreases |es|
  {
    if es != [] {
      StepKeepsInv(s, es[0]);
      RunKeepsInv(Step(s, es[0]), es[1..]);
    }
  }

  /** Every state reachable from mount satisfies the invariant. */
  lemma ReachableInv(es: seq<LoadingEvent>)
    requires ValidEvents(es)
    ensures Inv(Run(Initial, es))
  {
    RunKeepsInv(Initial, es);
  }

  /** `isComplete` is only ever set by a final-phase tick that returns 100. */
  lemma CompletionOnlyByFinalTick(s: LoadingState, e: LoadingEvent)
    requires ValidEvent(e)
    requires !s.isComplete && Step(s, e).isComplete
    ensures e.Tick? && e.phase == Final && Step(s, e).progress == 100.0
  {
  }

  /** `isVisible` only becomes false through the fade timeout of a completed load. */
  lemma HidingNeedsCompletion(s: LoadingState, e: LoadingEvent)
    requires Inv(s) && ValidEvent(e)
    requires s.isVisible && !Step(s, e).isVisible
    ensures e == FadeFires && s.isComplete
  {
  }

  /** A phase whose own tick runs while progress is above its cap pulls progress down to the cap. */
  lemma OverlapSnapsDown(s: LoadingState, p: Phase, r: real)
    requires 0.0 <= r < 1.0
    requires StatusOf(s, p) == Running && s.progress > Cap(p)
    ensures TickPhase(s, p, r).progress == Cap(p) < s.progress
  {
  }

  /** Once the quick and medium phases are done, completing the final phase leaves progress at 100 for good. */
  lemma CompletionAfterEarlierPhasesStays(s: LoadingState, es: seq<LoadingEvent>)
    requires ValidEvents(es)
    requires s.quick == Cleared && s.medium == Cleared && s.final == Cleared && s.progress == 100.0
    ensures Run(s, es).progress == 100.0
    decreases |es|
  {
    if es != [] {
      CompletionAfterEarlierPhasesStays(Step(s, es[0]), es[1..]);
    }
  }

  /** As written, the component returns nothing once it is both hidden and complete. */
  predicate RendersNothing(s: LoadingState) {
    !s.isVisible && s.isComplete
  }

  /** The screen drawn with its fading `opacity-0` class. */
  predicate DrawnFaded(s: LoadingState) {
    !RendersNothing(s) && !s.isVisible
  }

  /**
   * As written, hiding and unmounting coincide: in every reachable state the
   * screen is either drawn fully opaque or not drawn, so the 1000 ms opacity
   * transition never plays.
   */
  lemma FadeNeverDrawn(s: LoadingState)
    requires Inv(s)
    ensures !DrawnFaded(s)
    ensures RendersNothing(s) <==> !s.isVisible
  {
  }

  /** As intended: hidden screens stay drawn, faded, until the transition ends. */
  predicate RendersIntended(s: LoadingState) {
    !s.removed
  }

  /**
   * With the intended rule, the fade timeout leaves the screen drawn with
   * `opacity-0`, and the end of the transition removes it.
   */
  lemma FadeDrawnIntended(s: LoadingState)
    requires Inv(s) && s.fadePending
    ensures var t := Step(s, FadeFires);
      RendersIntended(t) && !t.isVisible && Inv(t)
      && !RendersIntended(Step(t, FadeEnds)) && Inv(Step(t, FadeEnds))
  {
  }

  /** The text under the bar. */
  function StatusLabel(progress: real): (r: string)
    ensures r == "Ready" <==> progress >= 100.0
    ensures r == "Awakening..." <==> progress < 30.0
    ensures r == "Preparing..." <==> 30.0 <= progress < 70.0
    ensures r == "Almost ready..." <==> 70.0 <= progress < 100.0
  {
    if progress < 30.0 then "Awakening..."
    else if progress < 70.0 then "Preparing..."
    else if progress < 100.0 then "Almost ready..."
    else "Ready"
  }

  const StageLabels: seq<string> := ["Awakening...", "Preparing...", "Almost ready...", "Ready"]

  /** How many of the thresholds 30, 70 and 100 progress has reached. */
  function Stage(progress: real): (k: nat)
    ensures k < |StageLabels|
  {
    (if progress >= 30.0 then 1 else 0) + (if progress >= 70.0 then 1 else 0) + (if progress >= 100.0 then 1 else 0)
  }

  /** The label is the one for the stage progress has reached. */
  lemma StatusLabelByStage(progress: real)
    ensures StatusLabel(progress) == StageLabels[Stage(progress)]
  {
  }

  /** More progress never shows an earlier label. */
  lemma StageMonotone(a: real, b: real)
    requires a <= b
    ensures Stage(a) <= Stage(b)
  {
  }

  /** While a phase ticks at or below its cap, the label never moves backwards. */
  lemma TickNeverRegressesLabel(p: Phase, prev: real, r: real)
    requires 0.0 <= r < 1.0 && prev <= Cap(p)
    ensures Stage(prev) <= Stage(PhaseStep(p, prev, r))
  {
    StageMonotone(prev, PhaseStep(p, prev, r));
  }
}
