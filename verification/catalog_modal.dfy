/**
 * The catalog's detail modal: `openProjectModal`, `closeProjectModal` and
 * the selection clear that `closeProjectModal` schedules 300 ms later. The
 * 300 ms timer is an event of its own; `pendingClears` counts the timers
 * scheduled and not yet fired, so a clear can only happen after a close.
 */
module CatalogModal {
  import opened JsValues
  import opened ProjectsCatalog

  datatype ModalState = ModalState(selected: Option<Project>, isOpen: bool, pendingClears: nat)

  /** Nothing selected, modal closed, no timer pending. */
  const Initial: ModalState := ModalState(None, false, 0)

  /** The modal is drawn only when it is open and a project is selected. */
  predicate ModalRendered(s: ModalState) {
    s.isOpen && s.selected.Some?
  }

  /** The effect on `isModalOpen` sets `overflow: hidden` on the page body while the modal is open. */
  predicate ScrollLocked(s: ModalState) {
    s.isOpen
  }

  /** The page scroll is never locked without a modal on screen. */
  predicate Consistent(s: ModalState) {
    ScrollLocked(s) ==> ModalRendered(s)
  }

  /** Clicking a card: select it and open the modal. */
  function OpenProjectModal(s: ModalState, p: Project): (t: ModalState)
    ensures t.selected == Some(p) && t.isOpen
    ensures ModalRendered(t) && Consistent(t)
    ensures t.pendingClears == s.pendingClears
  {
    ModalState(Some(p), true, s.pendingClears)
  }

  /** Closing: the modal goes away at once, the selection is cleared by a timer. */
  function CloseProjectModal(s: ModalState): (t: ModalState)
    ensures !t.isOpen && !ModalRendered(t) && Consistent(t)
    ensures t.selected == s.selected
    ensures t.pendingClears == s.pendingClears + 1
  {
    ModalState(s.selected, false, s.pendingClears + 1)
  }

  /** The scheduled clear as written: it drops the selection whatever has happened since. */
  function ClearSelectionAsWritten(s: ModalState): (t: ModalState)
    ensures s.pendingClears == 0 ==> t == s
    ensures s.pendingClears > 0 ==> t.selected.None? && t.isOpen == s.isOpen && t.pendingClears == s.pendingClears - 1
  {
    if s.pendingClears == 0 then s else ModalState(None, s.isOpen, s.pendingClears - 1)
  }

  /**
   * The scheduled clear as intended: it only drops the selection of a modal
   * that is still closed, so a project opened in the meantime stays on
   * screen.
   */
  function ClearSelection(s: ModalState): (t: ModalState)
    ensures s.pendingClears == 0 ==> t == s
    ensures s.pendingClears > 0 && !s.isOpen ==> t.selected.None? && !t.isOpen
    ensures s.isOpen ==> t.selected == s.selected && t.isOpen
    ensures Consistent(s) ==> Consistent(t)
  {
    if s.pendingClears == 0 then s
    else ModalState(if s.isOpen then s.selected else None, s.isOpen, s.pendingClears - 1)
  }

  datatype ModalEvent = Open(project: Project) | Close | ClearFires

  function Step(s: ModalState, e: ModalEvent): ModalState {
    match e
    case Open(p) => OpenProjectModal(s, p)
    case Close => CloseProjectModal(s)
    case ClearFires => ClearSelection(s)
  }

  function StepAsWritten(s: ModalState, e: ModalEvent): ModalState {
    match e
    case Open(p) => OpenProjectModal(s, p)
    case Close => CloseProjectModal(s)
    case ClearFires => ClearSelectionAsWritten(s)
  }

  function Run(s: ModalState, es: seq<ModalEvent>): ModalState
    decreases |es|
  {
    if es == [] then s else Run(Step(s, es[0]), es[1..])
  }

  function RunAsWritten(s: ModalState, es: seq<ModalEvent>): ModalState
    decreases |es|
  {
    if es == [] then s else RunAsWritten(StepAsWritten(s, es[0]), es[1..])
  }

  /** With the intended clear, every sequence of clicks and timers keeps the scroll lock and the modal in step. */
  lemma {:induction false} RunKeepsConsistent(s: ModalState, es: seq<ModalEvent>)
    requires Consistent(s)
    ensures Consistent(Run(s, es))
    decreases |es|
  {
    if es != [] {
      RunKeepsConsistent(Step(s, es[0]), es[1..]);
    }
  }

  /**
   * As written, closing one project and opening another before the 300 ms
   * timer fires leaves `isModalOpen` true with no selected project: no modal
   * is drawn, yet the page scroll stays locked.
   */
  lemma ReopenWithinClearDelayLocksPage(p: Project, q: Project)
    ensures var t := RunAsWritten(Initial, [Open(p), Close, Open(q), ClearFires]);
      ScrollLocked(t) && !ModalRendered(t)
  {
    var es := [Open(p), Close, Open(q), ClearFires];
    var s1 := StepAsWritten(Initial, Open(p));
    var s2 := StepAsWritten(s1, Close);
    var s3 := StepAsWritten(s2, Open(q));
    var s4 := StepAsWritten(s3, ClearFires);
    assert es[1..] == [Close, Open(q), ClearFires];
    assert es[1..][1..] == [Open(q), ClearFires];
    assert es[1..][1..][1..] == [ClearFires];
    assert RunAsWritten(s4, []) == s4;
    assert RunAsWritten(s3, [ClearFires]) == s4;
    assert RunAsWritten(s2, [Open(q), ClearFires]) == s4;
    assert RunAsWritten(s1, [Close, Open(q), ClearFires]) == s4;
  }

  /** With the intended clear, the same clicks leave the second project on screen. */
  lemma ReopenWithinClearDelayShowsProject(p: Project, q: Project)
    ensures var t := Run(Initial, [Open(p), Close, Open(q), ClearFires]);
      ModalRendered(t) && t.selected == Some(q)
  {
    var es := [Open(p), Close, Open(q), ClearFires];
    var s1 := Step(Initial, Open(p));
    var s2 := Step(s1, Close);
    var s3 := Step(s2, Open(q));
    var s4 := Step(s3, ClearFires);
    assert es[1..] == [Close, Open(q), ClearFires];
    assert es[1..][1..] == [Open(q), ClearFires];
    assert es[1..][1..][1..] == [ClearFires];
    assert Run(s4, []) == s4;
    assert Run(s3, [ClearFires]) == s4;
    assert Run(s2, [Open(q), ClearFires]) == s4;
    assert Run(s1, [Close, Open(q), ClearFires]) == s4;
  }
}
