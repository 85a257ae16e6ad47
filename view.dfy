/**
 * The view-state rules of the component: the PIN gate, the scroll-driven
 * visibility of the creation form, and the registration of the scroll
 * handler that drives it.
 */
module View {
  import Tabs

  /** The fixed PIN the gate compares against: it opens only for this exact string. */
  const Pin := "2548"

  /** The scroll offset from which the creation form is hidden. */
  const FormThreshold := 30

  /** The scroll handler's rule: the form is shown while the list is scrolled less than the threshold. */
  function FormVisible(scrollTop: int): (r: bool)
    ensures scrollTop <= 0 ==> r
    ensures scrollTop >= 30 ==> !r
  {
    scrollTop < FormThreshold
  }

  /**
   * The list element whose scroll events drive the form (and that the handler
   * reads) is in the DOM: the unlocked screen, outside its "home" arm.
   */
  function ListMounted(unlocked: bool, tab: string): (r: bool)
    ensures !unlocked ==> !r
    ensures unlocked && tab != "home" ==> r
  {
    unlocked && tab != "home"
  }

  /**
   * As written: the effect that registers the scroll handler has an empty
   * dependency list, so it runs once, after the first render, and registers
   * the handler only if the list was in the DOM at that moment. The result is
   * fixed for the rest of the session.
   */
  function ListenerAttachedAsWritten(firstUnlocked: bool, firstTab: string): (r: bool)
    ensures !firstUnlocked ==> !r
  {
    ListMounted(firstUnlocked, firstTab)
  }

  /**
   * Corrected: the registration is keyed on the gate, so it runs again once
   * the list mounts and the handler is attached exactly while the list is in
   * the DOM.
   */
  function ListenerAttachedCorrected(unlocked: bool, tab: string): (r: bool)
    ensures unlocked && tab != "home" ==> r
  {
    ListMounted(unlocked, tab)
  }

  /**
   * The form flag after a scroll event: the handler runs only if it is
   * attached, and then sets the flag by the scroll rule when the list is in
   * the DOM (`listRef.current` is not null); otherwise the flag is kept.
   */
  function FormAfterScroll(attached: bool, unlocked: bool, tab: string, shown: bool, scrollTop: int): bool
  {
    if attached && ListMounted(unlocked, tab) then FormVisible(scrollTop) else shown
  }

  /**
   * As written: a session's first render is the locked gate on the initial
   * tab, so the handler is never attached and no scroll event ever changes the
   * form flag; scrolling the unlocked list to 500 leaves the form shown.
   */
  lemma ScrollNeverReachesHandler(unlocked: bool, tab: string, shown: bool, scrollTop: int)
    ensures !ListenerAttachedAsWritten(false, Tabs.InitialTab)
    ensures FormAfterScroll(ListenerAttachedAsWritten(false, Tabs.InitialTab), unlocked, tab, shown, scrollTop) == shown
    ensures FormAfterScroll(ListenerAttachedAsWritten(false, Tabs.InitialTab), true, Tabs.InitialTab, true, 500)
  {
  }

  /**
   * With the corrected registration, on the unlocked list the flag depends on
   * the last scroll offset alone (no hysteresis): the form is hidden from the
   * threshold on and shown again at the top.
   */
  lemma ScrollDrivesForm(tab: string, shown: bool, down: int, up: int)
    requires tab != "home" && down >= FormThreshold && up < FormThreshold
    ensures !FormAfterScroll(ListenerAttachedCorrected(true, tab), true, tab, shown, down)
    ensures FormAfterScroll(ListenerAttachedCorrected(true, tab), true, tab,
                            FormAfterScroll(ListenerAttachedCorrected(true, tab), true, tab, shown, down), up)
  {
  }
}
