/**
 * The two interactive examples of the components tutorial: a counter with
 * `-`, `+` and reset buttons, and a button that opens and closes a panel.
 * The counter is an unbounded integer here.
 */
module ComponentsPage {

  const OpenCaption: string := "開く"
  const CloseCaption: string := "閉じる"

  /** What the toggle example shows: the caption of its button and whether the
      panel below it is rendered. */
  datatype ToggleView = ToggleView(caption: string, panelShown: bool)

  /** `{isOpen ? "閉じる" : "開く"}` and `{isOpen && (...)}` */
  function ToggleViewOf(isOpen: bool): (v: ToggleView)
    ensures v.panelShown <==> isOpen
    ensures v.caption == CloseCaption <==> isOpen
    ensures v.caption == OpenCaption <==> !isOpen
  {
    ToggleView(if isOpen then CloseCaption else OpenCaption, isOpen)
  }

  class ComponentsTutorial {
    var isOpen: bool
    var count: int

    constructor ()
      ensures !isOpen && count == 0
    {
      isOpen := false;
      count := 0;
    }

    /** The `-` button: no lower bound, the count may go negative. */
    method Decrement()
      modifies this
      ensures count == old(count) - 1 && isOpen == old(isOpen)
    {
      count := count - 1;
    }

    /** The `+` button. */
    method Increment()
      modifies this
      ensures count == old(count) + 1 && isOpen == old(isOpen)
    {
      count := count + 1;
    }

    /** The reset button. */
    method Reset()
      modifies this
      ensures count == 0 && isOpen == old(isOpen)
    {
      count := 0;
    }

    /** The toggle button. */
    method Toggle()
      modifies this
      ensures isOpen == !old(isOpen) && count == old(count)
    {
      isOpen := !isOpen;
    }

    /** What the toggle example shows now. */
    function Shown(): (v: ToggleView)
      reads this
      ensures v.panelShown <==> isOpen
      ensures v.caption == (if isOpen then CloseCaption else OpenCaption)
    {
      ToggleViewOf(isOpen)
    }
  }

  /** `+` then `-` leaves the page as it was. */
  method IncrementThenDecrement(page: ComponentsTutorial)
    modifies page
    ensures page.count == old(page.count) && page.isOpen == old(page.isOpen)
  {
    page.Increment();
    page.Decrement();
  }

  /** `-` then `+` leaves the page as it was, also below zero. */
  method DecrementThenIncrement(page: ComponentsTutorial)
    modifies page
    ensures page.count == old(page.count) && page.isOpen == old(page.isOpen)
  {
    page.Decrement();
    page.Increment();
  }

  /** Two clicks on the toggle leave the page as it was. */
  method ToggleTwice(page: ComponentsTutorial)
    modifies page
    ensures page.isOpen == old(page.isOpen) && page.count == old(page.count)
  {
    page.Toggle();
    page.Toggle();
  }

  /** Reset brings the counter to 0 whatever clicks came before, and the
      counter buttons never open or close the panel. */
  method ClicksThenReset(page: ComponentsTutorial, clicks: seq<bool>)
    modifies page
    ensures page.count == 0 && page.isOpen == old(page.isOpen)
  {
    var i := 0;
    while i < |clicks|
      invariant 0 <= i <= |clicks|
      invariant page.isOpen == old(page.isOpen)
    {
      if clicks[i] {
        page.Increment();
      } else {
        page.Decrement();
      }
      i := i + 1;
    }
    page.Reset();
  }
}
