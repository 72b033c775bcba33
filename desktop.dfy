/** The pointer-injection boundary (`pyautogui.moveTo`, `click`, `scroll`). Each
    call is recorded as an event in a ghost log, so that the components can state
    which side effects a call has. `pyautogui.position()` is not modelled here:
    the components take the cursor position read from the OS as a parameter. */
module Desktop {
  import opened Basics

  datatype Event = Moved(target: Point) | Clicked | Scrolled(amount: int)

  predicate NoMoves(es: seq<Event>) {
    forall i :: 0 <= i < |es| ==> !es[i].Moved?
  }

  predicate NoClicks(es: seq<Event>) {
    forall i :: 0 <= i < |es| ==> !es[i].Clicked?
  }

  predicate NoScrolls(es: seq<Event>) {
    forall i :: 0 <= i < |es| ==> !es[i].Scrolled?
  }

  class PointerApi {
    /** Every pointer action injected so far, oldest first. */
    ghost var log: seq<Event>

    constructor ()
      ensures log == []
    {
      log := [];
    }

    method MoveTo(p: Point)
      modifies this
      ensures log == old(log) + [Moved(p)]
    {
      log := log + [Moved(p)];
    }

    method Click()
      modifies this
      ensures log == old(log) + [Clicked]
    {
      log := log + [Clicked];
    }

    method Scroll(amount: int)
      modifies this
      ensures log == old(log) + [Scrolled(amount)]
    {
      log := log + [Scrolled(amount)];
    }
  }
}
