/**
 * The notes modal of the pie and bar charts: the `showNotesModal` flag, the
 * handlers that set and clear it, and the effect that mirrors it into the
 * page's body scroll lock (`document.body.style.overflow`).
 */
module NotesModal {

  class Notes {
    /** `notesDescription`, with `null` read as the empty string. */
    const description: string
    /** `showNotesModal`. */
    var open: bool
    /** Whether the effect has left `document.body.style.overflow` at "hidden". */
    var bodyScrollLocked: bool
    /** Whether the owning chart is still mounted. */
    var mounted: bool

    /**
     * The effect keeps the page's scroll lock equal to the flag while the
     * chart is mounted, and its cleanup releases it on unmount. The flag is
     * set only from the Notes control, which exists only with a description.
     */
    ghost predicate Valid()
      reads this
    {
      && bodyScrollLocked == (mounted && open)
      && (open ==> HasTrigger())
    }

    /** The footer's Notes control is rendered only for a non-empty description. */
    predicate HasTrigger()
      reads this
    {
      description != ""
    }

    /** `NotesModal` renders nothing unless the flag is set and there is a description. */
    predicate Visible()
      reads this
      ensures Visible() ==> open && HasTrigger()
      ensures Valid() ==> (Visible() <==> open)
      ensures Valid() && mounted ==> (bodyScrollLocked <==> Visible())
    {
      open && description != ""
    }

    constructor (description: string)
      ensures Valid() && mounted
      ensures this.description == description && !open && !bodyScrollLocked
    {
      this.description := description;
      open := false;
      bodyScrollLocked := false;
      mounted := true;
    }

    /** A click on the footer's Notes control opens the modal and locks page scrolling. */
    method ClickTrigger()
      requires Valid() && mounted && HasTrigger()
      modifies this
      ensures Valid() && mounted
      ensures open && Visible() && bodyScrollLocked
    {
      open := true;
      bodyScrollLocked := true;
    }

    /**
     * A keydown on the document. The listener exists only while the modal is
     * open, and only Escape closes it.
     */
    method KeyDown(key: string)
      requires Valid() && mounted
      modifies this
      ensures Valid() && mounted
      ensures open == (old(open) && key != "Escape")
      ensures !bodyScrollLocked <==> (!old(open) || key == "Escape")
    {
      if open && key == "Escape" {
        open := false;
        bodyScrollLocked := false;
      }
    }

    /**
     * A click on the backdrop. It closes the modal only when the backdrop
     * itself is the click's target; the dialog stops its own clicks from
     * bubbling up.
     */
    method ClickBackdrop(targetIsBackdrop: bool)
      requires Valid() && mounted && Visible()
      modifies this
      ensures Valid() && mounted
      ensures open == !targetIsBackdrop
      ensures bodyScrollLocked == !targetIsBackdrop
    {
      if targetIsBackdrop {
        open := false;
        bodyScrollLocked := false;
      }
    }

    /** The header's close icon or the footer's Close button. */
    method ClickClose()
      requires Valid() && mounted && Visible()
      modifies this
      ensures Valid() && mounted
      ensures !open && !bodyScrollLocked
    {
      open := false;
      bodyScrollLocked := false;
    }

    /**
     * Unmounting runs the effect's cleanup: page scrolling is restored even
     * when the modal is still open.
     */
    method Unmount()
      requires Valid()
      modifies this
      ensures Valid() && !mounted && !bodyScrollLocked
      ensures open == old(open)
    {
      mounted := false;
      bodyScrollLocked := false;
    }
  }
}
