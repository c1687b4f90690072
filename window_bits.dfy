/**
 * The host frame's extended-state bitmask (a 32-bit Java int) and the three
 * window commands that compute a new mask from the pane's recorded state.
 */
module WindowBits {

  const NORMAL: bv32 := 0
  const ICONIFIED: bv32 := 1
  const MAXIMIZED_HORIZ: bv32 := 2
  const MAXIMIZED_VERT: bv32 := 4
  const MAXIMIZED_BOTH: bv32 := MAXIMIZED_HORIZ | MAXIMIZED_VERT

  /** The pane's recorded state before any window state was seen: the Java int -1. */
  const UNKNOWN_STATE: bv32 := 0xFFFF_FFFF

  /** Maximized in at least one direction. */
  predicate IsMaximized(state: bv32) {
    state & MAXIMIZED_BOTH != 0
  }

  predicate IsIconified(state: bv32) {
    state & ICONIFIED != 0
  }

  /** The mask the Iconify command asks for: the iconified bit set, every other bit kept. */
  function Iconified(state: bv32): (r: bv32)
    ensures IsIconified(r)
    ensures r & !ICONIFIED == state & !ICONIFIED
  {
    state | ICONIFIED
  }

  /** The mask the Maximize command asks for: both maximized bits set, every other bit kept. */
  function Maximized(state: bv32): (r: bv32)
    ensures r & MAXIMIZED_BOTH == MAXIMIZED_BOTH
    ensures r & !MAXIMIZED_BOTH == state & !MAXIMIZED_BOTH
  {
    state | MAXIMIZED_BOTH
  }

  /**
   * The mask the Restore command asks for: an iconified window is de-iconified
   * (keeping its maximized bits); otherwise both maximized bits are cleared.
   */
  function Restored(state: bv32): (r: bv32)
    ensures state & ICONIFIED != 0 ==> r & ICONIFIED == 0
    ensures state & ICONIFIED != 0 ==> r & !ICONIFIED == state & !ICONIFIED
    ensures state & ICONIFIED == 0 ==> r & MAXIMIZED_BOTH == 0
    ensures state & ICONIFIED == 0 ==> r & !MAXIMIZED_BOTH == state & !MAXIMIZED_BOTH
  {
    if state & ICONIFIED != 0 then state & !ICONIFIED else state & !MAXIMIZED_BOTH
  }

  /** Restore undoes Iconify on a window that was not iconified. */
  lemma RestoreUndoesIconify(state: bv32)
    requires !IsIconified(state)
    ensures Restored(Iconified(state)) == state
  {
  }

  /** Restore undoes Maximize on a window that was neither iconified nor maximized. */
  lemma RestoreUndoesMaximize(state: bv32)
    requires !IsIconified(state) && !IsMaximized(state)
    ensures Restored(Maximized(state)) == state
  {
  }

  /** From iconified-and-maximized, Restore clears only the iconified bit. */
  lemma RestorePrefersIconified()
    ensures Restored(ICONIFIED | MAXIMIZED_BOTH) == MAXIMIZED_BOTH
    ensures IsMaximized(Restored(ICONIFIED | MAXIMIZED_BOTH))
  {
  }
}
