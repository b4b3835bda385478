/** The `screen` type of emulator/screen.go: a 32 by 64 window of 32-bit
    pixels that the emulator package declares next to the interpreter. */
module EmulatorScreen {
  import opened Words

  const VideoHeight := 32
  const VideoWidth := 64

  class Screen {
    /** Indexed [row, column]. */
    const window: array2<u32>

    ghost predicate Valid() {
      window.Length0 == VideoHeight && window.Length1 == VideoWidth
    }

    /** Every pixel of the window is 0. */
    ghost predicate Cleared()
      requires Valid()
      reads window
    {
      forall r, c :: 0 <= r < VideoHeight && 0 <= c < VideoWidth ==> window[r, c] == 0
    }

    /** A zero `screen` value. */
    constructor ()
      ensures Valid() && fresh(window) && Cleared()
    {
      window := new u32[VideoHeight, VideoWidth]((_, _) => 0);
    }

    /** `reset`: zeroes the window row by row.  The result does not depend
        on the old contents, so a second reset changes nothing. */
    method Reset()
      requires Valid()
      modifies window
      ensures Cleared()
    {
      for k := 0 to VideoHeight
        invariant forall r, c :: 0 <= r < k && 0 <= c < VideoWidth ==> window[r, c] == 0
      {
        for i := 0 to VideoWidth
          invariant forall r, c :: 0 <= r < k && 0 <= c < VideoWidth ==> window[r, c] == 0
          invariant forall c :: 0 <= c < i ==> window[k, c] == 0
        {
          window[k, i] := 0;
        }
      }
    }

    /** `draw` without its printing: it leaves the window as it is. */
    method Draw()
      requires Valid()
      ensures unchanged(window)
    {
    }
  }
}
