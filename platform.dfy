/** The types of platform/platform.go: the exported copy of the screen and
    the `Platform` record holding the keypad and a screen. */
module Platform {
  import opened Words

  const VideoHeight := 32
  const VideoWidth := 64

  class Screen {
    /** Indexed [row, column]. */
    const window: array2<u32>

    ghost predicate Valid() {
      window.Length0 == VideoHeight && window.Length1 == VideoWidth
    }

    /** Every pixel of the window is 0. */
    ghost predicate Cleared()
      requires Valid()
      reads window
    {
      forall r, c :: 0 <= r < VideoHeight && 0 <= c < VideoWidth ==> window[r, c] == 0
    }

    /** A zero `Screen` value. */
    constructor ()
      ensures Valid() && fresh(window) && Cleared()
    {
      window := new u32[VideoHeight, VideoWidth]((_, _) => 0);
    }

    /** `Reset`: zeroes the window row by row, whatever it held. */
    method Reset()
      requires Valid()
      modifies window
      ensures Cleared()
    {
      for k := 0 to VideoHeight
        invariant forall r, c :: 0 <= r < k && 0 <= c < VideoWidth ==> window[r, c] == 0
      {
        for i := 0 to VideoWidth
          invariant forall r, c :: 0 <= r < k && 0 <= c < VideoWidth ==> window[r, c] == 0
          invariant forall c :: 0 <= c < i ==> window[k, c] == 0
        {
          window[k, i] := 0;
        }
      }
    }

    /** `Draw` without its printing: it leaves the window as it is. */
    method Draw()
      requires Valid()
      ensures unchanged(window)
    {
    }
  }

  class Platform {
    const keypad: array<byte>
    const screen: Screen

    ghost predicate Valid()
      reads this, screen
    {
      keypad.Length == 16 && screen.Valid()
    }

    /** A zero `Platform` value: no key pressed, a blank screen. */
    constructor ()
      ensures Valid() && fresh(keypad) && fresh(screen) && fresh(screen.window)
      ensures screen.Cleared() && forall j :: 0 <= j < 16 ==> keypad[j] == 0
    {
      keypad := new byte[16](_ => 0);
      screen := new Screen();
    }

    /** `p.Screen.Reset()` on a platform value: the screen is cleared and the
        keypad, a separate array of the record, keeps every key. */
    method ResetScreen()
      requires Valid()
      modifies screen.window
      ensures Valid() && screen.Cleared() && keypad[..] == old(keypad[..])
    {
      screen.Reset();
    }
  }
}
