/** The keyboard keys and events of pygame that the game reacts to. */
module Input {
  /** pygame's K_UP, K_DOWN, K_LEFT, K_RIGHT, K_SPACE, K_p, K_ESCAPE,
      K_RETURN and K_BACKSPACE; any other key code is Other. */
  datatype Key = Up | Down | Left | Right | Space | P | Escape | Return | Backspace | Other(code: int)

  /** pygame's QUIT, KEYDOWN and KEYUP events. */
  datatype Event = Quit | KeyDown(key: Key) | KeyUp(key: Key)

  predicate IsArrow(key: Key) {
    key == Up || key == Down || key == Left || key == Right
  }
}
