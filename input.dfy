/** The per-frame input record that `PlayerInputReader` fills and the player
    components consume (Assets/Scripts/Player/PlayerInputReader.cs). Reading the
    devices is not modelled: an intent is an input of every frame. */
module Input {
  datatype Intent = Intent(
    horizontal: real,
    vertical: real,
    jumpDown: bool,
    jumpHeld: bool,
    jumpUp: bool,
    dashDown: bool,
    attackDown: bool)

  /** `default(PlayerInputIntent)`: what the reader yields while input is ignored. */
  const NoInput := Intent(0.0, 0.0, false, false, false, false, false)
}
