/** The value-or-nothing type the game uses wherever game.py keeps `None`. */
module Options {

  datatype Option<+T> = None | Some(value: T)
}
