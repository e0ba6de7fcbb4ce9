/** RGB colours as java.awt.Color carries them. */
module Colors {
  /** A colour by its red, green and blue channels. */
  datatype Color = Color(red: int, green: int, blue: int)
}
