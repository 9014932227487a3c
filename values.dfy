/** The model's stand-in for the arbitrary Python values the child metadata and the name registry hold. */
module Values {

  /** A value compared by `==`: a string, an integer, a boolean or `None`. */
  datatype Value = Str(s: string) | Int(i: int) | Bool(b: bool) | Nothing
}
