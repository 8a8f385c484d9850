/** The primitive values a Lox literal can hold. */
module Types {

  /**
   * A literal is exactly one of nil, a string, a number or a boolean. The
   * string alternative owns its characters. A number is kept as the spelling
   * it was written with (the conversion to a 64-bit float is not modelled).
   */
  datatype Literal =
    | LoxNil
    | LoxString(text: string)
    | LoxNumber(spelling: string)
    | LoxBool(value: bool)

  /** `LoxNil::value`: the text of nil. */
  const NilText: string := "nil"

  /** A value-initialised literal holds its first alternative, nil. */
  function DefaultLiteral(): (l: Literal)
    ensures l.LoxNil?
  {
    LoxNil
  }
}
