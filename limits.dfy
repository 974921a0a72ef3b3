/** Size constants and character classes shared by the framing, parsing and encoding layer. */
module Limits {
  /** Capacity of the receive buffer, of the parser's scratch copy and of the info and extra fields. */
  const MAX_SERIAL_IN: nat := 100
  /** Capacity of the name field, terminating NUL included. */
  const NAME_SIZE: nat := 30
  /** Capacity of the source and type fields and of the formatted integer payload, NUL included. */
  const MSG_INT_SIZE: nat := 4

  /** The character that ends a C string. */
  const NUL: char := '\0'

  /** The bytes that end one wire line. */
  predicate IsTerminator(c: char) {
    c == '\n' || c == '\r'
  }

  /** A possibly-NULL pointer argument. */
  datatype Option<+T> = None | Some(value: T)

  /** The smaller of a and b. */
  function Min(a: int, b: int): (m: int) {
    if a <= b then a else b
  }
}
