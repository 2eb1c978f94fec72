/** The part of Python's dynamic value space that the validation helpers can
    be handed, and the one exception kind the core raises. */
module Values {

  /** An argument as Python sees it: an integer, a string, or `None`.
      Floats and other numeric types are not part of this model. */
  datatype PyValue = PyInt(i: int) | PyStr(s: string) | PyNone

  /** `ValueError` with the message the core raises it with. */
  datatype Error = ValueError(message: string)
}
