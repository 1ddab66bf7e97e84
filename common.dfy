/** Optional values: the model's stand-in for a pointer that may be null. */
module Wrappers {

  datatype Option<+T> = None | Some(value: T) {

    /** The wrapped value, or `default` when there is none. */
    function GetOr(default: T): (r: T)
      ensures Some? ==> r == value
      ensures None? ==> r == default
    {
      match this
      case Some(v) => v
      case None => default
    }
  }
}

/** C strings: the characters before the terminating NUL. */
module CStrings {

  const Nul: char := '\0'

  /**
   * A string a C `char *` can hold: it never contains the terminator. Each
   * `char` stands for one byte, so lengths count bytes, not characters.
   */
  type CString = s: string | Nul !in s
}
