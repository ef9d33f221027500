/** The Python exceptions the configuration layer can raise, as values. */
module Exceptions {

  datatype Exception =
    | KeyError(key: string)         // a `dict[key]` lookup of a missing key
    | ValueError(message: string)   // raised by the `guild` getter
    | TypeError(message: string)    // iterating a non-iterable value, or looking up an unhashable list
    | FileNotFoundError             // `os.remove` of a file that does not exist
}
