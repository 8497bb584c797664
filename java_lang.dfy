/** Java values the plugin code relies on: references that may be null, and exceptions
    that abort a call. */
module JavaLang {

  /** A Java reference that may be `null` (`None`). */
  datatype Option<+T> = None | Some(value: T)

  /** The exceptions the modelled code can raise or receive. */
  datatype JavaException =
    | NullPointerException
    | IOException(message: string)          // ProcessBuilder.start cannot launch the program
    | InterruptedException(message: string) // Process.waitFor is interrupted

  /** The outcome of a Java call: a normal return, or an exception thrown out of it. */
  datatype Result<+T> = Ok(value: T) | Thrown(exception: JavaException)
}
