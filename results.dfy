/** Values shared by every module: Java's null as Option, exceptions as Result, and a
    finite Reactor Flux as a Stream that ends either cleanly or with an error. */
module Results {

  datatype Option<+T> = None | Some(value: T)

  /** The exceptions the modelled code raises or passes on, by kind. */
  datatype Error =
    | Runtime(message: string)          // new RuntimeException(message)
    | NoSuchElement                     // Optional.orElseThrow() on an empty Optional
    | IndexOutOfBounds                  // List.get(0) or List.remove(0) on an empty list
    | NullPointer                       // a null field dereferenced
    | IllegalArgument(message: string)  // Assert.notNull, Enum.valueOf
    | Upstream(message: string)         // an error reported by an external service

  datatype Result<+T> = Ok(value: T) | Err(error: Error)

  /** How a Flux terminates after its last item. */
  datatype End = Completed | Failed(error: Error)

  /** A finite Flux: the items it emits, in order, then its termination. */
  datatype Stream<+T> = Stream(items: seq<T>, end: End)

  /** Flux.error(e) */
  function Fail<T>(e: Error): Stream<T> {
    Stream([], Failed(e))
  }
}
