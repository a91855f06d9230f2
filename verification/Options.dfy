/** Stock result types: SQL NULL and Go's nil are None; a Go (value, error) pair is a Result. */
module Options {
  datatype Option<+T> = None | Some(value: T)

  datatype Result<+T, +E> = Ok(value: T) | Err(error: E)

  /** How a call to a database or to Redis ends: with a reply, refused without effect, or carried out with
      its reply lost, which its caller cannot tell from a refusal. */
  datatype Call = Answers | Refuses | LosesReply {
    predicate Applies() { !Refuses? }
  }

  /** SQL's COALESCE of two values. */
  function Coalesce<T>(first: Option<T>, second: Option<T>): Option<T> {
    if first.Some? then first else second
  }
}
