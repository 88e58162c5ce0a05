/** Outcomes of the converters: a value, or the Python exception the code raises instead. */
module Results {

  datatype Option<+T> = None | Some(value: T)

  /** The exceptions of the converters, one variant per raise site or failing built-in. */
  datatype Error =
    | NoElement                 // ValueError: the candidate id list is empty
    | Ambiguous(ids: seq<int>)  // ValueError: more than one candidate id, naming them
    | JoinTypeError             // TypeError: joining a list of int ids into the message
    | NotFound(id: int)         // the Overpass result holds no element with this id
    | EmptyWay(id: int)         // IndexError: first node of a way without nodes
    | UnexpectedType            // ValueError: an element kind the dispatcher does not convert
    | MissingTag(key: string)   // KeyError: reading a tag that is not set

  datatype Result<+T> = Ok(value: T) | Err(error: Error) {
    predicate IsFailure() {
      Err?
    }

    function PropagateFailure<U>(): Result<U>
      requires Err?
    {
      Err(error)
    }

    function Extract(): T
      requires Ok?
    {
      value
    }
  }
}
