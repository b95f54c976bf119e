/** Plain records shared by both generations of the wizard engine: the
    optional value, the three-way outcome of every fallible engine call,
    the collected answers (src/collection.rs) and the structural error
    (src/error.rs). */
module Records {

  /** Rust's `Option<T>`. */
  datatype Option<+T> = None | Some(value: T) {
    function GetOr(default: T): (r: T)
      ensures Some? ==> r == value
      ensures None? ==> r == default
    {
      if Some? then value else default
    }
  }

  /** The crate's own error enum: a description or a node graph that does
      not have the shape the engine needs. */
  datatype StateError = BadConstruction

  /** What travels in the outer `Box<dyn Error>`: an out-of-range loader
      index ("Function not found"), a loader or parser failure, or a
      `StateError` that a `??` moved from the inner to the outer level. */
  datatype Failure = FunctionNotFound | LoadFailed(message: string) | Boxed(error: StateError)

  /** `Result<Result<T, StateError>, Box<dyn Error>>` together with the
      panics (`unimplemented!()`, `unreachable!()`) that the engine can
      reach: `Ok` and `Err` are the inner level, `Failed` the outer one. */
  datatype Outcome<+T> =
    | Ok(value: T)
    | Err(error: StateError)
    | Failed(failure: Failure)
    | Panicked(message: string)
  {
    /** The `??` operator in a function whose own result is an outcome:
        an inner error becomes an outer, boxed one. */
    function Escalate(): (r: Outcome<T>)
      ensures Ok? <==> r.Ok?
      ensures Ok? ==> r == this
      ensures !r.Err?
      ensures Err? ==> r == Failed(Boxed(error))
      ensures Failed? || Panicked? ==> r == this
    {
      match this
      case Err(e) => Failed(Boxed(e))
      case _ => this
    }

    /** Any outcome but `Ok`, re-typed so that a caller can pass it on. */
    function Propagate<U>(): (r: Outcome<U>)
      requires !Ok?
      ensures Err? ==> r == Err(error)
      ensures Failed? ==> r == Failed(failure)
      ensures Panicked? ==> r == Panicked(message)
    {
      match this
      case Err(e) => Err(e)
      case Failed(f) => Failed(f)
      case Panicked(m) => Panicked(m)
    }
  }

  /** One answered field: its name and the value collected for it. */
  datatype ContextLikeCollection = ContextLikeCollection(name: string, value: string)

  /** The answers of one node on the path from the root to the node that
      submits. */
  datatype Collection = Collection(stateName: string, contextCollections: seq<ContextLikeCollection>)

  /** The prompt the canonical engine hands to its host: a heading, a
      description, the items to show (one field name, or every option
      name) and a free-form note. */
  datatype Output = Output(name: string, description: string, items: seq<string>, note: string)
}
