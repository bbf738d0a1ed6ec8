/** Option, the stand-in for a Java reference that may be null. */
module Wrappers {
  datatype Option<+T> = None | Some(value: T)
}

/** What a RestTemplate call (postForEntity / getForEntity) can come back with. */
module Http {
  datatype Outcome =
    | Ok                      // a 2xx answer
    | NotOk                   // a non-2xx answer the client hands back without throwing
    | StatusError(code: int)  // an HttpStatusCodeException carrying this status code
    | Unreachable             // any other exception: connection refused, timeout, ...

  /** The call threw, whatever the exception. */
  predicate Threw(o: Outcome) {
    o.StatusError? || o.Unreachable?
  }
}

/** The random draws both services compare: `nextInt(5) + 1`. */
module Draws {
  predicate InDrawRange(d: int) {
    1 <= d <= 5
  }
}

/** The persisted Health entity: the latest one is the node's "current" health snapshot. */
module Entities {
  import opened Wrappers

  /** `flag` is a boxed Integer in the entity: it may be null. */
  datatype Health = Health(numRequests: int, diff: int, flag: Option<int>)

  /** The two ports the pair of response instances listen on. */
  const PrimaryPort: int := 8080
  const SecondaryPort: int := 8081
}
