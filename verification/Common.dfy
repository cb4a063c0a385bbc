/** Vocabulary shared by every service model. */
module Common {

  type Id = string

  /** Milliseconds since the epoch; every date of the backend is one of these. */
  type Time = int

  datatype Option<+T> = None | Some(value: T)

  /** A property of a request body: left out (undefined), null, or a value. */
  datatype Patch<+T> = Absent | Null | Set(value: T) {
    /** `dto.x ?? null` */
    function OrNull(): Option<T> {
      if Set? then Some(value) else None
    }
  }

  /** The exceptions a service throws, and the constraint failures the database raises. */
  datatype Error =
    | BadRequest
    | Unauthorized
    | Forbidden
    | NotFound
    | Conflict
    | TooManyRequests
    | ForeignKey
    | NotNull
    | UniqueIndex

  datatype Result<+T> = Ok(value: T) | Err(error: Error)

  /** A string property counts as true in a condition unless it is undefined, null or empty. */
  predicate Truthy(p: Patch<Id>) {
    p.Set? && p.value != ""
  }
}
