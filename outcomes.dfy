/** Result shapes shared by the capability service: an optional value, a
    value-or-error result, and the error kinds the HTTP handlers raise. */
module Outcomes {

  datatype Option<+T> = None | Some(value: T)

  datatype Result<+T> = Success(value: T) | Failure(error: Error)

  /** One constructor per distinct HTTPException the handlers raise. */
  datatype Error =
    | Unauthenticated     // 401 "Missing credentials"
    | InvalidCredentials  // 403 "Invalid credentials"
    | Forbidden           // 403 "Insufficient permissions"
    | NotFound            // 404 "Capability not found"
    | AlreadyRegistered   // 400 "Consultant is already registered for this capability"
    | NotRegistered       // 400 "Consultant is not registered for this capability"

  /** The HTTP status code the handler attaches to each error. */
  function StatusCode(e: Error): (code: int)
    ensures code == 401 <==> e == Unauthenticated
    ensures code == 403 <==> e == InvalidCredentials || e == Forbidden
    ensures code == 404 <==> e == NotFound
    ensures code == 400 <==> e == AlreadyRegistered || e == NotRegistered
  {
    match e
    case Unauthenticated => 401
    case InvalidCredentials => 403
    case Forbidden => 403
    case NotFound => 404
    case AlreadyRegistered => 400
    case NotRegistered => 400
  }

  /** The `detail` text the handler attaches to each error. */
  function Detail(e: Error): string {
    match e
    case Unauthenticated => "Missing credentials"
    case InvalidCredentials => "Invalid credentials"
    case Forbidden => "Insufficient permissions"
    case NotFound => "Capability not found"
    case AlreadyRegistered => "Consultant is already registered for this capability"
    case NotRegistered => "Consultant is not registered for this capability"
  }

  /** A client can tell every error apart by its status code and detail text:
      the two 403s and the two 400s differ in their detail. */
  lemma ErrorsDistinguishable(e1: Error, e2: Error)
    requires StatusCode(e1) == StatusCode(e2) && Detail(e1) == Detail(e2)
    ensures e1 == e2
  {
  }
}
