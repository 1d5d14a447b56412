/** How each mutating handler of the board reacts to the status of its
    response: whether it calls `redirectToLogin`, shows an alert, re-fetches
    the task list, or closes the task form. */
module Responses {
  /** A `fetch` outcome: a rejected promise, or a response with a status. */
  datatype Response = NetworkFailure | HttpStatus(code: int)

  /** `response.ok`. */
  predicate Ok(r: Response) {
    r.HttpStatus? && 200 <= r.code <= 299
  }

  const Unauthorized := 401

  /** The handlers that send a mutating request. */
  datatype Handler = SaveTask | DeleteTask | ClearTasks | UpdateStatus | DropOnList

  datatype Reaction = Reaction(redirectToLogin: bool, alert: bool, refetch: bool, closeModal: bool)

  /** A response body is assumed to be JSON; what it says only changes the
      alert's text. */
  function React(h: Handler, r: Response): (x: Reaction)
    ensures x.redirectToLogin <==> r == HttpStatus(Unauthorized)
    ensures x.closeModal <==> h == SaveTask && Ok(r)
    ensures h != DropOnList ==> (x.refetch <==> Ok(r))
    ensures h == DropOnList ==> (x.refetch <==> !Ok(r))
    ensures Ok(r) ==> (x.alert <==> h == DeleteTask || h == ClearTasks)
    ensures r == HttpStatus(Unauthorized) ==> (x.alert <==> h == SaveTask || h == DropOnList)
    ensures !Ok(r) && r != HttpStatus(Unauthorized) ==> x.alert
  {
    var unauthorized := r == HttpStatus(Unauthorized);
    match h
    case SaveTask =>
      // a 401 redirects but does not return: the error is still thrown and alerted
      if Ok(r) then Reaction(false, false, true, true) else Reaction(unauthorized, true, false, false)
    case DeleteTask =>
      // success is announced with an alert
      if Ok(r) then Reaction(false, true, true, false) else Reaction(unauthorized, !unauthorized, false, false)
    case ClearTasks =>
      // the server's message is alerted on success
      if Ok(r) then Reaction(false, true, true, false) else Reaction(unauthorized, !unauthorized, false, false)
    case UpdateStatus =>
      if Ok(r) then Reaction(false, false, true, false) else Reaction(unauthorized, !unauthorized, false, false)
    case DropOnList =>
      // the card was already moved on screen; only a failure re-fetches
      if Ok(r) then Reaction(false, false, false, false) else Reaction(unauthorized, true, true, false)
  }
}
