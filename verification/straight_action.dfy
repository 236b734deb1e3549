/** The straight-rail quantity update action. */
module StraightAction {
  import opened Wrappers
  import opened Api
  import opened Messages
  import opened RailUpdate

  function UpdateStraightRailAction<D>(projectStraightId: int, q: RawQuantity,
                                       backend: UpdateRequest -> Outcome<Envelope<D>>)
    : (run: Run<UpdateRequest, UpdateState>)
    ensures run.sent.Some? <==> ValidQuantity(q)
    ensures run.sent.Some? ==> run.sent.value.railId == projectStraightId
    ensures run.sent.Some? ==> run.sent.value.totalQuantity as real == q.n.value && run.sent.value.totalQuantity >= 1
    ensures !ValidQuantity(q) ==>
      run.state == UpdateState(false, InputRecheck, Some(QuantityErrors(q))) && QuantityErrors(q) != map[]
    ensures ValidQuantity(q) && backend(run.sent.value).Returned? ==>
      run.state == UpdateState(backend(run.sent.value).response.isSuccess,
                               Server(backend(run.sent.value).response.message), None)
    ensures ValidQuantity(q) && backend(run.sent.value).ThrewApiError? ==>
      run.state == UpdateState(false, Server(backend(run.sent.value).message), None)
    ensures ValidQuantity(q) && backend(run.sent.value).ThrewOther? ==>
      run.state == UpdateState(false, StraightFallback, None)
  {
    UpdateRailAction(projectStraightId, q, backend, StraightFallback)
  }
}
