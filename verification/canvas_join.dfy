/**
 * The canvas page's join state: the guard that decides whether `room:join`
 * is sent, the acknowledgement and admin-result handlers that set
 * `joined`, `pendingApproval` and `error`, the admin's incoming-request
 * modal, the shape fetch that follows a join, the effect cleanup, and the
 * ladder that chooses what the page shows.
 */
module CanvasJoin {
  import opened Wrappers
  import Draw

  /** The `{success, pending?, reason?}` object of the acknowledgement and of `room:join:result`. */
  datatype JoinResult = JoinResult(success: bool, pending: bool, reason: Option<string>)

  /** The `{roomId, userId}` of an incoming `room:join:request`. */
  datatype JoinRequestData = JoinRequestData(roomId: int, userId: int)

  /** What the page emits on the socket. */
  datatype ClientEmit =
    | RoomJoin(roomId: int, userIdWantToJoin: int, adminOfRoom: int)
    | RoomLeave(roomId: int)
    | RoomJoinResponse(roomId: int, userId: int, approved: bool)

  /** The outcome of the shape-history request made after joining. */
  datatype FetchOutcome = Fetched(data: Option<seq<Draw.Shape>>) | FetchFailed

  /** `res.reason || fallback`: an absent or empty reason gives the fallback. */
  function ReasonOr(reason: Option<string>, fallback: string): (r: string)
    ensures reason.Some? && reason.value != "" ==> r == reason.value
    ensures reason.None? || reason.value == "" ==> r == fallback
  {
    match reason
    case Some(text) => if text != "" then text else fallback
    case None => fallback
  }

  /** The join effect's guard: `room:join` is sent only with a socket, after loading, for a real room. */
  function JoinToSend(socketPresent: bool, loading: bool, roomId: int, userId: int, adminId: int): (r: Option<ClientEmit>)
    ensures r.Some? <==> socketPresent && !loading && roomId != -1
    ensures r.Some? ==> r.value == RoomJoin(roomId, userId, adminId)
  {
    if !socketPresent || loading || roomId == -1 then None
    else Some(RoomJoin(roomId, userId, adminId))
  }

  /** What the page renders. */
  datatype View =
    | Connecting
    | ErrorView(message: string)
    | AwaitingApproval
    | Joining
    | CanvasView(showAdminModal: bool)

  /**
   * The render ladder: loading or no socket, then an error, then pending
   * approval, then not yet joined or still fetching shapes, then the
   * canvas, with the approval modal only for the room's admin holding a
   * request.
   */
  function ViewOf(loading: bool, socketPresent: bool, error: Option<string>, pendingApproval: bool,
                  joined: bool, gettingShapes: bool, hasRequest: bool, isAdmin: bool): (r: View)
    ensures r == Connecting <==> loading || !socketPresent
    ensures r.ErrorView? <==> !loading && socketPresent && error.Some? && error.value != ""
    ensures r == AwaitingApproval <==>
      !loading && socketPresent && (error.None? || error.value == "") && pendingApproval
    ensures r == Joining <==>
      !loading && socketPresent && (error.None? || error.value == "") && !pendingApproval
      && (!joined || gettingShapes)
    ensures r.CanvasView? <==>
      !loading && socketPresent && (error.None? || error.value == "") && !pendingApproval
      && joined && !gettingShapes
    ensures r.CanvasView? ==> (r.showAdminModal <==> hasRequest && isAdmin)
  {
    if loading || !socketPresent then Connecting
    else if error.Some? && error.value != "" then ErrorView(error.value)
    else if pendingApproval then AwaitingApproval
    else if !joined || gettingShapes then Joining
    else CanvasView(hasRequest && isAdmin)
  }

  /** The page's state fields. */
  class JoinPage {
    var joined: bool
    var pendingApproval: bool
    var gettingShapes: bool
    var shapes: seq<Draw.Shape>
    var error: Option<string>
    var joinRequest: Option<JoinRequestData>

    /** `joined` and `pendingApproval` are never both set. */
    ghost predicate Valid()
      reads this
    {
      !(joined && pendingApproval)
    }

    constructor ()
      ensures Valid()
      ensures !joined && !pendingApproval && gettingShapes && shapes == []
      ensures error.None? && joinRequest.None?
    {
      joined := false;
      pendingApproval := false;
      gettingShapes := true;
      shapes := [];
      error := None;
      joinRequest := None;
    }

    /** The current view. */
    function View(loading: bool, socketPresent: bool, isAdmin: bool): View
      reads this
    {
      ViewOf(loading, socketPresent, error, pendingApproval, joined, gettingShapes, joinRequest.Some?, isAdmin)
    }

    /**
     * The `room:join` acknowledgement: a failure records the reason (or
     * "JOIN_FAILED") and clears both flags; a pending success sets only
     * `pendingApproval`; any other success sets only `joined`.
     */
    method OnJoinAck(res: JoinResult)
      modifies this`joined, this`pendingApproval, this`error
      ensures Valid()
      ensures !res.success ==>
        error == Some(ReasonOr(res.reason, "JOIN_FAILED")) && !joined && !pendingApproval
      ensures res.success && res.pending ==> error == old(error) && pendingApproval && !joined
      ensures res.success && !res.pending ==> error == old(error) && joined && !pendingApproval
    {
      if !res.success {
        error := Some(ReasonOr(res.reason, "JOIN_FAILED"));
        joined := false;
        pendingApproval := false;
        return;
      }
      if res.pending {
        pendingApproval := true;
        joined := false;
        return;
      }
      pendingApproval := false;
      joined := true;
    }

    /**
     * `room:join:result` from the admin: a rejection records the reason (or
     * "REJECTED_BY_ADMIN") and clears both flags; an approval sets `joined`
     * and clears `pendingApproval`.
     */
    method OnJoinResult(res: JoinResult)
      modifies this`joined, this`pendingApproval, this`error
      ensures Valid()
      ensures !res.success ==>
        error == Some(ReasonOr(res.reason, "REJECTED_BY_ADMIN")) && !joined && !pendingApproval
      ensures res.success ==> error == old(error) && joined && !pendingApproval
    {
      if !res.success {
        error := Some(ReasonOr(res.reason, "REJECTED_BY_ADMIN"));
        pendingApproval := false;
        joined := false;
        return;
      }
      pendingApproval := false;
      joined := true;
    }

    /** The join effect's cleanup: `room:leave` is sent and both flags are cleared. */
    method Cleanup(roomId: int) returns (emitted: ClientEmit)
      modifies this`joined, this`pendingApproval
      ensures Valid()
      ensures emitted == RoomLeave(roomId) && !joined && !pendingApproval
    {
      emitted := RoomLeave(roomId);
      joined := false;
      pendingApproval := false;
    }

    /** `room:join:request` (admin side): the request is kept for the modal. */
    method OnJoinRequest(data: JoinRequestData)
      modifies this`joinRequest
      ensures joinRequest == Some(data)
    {
      joinRequest := Some(data);
    }

    /** The modal's Allow or Reject button: the decision is sent and the request dropped. */
    method Respond(approved: bool) returns (emitted: ClientEmit)
      requires joinRequest.Some?
      modifies this`joinRequest
      ensures emitted == RoomJoinResponse(old(joinRequest).value.roomId, old(joinRequest).value.userId, approved)
      ensures joinRequest.None?
    {
      emitted := RoomJoinResponse(joinRequest.value.roomId, joinRequest.value.userId, approved);
      joinRequest := None;
    }

    /** The shape fetch started once `joined` is set. */
    method StartFetch()
      requires joined
      modifies this`gettingShapes
      ensures gettingShapes
    {
      gettingShapes := true;
    }

    /**
     * The end of the shape fetch: returned data replaces the shapes, a failed
     * request records "FETCH_FAILED", and `gettingShapes` is cleared either way.
     */
    method FinishFetch(outcome: FetchOutcome)
      modifies this`gettingShapes, this`shapes, this`error
      ensures !gettingShapes
      ensures outcome.Fetched? && outcome.data.Some? ==> shapes == outcome.data.value && error == old(error)
      ensures outcome.Fetched? && outcome.data.None? ==> shapes == old(shapes) && error == old(error)
      ensures outcome.FetchFailed? ==> shapes == old(shapes) && error == Some("FETCH_FAILED")
    {
      match outcome {
        case Fetched(data) =>
          if data.Some? {
            shapes := data.value;
          }
        case FetchFailed =>
          error := Some("FETCH_FAILED");
      }
      gettingShapes := false;
    }
  }
}
