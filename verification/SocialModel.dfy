/** Friend requests, friendships, remarks and blocks: the rows and what each call
    does to them. Request rows are kept by id; the pair columns are part of the row. */
module SocialModel {
  import opened Basics

  datatype RequestStatus = PENDING | ACCEPTED | REJECTED

  datatype Request = Request(requester: Id, addressee: Id, pair: Pair, status: RequestStatus)

  datatype SocialWorld = SocialWorld(
    users: set<Id>,
    banned: set<Id>,
    requests: map<Id, Request>,
    friends: set<Pair>,
    remarks: map<(Id, Id), string>,
    blocks: set<(Id, Id)>,
    nextRequest: Id)

  const EmptySocial := SocialWorld({}, {}, map[], {}, map[], {}, 1)

  datatype SocialError =
    | CannotFriendSelf
    | UserNotFound
    | UserBlocked
    | AlreadyFriends
    | RequestExists
    | IncomingRequestExists
    | RequestNotFound
    | AlreadyHandled
    | NotFriends
    | FriendNotFound
    | CannotBlockSelf

  predicate Friends(w: SocialWorld, u: Id, v: Id) {
    PairOf(u, v) in w.friends
  }

  predicate Blocked(w: SocialWorld, u: Id, v: Id) {
    BlockedIn(w.blocks, u, v)
  }

  predicate Between(r: Request, u: Id, v: Id) {
    (r.requester == u && r.addressee == v) || (r.requester == v && r.addressee == u)
  }

  /** The rows between two users, in either direction. */
  function RowsBetween(w: SocialWorld, u: Id, v: Id): set<Id> {
    set i | i in w.requests && Between(w.requests[i], u, v)
  }

  function PendingBetween(w: SocialWorld, u: Id, v: Id): set<Id> {
    set i | i in w.requests && Between(w.requests[i], u, v) && w.requests[i].status == PENDING
  }

  function Newest(ids: set<Id>): (m: Id)
    requires ids != {}
    ensures m in ids
  {
    Ascending(ids)[|ids| - 1]
  }

  // ----- sending -----

  function SendError(w: SocialWorld, u: Id, v: Id): Option<SocialError> {
    if u == v then Some(CannotFriendSelf)
    else if v !in w.users || v in w.banned then Some(UserNotFound)
    else if Blocked(w, u, v) then Some(UserBlocked)
    else if Friends(w, u, v) then Some(AlreadyFriends)
    else if PendingBetween(w, u, v) != {} then
      Some(if w.requests[Newest(PendingBetween(w, u, v))].requester == u then RequestExists else IncomingRequestExists)
    else None
  }

  /** An earlier row of the pair is reused, whatever its direction was. */
  function Send(w: SocialWorld, u: Id, v: Id): SocialWorld {
    if SendError(w, u, v).Some? then w
    else
      var row := Request(u, v, PairOf(u, v), PENDING);
      if RowsBetween(w, u, v) != {} then w.(requests := w.requests[Newest(RowsBetween(w, u, v)) := row])
      else w.(requests := w.requests[w.nextRequest := row], nextRequest := w.nextRequest + 1)
  }

  // ----- responding -----

  function RespondError(w: SocialWorld, u: Id, id: Id): Option<SocialError> {
    if id !in w.requests || w.requests[id].addressee != u then Some(RequestNotFound)
    else if w.requests[id].status != PENDING then Some(AlreadyHandled)
    else if w.requests[id].requester !in w.users || w.requests[id].requester in w.banned then Some(UserNotFound)
    else if Blocked(w, u, w.requests[id].requester) then Some(UserBlocked)
    else None
  }

  function Respond(w: SocialWorld, u: Id, id: Id, accept: bool): SocialWorld {
    if RespondError(w, u, id).Some? || id !in w.requests then w
    else
      var r := w.requests[id];
      var w1 := w.(requests := w.requests[id := r.(status := if accept then ACCEPTED else REJECTED)]);
      if accept then w1.(friends := w.friends + {PairOf(r.requester, r.addressee)}) else w1
  }

  // ----- friends -----

  function WithoutRemarks(w: SocialWorld, u: Id, v: Id): SocialWorld {
    w.(remarks := w.remarks - {(u, v), (v, u)})
  }

  function Remove(w: SocialWorld, u: Id, v: Id): SocialWorld {
    if !Friends(w, u, v) then w
    else WithoutRemarks(w, u, v).(friends := w.friends - {PairOf(u, v)})
  }

  /** The admin endpoint deletes the friendship row only. */
  function AdminRemove(w: SocialWorld, p: Pair): SocialWorld {
    w.(friends := w.friends - {p})
  }

  function SetRemark(w: SocialWorld, u: Id, v: Id, remark: string): SocialWorld {
    if !Friends(w, u, v) then w
    else if remark != "" then w.(remarks := w.remarks[(u, v) := remark])
    else w.(remarks := w.remarks - {(u, v)})
  }

  // ----- blocking -----

  function Block(w: SocialWorld, u: Id, v: Id): SocialWorld {
    if u == v then w
    else WithoutRemarks(w, u, v).(
      blocks := w.blocks + {(u, v)},
      friends := w.friends - {PairOf(u, v)},
      requests := w.requests - RowsBetween(w, u, v))
  }

  // ----- runs -----

  datatype SocialCall =
    | RegisterCall(u: Id)
    | BanCall(u: Id, on: bool)
    | SendCall(u: Id, v: Id)
    | RespondCall(u: Id, id: Id, accept: bool)
    | RemoveCall(u: Id, v: Id)
    | AdminRemoveCall(p: Pair)
    | RemarkCall(u: Id, v: Id, remark: string)
    | BlockCall(u: Id, v: Id)

  function SocialStep(w: SocialWorld, c: SocialCall): SocialWorld {
    match c
    case RegisterCall(u) => w.(users := w.users + {u})
    case BanCall(u, on) => w.(banned := if on then w.banned + {u} else w.banned - {u})
    case SendCall(u, v) => Send(w, u, v)
    case RespondCall(u, id, accept) => Respond(w, u, id, accept)
    case RemoveCall(u, v) => Remove(w, u, v)
    case AdminRemoveCall(p) => AdminRemove(w, p)
    case RemarkCall(u, v, remark) => SetRemark(w, u, v, remark)
    case BlockCall(u, v) => Block(w, u, v)
  }

  function SocialRun(w: SocialWorld, cs: seq<SocialCall>): SocialWorld
    decreases |cs|
  {
    if cs == [] then w else SocialRun(SocialStep(w, cs[0]), cs[1..])
  }
}
