/** The friend and block services over their tables, updated in place. */
module SocialService {
  import opened Basics
  import opened SocialModel
  import opened SocialProofs

  class Service {
    var users: set<Id>
    var banned: set<Id>
    var requests: map<Id, Request>
    var friends: set<Pair>
    var remarks: map<(Id, Id), string>
    var blocks: set<(Id, Id)>
    var nextRequest: Id

    ghost function Snapshot(): SocialWorld
      reads this
    {
      SocialWorld(users, banned, requests, friends, remarks, blocks, nextRequest)
    }

    ghost predicate Valid()
      reads this
    {
      SocialSound(Snapshot())
    }

    constructor ()
      ensures Valid() && Snapshot() == EmptySocial
    {
      users, banned, requests, friends := {}, {}, map[], {};
      remarks, blocks, nextRequest := map[], {}, 1;
    }

    method IsBlockedBetween(u: Id, v: Id) returns (blocked: bool)
      ensures blocked == Blocked(Snapshot(), u, v)
    {
      if u == v {
        return false;
      }
      blocked := (u, v) in blocks || (v, u) in blocks;
    }

    /** Everyone blocked by, or blocking, the user. */
    method BlockedUserIds(u: Id) returns (ids: set<Id>)
      requires Valid()
      ensures forall v :: v in ids <==> Blocked(Snapshot(), u, v)
    {
      var rows := set b | b in blocks && (b.0 == u || b.1 == u);
      ids := set b | b in rows :: if b.0 == u then b.1 else b.0;
      forall v
        ensures v in ids <==> Blocked(Snapshot(), u, v)
      {
        if (u, v) in blocks {
          assert (u, v) in rows;
        }
        if (v, u) in blocks {
          assert (v, u) in rows;
        }
      }
    }

    method SendFriendRequest(u: Id, v: Id) returns (error: Option<SocialError>)
      requires Valid()
      modifies this
      ensures Valid() && Snapshot() == SocialStep(old(Snapshot()), SendCall(u, v))
      ensures error == SendError(old(Snapshot()), u, v)
    {
      SocialStepKeeps(Snapshot(), SendCall(u, v));
      if u == v {
        return Some(CannotFriendSelf);
      }
      if v !in users || v in banned {
        return Some(UserNotFound);
      }
      var blocked := IsBlockedBetween(u, v);
      if blocked {
        return Some(UserBlocked);
      }
      if PairOf(u, v) in friends {
        return Some(AlreadyFriends);
      }
      var pending := set i | i in requests && Between(requests[i], u, v) && requests[i].status == PENDING;
      if pending != {} {
        return Some(if requests[Newest(pending)].requester == u then RequestExists else IncomingRequestExists);
      }
      var previous := set i | i in requests && Between(requests[i], u, v);
      if previous != {} {
        requests := requests[Newest(previous) := Request(u, v, PairOf(u, v), PENDING)];
      } else {
        requests := requests[nextRequest := Request(u, v, PairOf(u, v), PENDING)];
        nextRequest := nextRequest + 1;
      }
      error := None;
    }

    method RespondFriendRequest(u: Id, id: Id, accept: bool) returns (error: Option<SocialError>)
      requires Valid()
      modifies this
      ensures Valid() && Snapshot() == SocialStep(old(Snapshot()), RespondCall(u, id, accept))
      ensures error == RespondError(old(Snapshot()), u, id)
    {
      SocialStepKeeps(Snapshot(), RespondCall(u, id, accept));
      if id !in requests || requests[id].addressee != u {
        return Some(RequestNotFound);
      }
      var request := requests[id];
      if request.status != PENDING {
        return Some(AlreadyHandled);
      }
      if request.requester !in users || request.requester in banned {
        return Some(UserNotFound);
      }
      var blocked := IsBlockedBetween(u, request.requester);
      if blocked {
        return Some(UserBlocked);
      }
      requests := requests[id := request.(status := if accept then ACCEPTED else REJECTED)];
      if accept {
        var pair := PairOf(request.requester, request.addressee);
        if pair !in friends {
          friends := friends + {pair};
        }
      }
      error := None;
    }

    method RemoveFriend(u: Id, v: Id) returns (error: Option<SocialError>)
      requires Valid()
      modifies this
      ensures Valid() && Snapshot() == SocialStep(old(Snapshot()), RemoveCall(u, v))
      ensures error == if Friends(old(Snapshot()), u, v) then None else Some(FriendNotFound)
    {
      SocialStepKeeps(Snapshot(), RemoveCall(u, v));
      if PairOf(u, v) !in friends {
        return Some(FriendNotFound);
      }
      friends := friends - {PairOf(u, v)};
      remarks := remarks - {(u, v), (v, u)};
      error := None;
    }

    method SetFriendRemark(u: Id, v: Id, remark: string) returns (error: Option<SocialError>)
      requires Valid()
      modifies this
      ensures Valid() && Snapshot() == SocialStep(old(Snapshot()), RemarkCall(u, v, remark))
      ensures error == if Friends(old(Snapshot()), u, v) then None else Some(NotFriends)
    {
      SocialStepKeeps(Snapshot(), RemarkCall(u, v, remark));
      if PairOf(u, v) !in friends {
        return Some(NotFriends);
      }
      if remark != "" {
        remarks := remarks[(u, v) := remark];
      } else {
        remarks := remarks - {(u, v)};
      }
      error := None;
    }

    method CreateGlobalBlock(u: Id, v: Id) returns (error: Option<SocialError>)
      requires Valid()
      modifies this
      ensures Valid() && Snapshot() == SocialStep(old(Snapshot()), BlockCall(u, v))
      ensures error == if u == v then Some(CannotBlockSelf) else None
    {
      SocialStepKeeps(Snapshot(), BlockCall(u, v));
      if u == v {
        return Some(CannotBlockSelf);
      }
      blocks := blocks + {(u, v)};
      friends := friends - {PairOf(u, v)};
      requests := requests - (set i | i in requests && Between(requests[i], u, v));
      remarks := remarks - {(u, v), (v, u)};
      error := None;
    }
  }
}
