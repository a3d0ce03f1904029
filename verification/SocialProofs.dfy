/** The relationship graph over whole runs: what a block excludes, one request
    row per pair, and how requests and friendships go together. */
module SocialProofs {
  import opened Basics
  import opened SocialModel

  /** The row's pair columns name its two users, who differ. */
  ghost predicate RowOk(w: SocialWorld, i: Id)
    requires i in w.requests
  {
    var r := w.requests[i];
    i < w.nextRequest && r.requester != r.addressee && r.pair == PairOf(r.requester, r.addressee)
    && (r.status == PENDING ==> r.pair !in w.friends)
    && !Blocked(w, r.requester, r.addressee)
  }

  ghost predicate RowsOk(w: SocialWorld) {
    && (forall i :: i in w.requests ==> RowOk(w, i))
    && (forall i, j :: i in w.requests && j in w.requests && w.requests[i].pair == w.requests[j].pair ==> i == j)
  }

  ghost predicate AcceptedRow(w: SocialWorld, p: Pair, i: Id) {
    i in w.requests && w.requests[i].pair == p && w.requests[i].status == ACCEPTED
  }

  /** Friends are two different users with an accepted request and no block. */
  ghost predicate FriendsOk(w: SocialWorld) {
    forall p :: p in w.friends ==>
      p.low < p.high && !Blocked(w, p.low, p.high) && exists i :: AcceptedRow(w, p, i)
  }

  ghost predicate RemarksOk(w: SocialWorld) {
    forall k :: k in w.remarks ==> k.0 != k.1 && !Blocked(w, k.0, k.1) && w.remarks[k] != ""
  }

  ghost predicate SocialSound(w: SocialWorld) {
    RowsOk(w) && FriendsOk(w) && RemarksOk(w) && forall b :: b in w.blocks ==> b.0 != b.1
  }

  /** A block, in either direction, leaves no friendship, request or remark
      between the two; two users share at most one request row. */
  lemma BlockExcludes(w: SocialWorld, u: Id, v: Id)
    requires SocialSound(w)
    ensures Blocked(w, u, v) ==>
      !Friends(w, u, v) && RowsBetween(w, u, v) == {} && (u, v) !in w.remarks && (v, u) !in w.remarks
    ensures |RowsBetween(w, u, v)| <= 1
    ensures PendingBetween(w, u, v) != {} ==> !Friends(w, u, v)
    ensures Friends(w, u, v) ==> RowsBetween(w, u, v) != {} && PendingBetween(w, u, v) == {}
  {
    forall i | i in RowsBetween(w, u, v)
      ensures RowOk(w, i) && w.requests[i].pair == PairOf(u, v)
    {
      assert RowOk(w, i);
    }
    var rows := RowsBetween(w, u, v);
    if rows != {} {
      Inhabited(rows);
      var i :| i in rows;
      forall j | j in rows
        ensures j == i
      {
        assert w.requests[j].pair == w.requests[i].pair;
      }
      assert rows == {i};
    }
    if PendingBetween(w, u, v) != {} {
      Inhabited(PendingBetween(w, u, v));
      var i :| i in PendingBetween(w, u, v);
      assert RowOk(w, i) && i in rows;
    }
    if Friends(w, u, v) {
      var i :| AcceptedRow(w, PairOf(u, v), i);
      assert RowOk(w, i) && i in RowsBetween(w, u, v);
    }
  }

  // ----- preservation -----

  /** Friends keep their accepted row when other rows change. */
  lemma FriendsKept(w: SocialWorld, w1: SocialWorld)
    requires FriendsOk(w) && w1.friends <= w.friends
    requires forall p :: p in w1.friends ==> (Blocked(w1, p.low, p.high) <==> Blocked(w, p.low, p.high))
    requires forall i :: i in w.requests && w.requests[i].pair in w1.friends ==>
      i in w1.requests && w1.requests[i] == w.requests[i]
    ensures FriendsOk(w1)
  {
    forall p | p in w1.friends
      ensures exists i :: AcceptedRow(w1, p, i)
    {
      var i :| AcceptedRow(w, p, i);
      assert AcceptedRow(w1, p, i);
    }
  }

  lemma NoRowBetween(w: SocialWorld, u: Id, v: Id, i: Id)
    requires RowsOk(w) && i in w.requests && u != v
    ensures i in RowsBetween(w, u, v) <==> w.requests[i].pair == PairOf(u, v)
  {
    assert RowOk(w, i);
  }

  lemma SendKeeps(w: SocialWorld, u: Id, v: Id)
    requires SocialSound(w) && SendError(w, u, v).None?
    ensures SocialSound(Send(w, u, v))
  {
    var w1 := Send(w, u, v);
    var id := if RowsBetween(w, u, v) != {} then Newest(RowsBetween(w, u, v)) else w.nextRequest;
    assert w.nextRequest in w.requests ==> RowOk(w, w.nextRequest);
    forall i | i in w1.requests
      ensures RowOk(w1, i)
      ensures i != id ==> w1.requests[i].pair != PairOf(u, v)
    {
      if i != id {
        assert RowOk(w, i);
        NoRowBetween(w, u, v, i);
        if RowsBetween(w, u, v) != {} {
          NoRowBetween(w, u, v, id);
        }
      }
    }
    FriendsKept(w, w1);
  }

  lemma RespondKeeps(w: SocialWorld, u: Id, id: Id, accept: bool)
    requires SocialSound(w) && RespondError(w, u, id).None?
    ensures SocialSound(Respond(w, u, id, accept))
  {
    var w1 := Respond(w, u, id, accept);
    var p := w.requests[id].pair;
    assert RowOk(w, id);
    forall i | i in w1.requests
      ensures RowOk(w1, i)
    {
      assert RowOk(w, i);
      assert i != id ==> w.requests[i].pair != p;
    }
    forall q | q in w1.friends
      ensures exists i :: AcceptedRow(w1, q, i)
    {
      if q == p {
        assert AcceptedRow(w1, q, id);
      } else {
        var i :| AcceptedRow(w, q, i);
        assert AcceptedRow(w1, q, i);
      }
    }
  }

  lemma UnfriendKeeps(w: SocialWorld, w1: SocialWorld)
    requires SocialSound(w) && w1.friends <= w.friends && w1.requests == w.requests && w1.blocks == w.blocks
    requires w1.nextRequest == w.nextRequest
    requires forall k :: k in w1.remarks ==> k.0 != k.1 && !Blocked(w, k.0, k.1) && w1.remarks[k] != ""
    ensures SocialSound(w1)
  {
    forall i | i in w1.requests
      ensures RowOk(w1, i)
    {
      assert RowOk(w, i);
    }
    FriendsKept(w, w1);
  }

  lemma BlockKeeps(w: SocialWorld, u: Id, v: Id)
    requires SocialSound(w) && u != v
    ensures SocialSound(Block(w, u, v))
  {
    var w1 := Block(w, u, v);
    forall x, y
      ensures Blocked(w1, x, y) <==> (Blocked(w, x, y) || (x == u && y == v) || (x == v && y == u))
    {
    }
    forall i | i in w1.requests
      ensures RowOk(w1, i)
    {
      assert RowOk(w, i);
      assert !Between(w.requests[i], u, v);
    }
    forall i | i in w.requests && w.requests[i].pair in w1.friends
      ensures i in w1.requests
    {
      NoRowBetween(w, u, v, i);
    }
    FriendsKept(w, w1);
  }

  lemma SocialStepKeeps(w: SocialWorld, c: SocialCall)
    requires SocialSound(w)
    ensures SocialSound(SocialStep(w, c))
  {
    match c
    case RegisterCall(u) => UnfriendKeeps(w, SocialStep(w, c));
    case BanCall(u, on) => UnfriendKeeps(w, SocialStep(w, c));
    case SendCall(u, v) =>
      if SendError(w, u, v).None? {
        SendKeeps(w, u, v);
      }
    case RespondCall(u, id, accept) =>
      if RespondError(w, u, id).None? {
        RespondKeeps(w, u, id, accept);
      }
    case RemoveCall(u, v) => UnfriendKeeps(w, Remove(w, u, v));
    case AdminRemoveCall(p) => UnfriendKeeps(w, AdminRemove(w, p));
    case RemarkCall(u, v, remark) =>
      if Friends(w, u, v) {
        assert PairOf(u, v) in w.friends;
        UnfriendKeeps(w, SetRemark(w, u, v, remark));
      }
    case BlockCall(u, v) =>
      if u != v {
        BlockKeeps(w, u, v);
      }
  }

  lemma {:induction false} SocialRunKeeps(w: SocialWorld, cs: seq<SocialCall>)
    requires SocialSound(w)
    ensures SocialSound(SocialRun(w, cs))
    decreases |cs|
  {
    if cs != [] {
      SocialStepKeeps(w, cs[0]);
      SocialRunKeeps(SocialStep(w, cs[0]), cs[1..]);
    }
  }

  // ----- what the calls mean together -----

  lemma SentRow(w: SocialWorld, u: Id, v: Id) returns (id: Id)
    requires SocialSound(w) && SendError(w, u, v).None?
    ensures var w1 := Send(w, u, v);
      RowsBetween(w1, u, v) == {id} && w1.requests[id] == Request(u, v, PairOf(u, v), PENDING)
  {
    var w1 := Send(w, u, v);
    SendKeeps(w, u, v);
    id := if RowsBetween(w, u, v) != {} then Newest(RowsBetween(w, u, v)) else w.nextRequest;
    forall i | i in RowsBetween(w1, u, v)
      ensures i == id
    {
      NoRowBetween(w1, u, v, i);
      assert w1.requests[i].pair == w1.requests[id].pair;
    }
    assert id in RowsBetween(w1, u, v);
  }

  lemma OnlyPending(w: SocialWorld, u: Id, v: Id, id: Id)
    requires RowsBetween(w, u, v) == {id} && w.requests[id].status == PENDING
    ensures PendingBetween(w, u, v) == {id} && PendingBetween(w, v, u) == {id} && Newest({id}) == id
  {
    assert id in RowsBetween(w, u, v);
    forall i
      ensures i in PendingBetween(w, u, v) <==> i == id
      ensures i in PendingBetween(w, v, u) <==> i == id
    {
      assert i in RowsBetween(w, u, v) <==> i == id;
    }
  }

  /** A request that goes through is the pair's one row, open to an answer by the
      addressee only, and stops a second request from either side. */
  lemma SendOutcome(w: SocialWorld, u: Id, v: Id) returns (id: Id)
    requires SocialSound(w) && SendError(w, u, v).None? && u in w.users && u !in w.banned
    ensures var w1 := Send(w, u, v);
      && RowsBetween(w1, u, v) == {id} && w1.requests[id] == Request(u, v, PairOf(u, v), PENDING)
      && SendError(w1, u, v) == Some(RequestExists) && SendError(w1, v, u) == Some(IncomingRequestExists)
      && RespondError(w1, v, id).None? && RespondError(w1, u, id) == Some(RequestNotFound)
      && w1.friends == w.friends && w1.remarks == w.remarks && w1.blocks == w.blocks
  {
    var w1 := Send(w, u, v);
    id := SentRow(w, u, v);
    OnlyPending(w1, u, v, id);
    assert PairOf(u, v) == PairOf(v, u) && u != v && v in w1.users && v !in w1.banned;
    assert Blocked(w1, v, u) == Blocked(w1, u, v) == Blocked(w, u, v) == false;
    assert id in RowsBetween(w1, u, v);
  }

  /** Acceptance makes the two friends in both views, rejection does not. */
  lemma AnswerOutcome(w: SocialWorld, u: Id, id: Id)
    requires SocialSound(w) && RespondError(w, u, id).None?
    ensures var v := w.requests[id].requester;
      var yes, no := Respond(w, u, id, true), Respond(w, u, id, false);
      && v != u && !Friends(w, u, v) && Friends(yes, u, v) && Friends(yes, v, u) && !Friends(no, u, v)
      && yes.friends - {PairOf(u, v)} == w.friends && no.friends == w.friends
      && PendingBetween(yes, u, v) == {} && PendingBetween(no, u, v) == {}
      && RespondError(yes, u, id) == Some(AlreadyHandled) && RespondError(no, u, id) == Some(AlreadyHandled)
  {
    var v := w.requests[id].requester;
    assert RowOk(w, id);
    forall i | i in w.requests && Between(w.requests[i], u, v)
      ensures i == id
    {
      NoRowBetween(w, u, v, i);
    }
  }

  /** Removing a friendship undoes its acceptance, drops both remarks, and lets the
      pair start again; removing it from the other side has the same effect. */
  lemma RemovalUndoesAcceptance(w: SocialWorld, u: Id, id: Id)
    requires SocialSound(w) && RespondError(w, u, id).None?
    ensures var v := w.requests[id].requester;
      var w1 := Respond(w, u, id, true);
      var w2 := Remove(w1, u, v);
      && w2.friends == w.friends && Remove(w1, v, u) == w2
      && (u, v) !in w2.remarks && (v, u) !in w2.remarks
      && SendError(w2, u, v).None?
  {
    AnswerOutcome(w, u, id);
    var v := w.requests[id].requester;
    var w1 := Respond(w, u, id, true);
    var w2 := Remove(w1, u, v);
    assert {(u, v), (v, u)} == {(v, u), (u, v)};
    assert PendingBetween(w2, u, v) == PendingBetween(w1, u, v);
  }

  /** A banned user cannot be asked, nor a request of theirs be answered, until the
      ban is lifted; a user who registered can be. */
  lemma UserEvents(w: SocialWorld, u: Id, v: Id, id: Id)
    requires SocialSound(w) && u != v
    ensures SendError(SocialStep(w, BanCall(v, true)), u, v) == Some(UserNotFound)
    ensures RespondError(w, u, id).None? && w.requests[id].requester == v ==>
      RespondError(SocialStep(w, BanCall(v, true)), u, id) == Some(UserNotFound)
    ensures SendError(SocialStep(SocialStep(w, RegisterCall(v)), BanCall(v, false)), u, v) != Some(UserNotFound)
  {
  }

  /** Which failure a request meets, the first of the list. */
  lemma SendErrorExactly(w: SocialWorld, u: Id, v: Id)
    requires SocialSound(w)
    ensures var e := SendError(w, u, v);
      var known := v in w.users && v !in w.banned;
      && (e == Some(CannotFriendSelf) <==> u == v)
      && (e == Some(UserNotFound) <==> u != v && !known)
      && (e == Some(UserBlocked) <==> u != v && known && Blocked(w, u, v))
      && (e == Some(AlreadyFriends) <==> u != v && known && Friends(w, u, v))
      && (e == Some(RequestExists) <==>
            u != v && known && exists i :: i in w.requests && w.requests[i].requester == u && w.requests[i].addressee == v
                                           && w.requests[i].status == PENDING)
      && (e == Some(IncomingRequestExists) <==>
            u != v && known && exists i :: i in w.requests && w.requests[i].requester == v && w.requests[i].addressee == u
                                           && w.requests[i].status == PENDING)
  {
    BlockExcludes(w, u, v);
    var pending := PendingBetween(w, u, v);
    Inhabited(pending);
    if i :| i in pending {
      assert RowOk(w, i);
      forall j | j in pending
        ensures j == i
      {
        assert RowOk(w, j);
      }
      assert Newest(pending) in pending;
    }
    forall i | i in w.requests && Between(w.requests[i], u, v) && w.requests[i].status == PENDING
      ensures i in pending
    {
    }
  }

  /** Which failure an answer meets. */
  lemma RespondErrorExactly(w: SocialWorld, u: Id, id: Id)
    requires SocialSound(w)
    ensures var e := RespondError(w, u, id);
      var mine := id in w.requests && w.requests[id].addressee == u;
      && (e == Some(RequestNotFound) <==> !mine)
      && (e == Some(AlreadyHandled) <==> mine && w.requests[id].status != PENDING)
      && (e == Some(UserNotFound) <==>
            mine && w.requests[id].status == PENDING
            && (w.requests[id].requester !in w.users || w.requests[id].requester in w.banned))
      && e != Some(UserBlocked)
  {
    assert id in w.requests ==> RowOk(w, id);
  }

  /** An answer changes the status of its row, and no other row, remark or block. */
  lemma AnswerRecords(w: SocialWorld, u: Id, id: Id, accept: bool)
    requires RespondError(w, u, id).None?
    ensures var w1 := Respond(w, u, id, accept);
      && w1.requests == w.requests[id := w.requests[id].(status := if accept then ACCEPTED else REJECTED)]
      && w1.remarks == w.remarks && w1.blocks == w.blocks
  {
  }

  /** A remark is the owner's own: setting it, or deleting it with an empty text,
      changes nothing else, and nothing at all between strangers. */
  lemma RemarkOutcome(w: SocialWorld, u: Id, v: Id, remark: string)
    ensures var w1 := SetRemark(w, u, v, remark);
      && w1 == w.(remarks := w1.remarks)
      && (forall k :: k != (u, v) ==> (k in w1.remarks <==> k in w.remarks) && (k in w.remarks ==> w1.remarks[k] == w.remarks[k]))
      && (if !Friends(w, u, v) then w1 == w
          else if remark == "" then (u, v) !in w1.remarks
          else (u, v) in w1.remarks && w1.remarks[(u, v)] == remark)
  {
  }

  /** A block adds itself, clears what was between the two and nothing else. */
  lemma BlockOutcome(w: SocialWorld, u: Id, v: Id)
    requires SocialSound(w)
    ensures var w1 := Block(w, u, v);
      && (u == v ==> w1 == w)
      && (u != v ==> w1.blocks == w.blocks + {(u, v)} && Blocked(w1, u, v) && Blocked(w1, v, u))
      && (forall p :: p in w1.friends <==> p in w.friends && (u != v ==> p != PairOf(u, v)))
      && (forall i :: i in w1.requests <==> i in w.requests && (u != v ==> w.requests[i].pair != PairOf(u, v)))
      && (forall i :: i in w1.requests ==> w1.requests[i] == w.requests[i])
      && (forall k :: k in w1.remarks <==> k in w.remarks && (u != v ==> k != (u, v) && k != (v, u)))
      && (forall k :: k in w1.remarks ==> w1.remarks[k] == w.remarks[k])
  {
    forall i | i in w.requests
      ensures RowOk(w, i)
    {
    }
    if u != v {
      forall i | i in w.requests
        ensures i in RowsBetween(w, u, v) <==> w.requests[i].pair == PairOf(u, v)
      {
        NoRowBetween(w, u, v, i);
      }
    }
  }

  /** Removing a friend drops the friendship and both remarks, an admin's removal
      the friendship alone; a stranger cannot be removed. */
  lemma RemoveOutcome(w: SocialWorld, u: Id, v: Id)
    ensures var w1 := Remove(w, u, v);
      && (!Friends(w, u, v) ==> w1 == w)
      && w1.friends == w.friends - {PairOf(u, v)} && w1.requests == w.requests && w1.blocks == w.blocks
      && (Friends(w, u, v) ==>
            forall k :: k in w1.remarks <==> k in w.remarks && k != (u, v) && k != (v, u))
      && (forall k :: k in w1.remarks ==> w1.remarks[k] == w.remarks[k])
    ensures AdminRemove(w, PairOf(u, v)) == w.(friends := w.friends - {PairOf(u, v)})
  {
    if !Friends(w, u, v) {
      assert w.friends - {PairOf(u, v)} == w.friends;
    }
  }

  // ----- blocks are final -----

  lemma StepBlocked(w: SocialWorld, c: SocialCall, u: Id, v: Id)
    requires Blocked(w, u, v)
    ensures Blocked(SocialStep(w, c), u, v)
  {
  }

  /** No call lifts a block, so after one the two never become friends, exchange
      requests or hold remarks on each other again. */
  lemma {:induction false} BlockedForEver(w: SocialWorld, cs: seq<SocialCall>, u: Id, v: Id)
    requires SocialSound(w) && Blocked(w, u, v)
    ensures var w1 := SocialRun(w, cs);
      Blocked(w1, u, v) && !Friends(w1, u, v) && RowsBetween(w1, u, v) == {}
      && (u, v) !in w1.remarks && (v, u) !in w1.remarks
    decreases |cs|
  {
    BlockExcludes(w, u, v);
    if cs != [] {
      SocialStepKeeps(w, cs[0]);
      StepBlocked(w, cs[0], u, v);
      BlockedForEver(SocialStep(w, cs[0]), cs[1..], u, v);
    }
  }

  // ----- remarks without friendship -----

  /** Every remark belongs to friends, as long as no friendship with a remark is
      removed by the admin endpoint. */
  ghost predicate RemarksBefriended(w: SocialWorld) {
    forall k :: k in w.remarks ==> Friends(w, k.0, k.1)
  }

  /** One step keeps "a remark implies friendship" exactly when it is not an admin
      removal of a friendship that carries a remark. */
  lemma RemarksNeedFriendship(w: SocialWorld, c: SocialCall)
    requires SocialSound(w) && RemarksBefriended(w)
    ensures RemarksBefriended(SocialStep(w, c))
      <==> !(c.AdminRemoveCall? && exists k :: k in w.remarks && PairOf(k.0, k.1) == c.p)
  {
    var w1 := SocialStep(w, c);
    match c
    case RegisterCall(u) =>
    case BanCall(u, on) =>
    case SendCall(u, v) =>
    case RespondCall(u, id, accept) =>
    case RemoveCall(u, v) => RemoveRemarks(w, u, v);
    case AdminRemoveCall(p) =>
      if k :| k in w.remarks && PairOf(k.0, k.1) == p {
        assert k in w1.remarks && !Friends(w1, k.0, k.1);
      }
    case RemarkCall(u, v, remark) =>
    case BlockCall(u, v) =>
      if u != v {
        BlockRemarks(w, u, v);
      }
  }

  lemma RemoveRemarks(w: SocialWorld, u: Id, v: Id)
    requires RemarksBefriended(w)
    ensures RemarksBefriended(Remove(w, u, v))
  {
    forall k | k in Remove(w, u, v).remarks
      ensures Friends(Remove(w, u, v), k.0, k.1)
    {
      assert Friends(w, k.0, k.1);
    }
  }

  lemma BlockRemarks(w: SocialWorld, u: Id, v: Id)
    requires RemarksBefriended(w) && u != v
    ensures RemarksBefriended(Block(w, u, v))
  {
    forall k | k in Block(w, u, v).remarks
      ensures Friends(Block(w, u, v), k.0, k.1)
    {
      assert Friends(w, k.0, k.1);
    }
  }
}
