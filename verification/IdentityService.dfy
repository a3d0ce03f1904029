/** The identity service over its tables, updated in place. */
module IdentityService {
  import opened Basics
  import opened IdentityModel
  import opened IdentityProofs

  datatype CardError = CardAlreadyVisible | NotInRoom

  class Service {
    var letters: map<Id, LetterRow>
    var rooms: map<Id, RoomRow>
    var ids: map<(Scope, Id), Identity>
    var nextLetter: Id
    var nextRoom: Id

    ghost function Snapshot(): IdentityWorld
      reads this
    {
      IdentityWorld(letters, rooms, ids, nextLetter, nextRoom)
    }

    ghost predicate Valid()
      reads this
    {
      IdentitiesSound(Snapshot())
    }

    constructor ()
      ensures Valid() && Snapshot() == EmptyIdentities
    {
      letters, rooms, ids, nextLetter, nextRoom := map[], map[], map[], 1, 1;
    }

    /** The retry loop over random appearances. */
    method EnsureIdentity(s: Scope, u: Id, draws: seq<Appearance>) returns (done: bool)
      modifies this`ids
      ensures done <==> EnsureOne(old(Snapshot()), s, u, draws).Some?
      ensures Snapshot() == OrElse(old(Snapshot()), EnsureOne(old(Snapshot()), s, u, draws))
    {
      if (s, u) in ids {
        return true;
      }
      var used := set k | k in ids && k.0 == s :: ids[k].look;
      var look: Option<Appearance> := None;
      var i := 0;
      while i < |draws| && look.None?
        invariant 0 <= i <= |draws| && ids == old(ids)
        invariant FirstUnused(used, draws) == if look.None? then FirstUnused(used, draws[i..]) else look
      {
        if draws[i] !in used {
          look := Some(draws[i]);
        }
        i := i + 1;
      }
      if look.None? {
        return false;
      }
      ids := ids[(s, u) := Identity(look.value, false, None, None)];
      done := true;
    }

    method EnsureRoomIdentities(r: Id, d: Draws) returns (done: bool)
      requires r in rooms
      modifies this`ids
      ensures done <==> EnsureRoom(old(Snapshot()), r, d).Some?
      ensures Snapshot() == OrElse(old(Snapshot()), EnsureRoom(old(Snapshot()), r, d))
    {
      var room := rooms[r];
      var s := if room.kind == TEMPORARY && room.letter.Some? then LetterScope(room.letter.value) else RoomScope(r);
      var saved := ids;
      done := EnsureIdentity(s, room.a, d.first);
      if done {
        done := EnsureIdentity(s, room.b, d.second);
        if !done {
          ids := saved;
        }
      }
    }

    /** Commit of a salvage: the conditional update, then both identities, or rollback. */
    method SalvageIdentities(l: Id, u: Id, d: Draws) returns (done: bool)
      requires Valid()
      modifies this
      ensures Valid() && Snapshot() == IdentityStep(old(Snapshot()), SalvageCall(l, u, d))
    {
      IdentityStepKeeps(Snapshot(), SalvageCall(l, u, d));
      done := false;
      if l in letters && letters[l].salvager.None? && letters[l].author != u {
        var savedLetters, savedIds := letters, ids;
        letters := letters[l := letters[l].(salvager := Some(u))];
        done := EnsureIdentity(LetterScope(l), letters[l].author, d.first);
        if done {
          done := EnsureIdentity(LetterScope(l), u, d.second);
        }
        if !done {
          letters, ids := savedLetters, savedIds;
        }
      }
    }

    method RoomIdentityPayload(r: Id, u: Id, d: Draws) returns (view: Option<RoomView>)
      requires Valid() && r in rooms
      modifies this`ids
      ensures Valid() && Snapshot() == old(Snapshot())
      ensures Anonymous(Snapshot(), r) ==>
        (ScopeOf(Snapshot(), r), rooms[r].a) in ids && (ScopeOf(Snapshot(), r), rooms[r].b) in ids
      ensures view == if rooms[r].Has(u) then Some(ViewOf(Snapshot(), r, u)) else None
    {
      var room := rooms[r];
      if room.kind != FRIEND {
        RoomIdentities(Snapshot(), r, room.a);
        RoomIdentities(Snapshot(), r, room.b);
      }
      if u != room.a && u != room.b {
        return None;
      }
      var peer := if u == room.a then room.b else room.a;
      if room.kind == FRIEND {
        return Some(RoomView(Some(peer), None, None, true, NotRequired));
      }
      var _ := EnsureRoomIdentities(r, d);
      var s := if room.kind == TEMPORARY && room.letter.Some? then LetterScope(room.letter.value) else RoomScope(r);
      var mine, theirs := ids[(s, u)], ids[(s, peer)];
      if mine.revealedAt.Some? && theirs.revealedAt.Some? {
        return Some(RoomView(Some(peer), None, Some(mine.look), true, Revealed));
      }
      var card := NoCard;
      if mine.consented && !theirs.consented {
        card := WaitingForPeer;
      } else if theirs.consented && !mine.consented {
        card := Invited;
      }
      view := Some(RoomView(None, Some(theirs.look), Some(mine.look), false, card));
    }

    /** Records the caller's consent and reveals both rows once both consented. */
    method RecordConsent(s: Scope, u: Id, peer: Id, now: Time) returns (newly: bool)
      requires (s, u) in ids && (s, peer) in ids && u != peer
      modifies this`ids
      ensures Snapshot() == Reveal(old(Snapshot()), s, u, peer, now)
      ensures newly <==> !old(ids)[(s, u)].consented
    {
      newly := !ids[(s, u)].consented;
      if newly {
        ids := ids[(s, u) := ids[(s, u)].(consented := true, consentedAt := Some(now))];
      } else {
        assert ids[(s, u) := ids[(s, u)]] == ids;
      }
      if ids[(s, u)].consented && ids[(s, peer)].consented {
        ids := ids[(s, u) := ids[(s, u)].(revealedAt := Some(now))];
        ids := ids[(s, peer) := ids[(s, peer)].(revealedAt := Some(now))];
      }
    }

    /** The database may list the rows of a scope in any order: the peer row is
        any row of the scope that is not the caller's. */
    method FindPeer(r: Id, u: Id, s: Scope, d: Draws) returns (peer: Id)
      requires Valid() && Anonymous(Snapshot(), r) && rooms[r].Has(u) && s == ScopeOf(Snapshot(), r)
      modifies this`ids
      ensures Snapshot() == old(Snapshot()) && peer == rooms[r].Peer(u)
    {
      RoomIdentities(Snapshot(), r, u);
      RoomIdentities(Snapshot(), r, rooms[r].Peer(u));
      ghost var before := Snapshot();
      var rows := set k | k in ids && k.0 == s :: k.1;
      if |rows| < 2 {
        var _ := EnsureRoomIdentities(r, d);
        rows := set k | k in ids && k.0 == s :: k.1;
      }
      assert Snapshot() == before;
      assert (s, rooms[r].Peer(u)) in ids && rooms[r].Peer(u) in rows;
      peer :| peer in rows && peer != u;
      OtherIsThePeer(before, r, u, peer);
    }

    method ConsentCardExchange(r: Id, u: Id, d: Draws, now: Time) returns (error: Option<CardError>, newly: bool)
      requires Valid() && r in rooms
      modifies this`ids
      ensures Valid() && Snapshot() == IdentityStep(old(Snapshot()), ConsentCall(r, u, d, now))
      ensures error == if rooms[r].kind == FRIEND then Some(CardAlreadyVisible)
                       else if !rooms[r].Has(u) then Some(NotInRoom) else None
      ensures error.None? ==>
        var k := (ScopeOf(Snapshot(), r), u);
        k in old(ids) && newly == !old(ids)[k].consented
    {
      IdentityStepKeeps(Snapshot(), ConsentCall(r, u, d, now));
      var room := rooms[r];
      newly := false;
      if room.kind == FRIEND {
        return Some(CardAlreadyVisible), newly;
      }
      if u != room.a && u != room.b {
        return Some(NotInRoom), newly;
      }
      ConsentIsReveal(Snapshot(), r, u, d, now);
      var s := if room.kind == TEMPORARY && room.letter.Some? then LetterScope(room.letter.value) else RoomScope(r);
      var peer := FindPeer(r, u, s, d);
      newly := RecordConsent(s, u, peer, now);
      error := None;
    }
  }
}
