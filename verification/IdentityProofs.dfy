/** At most two identities per scope, told apart and stable; "the other identity"
    is the room peer; cards are revealed to both exactly when both consented. */
module IdentityProofs {
  import opened Basics
  import opened IdentityModel

  // ----- the invariant -----

  /** The two users a scope belongs to, once it has them. */
  ghost predicate Belongs(w: IdentityWorld, s: Scope, u: Id) {
    match s
    case LetterScope(l) => l in w.letters && w.letters[l].salvager.Some?
                           && (u == w.letters[l].author || w.letters[l].salvager == Some(u))
    case RoomScope(r) => Anonymous(w, r) && w.rooms[r].letter.None? && w.rooms[r].Has(u)
  }

  ghost predicate LettersOk(w: IdentityWorld) {
    forall l :: l in w.letters ==> l < w.nextLetter && w.letters[l].salvager != Some(w.letters[l].author)
  }

  ghost predicate RoomOk(w: IdentityWorld, r: Id)
    requires r in w.rooms
  {
    var room := w.rooms[r];
    && r < w.nextRoom && room.a != room.b
    && (room.kind == TEMPORARY <==> room.letter.Some?)
    && (room.letter.Some? ==>
          room.letter.value in w.letters
          && w.letters[room.letter.value] == LetterRow(room.a, Some(room.b)))
  }

  ghost predicate RoomsOk(w: IdentityWorld) {
    forall r :: r in w.rooms ==> RoomOk(w, r)
  }

  ghost predicate UsersOk(w: IdentityWorld) {
    forall k :: k in w.ids ==> Belongs(w, k.0, k.1)
  }

  /** If one user of a scope has an identity, so has the other. */
  ghost predicate Paired(w: IdentityWorld) {
    forall s, u, v :: (s, u) in w.ids && Belongs(w, s, v) ==> (s, v) in w.ids
  }

  ghost predicate Dressed(w: IdentityWorld) {
    forall r :: Anonymous(w, r) ==> (ScopeOf(w, r), w.rooms[r].a) in w.ids
  }

  ghost predicate Distinct(w: IdentityWorld) {
    forall s, u, v :: (s, u) in w.ids && (s, v) in w.ids && u != v ==> w.ids[(s, u)].look != w.ids[(s, v)].look
  }

  ghost predicate CardsOk(w: IdentityWorld) {
    && (forall k :: k in w.ids ==> (w.ids[k].consented <==> w.ids[k].consentedAt.Some?))
    && (forall s, u, v :: (s, u) in w.ids && (s, v) in w.ids && u != v ==> CardPair(w.ids[(s, u)], w.ids[(s, v)]))
  }

  /** Both rows are revealed at one moment, exactly when both consented. */
  ghost predicate CardPair(mine: Identity, theirs: Identity) {
    mine.revealedAt == theirs.revealedAt && (mine.revealedAt.Some? <==> mine.consented && theirs.consented)
  }

  ghost predicate Tables(w: IdentityWorld) {
    LettersOk(w) && RoomsOk(w) && UsersOk(w)
  }

  ghost predicate IdentitiesSound(w: IdentityWorld) {
    Tables(w) && Paired(w) && Dressed(w) && Distinct(w) && CardsOk(w)
  }

  // ----- what it says -----

  ghost function UsersIn(w: IdentityWorld, s: Scope): set<Id> {
    set k | k in w.ids && k.0 == s :: k.1
  }

  /** A letter scope has one author and, since a letter is salvaged once, one
      salvager; a room scope has two members. */
  lemma AtMostTwo(w: IdentityWorld, s: Scope)
    requires IdentitiesSound(w)
    ensures |UsersIn(w, s)| <= 2
  {
    if k :| k in w.ids && k.0 == s {
      var pair := match s
        case LetterScope(l) => {w.letters[l].author, w.letters[l].salvager.value}
        case RoomScope(r) => {w.rooms[r].a, w.rooms[r].b};
      assert UsersIn(w, s) <= pair by {
        forall u | u in UsersIn(w, s)
          ensures u in pair
        {
          assert (s, u) in w.ids && Belongs(w, s, u);
        }
      }
      CountWithinTwo(UsersIn(w, s), pair);
    } else {
      assert UsersIn(w, s) == {};
    }
  }

  lemma CountWithinTwo(a: set<Id>, b: set<Id>)
    requires a <= b && |b| <= 2
    ensures |a| <= 2
  {
    assert b == a + (b - a);
  }

  /** Any identity of the room's scope that is not mine is the room peer's. */
  lemma OtherIsThePeer(w: IdentityWorld, r: Id, u: Id, v: Id)
    requires IdentitiesSound(w) && Anonymous(w, r) && w.rooms[r].Has(u)
    requires (ScopeOf(w, r), v) in w.ids && v != u
    ensures v == w.rooms[r].Peer(u)
  {
    assert RoomOk(w, r) && Belongs(w, ScopeOf(w, r), v);
  }

  lemma RoomIdentities(w: IdentityWorld, r: Id, u: Id)
    requires IdentitiesSound(w) && Anonymous(w, r) && w.rooms[r].Has(u)
    ensures (ScopeOf(w, r), u) in w.ids && Belongs(w, ScopeOf(w, r), u) && w.rooms[r].Peer(u) != u
  {
    assert RoomOk(w, r);
    var s := ScopeOf(w, r);
    assert (s, w.rooms[r].a) in w.ids && Belongs(w, s, u);
  }

  /** What the two members of an anonymous room see: a user id exactly when both
      consented, each other's looks before that, and mirrored card states. */
  lemma ViewsMirror(w: IdentityWorld, r: Id)
    requires IdentitiesSound(w) && Anonymous(w, r)
    ensures var a, b := w.rooms[r].a, w.rooms[r].b;
      var s := ScopeOf(w, r);
      && (s, a) in w.ids && (s, b) in w.ids
      && var va, vb := ViewOf(w, r, a), ViewOf(w, r, b);
         var both := w.ids[(s, a)].consented && w.ids[(s, b)].consented;
         && (va.peerUserId == if both then Some(b) else None)
         && (vb.peerUserId == if both then Some(a) else None)
         && (va.identityRevealed <==> both) && (vb.identityRevealed <==> both)
         && (va.card == WaitingForPeer <==> vb.card == Invited)
         && (va.card == Invited <==> vb.card == WaitingForPeer)
         && (va.card == Revealed <==> both) && (vb.card == Revealed <==> both)
         && (!both ==> va.peerLook == vb.myLook && vb.peerLook == va.myLook && va.myLook != va.peerLook)
         && va.myLook == Some(w.ids[(s, a)].look) && vb.myLook == Some(w.ids[(s, b)].look)
         && va.peerLook == (if both then None else Some(w.ids[(s, b)].look))
         && vb.peerLook == (if both then None else Some(w.ids[(s, a)].look))
  {
    RoomIdentities(w, r, w.rooms[r].a);
    RoomIdentities(w, r, w.rooms[r].b);
    var s := ScopeOf(w, r);
    assert CardPair(w.ids[(s, w.rooms[r].a)], w.ids[(s, w.rooms[r].b)]);
  }

  /** The payload of an anonymous room, whole: always the own look; before the
      reveal the peer's look and who consented, after it the peer's user id. The
      identities are those of the letter in a letter room, of the room in a match. */
  lemma PayloadOutcome(w: IdentityWorld, r: Id, u: Id)
    requires IdentitiesSound(w) && Anonymous(w, r) && w.rooms[r].Has(u)
    ensures var room := w.rooms[r];
      var v := if u == room.a then room.b else room.a;
      var s := if room.letter.Some? then LetterScope(room.letter.value) else RoomScope(r);
      && (s, u) in w.ids && (s, v) in w.ids && v != u
      && var mine, theirs := w.ids[(s, u)], w.ids[(s, v)];
         ViewOf(w, r, u)
         == if mine.consented && theirs.consented then RoomView(Some(v), None, Some(mine.look), true, Revealed)
            else RoomView(None, Some(theirs.look), Some(mine.look), false,
                          if mine.consented then WaitingForPeer else if theirs.consented then Invited else NoCard)
  {
    assert RoomOk(w, r);
    RoomIdentities(w, r, u);
    RoomIdentities(w, r, w.rooms[r].Peer(u));
    assert CardPair(w.ids[(ScopeOf(w, r), u)], w.ids[(ScopeOf(w, r), w.rooms[r].Peer(u))]);
  }

  /** A friends' room shows the peer and needs no card. */
  lemma FriendPayload(w: IdentityWorld, r: Id, u: Id)
    requires r in w.rooms && w.rooms[r].kind == FRIEND && w.rooms[r].Has(u)
    ensures ViewOf(w, r, u)
      == RoomView(Some(if u == w.rooms[r].a then w.rooms[r].b else w.rooms[r].a), None, None, true, NotRequired)
  {
  }

  /** A salvage goes through exactly for a letter of another author that nobody
      has, with draws enough; then author and salvager wear two looks nobody wore,
      and nothing else changes. */
  lemma SalvageOutcome(w: IdentityWorld, l: Id, u: Id, d: Draws)
    requires IdentitiesSound(w)
    ensures var w1 := Salvage(w, l, u, d);
      var open := l in w.letters && w.letters[l].salvager.None? && w.letters[l].author != u;
      && (!open ==> w1 == w)
      && (open ==>
            var fresh1 := FirstUnused({}, d.first);
            var fresh2 := if fresh1.Some? then FirstUnused({fresh1.value}, d.second) else None;
            var author := w.letters[l].author;
            w1 == if fresh2.None? then w
                  else w.(letters := w.letters[l := LetterRow(author, Some(u))],
                          ids := w.ids[(LetterScope(l), author) := Identity(fresh1.value, false, None, None)]
                                      [(LetterScope(l), u) := Identity(fresh2.value, false, None, None)]))
  {
    if l in w.letters && w.letters[l].salvager.None? && w.letters[l].author != u {
      FreshScope(w, l);
      var w0 := w.(letters := w.letters[l := w.letters[l].(salvager := Some(u))]);
      assert Used(w0, LetterScope(l)) == {};
      var one := EnsureOne(w0, LetterScope(l), w.letters[l].author, d.first);
      if one.Some? {
        assert Used(one.value, LetterScope(l)) == {one.value.ids[(LetterScope(l), w.letters[l].author)].look};
      }
    }
  }

  /** Nobody has an identity under a letter that was not salvaged. */
  lemma FreshScope(w: IdentityWorld, l: Id)
    requires IdentitiesSound(w) && l in w.letters && w.letters[l].salvager.None?
    ensures forall u :: (LetterScope(l), u) !in w.ids
  {
    forall u
      ensures (LetterScope(l), u) !in w.ids
    {
      assert (LetterScope(l), u) in w.ids ==> Belongs(w, LetterScope(l), u);
    }
  }

  /** A reply opens a room exactly for the salvager of a letter without one; it is
      between author and salvager, and both keep the looks of the letter. */
  lemma LetterRoomOutcome(w: IdentityWorld, l: Id, u: Id, d: Draws)
    requires IdentitiesSound(w)
    ensures var w1 := OpenLetterRoom(w, l, u, d);
      var opens := l in w.letters && w.letters[l].salvager == Some(u) && forall r :: r in w.rooms ==> w.rooms[r].letter != Some(l);
      && (!opens ==> w1 == w)
      && (opens && (LetterScope(l), u) in w.ids ==>
            && w1.rooms == w.rooms[w.nextRoom := RoomRow(TEMPORARY, Some(l), w.letters[l].author, u)]
            && w1.ids == w.ids && w1.nextRoom == w.nextRoom + 1)
  {
    if l in w.letters && w.letters[l].salvager == Some(u) && (LetterScope(l), u) in w.ids {
      assert Belongs(w, LetterScope(l), w.letters[l].author);
      assert (LetterScope(l), w.letters[l].author) in w.ids;
    }
  }

  /** A match room opens between two users with two fresh looks, or not at all; a
      friends' room without looks. */
  lemma OtherRoomsOutcome(w: IdentityWorld, u: Id, v: Id, d: Draws)
    requires IdentitiesSound(w) && u != v
    ensures var low, high := if u < v then u else v, if u < v then v else u;
      var one := FirstUnused({}, d.first);
      var two := if one.Some? then FirstUnused({one.value}, d.second) else None;
      && OpenMatchRoom(w, u, v, d)
         == (if two.None? then w
             else w.(rooms := w.rooms[w.nextRoom := RoomRow(MATCH, None, low, high)], nextRoom := w.nextRoom + 1,
                     ids := w.ids[(RoomScope(w.nextRoom), low) := Identity(one.value, false, None, None)]
                                 [(RoomScope(w.nextRoom), high) := Identity(two.value, false, None, None)]))
      && OpenFriendRoom(w, u, v)
         == w.(rooms := w.rooms[w.nextRoom := RoomRow(FRIEND, None, low, high)], nextRoom := w.nextRoom + 1)
  {
    var s := RoomScope(w.nextRoom);
    assert forall r :: r in w.rooms ==> RoomOk(w, r) && r < w.nextRoom;
    forall x
      ensures (s, x) !in w.ids
    {
      assert (s, x) in w.ids ==> Belongs(w, s, x);
    }
    var low, high := if u < v then u else v, if u < v then v else u;
    var w0 := AddRoom(w, RoomRow(MATCH, None, low, high));
    assert Used(w0, s) == {};
    var one := EnsureOne(w0, s, low, d.first);
    if one.Some? {
      assert Used(one.value, s) == {one.value.ids[(s, low)].look};
    }
  }

  // ----- identities are added in pairs -----

  /** The effect of ensuring the two users of a scope. */
  lemma EnsureBothEffect(w: IdentityWorld, s: Scope, u: Id, v: Id, d: Draws)
    requires EnsureBoth(w, s, u, v, d).Some?
    ensures var w1 := EnsureBoth(w, s, u, v, d).value;
      && w1 == w.(ids := w1.ids)
      && w1.ids.Keys == w.ids.Keys + {(s, u), (s, v)}
      && (forall k :: k in w.ids ==> w1.ids[k] == w.ids[k])
      && (forall k :: k in w1.ids && k !in w.ids ==>
            !w1.ids[k].consented && w1.ids[k].consentedAt.None? && w1.ids[k].revealedAt.None?)
  {
  }

  lemma EnsureOneDistinct(w: IdentityWorld, s: Scope, u: Id, draws: seq<Appearance>)
    requires Distinct(w) && EnsureOne(w, s, u, draws).Some?
    ensures Distinct(EnsureOne(w, s, u, draws).value)
  {
    var w1 := EnsureOne(w, s, u, draws).value;
    forall s', x, y | (s', x) in w1.ids && (s', y) in w1.ids && x != y
      ensures w1.ids[(s', x)].look != w1.ids[(s', y)].look
    {
      if (s', x) in w.ids && s' == s {
        assert w.ids[(s', x)].look in Used(w, s);
      }
      if (s', y) in w.ids && s' == s {
        assert w.ids[(s', y)].look in Used(w, s);
      }
    }
  }

  lemma EnsureBothDistinct(w: IdentityWorld, s: Scope, u: Id, v: Id, d: Draws)
    requires Distinct(w) && EnsureBoth(w, s, u, v, d).Some?
    ensures Distinct(EnsureBoth(w, s, u, v, d).value)
  {
    EnsureOneDistinct(w, s, u, d.first);
    EnsureOneDistinct(EnsureOne(w, s, u, d.first).value, s, v, d.second);
  }

  /** The scope belongs to exactly these two users. */
  ghost predicate Owners(w: IdentityWorld, s: Scope, u: Id, v: Id) {
    forall x :: Belongs(w, s, x) <==> x == u || x == v
  }

  lemma EnsureBothKeeps(w: IdentityWorld, s: Scope, u: Id, v: Id, d: Draws)
    requires Tables(w) && Paired(w) && Distinct(w) && CardsOk(w) && Owners(w, s, u, v)
    requires EnsureBoth(w, s, u, v, d).Some?
    ensures var w1 := EnsureBoth(w, s, u, v, d).value;
      w1 == w.(ids := w1.ids) && w.ids.Keys <= w1.ids.Keys && (s, u) in w1.ids
      && Tables(w1) && Paired(w1) && Distinct(w1) && CardsOk(w1)
  {
    var w1 := EnsureBoth(w, s, u, v, d).value;
    EnsureBothEffect(w, s, u, v, d);
    EnsureBothDistinct(w, s, u, v, d);
    SameTables(w, w1);
    forall k | k in w1.ids
      ensures Belongs(w1, k.0, k.1)
    {
      assert k in w.ids ==> Belongs(w, k.0, k.1);
      assert Belongs(w, s, u) && Belongs(w, s, v);
    }
    forall s', x, y | (s', x) in w1.ids && Belongs(w1, s', y)
      ensures (s', y) in w1.ids
    {
      assert Belongs(w, s', y);
      if s' != s {
        assert (s', x) in w.ids;
      }
    }
    EnsureCards(w, w1, s, u, v);
  }

  /** Letters and rooms, and so the owners of every scope, are unchanged. */
  lemma SameTables(w: IdentityWorld, w1: IdentityWorld)
    requires w1 == w.(ids := w1.ids) && LettersOk(w) && RoomsOk(w)
    ensures LettersOk(w1) && RoomsOk(w1)
    ensures forall s, u :: Belongs(w1, s, u) <==> Belongs(w, s, u)
    ensures forall r :: Anonymous(w1, r) <==> Anonymous(w, r)
  {
    forall r | r in w1.rooms
      ensures RoomOk(w1, r)
    {
      assert RoomOk(w, r);
    }
  }

  lemma EnsureCards(w: IdentityWorld, w1: IdentityWorld, s: Scope, u: Id, v: Id)
    requires CardsOk(w) && Paired(w) && Owners(w, s, u, v) && UsersOk(w)
    requires w1.ids.Keys == w.ids.Keys + {(s, u), (s, v)}
    requires forall k :: k in w.ids ==> w1.ids[k] == w.ids[k]
    requires forall k :: k in w1.ids && k !in w.ids ==>
      !w1.ids[k].consented && w1.ids[k].consentedAt.None? && w1.ids[k].revealedAt.None?
    ensures CardsOk(w1)
  {
    forall s', x, y | (s', x) in w1.ids && (s', y) in w1.ids && x != y
      ensures CardPair(w1.ids[(s', x)], w1.ids[(s', y)])
    {
      if (s', x) in w.ids && (s', y) in w.ids {
        assert CardPair(w.ids[(s', x)], w.ids[(s', y)]);
      } else {
        assert Belongs(w, s, x) && Belongs(w, s, y);
        assert (s', x) !in w.ids && (s', y) !in w.ids;
      }
    }
  }

  // ----- preservation, call by call -----

  lemma NewLetterKeeps(w: IdentityWorld, author: Id)
    requires IdentitiesSound(w)
    ensures IdentitiesSound(NewLetter(w, author))
  {
    var w1 := NewLetter(w, author);
    assert w.nextLetter !in w.letters;
    assert forall s, u :: Belongs(w1, s, u) <==> Belongs(w, s, u);
    forall r | r in w1.rooms
      ensures RoomOk(w1, r)
    {
      assert RoomOk(w, r);
    }
    assert forall r :: Anonymous(w1, r) ==> Anonymous(w, r);
  }

  /** Recording the salvager gives the letter's scope its owners. */
  lemma SalvageOwners(w: IdentityWorld, l: Id, u: Id)
    requires IdentitiesSound(w)
    requires l in w.letters && w.letters[l].salvager.None? && w.letters[l].author != u
    ensures var w1 := w.(letters := w.letters[l := w.letters[l].(salvager := Some(u))]);
      Tables(w1) && Paired(w1) && Distinct(w1) && CardsOk(w1) && Owners(w1, LetterScope(l), w.letters[l].author, u)
      && Dressed(w1)
  {
    var w1 := w.(letters := w.letters[l := w.letters[l].(salvager := Some(u))]);
    forall s, x
      ensures Belongs(w1, s, x) <==> Belongs(w, s, x) || (s == LetterScope(l) && (x == w.letters[l].author || x == u))
    {
    }
    forall r | r in w1.rooms
      ensures RoomOk(w1, r)
    {
      assert RoomOk(w, r);
    }
    forall x
      ensures (LetterScope(l), x) !in w1.ids
    {
      assert (LetterScope(l), x) in w.ids ==> Belongs(w, LetterScope(l), x);
    }
    assert forall r :: Anonymous(w1, r) <==> Anonymous(w, r);
  }

  lemma SalvageKeeps(w: IdentityWorld, l: Id, u: Id, d: Draws)
    requires IdentitiesSound(w)
    ensures IdentitiesSound(Salvage(w, l, u, d))
  {
    if l in w.letters && w.letters[l].salvager.None? && w.letters[l].author != u {
      SalvageOwners(w, l, u);
      var w1 := w.(letters := w.letters[l := w.letters[l].(salvager := Some(u))]);
      if EnsureBoth(w1, LetterScope(l), w.letters[l].author, u, d).Some? {
        EnsureBothKeeps(w1, LetterScope(l), w.letters[l].author, u, d);
      }
    }
  }

  lemma ViewLetterKeeps(w: IdentityWorld, l: Id, d: Draws)
    requires IdentitiesSound(w)
    ensures IdentitiesSound(ViewLetter(w, l, d))
  {
    if l in w.letters && w.letters[l].salvager.Some? {
      var u, v := w.letters[l].author, w.letters[l].salvager.value;
      assert Owners(w, LetterScope(l), u, v);
      if EnsureBoth(w, LetterScope(l), u, v, d).Some? {
        EnsureBothKeeps(w, LetterScope(l), u, v, d);
      }
    }
  }

  /** Opening a room whose row is in order. */
  lemma AddRoomKeeps(w: IdentityWorld, room: RoomRow)
    requires IdentitiesSound(w) && room.a != room.b && (room.kind == TEMPORARY <==> room.letter.Some?)
    requires room.letter.Some? ==>
      room.letter.value in w.letters && w.letters[room.letter.value] == LetterRow(room.a, Some(room.b))
    ensures var w1 := AddRoom(w, room);
      && Tables(w1) && Paired(w1) && Distinct(w1) && CardsOk(w1)
      && (room.kind != FRIEND ==> Owners(w1, ScopeOf(w1, w.nextRoom), room.a, room.b))
      && (forall r :: Anonymous(w1, r) && r != w.nextRoom ==> (ScopeOf(w1, r), w1.rooms[r].a) in w1.ids)
  {
    var w1 := AddRoom(w, room);
    assert w.nextRoom in w.rooms ==> RoomOk(w, w.nextRoom);
    assert w.nextRoom !in w.rooms;
    forall r | r in w1.rooms
      ensures RoomOk(w1, r)
    {
      assert r in w.rooms ==> RoomOk(w, r);
    }
    forall s, x
      ensures Belongs(w1, s, x)
         <==> (Belongs(w, s, x)
               || (s == RoomScope(w.nextRoom) && room.kind != FRIEND && room.letter.None? && room.Has(x)))
    {
    }
    forall x
      ensures (RoomScope(w.nextRoom), x) !in w.ids
    {
      assert (RoomScope(w.nextRoom), x) in w.ids ==> Belongs(w, RoomScope(w.nextRoom), x);
    }
    forall r | Anonymous(w1, r) && r != w.nextRoom
      ensures (ScopeOf(w1, r), w1.rooms[r].a) in w1.ids
    {
      assert Anonymous(w, r);
    }
  }

  lemma OpenRoomKeeps(w: IdentityWorld, room: RoomRow, d: Draws)
    requires IdentitiesSound(w) && room.a != room.b && (room.kind == TEMPORARY <==> room.letter.Some?)
    requires room.letter.Some? ==>
      room.letter.value in w.letters && w.letters[room.letter.value] == LetterRow(room.a, Some(room.b))
    requires room.kind != FRIEND && EnsureRoom(AddRoom(w, room), w.nextRoom, d).Some?
    ensures IdentitiesSound(EnsureRoom(AddRoom(w, room), w.nextRoom, d).value)
  {
    AddRoomKeeps(w, room);
    var w1 := AddRoom(w, room);
    EnsureBothKeeps(w1, ScopeOf(w1, w.nextRoom), room.a, room.b, d);
    EnsureBothEffect(w1, ScopeOf(w1, w.nextRoom), room.a, room.b, d);
  }

  lemma RoomOwners(w: IdentityWorld, r: Id)
    requires IdentitiesSound(w) && Anonymous(w, r)
    ensures Owners(w, ScopeOf(w, r), w.rooms[r].a, w.rooms[r].b)
  {
    assert RoomOk(w, r);
  }

  lemma EnsureRoomKeeps(w: IdentityWorld, r: Id, d: Draws)
    requires IdentitiesSound(w) && Anonymous(w, r) && EnsureRoom(w, r, d).Some?
    ensures IdentitiesSound(EnsureRoom(w, r, d).value)
  {
    RoomOwners(w, r);
    EnsureBothKeeps(w, ScopeOf(w, r), w.rooms[r].a, w.rooms[r].b, d);
    EnsureBothEffect(w, ScopeOf(w, r), w.rooms[r].a, w.rooms[r].b, d);
  }

  /** The two rows of a consenting user and the peer after the call. */
  lemma RevealRows(w: IdentityWorld, s: Scope, u: Id, v: Id, now: Time)
    requires (s, u) in w.ids && (s, v) in w.ids && u != v && CardPair(w.ids[(s, u)], w.ids[(s, v)])
    requires w.ids[(s, u)].consented <==> w.ids[(s, u)].consentedAt.Some?
    ensures var w1 := Reveal(w, s, u, v, now);
      && w1 == w.(ids := w1.ids) && w1.ids.Keys == w.ids.Keys
      && (forall k :: k in w.ids ==> w1.ids[k].look == w.ids[k].look)
      && (forall k :: k in w.ids && k != (s, u) && k != (s, v) ==> w1.ids[k] == w.ids[k])
      && CardPair(w1.ids[(s, u)], w1.ids[(s, v)]) && CardPair(w1.ids[(s, v)], w1.ids[(s, u)])
      && (w1.ids[(s, u)].consented && w1.ids[(s, u)].consentedAt.Some?)
      && w1.ids[(s, v)].consented == w.ids[(s, v)].consented
      && w1.ids[(s, v)].consentedAt == w.ids[(s, v)].consentedAt
      && IdentityKept(w.ids[(s, u)], w1.ids[(s, u)]) && IdentityKept(w.ids[(s, v)], w1.ids[(s, v)])
  {
  }

  lemma RevealCards(w: IdentityWorld, s: Scope, u: Id, v: Id, now: Time)
    requires CardsOk(w) && (s, u) in w.ids && (s, v) in w.ids && u != v
    requires forall x :: (s, x) in w.ids ==> x == u || x == v
    ensures CardsOk(Reveal(w, s, u, v, now))
  {
    var w1 := Reveal(w, s, u, v, now);
    RevealRows(w, s, u, v, now);
    forall s', x, y | (s', x) in w1.ids && (s', y) in w1.ids && x != y
      ensures CardPair(w1.ids[(s', x)], w1.ids[(s', y)])
    {
      if s' != s {
        assert CardPair(w.ids[(s', x)], w.ids[(s', y)]);
      }
    }
  }

  lemma RevealKeeps(w: IdentityWorld, s: Scope, u: Id, v: Id, now: Time)
    requires IdentitiesSound(w) && (s, u) in w.ids && (s, v) in w.ids && u != v
    requires forall x :: (s, x) in w.ids ==> x == u || x == v
    ensures IdentitiesSound(Reveal(w, s, u, v, now))
  {
    var w1 := Reveal(w, s, u, v, now);
    RevealRows(w, s, u, v, now);
    RevealCards(w, s, u, v, now);
    SameTables(w, w1);
  }

  /** In a sound world the identities of an anonymous room exist already, so a
      consent neither draws nor fails. */
  lemma ConsentIsReveal(w: IdentityWorld, r: Id, u: Id, d: Draws, now: Time)
    requires IdentitiesSound(w) && Anonymous(w, r) && w.rooms[r].Has(u)
    ensures (ScopeOf(w, r), u) in w.ids && (ScopeOf(w, r), w.rooms[r].Peer(u)) in w.ids && u != w.rooms[r].Peer(u)
    ensures Consent(w, r, u, d, now) == Reveal(w, ScopeOf(w, r), u, w.rooms[r].Peer(u), now)
  {
    RoomIdentities(w, r, u);
    RoomIdentities(w, r, w.rooms[r].Peer(u));
  }

  lemma ConsentKeeps(w: IdentityWorld, r: Id, u: Id, d: Draws, now: Time)
    requires IdentitiesSound(w)
    ensures IdentitiesSound(Consent(w, r, u, d, now))
  {
    if Anonymous(w, r) && w.rooms[r].Has(u) {
      ConsentIsReveal(w, r, u, d, now);
      forall x | (ScopeOf(w, r), x) in w.ids
        ensures x == u || x == w.rooms[r].Peer(u)
      {
        if x != u {
          OtherIsThePeer(w, r, u, x);
        }
      }
      RevealKeeps(w, ScopeOf(w, r), u, w.rooms[r].Peer(u), now);
    }
  }

  /** A first consent reveals nothing and invites the peer; when the peer consents
      too, both see each other, whatever was drawn and whenever it happened. */
  lemma ConsentsMeet(w: IdentityWorld, r: Id, u: Id, d: Draws, d': Draws, now: Time, later: Time)
    requires IdentitiesSound(w) && Anonymous(w, r) && w.rooms[r].Has(u)
    requires forall x :: (ScopeOf(w, r), x) in w.ids ==> !w.ids[(ScopeOf(w, r), x)].consented
    ensures var v := w.rooms[r].Peer(u);
      var w1 := Consent(w, r, u, d, now);
      var w2 := Consent(w1, r, v, d', later);
      && IdentitiesSound(w1) && IdentitiesSound(w2)
      && Anonymous(w1, r) && Anonymous(w2, r) && w1.rooms == w.rooms && w2.rooms == w.rooms
      && (ScopeOf(w, r), u) in w1.ids && (ScopeOf(w, r), v) in w1.ids
      && (ScopeOf(w, r), u) in w2.ids && (ScopeOf(w, r), v) in w2.ids
      && ViewOf(w1, r, u).card == WaitingForPeer && ViewOf(w1, r, v).card == Invited
      && ViewOf(w1, r, u).peerUserId.None? && ViewOf(w1, r, v).peerUserId.None?
      && ViewOf(w2, r, u).peerUserId == Some(v) && ViewOf(w2, r, v).peerUserId == Some(u)
      && w1.ids[(ScopeOf(w, r), u)].consentedAt == Some(now) && w2.ids[(ScopeOf(w, r), v)].consentedAt == Some(later)
      && w2.ids[(ScopeOf(w, r), u)].consentedAt == Some(now)
      && w2.ids[(ScopeOf(w, r), u)].revealedAt == Some(later) && w2.ids[(ScopeOf(w, r), v)].revealedAt == Some(later)
  {
    var v := w.rooms[r].Peer(u);
    var s := ScopeOf(w, r);
    ConsentIsReveal(w, r, u, d, now);
    ConsentKeeps(w, r, u, d, now);
    var w1 := Consent(w, r, u, d, now);
    assert w1.rooms == w.rooms && ScopeOf(w1, r) == s;
    RoomIdentities(w1, r, u);
    RoomIdentities(w1, r, v);
    ConsentIsReveal(w1, r, v, d', later);
    ConsentKeeps(w1, r, v, d', later);
    var w2 := Consent(w1, r, v, d', later);
    assert w2.rooms == w.rooms && ScopeOf(w2, r) == s;
    ViewsMirror(w1, r);
    ViewsMirror(w2, r);
  }

  lemma IdentityStepKeeps(w: IdentityWorld, c: IdentityCall)
    requires IdentitiesSound(w)
    ensures IdentitiesSound(IdentityStep(w, c))
  {
    match c
    case NewLetterCall(author) => NewLetterKeeps(w, author);
    case SalvageCall(l, u, d) => SalvageKeeps(w, l, u, d);
    case ViewLetterCall(l, d) => ViewLetterKeeps(w, l, d);
    case OpenLetterRoomCall(l, u, d) =>
      if l in w.letters && w.letters[l].salvager == Some(u) && !HasRoom(w, l) {
        var room := RoomRow(TEMPORARY, Some(l), w.letters[l].author, u);
        if EnsureRoom(AddRoom(w, room), w.nextRoom, d).Some? {
          OpenRoomKeeps(w, room, d);
        }
      }
    case OpenMatchRoomCall(u, v, d) =>
      if u != v {
        var room := RoomRow(MATCH, None, PairOf(u, v).low, PairOf(u, v).high);
        if EnsureRoom(AddRoom(w, room), w.nextRoom, d).Some? {
          OpenRoomKeeps(w, room, d);
        }
      }
    case OpenFriendRoomCall(u, v) =>
      if u != v {
        AddRoomKeeps(w, RoomRow(FRIEND, None, PairOf(u, v).low, PairOf(u, v).high));
      }
    case ViewRoomCall(r, u, d) =>
      if Anonymous(w, r) && w.rooms[r].Has(u) && EnsureRoom(w, r, d).Some? {
        EnsureRoomKeeps(w, r, d);
      }
    case ConsentCall(r, u, d, now) => ConsentKeeps(w, r, u, d, now);
  }

  // ----- over whole runs -----

  /** An identity, once drawn, keeps its look; a consent is not taken back; what
      is revealed stays revealed. */
  ghost predicate IdentityKept(before: Identity, after: Identity) {
    && after.look == before.look
    && (before.consented ==> after.consented && after.consentedAt == before.consentedAt)
    && (before.revealedAt.Some? ==> after.revealedAt.Some?)
  }

  ghost predicate Holds(w: IdentityWorld, w1: IdentityWorld) {
    forall k :: k in w.ids ==> k in w1.ids && w1.ids[k] == w.ids[k]
  }

  lemma EnsureHolds(w: IdentityWorld, s: Scope, u: Id, v: Id, d: Draws)
    ensures EnsureBoth(w, s, u, v, d).Some? ==> Holds(w, EnsureBoth(w, s, u, v, d).value)
  {
  }

  lemma OpenRoomHolds(w: IdentityWorld, room: RoomRow, d: Draws)
    ensures EnsureRoom(AddRoom(w, room), w.nextRoom, d).Some? ==>
      Holds(w, EnsureRoom(AddRoom(w, room), w.nextRoom, d).value)
  {
    var w1 := AddRoom(w, room);
    EnsureHolds(w1, ScopeOf(w1, w.nextRoom), room.a, room.b, d);
  }

  /** Only a consent changes an identity that exists. */
  lemma StepHolds(w: IdentityWorld, c: IdentityCall)
    requires !c.ConsentCall?
    ensures Holds(w, IdentityStep(w, c))
  {
    match c
    case NewLetterCall(author) =>
    case SalvageCall(l, u, d) =>
      if l in w.letters {
        EnsureHolds(w.(letters := w.letters[l := w.letters[l].(salvager := Some(u))]), LetterScope(l),
                    w.letters[l].author, u, d);
      }
    case ViewLetterCall(l, d) =>
      if l in w.letters && w.letters[l].salvager.Some? {
        EnsureHolds(w, LetterScope(l), w.letters[l].author, w.letters[l].salvager.value, d);
      }
    case OpenLetterRoomCall(l, u, d) =>
      if l in w.letters {
        OpenRoomHolds(w, RoomRow(TEMPORARY, Some(l), w.letters[l].author, u), d);
      }
    case OpenMatchRoomCall(u, v, d) => OpenRoomHolds(w, RoomRow(MATCH, None, PairOf(u, v).low, PairOf(u, v).high), d);
    case OpenFriendRoomCall(u, v) =>
    case ViewRoomCall(r, u, d) =>
      if r in w.rooms {
        EnsureHolds(w, ScopeOf(w, r), w.rooms[r].a, w.rooms[r].b, d);
      }
  }

  lemma StepIdentity(w: IdentityWorld, c: IdentityCall, k: (Scope, Id))
    requires IdentitiesSound(w) && k in w.ids
    ensures k in IdentityStep(w, c).ids && IdentityKept(w.ids[k], IdentityStep(w, c).ids[k])
  {
    if !c.ConsentCall? {
      StepHolds(w, c);
    } else if Anonymous(w, c.room) && w.rooms[c.room].Has(c.u) {
      ConsentIsReveal(w, c.room, c.u, c.draws, c.now);
      RevealRows(w, ScopeOf(w, c.room), c.u, w.rooms[c.room].Peer(c.u), c.now);
    }
  }

  lemma {:induction false} RunIdentities(w: IdentityWorld, calls: seq<IdentityCall>)
    requires IdentitiesSound(w)
    ensures IdentitiesSound(IdentityRun(w, calls))
    ensures forall k :: k in w.ids ==> k in IdentityRun(w, calls).ids && IdentityKept(w.ids[k], IdentityRun(w, calls).ids[k])
    decreases |calls|
  {
    if calls != [] {
      var w1 := IdentityStep(w, calls[0]);
      IdentityStepKeeps(w, calls[0]);
      forall k | k in w.ids
        ensures k in w1.ids && IdentityKept(w.ids[k], w1.ids[k])
      {
        StepIdentity(w, calls[0], k);
      }
      RunIdentities(w1, calls[1..]);
    }
  }

  /** In every world reached from an empty database: at most two identities per
      scope, and room views that reveal a user exactly on mutual consent. */
  lemma ReachableIdentities(calls: seq<IdentityCall>, s: Scope)
    ensures IdentitiesSound(IdentityRun(EmptyIdentities, calls))
    ensures |UsersIn(IdentityRun(EmptyIdentities, calls), s)| <= 2
  {
    RunIdentities(EmptyIdentities, calls);
    AtMostTwo(IdentityRun(EmptyIdentities, calls), s);
  }
}
