/** Relationship-scoped anonymous identities and the mutual-consent exchange of
    cards, together with the letters and rooms that give a scope its two users. */
module IdentityModel {
  import opened Basics

  datatype Scope = LetterScope(letter: Id) | RoomScope(room: Id)
  datatype Appearance = Appearance(name: string, avatar: string)

  datatype Identity = Identity(
    look: Appearance,
    consented: bool,
    consentedAt: Option<Time>,
    revealedAt: Option<Time>)

  datatype LetterRow = LetterRow(author: Id, salvager: Option<Id>)

  datatype RoomRow = RoomRow(kind: RoomKind, letter: Option<Id>, a: Id, b: Id)
  {
    predicate Has(u: Id) { u == a || u == b }

    function Peer(u: Id): Id { if u == a then b else a }
  }

  /** Identity rows are unique per scope and user. */
  datatype IdentityWorld = IdentityWorld(
    letters: map<Id, LetterRow>,
    rooms: map<Id, RoomRow>,
    ids: map<(Scope, Id), Identity>,
    nextLetter: Id,
    nextRoom: Id)

  const EmptyIdentities := IdentityWorld(map[], map[], map[], 1, 1)

  datatype CardStatus = NotRequired | Revealed | WaitingForPeer | Invited | NoCard

  /** What a room tells a viewer about the peer. */
  datatype RoomView = RoomView(
    peerUserId: Option<Id>,
    peerLook: Option<Appearance>,
    myLook: Option<Appearance>,
    identityRevealed: bool,
    card: CardStatus)

  function ScopeOf(w: IdentityWorld, r: Id): Scope
    requires r in w.rooms
  {
    var room := w.rooms[r];
    if room.kind == TEMPORARY && room.letter.Some? then LetterScope(room.letter.value) else RoomScope(r)
  }

  // ----- drawing an identity -----

  /** The first of the random draws nobody in the scope wears. */
  function FirstUnused(used: set<Appearance>, draws: seq<Appearance>): (look: Option<Appearance>)
    ensures look.Some? ==> look.value in draws && look.value !in used
    ensures look.None? ==> forall d :: d in draws ==> d in used
  {
    if draws == [] then None
    else if draws[0] !in used then Some(draws[0])
    else
      var rest := FirstUnused(used, draws[1..]);
      rest
  }

  function Used(w: IdentityWorld, s: Scope): set<Appearance> {
    set k | k in w.ids && k.0 == s :: w.ids[k].look
  }

  /** None: the draws are exhausted and the call raises. */
  function EnsureOne(w: IdentityWorld, s: Scope, u: Id, draws: seq<Appearance>): Option<IdentityWorld> {
    if (s, u) in w.ids then Some(w)
    else
      var look := FirstUnused(Used(w, s), draws);
      if look.None? then None
      else Some(w.(ids := w.ids[(s, u) := Identity(look.value, false, None, None)]))
  }

  datatype Draws = Draws(first: seq<Appearance>, second: seq<Appearance>)

  function EnsureBoth(w: IdentityWorld, s: Scope, u: Id, v: Id, d: Draws): Option<IdentityWorld> {
    var w1 := EnsureOne(w, s, u, d.first);
    if w1.None? then None else EnsureOne(w1.value, s, v, d.second)
  }

  /** A raised exhaustion rolls the whole call back. */
  function OrElse(w: IdentityWorld, attempt: Option<IdentityWorld>): IdentityWorld {
    attempt.GetOr(w)
  }

  function EnsureRoom(w: IdentityWorld, r: Id, d: Draws): Option<IdentityWorld>
    requires r in w.rooms
  {
    EnsureBoth(w, ScopeOf(w, r), w.rooms[r].a, w.rooms[r].b, d)
  }

  // ----- calls -----

  function NewLetter(w: IdentityWorld, author: Id): IdentityWorld {
    w.(letters := w.letters[w.nextLetter := LetterRow(author, None)], nextLetter := w.nextLetter + 1)
  }

  /** The conditional update of a salvage and the identities made with it. */
  function Salvage(w: IdentityWorld, l: Id, u: Id, d: Draws): IdentityWorld {
    if l !in w.letters || w.letters[l].salvager.Some? || w.letters[l].author == u then w
    else OrElse(w, EnsureBoth(w.(letters := w.letters[l := w.letters[l].(salvager := Some(u))]),
                              LetterScope(l), w.letters[l].author, u, d))
  }

  function ViewLetter(w: IdentityWorld, l: Id, d: Draws): IdentityWorld {
    if l !in w.letters || w.letters[l].salvager.None? then w
    else OrElse(w, EnsureBoth(w, LetterScope(l), w.letters[l].author, w.letters[l].salvager.value, d))
  }

  predicate HasRoom(w: IdentityWorld, l: Id) {
    exists r :: r in w.rooms && w.rooms[r].letter == Some(l)
  }

  function AddRoom(w: IdentityWorld, room: RoomRow): IdentityWorld {
    w.(rooms := w.rooms[w.nextRoom := room], nextRoom := w.nextRoom + 1)
  }

  /** A reply opens the one room of a salvaged letter. */
  function OpenLetterRoom(w: IdentityWorld, l: Id, u: Id, d: Draws): IdentityWorld {
    if l !in w.letters || w.letters[l].salvager != Some(u) || HasRoom(w, l) then w
    else OrElse(w, EnsureRoom(AddRoom(w, RoomRow(TEMPORARY, Some(l), w.letters[l].author, u)), w.nextRoom, d))
  }

  function OpenMatchRoom(w: IdentityWorld, u: Id, v: Id, d: Draws): IdentityWorld {
    if u == v then w
    else OrElse(w, EnsureRoom(AddRoom(w, RoomRow(MATCH, None, PairOf(u, v).low, PairOf(u, v).high)), w.nextRoom, d))
  }

  function OpenFriendRoom(w: IdentityWorld, u: Id, v: Id): IdentityWorld {
    if u == v then w else AddRoom(w, RoomRow(FRIEND, None, PairOf(u, v).low, PairOf(u, v).high))
  }

  predicate Anonymous(w: IdentityWorld, r: Id) {
    r in w.rooms && w.rooms[r].kind != FRIEND
  }

  function ViewRoom(w: IdentityWorld, r: Id, u: Id, d: Draws): IdentityWorld {
    if !Anonymous(w, r) || !w.rooms[r].Has(u) then w else OrElse(w, EnsureRoom(w, r, d))
  }

  /** The payload of a room whose identities exist. */
  function ViewOf(w: IdentityWorld, r: Id, u: Id): RoomView
    requires r in w.rooms && w.rooms[r].Has(u)
    requires Anonymous(w, r) ==> (ScopeOf(w, r), w.rooms[r].a) in w.ids && (ScopeOf(w, r), w.rooms[r].b) in w.ids
  {
    var room := w.rooms[r];
    if room.kind == FRIEND then RoomView(Some(room.Peer(u)), None, None, true, NotRequired)
    else
      var mine, theirs := w.ids[(ScopeOf(w, r), u)], w.ids[(ScopeOf(w, r), room.Peer(u))];
      if mine.revealedAt.Some? && theirs.revealedAt.Some? then
        RoomView(Some(room.Peer(u)), None, Some(mine.look), true, Revealed)
      else
        var card := if mine.consented && !theirs.consented then WaitingForPeer
                    else if theirs.consented && !mine.consented then Invited
                    else NoCard;
        RoomView(None, Some(theirs.look), Some(mine.look), false, card)
  }

  function Consented(mine: Identity, now: Time): Identity {
    if mine.consented then mine else mine.(consented := true, consentedAt := Some(now))
  }

  /** Both rows of a scope are revealed together. */
  function Reveal(w: IdentityWorld, s: Scope, u: Id, v: Id, now: Time): IdentityWorld
    requires (s, u) in w.ids && (s, v) in w.ids && u != v
  {
    var mine := Consented(w.ids[(s, u)], now);
    var peer := w.ids[(s, v)];
    if mine.consented && peer.consented then
      w.(ids := w.ids[(s, u) := mine.(revealedAt := Some(now))][(s, v) := peer.(revealedAt := Some(now))])
    else w.(ids := w.ids[(s, u) := mine])
  }

  function Consent(w: IdentityWorld, r: Id, u: Id, d: Draws, now: Time): IdentityWorld {
    if !Anonymous(w, r) || !w.rooms[r].Has(u) then w
    else
      var s, v := ScopeOf(w, r), w.rooms[r].Peer(u);
      var w1 := OrElse(w, EnsureRoom(w, r, d));
      if (s, u) in w1.ids && (s, v) in w1.ids && u != v then Reveal(w1, s, u, v, now) else w
  }

  // ----- runs -----

  datatype IdentityCall =
    | NewLetterCall(author: Id)
    | SalvageCall(letter: Id, u: Id, draws: Draws)
    | ViewLetterCall(letter: Id, draws: Draws)
    | OpenLetterRoomCall(letter: Id, u: Id, draws: Draws)
    | OpenMatchRoomCall(u: Id, v: Id, draws: Draws)
    | OpenFriendRoomCall(u: Id, v: Id)
    | ViewRoomCall(room: Id, u: Id, draws: Draws)
    | ConsentCall(room: Id, u: Id, draws: Draws, now: Time)

  function IdentityStep(w: IdentityWorld, c: IdentityCall): IdentityWorld {
    match c
    case NewLetterCall(author) => NewLetter(w, author)
    case SalvageCall(l, u, d) => Salvage(w, l, u, d)
    case ViewLetterCall(l, d) => ViewLetter(w, l, d)
    case OpenLetterRoomCall(l, u, d) => OpenLetterRoom(w, l, u, d)
    case OpenMatchRoomCall(u, v, d) => OpenMatchRoom(w, u, v, d)
    case OpenFriendRoomCall(u, v) => OpenFriendRoom(w, u, v)
    case ViewRoomCall(r, u, d) => ViewRoom(w, r, u, d)
    case ConsentCall(r, u, d, now) => Consent(w, r, u, d, now)
  }

  function IdentityRun(w: IdentityWorld, calls: seq<IdentityCall>): IdentityWorld
    decreases |calls|
  {
    if calls == [] then w else IdentityRun(IdentityStep(w, calls[0]), calls[1..])
  }
}
