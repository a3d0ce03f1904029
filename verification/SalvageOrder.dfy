/** From which pools a salvage draws, in which order and how often, and what that
    means for the letter it hands out. */
module SalvageOrder {
  import opened Basics
  import opened RateLimit
  import opened LetterModel
  import opened LetterInvariant
  import opened LetterFlow

  function PoolOf(w: LetterWorld, key: PoolKey): set<Id> {
    set e | e in w.pools && e.0 == key :: e.1
  }

  lemma InPool(w: LetterWorld, key: PoolKey, id: Id)
    ensures id in PoolOf(w, key) <==> (key, id) in w.pools
  {
    if (key, id) in w.pools {
      var e := (key, id);
      assert e in w.pools && e.0 == key;
    }
  }

  /** A letter the user may have: available, of another author, and no block. */
  predicate Good(w: LetterWorld, u: Id, id: Id) {
    Available(w, id) && w.letters[id].author != u && !Blocked(w, w.letters[id].author, u)
  }

  // ----- the draws from one pool -----

  /** `row` lists what was drawn from a pool; `w` is the world before, `w1` after
      the dead letters drawn were scrubbed. All drawn letters are in the pool; a good
      one is taken at once; a dead one is not drawn again; and the pool is left
      only after twenty draws or when it is empty. */
  ghost predicate IsRow(w: LetterWorld, w1: LetterWorld, u: Id, key: PoolKey, row: seq<Id>, found: Option<Id>) {
    && |row| <= 20
    && (forall i :: 0 <= i < |row| ==> row[i] in PoolOf(w, key))
    && (forall i, j :: 0 <= i < j < |row| && !Available(w, row[i]) ==> row[j] != row[i])
    && match found
       case None =>
         (forall i :: 0 <= i < |row| ==> !Good(w, u, row[i])) && (|row| == 20 || PoolOf(w1, key) == {})
       case Some(id) =>
         row != [] && row[|row| - 1] == id && Good(w, u, id) && forall i :: 0 <= i < |row| - 1 ==> !Good(w, u, row[i])
  }

  /** One row for each pool visited, in the order of `keys`; only the last one can
      have found a letter, and without one every pool was visited. */
  ghost predicate IsTrace(w: LetterWorld, w1: LetterWorld, u: Id, keys: seq<PoolKey>, drawn: seq<seq<Id>>, found: Option<Id>) {
    && |drawn| <= |keys| && (found.None? ==> |drawn| == |keys|) && (found.Some? ==> drawn != [])
    && forall k :: 0 <= k < |drawn| ==>
         IsRow(w, w1, u, keys[k], drawn[k], if k == |drawn| - 1 then found else None)
  }

  /** `w1` differs from `w` by pool entries of dead letters that are gone. */
  ghost predicate Scrubbed(w: LetterWorld, w1: LetterWorld) {
    && w1 == w.(pools := w1.pools) && w1.pools <= w.pools
    && forall e :: e in w.pools && e !in w1.pools ==> !Available(w, e.1)
  }

  lemma RowLater(w: LetterWorld, w0: LetterWorld, w1: LetterWorld, w2: LetterWorld, u: Id, key: PoolKey, row: seq<Id>, found: Option<Id>)
    requires Scrubbed(w, w0) && IsRow(w0, w1, u, key, row, found) && w2.pools <= w1.pools
    ensures IsRow(w, w2, u, key, row, found)
  {
  }

  lemma {:induction false} ScrubAllAppend(w: LetterWorld, ids: seq<Id>, more: seq<Id>)
    ensures ScrubAll(w, ids + more) == ScrubAll(ScrubAll(w, ids), more)
  {
    if more == [] {
      assert ids + more == ids;
    } else {
      var n := |more| - 1;
      assert (ids + more)[..|ids + more| - 1] == ids + more[..n];
      ScrubAllAppend(w, ids, more[..n]);
    }
  }

  lemma ScrubAllScrubs(w: LetterWorld, ids: seq<Id>)
    ensures Scrubbed(w, ScrubAll(w, ids))
  {
    ScrubAllEffect(w, ids);
  }

  // ----- a row as it grows -----

  /** Letters tried before are not good, and the dead among them are in no pool. */
  ghost predicate TriedOk(w: LetterWorld, u: Id, tried: set<Id>) {
    forall x :: x in tried ==> !Good(w, u, x) && (Available(w, x) || InNoPool(w, x))
  }

  ghost predicate RowSoFar(w: LetterWorld, w1: LetterWorld, u: Id, key: PoolKey, row: seq<Id>, tried: set<Id>) {
    && (forall i :: 0 <= i < |row| ==> row[i] in PoolOf(w, key) && row[i] in tried && !Good(w, u, row[i]))
    && (forall i, j :: 0 <= i < j < |row| && !Available(w, row[i]) ==> row[j] != row[i])
    && TriedOk(w1, u, tried)
  }

  /** A letter that is passed over: tried before, or available but not good. */
  lemma RowPasses(w: LetterWorld, w1: LetterWorld, u: Id, key: PoolKey, row: seq<Id>, tried: set<Id>, id: Id)
    requires Scrubbed(w, w1) && RowSoFar(w, w1, u, key, row, tried) && id in PoolOf(w1, key)
    requires id in tried || (Available(w, id) && !Good(w, u, id))
    ensures RowSoFar(w, w1, u, key, row + [id], tried + {id})
  {
    InPool(w1, key, id);
    InPool(w, key, id);
    assert Available(w, id);
  }

  /** A dead letter is scrubbed and leaves every pool. */
  lemma RowScrubs(w: LetterWorld, w1: LetterWorld, u: Id, key: PoolKey, row: seq<Id>, tried: set<Id>, id: Id)
    requires LettersSound(w1) && Scrubbed(w, w1) && RowSoFar(w, w1, u, key, row, tried) && id in PoolOf(w1, key)
    requires id !in tried && !Available(w, id)
    ensures Scrubbed(w, Scrub(w1, id)) && RowSoFar(w, Scrub(w1, id), u, key, row + [id], tried + {id})
  {
    InPool(w1, key, id);
    InPool(w, key, id);
    assert id in w1.letters;
    RemovalIsComplete(w1, id);
    var w2 := Scrub(w1, id);
    forall x | x in tried + {id}
      ensures !Good(w2, u, x) && (Available(w2, x) || InNoPool(w2, x))
    {
    }
  }

  /** A good letter ends the row. */
  lemma RowFinds(w: LetterWorld, w1: LetterWorld, u: Id, key: PoolKey, row: seq<Id>, tried: set<Id>, id: Id)
    requires Scrubbed(w, w1) && RowSoFar(w, w1, u, key, row, tried) && id in PoolOf(w1, key) && Good(w, u, id) && |row| < 20
    ensures IsRow(w, w1, u, key, row + [id], Some(id))
  {
    InPool(w1, key, id);
    InPool(w, key, id);
  }

  lemma TraceGrows(w: LetterWorld, w0: LetterWorld, w1: LetterWorld, u: Id, keys: seq<PoolKey>, drawn: seq<seq<Id>>,
                   row: seq<Id>, found: Option<Id>)
    requires Scrubbed(w, w0) && Scrubbed(w, w1) && w1.pools <= w0.pools && |drawn| < |keys|
    requires forall j :: 0 <= j < |drawn| ==> IsRow(w, w0, u, keys[j], drawn[j], None)
    requires IsRow(w0, w1, u, keys[|drawn|], row, found)
    ensures forall j :: 0 <= j < |drawn| ==> IsRow(w, w1, u, keys[j], (drawn + [row])[j], None)
    ensures IsRow(w, w1, u, keys[|drawn|], row, found)
    ensures found.Some? ==> IsTrace(w, w1, u, keys, drawn + [row], found)
  {
    forall j | 0 <= j < |drawn|
      ensures IsRow(w, w1, u, keys[j], drawn[j], None)
    {
      RowLater(w, w, w0, w1, u, keys[j], drawn[j], None);
    }
    RowLater(w, w0, w1, w1, u, keys[|drawn|], row, found);
  }

  // ----- what it means -----

  ghost function DeadIn(w: LetterWorld, key: PoolKey): set<Id> {
    set id | id in PoolOf(w, key) && !Available(w, id)
  }

  /** The pool holds a good letter, no available letter the user may not have, and
      fewer than twenty dead ones. */
  ghost predicate Sure(w: LetterWorld, u: Id, key: PoolKey) {
    && (exists id :: id in PoolOf(w, key) && Good(w, u, id))
    && (forall id :: id in PoolOf(w, key) && Available(w, id) ==> Good(w, u, id))
    && |DeadIn(w, key)| < 20
  }

  /** A row that found nothing drew only dead letters, too few to give a sure pool up. */
  lemma SureRowFinds(w: LetterWorld, w1: LetterWorld, u: Id, key: PoolKey, row: seq<Id>, found: Option<Id>)
    requires IsRow(w, w1, u, key, row, found) && Scrubbed(w, w1) && Sure(w, u, key)
    ensures found.Some?
  {
    var id :| id in PoolOf(w, key) && Good(w, u, id);
    assert (key, id) in w1.pools;
    assert id in PoolOf(w1, key);
    if found.None? {
      assert forall i :: 0 <= i < |row| ==> row[i] in DeadIn(w, key);
      DistinctCount(row);
      SubsetCount(Members(row), DeadIn(w, key));
    }
  }

  /** Whatever is drawn: if some pool visited is sure, a letter is found, in it or in
      a pool visited before it. */
  lemma SurePoolWins(w: LetterWorld, w1: LetterWorld, u: Id, keys: seq<PoolKey>, drawn: seq<seq<Id>>, found: Option<Id>, k: nat)
    requires IsTrace(w, w1, u, keys, drawn, found) && Scrubbed(w, w1) && k < |keys| && Sure(w, u, keys[k])
    ensures found.Some? && |drawn| <= k + 1
    ensures found.value in PoolOf(w, keys[|drawn| - 1]) && Good(w, u, found.value)
  {
    if k < |drawn| {
      SureRowFinds(w, w1, u, keys[k], drawn[k], if k == |drawn| - 1 then found else None);
    }
    assert found.Some? ==> IsRow(w, w1, u, keys[|drawn| - 1], drawn[|drawn| - 1], found);
  }

  /** A letter comes from the first pool with a good one, if that pool is sure. */
  lemma FirstGoodPool(w: LetterWorld, w1: LetterWorld, u: Id, keys: seq<PoolKey>, drawn: seq<seq<Id>>, found: Option<Id>, k: nat)
    requires IsTrace(w, w1, u, keys, drawn, found) && Scrubbed(w, w1) && k < |keys| && Sure(w, u, keys[k])
    requires forall j, id :: 0 <= j < k && id in PoolOf(w, keys[j]) ==> !Good(w, u, id)
    ensures found.Some? && |drawn| == k + 1 && found.value in PoolOf(w, keys[k]) && Good(w, u, found.value)
  {
    SurePoolWins(w, w1, u, keys, drawn, found, k);
  }

  /** If the pool of all letters holds just one letter, and a good one, it is found. */
  lemma TheOnlyLetter(w: LetterWorld, w1: LetterWorld, u: Id, keys: seq<PoolKey>, drawn: seq<seq<Id>>, found: Option<Id>, x: Id)
    requires LettersSound(w) && IsTrace(w, w1, u, keys, drawn, found) && Scrubbed(w, w1)
    requires All in keys && PoolOf(w, All) == {x} && Good(w, u, x)
    ensures found == Some(x)
  {
    assert DeadIn(w, All) == {};
    var k :| 0 <= k < |keys| && keys[k] == All;
    assert x in PoolOf(w, All);
    SurePoolWins(w, w1, u, keys, drawn, found, k);
    assert Indexed(w, found.value) && All == KeysOf(w.letters[found.value])[0];
    assert (All, found.value) in w.pools;
    InPool(w, All, found.value);
  }

  /** The pools a salvage asks, in order: emotion and city together, the emotion, the
      city, all; what was not asked for is left out. */
  lemma PoolsInOrder(emotion: string, city: string)
    ensures OrderedMatchKeys(emotion, city)
      == if emotion != "" && city != "" then [ByBoth(emotion, city), ByEmotion(emotion), ByCity(city), All]
         else if emotion != "" then [ByEmotion(emotion), All]
         else if city != "" then [ByCity(city), All]
         else [All]
  {
  }

  /** In terms of letters: with the index sound, a user who asks for an emotion and a
      city, and whose pool of both is sure, gets a letter of that emotion and city. */
  lemma BothAreMet(w: LetterWorld, w1: LetterWorld, u: Id, emotion: string, city: string, drawn: seq<seq<Id>>, found: Option<Id>)
    requires LettersSound(w) && emotion != "" && city != "" && Sure(w, u, ByBoth(emotion, city))
    requires IsTrace(w, w1, u, OrderedMatchKeys(emotion, city), drawn, found) && Scrubbed(w, w1)
    ensures found.Some? && found.value in w.letters && w.letters[found.value].emotion == emotion && w.letters[found.value].city == city
  {
    PoolsInOrder(emotion, city);
    SurePoolWins(w, w1, u, OrderedMatchKeys(emotion, city), drawn, found, 0);
    PoolsSelectByContent(w, found.value, emotion, city);
    InPool(w, ByBoth(emotion, city), found.value);
  }

  /** Failing that, one of the emotion, if no good letter has both. */
  lemma EmotionIsMet(w: LetterWorld, w1: LetterWorld, u: Id, emotion: string, city: string, drawn: seq<seq<Id>>, found: Option<Id>)
    requires LettersSound(w) && emotion != "" && Sure(w, u, ByEmotion(emotion))
    requires IsTrace(w, w1, u, OrderedMatchKeys(emotion, city), drawn, found) && Scrubbed(w, w1)
    ensures found.Some? && found.value in w.letters && w.letters[found.value].emotion == emotion
  {
    PoolsInOrder(emotion, city);
    var keys := OrderedMatchKeys(emotion, city);
    SurePoolWins(w, w1, u, keys, drawn, found, if city != "" then 1 else 0);
    PoolsSelectByContent(w, found.value, emotion, city);
    InPool(w, keys[|drawn| - 1], found.value);
  }

  /** Failing that, one of the emotion or of the city. */
  lemma CityIsMet(w: LetterWorld, w1: LetterWorld, u: Id, emotion: string, city: string, drawn: seq<seq<Id>>, found: Option<Id>)
    requires LettersSound(w) && city != "" && Sure(w, u, ByCity(city))
    requires IsTrace(w, w1, u, OrderedMatchKeys(emotion, city), drawn, found) && Scrubbed(w, w1)
    ensures found.Some? && found.value in w.letters && (w.letters[found.value].city == city || (emotion != "" && w.letters[found.value].emotion == emotion))
  {
    PoolsInOrder(emotion, city);
    var keys := OrderedMatchKeys(emotion, city);
    SurePoolWins(w, w1, u, keys, drawn, found, if emotion != "" then 2 else 0);
    PoolsSelectByContent(w, found.value, emotion, city);
    InPool(w, keys[|drawn| - 1], found.value);
  }
}
