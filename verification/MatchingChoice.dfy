/** The scoring loop followed by the stable sort picks the best eligible waiter. */
module MatchingChoice {
  import opened Basics
  import opened MatchingModel

  predicate Eligible(w: World, u: Id, v: Id, now: Time) {
    v in Candidates(w, u, now) && !Excluded(w, u, v)
  }

  /** Best score among the eligible, the smallest user id among equals. */
  ghost predicate IsBest(w: World, u: Id, v: Id, now: Time) {
    Eligible(w, u, v, now)
    && forall x :: Eligible(w, u, x, now) ==>
         Score(w, u, x, now) < Score(w, u, v, now) || (Score(w, u, x, now) == Score(w, u, v, now) && v <= x)
  }

  /** Every ranked entry is a scored eligible id, every non-excluded id is
      ranked, and the order of ids is kept. */
  lemma {:induction false} RankedEntries(w: World, u: Id, ids: seq<Id>, now: Time)
    requires forall i, j :: 0 <= i < j < |ids| ==> ids[i] < ids[j]
    ensures var r := Ranked(w, u, ids, now);
      && (forall k :: 0 <= k < |r| ==> r[k].1 in ids && !Excluded(w, u, r[k].1) && r[k].0 == Score(w, u, r[k].1, now))
      && (forall v :: v in ids && !Excluded(w, u, v) ==> (Score(w, u, v, now), v) in r)
      && (forall i, j :: 0 <= i < j < |r| ==> r[i].1 < r[j].1)
  {
    if ids != [] {
      var n := |ids| - 1;
      var front := ids[..n];
      RankedEntries(w, u, front, now);
      assert ids == front + [ids[n]];
      var r0, v := Ranked(w, u, front, now), ids[n];
      assert forall k :: 0 <= k < |r0| ==> r0[k].1 in front && r0[k].1 < v;
      assert Ranked(w, u, ids, now) == if Excluded(w, u, v) then r0 else r0 + [(Score(w, u, v, now), v)];
    }
  }

  /** The chosen peer is the best eligible waiter, if that one's score is not
      negative; nobody is chosen only when no eligible waiter scores 0 or more. */
  lemma ChooseIsBest(w: World, u: Id, now: Time)
    ensures match Choose(w, u, now)
      case Some(v) => IsBest(w, u, v, now) && Score(w, u, v, now) >= 0.0
      case None => forall x :: Eligible(w, u, x, now) ==> Score(w, u, x, now) < 0.0
  {
    var ids := Ascending(Candidates(w, u, now));
    var ranked := Ranked(w, u, ids, now);
    RankedEntries(w, u, ids, now);
    if ranked != [] {
      var k := SortHeadIsFirstMaximum(ranked);
      forall x | Eligible(w, u, x, now)
        ensures Score(w, u, x, now) < ranked[k].0 || (Score(w, u, x, now) == ranked[k].0 && ranked[k].1 <= x)
      {
        var entry := (Score(w, u, x, now), x);
        assert x in ids && entry in ranked;
        var j :| 0 <= j < |ranked| && ranked[j] == entry;
      }
    }
  }

  /** The characterization determines the choice. */
  lemma BestIsUnique(w: World, u: Id, v: Id, x: Id, now: Time)
    requires IsBest(w, u, v, now) && IsBest(w, u, x, now)
    ensures v == x
  {
  }

  /** A score is the veto of a rematch within ten minutes or lies in [-45, 175],
      and it is negative only after a match within one day. */
  lemma ScoreBounds(w: World, u: Id, v: Id, now: Time)
    ensures var s := Score(w, u, v, now);
      && (s == -10000.0 || -45.0 <= s <= 175.0)
      && (s < 0.0 ==> PairOf(u, v) in w.recent && now - w.recent[PairOf(u, v)].lastMatchedAt < REMATCH_PENALTY_SECONDS)
      && (s == -10000.0 <==>
            PairOf(u, v) in w.recent && now - w.recent[PairOf(u, v)].lastMatchedAt < REMATCH_FORBIDDEN_SECONDS)
  {
  }

  predicate SharesGround(p: Purpose, t: Topic, p': Purpose, t': Topic) {
    Complementary(p, p') || p == p' || t == t'
  }

  /** The waiting bonus (at most 40) cannot outweigh the rematch penalty (45). */
  lemma RematchNeedsCommonGround(p: Purpose, t: Topic, candidate: StateRow, recent: Recent, now: Time)
    requires candidate.purpose.Some? && candidate.topic.Some?
    requires now - recent.lastMatchedAt < REMATCH_PENALTY_SECONDS
    requires Compatibility(p, t, candidate, Some(recent), now) >= 0.0
    ensures now - recent.lastMatchedAt >= REMATCH_FORBIDDEN_SECONDS
    ensures SharesGround(p, t, candidate.purpose.value, candidate.topic.value)
  {
  }

  /** Among peers not met recently the right purpose comes first: a complementary
      one is outscored by no other, and equalled only by one of the same purpose
      and topic that has waited two minutes; for a casual user another casual one
      always wins. */
  lemma PurposeComesFirst(p: Purpose, t: Topic, x: StateRow, y: StateRow, now: Time)
    requires x.purpose.Some? && y.purpose.Some? && y.queuedAt.Some?
    ensures var sx, sy := Compatibility(p, t, x, None, now), Compatibility(p, t, y, None, now);
      && (Complementary(p, x.purpose.value) && !Complementary(p, y.purpose.value) ==>
            sx >= sy
            && (sx == sy ==> y.purpose == Some(p) && y.topic == Some(t) && now - y.queuedAt.value >= 120.0))
      && (p == CASUAL && x.purpose == Some(CASUAL) && y.purpose != Some(CASUAL) ==> sx > sy)
  {
  }

  /** Of two equally suited peers the longer waiting is never behind, and is ahead
      until the other has waited two minutes. */
  lemma WaitingCounts(p: Purpose, t: Topic, x: StateRow, y: StateRow, now: Time)
    requires x.purpose == y.purpose && x.topic == y.topic && x.queuedAt.Some? && y.queuedAt.Some?
    requires x.queuedAt.value < y.queuedAt.value <= now
    ensures var sx, sy := Compatibility(p, t, x, None, now), Compatibility(p, t, y, None, now);
      sx >= sy && (sx > sy <==> now - y.queuedAt.value < 120.0)
  {
  }

  // ----- what the score is made of, in numbers -----

  /** A shared topic is worth 105 seconds of waiting: of two unmet candidates of one
      purpose the one sharing the topic is ahead exactly while the other's wait,
      capped at two minutes, is less than 105 seconds longer than its own. */
  lemma TopicIsWorth105(p: Purpose, t: Topic, x: StateRow, y: StateRow, now: Time)
    requires x.purpose == y.purpose && x.topic == Some(t) && y.topic != Some(t)
    ensures var sx, sy := Compatibility(p, t, x, None, now), Compatibility(p, t, y, None, now);
      && (sx > sy <==> CappedWait(y, now) < CappedWait(x, now) + 105.0)
      && (sx == sy <==> CappedWait(y, now) == CappedWait(x, now) + 105.0)
  {
  }

  /** Seconds in the queue, none for a row without a queue time, at most 120. */
  function CappedWait(row: StateRow, now: Time): (wait: real)
    ensures 0.0 <= wait <= 120.0
  {
    if row.queuedAt.None? || row.queuedAt.value >= now then 0.0
    else if now - row.queuedAt.value >= 120.0 then 120.0
    else now - row.queuedAt.value
  }

  predicate Opposite(p: Purpose, q: Option<Purpose>) {
    (p == VENT && q == Some(LISTEN)) || (p == LISTEN && q == Some(VENT))
  }

  /** Purpose alone, against a stranger who just queued under another topic. */
  lemma PurposeInNumbers(p: Purpose, t: Topic, x: StateRow, now: Time)
    requires x.topic != Some(t) && CappedWait(x, now) == 0.0
    ensures Compatibility(p, t, x, None, now)
      == match (p, x.purpose)
         case (VENT, Some(LISTEN)) => 100.0
         case (LISTEN, Some(VENT)) => 100.0
         case (CASUAL, Some(CASUAL)) => 80.0
         case (VENT, Some(VENT)) => 25.0
         case (LISTEN, Some(LISTEN)) => 25.0
         case _ => 0.0
  {
  }

  /** A match with the candidate less than ten minutes ago is a veto, one less than
      a day ago costs 45, an older one nothing. */
  lemma RematchInNumbers(p: Purpose, t: Topic, x: StateRow, recent: Recent, now: Time)
    ensures var score, stranger := Compatibility(p, t, x, Some(recent), now), Compatibility(p, t, x, None, now);
      var age := now - recent.lastMatchedAt;
      score == if age < 600.0 then -10000.0 else if age < 86400.0 then stranger - 45.0 else stranger
  {
  }

  /** The best score, 175, is that of a complementary candidate with the same topic
      who waited two minutes and was not met within a day; the worst but the veto,
      -45, that of one without common ground who just queued and was. */
  lemma ExtremesExactly(p: Purpose, t: Topic, x: StateRow, recent: Option<Recent>, now: Time)
    ensures var score := Compatibility(p, t, x, recent, now);
      && (score == 175.0 <==>
            Opposite(p, x.purpose) && x.topic == Some(t)
            && CappedWait(x, now) == 120.0 && (recent.None? || now - recent.value.lastMatchedAt >= 86400.0))
      && (score == -45.0 <==>
            recent.Some? && 600.0 <= now - recent.value.lastMatchedAt < 86400.0 && CappedWait(x, now) == 0.0
            && x.topic != Some(t) && x.purpose != Some(p) && !Opposite(p, x.purpose))
  {
  }
}
