/** Shared vocabulary: optional values, ordered enumeration of a finite set of
    ids (SQL's ORDER BY on a key column) and a stable descending sort. */
module Basics {

  datatype Option<+T> = None | Some(value: T) {
    function GetOr(default: T): T {
      match this
      case Some(v) => v
      case None => default
    }
  }

  /** Ids of users, rooms, letters and messages. */
  type Id = int

  /** Seconds on the server clock. */
  type Time = real

  /** An unordered pair of users, stored with the smaller id first. */
  datatype Pair = Pair(low: Id, high: Id)

  function PairOf(x: Id, y: Id): Pair {
    if x <= y then Pair(x, y) else Pair(y, x)
  }

  /** A letter's reply room, a friends' room or an online match. */
  datatype RoomKind = TEMPORARY | FRIEND | MATCH

  /** Blocks are rows (owner, blocked); they count in both directions. */
  predicate BlockedIn(blocks: set<(Id, Id)>, u: Id, v: Id) {
    u != v && ((u, v) in blocks || (v, u) in blocks)
  }

  lemma Inhabited(s: set<Id>)
    ensures s == {} || exists x :: x in s
  {
    if forall x :: x !in s {
      assert s == {};
    }
  }

  lemma {:induction false} MinExists(s: set<Id>) returns (m: Id)
    requires s != {}
    ensures m in s && forall x :: x in s ==> m <= x
  {
    Inhabited(s);
    m :| m in s;
    var a, rest := m, s - {m};
    if rest != {} {
      var least := MinExists(rest);
      m := if a <= least then a else least;
      forall x | x in s
        ensures m <= x
      {
        assert x == a || x in rest;
      }
    } else {
      forall x | x in s
        ensures x == a
      {
        assert x !in rest;
      }
    }
  }

  lemma LeastExists(s: set<Id>)
    requires s != {}
    ensures exists m :: m in s && forall x :: x in s ==> m <= x
  {
    var m := MinExists(s);
  }

  function Min(s: set<Id>): (m: Id)
    requires s != {}
    ensures m in s && forall x :: x in s ==> m <= x
  {
    LeastExists(s);
    var m :| m in s && forall x :: x in s ==> m <= x;
    m
  }

  /** The elements of a finite set in ascending order. */
  function Ascending(s: set<Id>): (r: seq<Id>)
    ensures |r| == |s|
    ensures forall x :: x in r <==> x in s
    ensures forall i, j :: 0 <= i < j < |r| ==> r[i] < r[j]
  {
    if s == {} then []
    else
      var m := Min(s);
      var rest := Ascending(s - {m});
      assert forall x :: x in [m] + rest <==> x == m || x in rest;
      [m] + rest
  }

  lemma {:induction false} SubsetCount(a: set<Id>, b: set<Id>)
    requires a <= b
    ensures |a| <= |b|
  {
    if a != {} {
      Inhabited(a);
      var x :| x in a;
      SubsetCount(a - {x}, b - {x});
    }
  }

  /** Insertion that keeps a new first element ahead of equal keys: the step of
      a stable sort by descending key. */
  function InsertDescending<T>(e: (real, T), s: seq<(real, T)>): (r: seq<(real, T)>)
  {
    if s == [] || e.0 >= s[0].0 then [e] + s
    else [s[0]] + InsertDescending(e, s[1..])
  }

  function StableDescending<T>(s: seq<(real, T)>): (r: seq<(real, T)>)
  {
    if s == [] then [] else InsertDescending(s[0], StableDescending(s[1..]))
  }

  /** Position `k` holds the first of the maximal keys. */
  predicate IsFirstMaximum<T>(s: seq<(real, T)>, k: nat)
  {
    k < |s|
    && (forall j :: 0 <= j < k ==> s[j].0 < s[k].0)
    && (forall j :: k < j < |s| ==> s[j].0 <= s[k].0)
  }

  /** The head of the stable descending sort is the first maximum of the input. */
  lemma {:induction false} SortHeadIsFirstMaximum<T>(s: seq<(real, T)>) returns (k: nat)
    requires s != []
    ensures StableDescending(s) != []
    ensures IsFirstMaximum(s, k) && StableDescending(s)[0] == s[k]
  {
    if |s| == 1 {
      assert s[1..] == [];
      k := 0;
    } else {
      var j := SortHeadIsFirstMaximum(s[1..]);
      assert s[1..][j] == s[j + 1];
      if s[0].0 >= s[j + 1].0 {
        k := 0;
        forall i | 0 < i < |s|
          ensures s[i].0 <= s[0].0
        {
          assert s[i] == s[1..][i - 1];
        }
      } else {
        k := j + 1;
        forall i | 0 < i < |s|
          ensures i < k ==> s[i].0 < s[k].0
          ensures i > k ==> s[i].0 <= s[k].0
        {
          assert s[i] == s[1..][i - 1];
        }
      }
    }
  }
}
