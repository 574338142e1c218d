/** `mergeArrays` of doc/search.js: the result lists of several searches become one list, nearest results first, no
    entry twice, at most 200 entries. */
module MergeResults {
  import opened Wrappers

  const MAX_RESULTS: nat := 200

  /** A search result: its edit distance and the path that identifies it. */
  datatype Item = Item(lev: int, fullPath: string)

  type Lists = seq<seq<Item>>
  type Positions = seq<nat>

  predicate Matches(arrays: Lists, positions: Positions) {
    |positions| == |arrays| && forall x :: 0 <= x < |arrays| ==> positions[x] <= |arrays[x]|
  }

  /** List `x` has an unread entry whose path is not in the result yet. */
  predicate Available(arrays: Lists, positions: Positions, taken: set<string>, x: nat)
    requires Matches(arrays, positions)
  {
    x < |arrays| && positions[x] < |arrays[x]| && arrays[x][positions[x]].fullPath !in taken
  }

  function Head(arrays: Lists, positions: Positions, x: nat): Item
    requires Matches(arrays, positions) && x < |arrays| && positions[x] < |arrays[x]|
  {
    arrays[x][positions[x]]
  }

  /** The least distance among the available entries, None if there is none. */
  method GetSmallest(arrays: Lists, positions: Positions, taken: set<string>) returns (start: Option<int>)
    requires Matches(arrays, positions)
    ensures start.None? <==> forall x: nat :: !Available(arrays, positions, taken, x)
    ensures start.Some? ==>
              && (exists x: nat :: Available(arrays, positions, taken, x) && Head(arrays, positions, x).lev == start.value)
              && (forall x: nat :: Available(arrays, positions, taken, x) ==> start.value <= Head(arrays, positions, x).lev)
  {
    start := None;
    for it := 0 to |positions|
      invariant start.None? <==> forall x: nat :: x < it ==> !Available(arrays, positions, taken, x)
      invariant start.Some? ==>
                  && (exists x: nat :: x < it && Available(arrays, positions, taken, x) && Head(arrays, positions, x).lev == start.value)
                  && (forall x: nat :: x < it && Available(arrays, positions, taken, x) ==> start.value <= Head(arrays, positions, x).lev)
    {
      if |arrays[it]| > positions[it] && (start.None? || start.value > arrays[it][positions[it]].lev)
         && arrays[it][positions[it]].fullPath !in taken {
        assert Available(arrays, positions, taken, it);
        start := Some(arrays[it][positions[it]].lev);
      }
    }
  }

  // ---------- What the merged list is ----------

  predicate Sorted(list: seq<Item>) {
    forall i, j :: 0 <= i < j < |list| ==> list[i].lev <= list[j].lev
  }

  predicate AllSorted(arrays: Lists) {
    forall x :: 0 <= x < |arrays| ==> Sorted(arrays[x])
  }

  predicate NoRepeats(list: seq<Item>) {
    forall i, j :: 0 <= i < j < |list| ==> list[i].fullPath != list[j].fullPath
  }

  function Paths(list: seq<Item>): set<string> {
    set i | 0 <= i < |list| :: list[i].fullPath
  }

  /** All entries read so far. */
  ghost function Read(arrays: Lists, positions: Positions): multiset<Item>
    requires Matches(arrays, positions)
  {
    if arrays == [] then multiset{}
    else multiset(arrays[0][..positions[0]]) + Read(arrays[1..], positions[1..])
  }

  lemma {:induction false} ReadOneMore(arrays: Lists, positions: Positions, x: nat)
    requires Matches(arrays, positions) && x < |arrays| && positions[x] < |arrays[x]|
    ensures Matches(arrays, positions[x := positions[x] + 1])
    ensures Read(arrays, positions[x := positions[x] + 1]) ==
            Read(arrays, positions) + multiset{arrays[x][positions[x]]}
  {
    var after := positions[x := positions[x] + 1];
    if x == 0 {
      assert arrays[0][..after[0]] == arrays[0][..positions[0]] + [arrays[0][positions[0]]];
      assert after[1..] == positions[1..];
    } else {
      ReadOneMore(arrays[1..], positions[1..], x - 1);
      assert after[1..] == positions[1..][x - 1 := positions[x] + 1];
    }
  }

  lemma {:induction false} NothingRead(arrays: Lists, positions: Positions)
    requires |positions| == |arrays| && forall x :: 0 <= x < |positions| ==> positions[x] == 0
    ensures Matches(arrays, positions) && Read(arrays, positions) == multiset{}
  {
    if arrays != [] {
      NothingRead(arrays[1..], positions[1..]);
    }
  }

  // ---------- The order of what is merged ----------

  /** A place in the lists: which list, and where in it. */
  type Place = (nat, nat)

  predicate Stands(arrays: Lists, p: Place) {
    p.0 < |arrays| && p.1 < |arrays[p.0]|
  }

  /** How many entries of the same distance stand directly in front of an entry of a list. */
  function Rank(list: seq<Item>, i: nat): nat
    requires i < |list|
  {
    if i == 0 || list[i - 1].lev != list[i].lev then 0 else Rank(list, i - 1) + 1
  }

  /** Near entries come first; those of one distance in turns, one of each list in a turn, in the order of the lists. */
  predicate Precedes(arrays: Lists, p: Place, q: Place)
    requires Stands(arrays, p) && Stands(arrays, q)
  {
    var (a, b) := (arrays[p.0][p.1].lev, arrays[q.0][q.1].lev);
    var (m, n) := (Rank(arrays[p.0], p.1), Rank(arrays[q.0], q.1));
    a < b || (a == b && (m < n || (m == n && p.0 < q.0)))
  }

  /** `list` holds the entries at these places, which are the places read so far. */
  ghost predicate ComesFrom(arrays: Lists, positions: Positions, from: seq<Place>, list: seq<Item>)
    requires Matches(arrays, positions)
  {
    && |from| == |list|
    && (forall k :: 0 <= k < |from| ==> Stands(arrays, from[k]) && arrays[from[k].0][from[k].1] == list[k])
    && (forall p: Place {:trigger p in from} :: p in from <==> p.0 < |arrays| && p.1 < positions[p.0])
  }

  predicate InSequence(arrays: Lists, from: seq<Place>) {
    && (forall k :: 0 <= k < |from| ==> Stands(arrays, from[k]))
    && forall k, l :: 0 <= k < l < |from| ==> Precedes(arrays, from[k], from[l])
  }

  /** `list` consists of a front part of every list, and reading stopped only for good reason: the result is full, or
      each list is at its end or at an entry that the result has already. */
  ghost predicate Merged(arrays: Lists, positions: Positions, list: seq<Item>) {
    && Matches(arrays, positions)
    && multiset(list) == Read(arrays, positions)
    && (|list| == 200 || forall x: nat :: !Available(arrays, positions, Paths(list), x))
  }

  /** What has been read is in the result once, and its paths are marked. */
  ghost predicate Consistent(arrays: Lists, positions: Positions, taken: set<string>, ret: seq<Item>) {
    && |ret| <= MAX_RESULTS && NoRepeats(ret) && taken == Paths(ret)
    && Matches(arrays, positions) && multiset(ret) == Read(arrays, positions)
  }

  /** The turn of list `x` in a round: what was read has a smaller distance, or this one and was read in an earlier round
      or an earlier turn; what can be read has a greater distance, or this one and its turn is to come. */
  ghost predicate AtTurn(arrays: Lists, positions: Positions, taken: set<string>, from: seq<Place>, level: int, round: nat, x: nat)
    requires Matches(arrays, positions)
  {
    && (forall p {:trigger DoneBefore(arrays, p, level, round, x)} :: p in from && Stands(arrays, p) ==> DoneBefore(arrays, p, level, round, x))
    && (forall y: nat {:trigger Available(arrays, positions, taken, y)} ::
          Available(arrays, positions, taken, y) ==> DueAfter(arrays, positions, y, level, if y < x then round + 1 else round))
  }

  predicate DoneBefore(arrays: Lists, p: Place, level: int, round: nat, x: nat)
    requires Stands(arrays, p)
  {
    var (lev, rank) := (arrays[p.0][p.1].lev, Rank(arrays[p.0], p.1));
    lev < level || (lev == level && (rank < round || (rank == round && p.0 < x)))
  }

  predicate DueAfter(arrays: Lists, positions: Positions, y: nat, level: int, round: nat)
    requires Matches(arrays, positions) && y < |arrays| && positions[y] < |arrays[y]|
  {
    var lev := arrays[y][positions[y]].lev;
    level <= lev && (lev == level ==> Rank(arrays[y], positions[y]) == round)
  }

  /** A round at the least distance that can be read begins. */
  lemma NextRound(arrays: Lists, positions: Positions, taken: set<string>, from: seq<Place>, list: seq<Item>, level: int, round: nat,
                  smallest: int) returns (next: nat)
    requires Matches(arrays, positions) && ComesFrom(arrays, positions, from, list)
    requires from == [] || AtTurn(arrays, positions, taken, from, level, round, |arrays|)
    requires exists x: nat :: Available(arrays, positions, taken, x) && Head(arrays, positions, x).lev == smallest
    requires forall x: nat :: Available(arrays, positions, taken, x) ==> smallest <= Head(arrays, positions, x).lev
    ensures AtTurn(arrays, positions, taken, from, smallest, next, 0)
  {
    next := if from != [] && smallest == level then round + 1 else 0;
    forall p | p in from && Stands(arrays, p)
      ensures DoneBefore(arrays, p, smallest, next, 0)
    {
      assert DoneBefore(arrays, p, level, round, |arrays|);
    }
    forall y: nat | Available(arrays, positions, taken, y)
      ensures DueAfter(arrays, positions, y, smallest, next)
    {
      if positions[y] > 0 {
        var p := (y, positions[y] - 1);
        assert p in from && DoneBefore(arrays, p, level, round, |arrays|);
      }
    }
  }

  lemma TakeIsConsistent(arrays: Lists, positions: Positions, taken: set<string>, ret: seq<Item>, x: nat)
    requires Consistent(arrays, positions, taken, ret) && |ret| < MAX_RESULTS && Available(arrays, positions, taken, x)
    ensures var item := Head(arrays, positions, x);
            Consistent(arrays, positions[x := positions[x] + 1], taken + {item.fullPath}, ret + [item])
  {
    var item := Head(arrays, positions, x);
    ReadOneMore(arrays, positions, x);
    assert Paths(ret + [item]) == Paths(ret) + {item.fullPath} by {
      assert forall i :: 0 <= i < |ret| ==> (ret + [item])[i] == ret[i];
      assert (ret + [item])[|ret|] == item;
    }
    assert forall i :: 0 <= i < |ret| ==> ret[i].fullPath in Paths(ret);
  }

  /** Taking the entry of list `x` in its turn keeps the order and ends the turn. */
  lemma TakeIsInOrder(arrays: Lists, positions: Positions, taken: set<string>, from: seq<Place>, ret: seq<Item>, x: nat, level: int, round: nat)
    requires AllSorted(arrays) && Matches(arrays, positions) && ComesFrom(arrays, positions, from, ret)
    requires InSequence(arrays, from) && AtTurn(arrays, positions, taken, from, level, round, x)
    requires Available(arrays, positions, taken, x) && Head(arrays, positions, x).lev == level
    ensures Matches(arrays, positions[x := positions[x] + 1])
    ensures InSequence(arrays, from + [(x, positions[x])])
    ensures AtTurn(arrays, positions[x := positions[x] + 1], taken + {Head(arrays, positions, x).fullPath}, from + [(x, positions[x])],
                   level, round, x + 1)
  {
    var p, path := (x, positions[x]), Head(arrays, positions, x).fullPath;
    var after, longer := positions[x := positions[x] + 1], from + [(x, positions[x])];
    assert DueAfter(arrays, positions, x, level, round);
    forall y: nat | Available(arrays, after, taken + {path}, y)
      ensures DueAfter(arrays, after, y, level, if y < x + 1 then round + 1 else round)
    {
      if y == x {
        assert arrays[x][positions[x]].lev <= arrays[x][positions[x] + 1].lev;
      } else {
        assert Available(arrays, positions, taken, y);
      }
    }
    forall q | q in longer && Stands(arrays, q)
      ensures DoneBefore(arrays, q, level, round, x + 1)
    {
      assert q in from ==> DoneBefore(arrays, q, level, round, x);
    }
    forall k | 0 <= k < |from|
      ensures Precedes(arrays, from[k], p)
    {
      assert DoneBefore(arrays, from[k], level, round, x);
    }
  }

  lemma TakeComesFrom(arrays: Lists, positions: Positions, from: seq<Place>, ret: seq<Item>, x: nat)
    requires Matches(arrays, positions) && ComesFrom(arrays, positions, from, ret)
    requires x < |arrays| && positions[x] < |arrays[x]|
    ensures Matches(arrays, positions[x := positions[x] + 1])
    ensures ComesFrom(arrays, positions[x := positions[x] + 1], from + [(x, positions[x])], ret + [arrays[x][positions[x]]])
  {
    var after, longer := positions[x := positions[x] + 1], from + [(x, positions[x])];
    forall p: Place
      ensures p in longer <==> p.0 < |arrays| && p.1 < after[p.0]
    {
      assert p in longer <==> p in from || p == (x, positions[x]);
    }
  }

  lemma SequenceIsSorted(arrays: Lists, positions: Positions, from: seq<Place>, list: seq<Item>)
    requires Matches(arrays, positions) && ComesFrom(arrays, positions, from, list) && InSequence(arrays, from)
    ensures Sorted(list)
  {
    forall i, j | 0 <= i < j < |list|
      ensures list[i].lev <= list[j].lev
    {
      assert Precedes(arrays, from[i], from[j]);
    }
  }

  /** A list that has nothing to give in its turn. */
  lemma PassIsInOrder(arrays: Lists, positions: Positions, taken: set<string>, from: seq<Place>, x: nat, level: int, round: nat)
    requires Matches(arrays, positions) && AtTurn(arrays, positions, taken, from, level, round, x)
    requires Available(arrays, positions, taken, x) ==> Head(arrays, positions, x).lev != level
    ensures AtTurn(arrays, positions, taken, from, level, round, x + 1)
  {
    forall p | p in from && Stands(arrays, p)
      ensures DoneBefore(arrays, p, level, round, x + 1)
    {
      assert DoneBefore(arrays, p, level, round, x);
    }
    forall y: nat | Available(arrays, positions, taken, y)
      ensures DueAfter(arrays, positions, y, level, if y < x + 1 then round + 1 else round)
    {
      assert DueAfter(arrays, positions, y, level, if y < x then round + 1 else round);
    }
  }

  /** What the loops keep. */
  ghost predicate Merging(arrays: Lists, positions: Positions, taken: set<string>, from: seq<Place>, ret: seq<Item>) {
    && Consistent(arrays, positions, taken, ret) && ComesFrom(arrays, positions, from, ret)
    && (AllSorted(arrays) ==> InSequence(arrays, from))
  }

  ghost predicate SortedAtTurn(arrays: Lists, positions: Positions, taken: set<string>, from: seq<Place>, level: int, round: nat, x: nat)
    requires Matches(arrays, positions)
  {
    AllSorted(arrays) ==> AtTurn(arrays, positions, taken, from, level, round, x)
  }

  lemma Take(arrays: Lists, positions: Positions, taken: set<string>, from: seq<Place>, ret: seq<Item>, x: nat, level: int, round: nat)
    requires Merging(arrays, positions, taken, from, ret) && SortedAtTurn(arrays, positions, taken, from, level, round, x)
    requires |ret| < MAX_RESULTS && Available(arrays, positions, taken, x) && Head(arrays, positions, x).lev == level
    ensures var (item, after, longer) := (arrays[x][positions[x]], positions[x := positions[x] + 1], from + [(x, positions[x])]);
            && Merging(arrays, after, taken + {item.fullPath}, longer, ret + [item])
            && SortedAtTurn(arrays, after, taken + {item.fullPath}, longer, level, round, x + 1)
  {
    TakeIsConsistent(arrays, positions, taken, ret, x);
    TakeComesFrom(arrays, positions, from, ret, x);
    if AllSorted(arrays) {
      TakeIsInOrder(arrays, positions, taken, from, ret, x, level, round);
    }
  }

  lemma Pass(arrays: Lists, positions: Positions, taken: set<string>, from: seq<Place>, x: nat, level: int, round: nat)
    requires Matches(arrays, positions) && SortedAtTurn(arrays, positions, taken, from, level, round, x)
    requires Available(arrays, positions, taken, x) ==> Head(arrays, positions, x).lev != level
    ensures SortedAtTurn(arrays, positions, taken, from, level, round, x + 1)
  {
    if AllSorted(arrays) {
      PassIsInOrder(arrays, positions, taken, from, x, level, round);
    }
  }

  lemma Begin(arrays: Lists, positions: Positions, taken: set<string>, from: seq<Place>, list: seq<Item>, level: int, round: nat,
              smallest: int) returns (next: nat)
    requires Matches(arrays, positions) && ComesFrom(arrays, positions, from, list)
    requires from == [] || SortedAtTurn(arrays, positions, taken, from, level, round, |arrays|)
    requires exists x: nat :: Available(arrays, positions, taken, x) && Head(arrays, positions, x).lev == smallest
    requires forall x: nat :: Available(arrays, positions, taken, x) ==> smallest <= Head(arrays, positions, x).lev
    ensures SortedAtTurn(arrays, positions, taken, from, smallest, next, 0)
  {
    next := 0;
    if AllSorted(arrays) {
      next := NextRound(arrays, positions, taken, from, list, level, round, smallest);
    }
  }

  /** The turn of list `x`: it gives its next entry, if that is at the least distance and new. */
  method ReadTurn(arrays: Lists, start: Positions, marked: set<string>, list: seq<Item>, smallest: int, x: nat, ghost places: seq<Place>,
                  ghost round: nat)
      returns (positions: Positions, taken: set<string>, ret: seq<Item>, ghost from: seq<Place>)
    requires Merging(arrays, start, marked, places, list) && |list| < MAX_RESULTS && x < |arrays|
    requires SortedAtTurn(arrays, start, marked, places, smallest, round, x)
    ensures Merging(arrays, positions, taken, from, ret) && SortedAtTurn(arrays, positions, taken, from, smallest, round, x + 1)
    ensures if Available(arrays, start, marked, x) && Head(arrays, start, x).lev == smallest then |ret| == |list| + 1
            else ret == list && positions == start && taken == marked
  {
    positions, taken, ret, from := start, marked, list, places;
    if |arrays[x]| > positions[x] && arrays[x][positions[x]].lev == smallest && arrays[x][positions[x]].fullPath !in taken {
      Take(arrays, positions, taken, from, ret, x, smallest, round);
      from := from + [(x, positions[x])];
      ret := ret + [arrays[x][positions[x]]];
      taken := taken + {arrays[x][positions[x]].fullPath};
      positions := positions[x := positions[x] + 1];
    } else {
      Pass(arrays, positions, taken, from, x, smallest, round);
    }
  }

  /** The inner loop: each list has its turn, until the result is full. */
  method ReadRound(arrays: Lists, start: Positions, marked: set<string>, list: seq<Item>, smallest: int, ghost places: seq<Place>, ghost round: nat)
      returns (positions: Positions, taken: set<string>, ret: seq<Item>, ghost from: seq<Place>)
    requires Merging(arrays, start, marked, places, list) && |list| < MAX_RESULTS
    requires SortedAtTurn(arrays, start, marked, places, smallest, round, 0)
    requires exists x: nat :: Available(arrays, start, marked, x) && Head(arrays, start, x).lev == smallest
    ensures Merging(arrays, positions, taken, from, ret) && |list| < |ret|
    ensures |ret| < MAX_RESULTS ==> SortedAtTurn(arrays, positions, taken, from, smallest, round, |arrays|)
  {
    positions, taken, ret, from := start, marked, list, places;
    ghost var some: nat :| Available(arrays, start, marked, some) && Head(arrays, start, some).lev == smallest;
    var x := 0;
    while x < |arrays| && |ret| < MAX_RESULTS
      invariant x <= |arrays| && |list| <= |ret| && Merging(arrays, positions, taken, from, ret)
      invariant SortedAtTurn(arrays, positions, taken, from, smallest, round, x)
      invariant |ret| == |list| ==> x <= some && positions == start && taken == marked
    {
      positions, taken, ret, from := ReadTurn(arrays, positions, taken, ret, smallest, x, from, round);
      x := x + 1;
    }
  }

  method MergeArrays(arrays: Lists) returns (ret: seq<Item>)
    ensures |ret| <= 200 && NoRepeats(ret)
    ensures exists positions, from: seq<Place> :: Merged(arrays, positions, ret) && ComesFrom(arrays, positions, from, ret)
              && (AllSorted(arrays) ==> InSequence(arrays, from))
    ensures AllSorted(arrays) ==> Sorted(ret)
  {
    ret := [];
    var positions := seq(|arrays|, _ => 0);
    var taken: set<string> := {};
    NothingRead(arrays, positions);
    ghost var from: seq<Place> := [];
    ghost var level, round := 0, 0;
    while |ret| < MAX_RESULTS
      invariant Merging(arrays, positions, taken, from, ret)
      invariant |ret| < MAX_RESULTS ==> from == [] || SortedAtTurn(arrays, positions, taken, from, level, round, |arrays|)
      decreases MAX_RESULTS - |ret|
    {
      var smallest := GetSmallest(arrays, positions, taken);
      if smallest.None? {
        break;
      }
      round := Begin(arrays, positions, taken, from, ret, level, round, smallest.value);
      level := smallest.value;
      positions, taken, ret, from := ReadRound(arrays, positions, taken, ret, smallest.value, from, round);
    }
    assert Merged(arrays, positions, ret);
    if AllSorted(arrays) {
      SequenceIsSorted(arrays, positions, from, ret);
    }
  }
}
