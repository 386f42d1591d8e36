/**
 The order in which blocks are confirmed (ConfirmUntil and PrintProbes in pika/pika.go): each epoch confirms, for every
 proposer, the levels up to the (F+1)-largest reference of its accepted blocks, and its accepted blocks themselves.
 The order is a function of what the epochs agreed on and of the blocks dispersed, the same on every correct server.
 */
module Ledger {
  import opened Common
  import opened Dispersal

  /** What an epoch came to: the blocks dispersed by each server, and which of them were accepted. */
  datatype Fate = Fate(accepted: seq<bool>, blocks: seq<Payload>)

  /** The fate of every epoch. */
  type World = nat -> Fate

  /** Blocks are well formed: they refer to a level of every server. */
  predicate Formed(p: Params, fate: Fate) {
    && |fate.accepted| == |fate.blocks| == p.n
    && forall j :: 0 <= j < p.n ==> fate.blocks[j].Block? && |fate.blocks[j].references| == p.n
  }

  ghost predicate AllFormed(p: Params, world: World) {
    p.Resilient() && forall e: nat :: Formed(p, world(e))
  }

  /** The first index from k on that is not marked. */
  function FirstGap(marks: seq<bool>, k: nat): (gap: nat)
    requires k <= |marks|
    ensures k <= gap <= |marks| && (gap < |marks| ==> !marks[gap])
    ensures forall e: nat :: k <= e < gap ==> marks[e]
    decreases |marks| - k
  {
    if k < |marks| && marks[k] then FirstGap(marks, k + 1) else k
  }

  lemma {:induction false} FirstGapIs(marks: seq<bool>, k: nat, gap: nat)
    requires k <= gap <= |marks| && (gap < |marks| ==> !marks[gap])
    requires forall e: nat :: k <= e < gap ==> marks[e]
    ensures FirstGap(marks, k) == gap
    decreases |marks| - k
  {
    if k < gap {
      FirstGapIs(marks, k + 1, gap);
    }
  }

  /** How far a block of an epoch refers: as far as dispersals have been seen complete, but not beyond the epoch. */
  function Reference(marks: seq<bool>, epoch: nat): (r: nat)
    ensures r <= epoch && r <= |marks| && forall e: nat :: e < r ==> marks[e]
    ensures r == epoch || r == |marks| || !marks[r]
  {
    if FirstGap(marks, 0) > epoch then epoch else FirstGap(marks, 0)
  }

  function Insert(x: nat, s: seq<nat>): (r: seq<nat>)
    ensures |r| == |s| + 1
  {
    if s == [] then [x]
    else if x <= s[0] then [x] + s
    else [s[0]] + Insert(x, s[1..])
  }

  /** The numbers in ascending order. */
  function Sort(s: seq<nat>): (r: seq<nat>)
    ensures |r| == |s|
  {
    if s == [] then [] else Insert(s[0], Sort(s[1..]))
  }

  predicate Ascending(s: seq<nat>) {
    forall j, k :: 0 <= j <= k < |s| ==> s[j] <= s[k]
  }

  lemma {:induction false} InsertPermutes(x: nat, s: seq<nat>)
    ensures multiset(Insert(x, s)) == multiset([x] + s)
  {
    if s != [] && x > s[0] {
      InsertPermutes(x, s[1..]);
      assert s == [s[0]] + s[1..];
    }
  }

  ghost predicate Bounded(s: seq<nat>, low: nat) {
    forall k :: 0 <= k < |s| ==> low <= s[k]
  }

  lemma {:induction false} InsertBounded(x: nat, s: seq<nat>, low: nat)
    requires Bounded(s, low) && low <= x
    ensures Bounded(Insert(x, s), low)
  {
    if s != [] && x > s[0] {
      InsertBounded(x, s[1..], low);
    }
  }

  lemma AscendingCons(low: nat, s: seq<nat>)
    requires Ascending(s) && Bounded(s, low)
    ensures Ascending([low] + s)
  {
  }

  lemma AscendingTail(s: seq<nat>)
    requires Ascending(s) && s != []
    ensures Ascending(s[1..]) && Bounded(s[1..], s[0]) && Bounded(s, s[0])
  {
  }

  lemma {:induction false} InsertAscends(x: nat, s: seq<nat>)
    requires Ascending(s)
    ensures Ascending(Insert(x, s))
  {
    hide Ascending, Bounded;
    if s == [] {
      OneAscends(x);
    } else {
      AscendingTail(s);
      if x <= s[0] {
        BoundedBelow(s, s[0], x);
        AscendingCons(x, s);
      } else {
        InsertAscends(x, s[1..]);
        InsertBounded(x, s[1..], s[0]);
        AscendingCons(s[0], Insert(x, s[1..]));
      }
    }
  }

  lemma OneAscends(x: nat)
    ensures Ascending([x])
  {
  }

  lemma BoundedBelow(s: seq<nat>, low: nat, lower: nat)
    requires Bounded(s, low) && lower <= low
    ensures Bounded(s, lower)
  {
  }

  /** Sorting puts the same numbers in ascending order. */
  lemma {:induction false} SortSorts(s: seq<nat>)
    ensures Ascending(Sort(s)) && multiset(Sort(s)) == multiset(s)
  {
    if s != [] {
      SortSorts(s[1..]);
      InsertAscends(s[0], Sort(s[1..]));
      InsertPermutes(s[0], Sort(s[1..]));
      assert s == [s[0]] + s[1..];
    }
  }

  /** How many of the numbers are at least v. */
  function Count(s: seq<nat>, v: nat): nat {
    if s == [] then 0 else (if s[0] >= v then 1 else 0) + Count(s[1..], v)
  }

  lemma {:induction false} InsertCounts(x: nat, s: seq<nat>, v: nat)
    ensures Count(Insert(x, s), v) == Count(s, v) + if x >= v then 1 else 0
  {
    if s != [] {
      if x <= s[0] {
        assert ([x] + s)[1..] == s;
      } else {
        InsertCounts(x, s[1..], v);
        assert ([s[0]] + Insert(x, s[1..]))[1..] == Insert(x, s[1..]);
      }
    }
  }

  lemma {:induction false} SortCounts(s: seq<nat>, v: nat)
    ensures Count(Sort(s), v) == Count(s, v)
  {
    if s != [] {
      SortCounts(s[1..], v);
      InsertCounts(s[0], Sort(s[1..]), v);
    }
  }

  /** In ascending order the numbers from index k on are at least the one at k. */
  lemma {:induction false} AscendingCounts(s: seq<nat>, k: nat)
    requires Ascending(s) && k < |s|
    ensures Count(s, s[k]) >= |s| - k
    ensures Count(s, s[k] + 1) <= |s| - k - 1
  {
    if k == 0 {
      AllCount(s, s[0]);
      CountBelow(s, s[0] + 1);
    } else {
      AscendingCounts(s[1..], k - 1);
    }
  }

  lemma {:induction false} AllCount(s: seq<nat>, v: nat)
    requires forall j :: 0 <= j < |s| ==> s[j] >= v
    ensures Count(s, v) == |s|
  {
    if s != [] {
      AllCount(s[1..], v);
    }
  }

  lemma {:induction false} CountBelow(s: seq<nat>, v: nat)
    requires s != [] && s[0] < v
    ensures Count(s, v) <= |s| - 1
  {
    CountBound(s[1..], v);
  }

  lemma {:induction false} CountBound(s: seq<nat>, v: nat)
    ensures Count(s, v) <= |s|
  {
    if s != [] {
      CountBound(s[1..], v);
    }
  }

  /** The indices of the numbers that are at least v. */
  ghost function AtLeast(s: seq<nat>, v: nat): set<nat> {
    set j: nat | j < |s| && s[j] >= v
  }

  /** The numbers of a, each plus one. */
  ghost function Shift(a: set<nat>): set<nat> {
    set j: nat | j in a :: j + 1
  }

  lemma {:induction false} ShiftSize(a: set<nat>)
    ensures |Shift(a)| == |a|
  {
    if a != {} {
      var x :| x in a;
      ShiftSize(a - {x});
      forall y: nat
        ensures y in Shift(a) <==> y in Shift(a - {x}) + {x + 1}
      {
        if y in Shift(a) {
          var j: nat :| j in a && j + 1 == y;
          assert j == x || j in a - {x};
        }
      }
      assert Shift(a) == Shift(a - {x}) + {x + 1};
    }
  }

  lemma {:induction false} CountIsSize(s: seq<nat>, v: nat)
    ensures |AtLeast(s, v)| == Count(s, v)
  {
    if s != [] {
      CountIsSize(s[1..], v);
      ShiftSize(AtLeast(s[1..], v));
      forall j: nat
        ensures j in AtLeast(s, v) <==> j in Shift(AtLeast(s[1..], v)) + (if s[0] >= v then {0} else {})
      {
        if j > 0 && j in AtLeast(s, v) {
          assert j - 1 in AtLeast(s[1..], v);
        }
      }
      assert AtLeast(s, v) == Shift(AtLeast(s[1..], v)) + (if s[0] >= v then {0} else {});
    }
  }

  /** The references of the accepted blocks to server i; rejected blocks refer to nothing. */
  function Levels(p: Params, fate: Fate, i: nat): (r: seq<nat>)
    requires Formed(p, fate) && i < p.n
    ensures |r| == p.n
  {
    seq(p.n, j requires 0 <= j < p.n => if fate.accepted[j] then fate.blocks[j].references[i] else 0)
  }

  /** The level of server i until which an epoch confirms: the (F+1)-largest reference. */
  function ConfirmUntil(p: Params, fate: Fate, i: nat): nat
    requires p.Resilient() && Formed(p, fate) && i < p.n
  {
    Sort(Levels(p, fate, i))[p.n - p.f - 1]
  }

  /** F+1 references reach the confirmed level, and N-F do not exceed it. */
  lemma ConfirmUntilSplits(p: Params, fate: Fate, i: nat)
    requires p.Resilient() && Formed(p, fate) && i < p.n
    ensures var s, cu := Levels(p, fate, i), ConfirmUntil(p, fate, i);
            |AtLeast(s, cu)| >= p.f + 1 && |Nodes(p.n) - AtLeast(s, cu + 1)| >= p.n - p.f
  {
    hide Levels, Formed, Sort, Count, Ascending;
    var s, cu := Levels(p, fate, i), ConfirmUntil(p, fate, i);
    SortSorts(s);
    AscendingCounts(Sort(s), p.n - p.f - 1);
    SortCounts(s, cu);
    SortCounts(s, cu + 1);
    CountIsSize(s, cu);
    CountIsSize(s, cu + 1);
    assert AtLeast(s, cu + 1) <= Nodes(p.n);
    assert |Nodes(p.n) - AtLeast(s, cu + 1)| == p.n - |Nodes(p.n) * AtLeast(s, cu + 1)|;
    assert Nodes(p.n) * AtLeast(s, cu + 1) == AtLeast(s, cu + 1);
  }

  /**
   Linking bound: a level that epoch `fate` confirms was referred to by a correct server whose block was accepted, so
   that whatever bounds the references of correct servers bounds the confirmed level.
   */
  lemma ConfirmedByCorrect(c: Config, fate: Fate, i: nat) returns (j: nat)
    requires c.Valid() && Formed(c.params, fate) && i < c.params.n
    requires ConfirmUntil(c.params, fate, i) > 0
    ensures c.Correct(j) && fate.accepted[j] && fate.blocks[j].references[i] >= ConfirmUntil(c.params, fate, i)
  {
    var s, cu := Levels(c.params, fate, i), ConfirmUntil(c.params, fate, i);
    ConfirmUntilSplits(c.params, fate, i);
    assert AtLeast(s, cu) <= Nodes(c.params.n);
    j := CorrectMember(c, AtLeast(s, cu));
  }

  /** With N-F accepted blocks, some correct accepted block refers no further than the epoch confirms. */
  lemma ConfirmsEnough(c: Config, fate: Fate, i: nat) returns (j: nat)
    requires c.Valid() && Formed(c.params, fate) && i < c.params.n
    requires |Marked(fate.accepted)| >= c.params.n - c.params.f
    ensures c.Correct(j) && fate.accepted[j] && fate.blocks[j].references[i] <= ConfirmUntil(c.params, fate, i)
  {
    hide ConfirmUntil, Levels;
    var s, cu := Levels(c.params, fate, i), ConfirmUntil(c.params, fate, i);
    ConfirmUntilSplits(c.params, fate, i);
    assert Marked(fate.accepted) <= Nodes(c.params.n);
    j := CorrectInBoth(c, Marked(fate.accepted), Nodes(c.params.n) - AtLeast(s, cu + 1));
    assert j !in AtLeast(s, cu + 1);
    AcceptedLevel(c.params, fate, i, j);
  }

  lemma AcceptedLevel(p: Params, fate: Fate, i: nat, j: nat)
    requires Formed(p, fate) && i < p.n && j in Marked(fate.accepted)
    ensures j < p.n && Levels(p, fate, i)[j] == fate.blocks[j].references[i]
  {
  }

  /** No epoch confirms a level beyond itself. */
  ghost predicate Linked(p: Params, world: World)
    requires AllFormed(p, world)
  {
    forall e: nat, i: nat :: i < p.n ==> ConfirmUntil(p, world(e), i) <= e
  }

  /** Correct servers refer to no level beyond the epoch of their block. */
  ghost predicate Modest(c: Config, world: World)
    requires AllFormed(c.params, world)
  {
    forall e: nat, j: nat, i: nat :: c.Correct(j) && i < c.params.n ==> world(e).blocks[j].references[i] <= e
  }

  /** If correct servers are modest, no level beyond an epoch is confirmed by it. */
  lemma ModestyLinks(c: Config, world: World)
    requires c.Valid() && AllFormed(c.params, world) && Modest(c, world)
    ensures Linked(c.params, world)
  {
    hide ConfirmUntil;
    forall e: nat, i: nat | i < c.params.n
      ensures ConfirmUntil(c.params, world(e), i) <= e
    {
      assert Formed(c.params, world(e));
      if ConfirmUntil(c.params, world(e), i) > 0 {
        var j := ConfirmedByCorrect(c, world(e), i);
        assert world(e).blocks[j].references[i] <= e;
      }
    }
  }
}
