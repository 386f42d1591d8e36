/**
 The sequence of confirmed blocks, as the loops of PrintProbes build it up, and what it comes to: every confirmed block
 exactly once, without gaps, in an order that only grows.
 */
module LedgerOrder {
  import opened Common
  import opened Ledger

  /** The block of server `server` in an epoch. */
  datatype Entry = Entry(epoch: nat, server: nat)

  function AddOnce(done: seq<Entry>, e: Entry): seq<Entry> {
    if e in done then done else done + [e]
  }

  /** Confirms the levels from lv up to hi of server i, but for those confirmed before. */
  function AddLevels(done: seq<Entry>, i: nat, lv: nat, hi: nat): seq<Entry>
    decreases hi - lv
  {
    if lv >= hi then done else AddLevels(AddOnce(done, Entry(lv, i)), i, lv + 1, hi)
  }

  /** The level of server i that the epoch before ep confirmed. */
  function LastLevel(p: Params, world: World, ep: nat, i: nat): nat
    requires AllFormed(p, world) && i < p.n
  {
    if ep == 0 then 0 else ConfirmUntil(p, world(ep - 1), i)
  }

  /** What epoch ep confirms of server i. */
  function AddServer(p: Params, world: World, ep: nat, i: nat, done: seq<Entry>): seq<Entry>
    requires AllFormed(p, world) && i < p.n
  {
    var linked := AddLevels(done, i, LastLevel(p, world, ep, i), ConfirmUntil(p, world(ep), i));
    if world(ep).accepted[i] then AddOnce(linked, Entry(ep, i)) else linked
  }

  /** What epoch ep confirms of the servers from i on. */
  function AddEpoch(p: Params, world: World, ep: nat, i: nat, done: seq<Entry>): seq<Entry>
    requires AllFormed(p, world)
    decreases p.n - i
  {
    if i >= p.n then done else AddEpoch(p, world, ep, i + 1, AddServer(p, world, ep, i, done))
  }

  /** The blocks confirmed by the first k epochs, in order. */
  function Log(p: Params, world: World, k: nat): seq<Entry>
    requires AllFormed(p, world)
  {
    if k == 0 then [] else AddEpoch(p, world, k - 1, 0, Log(p, world, k - 1))
  }

  ghost predicate Distinct(s: seq<Entry>) {
    forall a, b :: 0 <= a < b < |s| ==> s[a] != s[b]
  }

  /** The sequence only grows, and without repetition. */
  ghost predicate Extends(s: seq<Entry>, t: seq<Entry>) {
    s <= t && (Distinct(s) ==> Distinct(t))
  }

  lemma AddOnceExtends(s: seq<Entry>, e: Entry)
    ensures Extends(s, AddOnce(s, e))
    ensures forall x :: x in AddOnce(s, e) <==> x in s || x == e
  {
  }

  lemma {:induction false} AddLevelsExtends(s: seq<Entry>, i: nat, lv: nat, hi: nat)
    ensures Extends(s, AddLevels(s, i, lv, hi))
    ensures forall x :: x in AddLevels(s, i, lv, hi) <==> x in s || (x.server == i && lv <= x.epoch < hi)
    decreases hi - lv
  {
    hide AddOnce, Distinct;
    if lv < hi {
      AddOnceExtends(s, Entry(lv, i));
      AddLevelsExtends(AddOnce(s, Entry(lv, i)), i, lv + 1, hi);
    }
  }

  /** Epoch ep newly confirms a level of a server, or accepts its block. */
  predicate Adds(p: Params, world: World, ep: nat, x: Entry)
    requires AllFormed(p, world) && x.server < p.n
  {
    || LastLevel(p, world, ep, x.server) <= x.epoch < ConfirmUntil(p, world(ep), x.server)
    || (x.epoch == ep && world(ep).accepted[x.server])
  }

  lemma AddServerExtends(p: Params, world: World, ep: nat, i: nat, s: seq<Entry>)
    requires AllFormed(p, world) && i < p.n
    ensures Extends(s, AddServer(p, world, ep, i, s))
    ensures forall x :: x in AddServer(p, world, ep, i, s) <==> x in s || (x.server == i && Adds(p, world, ep, x))
  {
    hide AddOnce, AddLevels, Distinct, ConfirmUntil, LastLevel;
    var lv, hi := LastLevel(p, world, ep, i), ConfirmUntil(p, world(ep), i);
    AddLevelsExtends(s, i, lv, hi);
    AddOnceExtends(AddLevels(s, i, lv, hi), Entry(ep, i));
  }

  lemma {:induction false} AddEpochExtends(p: Params, world: World, ep: nat, i: nat, s: seq<Entry>)
    requires AllFormed(p, world)
    ensures Extends(s, AddEpoch(p, world, ep, i, s))
    ensures forall x :: x in AddEpoch(p, world, ep, i, s) <==> x in s || (i <= x.server < p.n && Adds(p, world, ep, x))
    decreases p.n - i
  {
    hide AddServer, Distinct, Adds, AllFormed;
    if i < p.n {
      AddServerExtends(p, world, ep, i, s);
      AddEpochExtends(p, world, ep, i + 1, AddServer(p, world, ep, i, s));
    }
  }

  /** The highest level of server i that one of the first k epochs confirms. */
  function TopLevel(p: Params, world: World, k: nat, i: nat): nat
    requires AllFormed(p, world) && i < p.n
  {
    if k == 0 then 0
    else
      var top, level := TopLevel(p, world, k - 1, i), ConfirmUntil(p, world(k - 1), i);
      if top < level then level else top
  }

  /** TopLevel is the maximum of what the epochs confirm, although these need not increase. */
  lemma {:induction false} TopLevelIsMax(p: Params, world: World, k: nat, i: nat)
    requires AllFormed(p, world) && i < p.n
    ensures forall e: nat :: e < k ==> ConfirmUntil(p, world(e), i) <= TopLevel(p, world, k, i)
    ensures TopLevel(p, world, k, i) > 0 ==> exists e: nat :: e < k && ConfirmUntil(p, world(e), i) == TopLevel(p, world, k, i)
  {
    hide ConfirmUntil, Formed;
    if k > 0 {
      TopLevelIsMax(p, world, k - 1, i);
      if TopLevel(p, world, k, i) > TopLevel(p, world, k - 1, i) {
        assert k - 1 < k && ConfirmUntil(p, world(k - 1), i) == TopLevel(p, world, k, i);
      }
    }
  }

  /** The block is below the highest confirmed level of its server, or was accepted in one of the first k epochs. */
  predicate Confirmed(p: Params, world: World, k: nat, x: Entry)
    requires AllFormed(p, world)
  {
    && x.server < p.n
    && (x.epoch < TopLevel(p, world, k, x.server) || (x.epoch < k && world(x.epoch).accepted[x.server]))
  }

  /**
   After k epochs exactly the blocks below the highest confirmed levels and the accepted blocks have been confirmed,
   each once.
   */
  lemma {:induction false} LogIsExact(p: Params, world: World, k: nat)
    requires AllFormed(p, world)
    ensures Distinct(Log(p, world, k))
    ensures forall x :: x in Log(p, world, k) <==> Confirmed(p, world, k, x)
  {
    hide AllFormed, AddEpoch;
    if k > 0 {
      var s := Log(p, world, k - 1);
      LogIsExact(p, world, k - 1);
      AddEpochExtends(p, world, k - 1, 0, s);
      forall x
        ensures x in s || (x.server < p.n && Adds(p, world, k - 1, x)) <==> Confirmed(p, world, k, x)
      {
        ConfirmedStep(p, world, k, x);
      }
    }
  }

  lemma ConfirmedStep(p: Params, world: World, k: nat, x: Entry)
    requires AllFormed(p, world) && k > 0
    ensures Confirmed(p, world, k - 1, x) || (x.server < p.n && Adds(p, world, k - 1, x)) <==> Confirmed(p, world, k, x)
  {
    hide ConfirmUntil, Formed;
    if x.server < p.n && k > 1 {
      TopLevelIsMax(p, world, k - 1, x.server);
      assert ConfirmUntil(p, world(k - 2), x.server) <= TopLevel(p, world, k - 1, x.server);
    }
  }

  /** Later outputs extend earlier ones. */
  lemma {:induction false} LogGrows(p: Params, world: World, j: nat, k: nat)
    requires AllFormed(p, world) && j <= k
    ensures Log(p, world, j) <= Log(p, world, k)
  {
    hide AllFormed, AddEpoch;
    if j < k {
      LogGrows(p, world, j, k - 1);
      AddEpochExtends(p, world, k - 1, 0, Log(p, world, k - 1));
    }
  }

  /** By server, and by epoch for each server. */
  predicate Before(x: Entry, y: Entry) {
    x.server < y.server || (x.server == y.server && x.epoch < y.epoch)
  }

  ghost predicate Ascends(s: seq<Entry>) {
    forall a, b :: 0 <= a < b < |s| ==> Before(s[a], s[b])
  }

  /** From s to t, entries of the servers in lo, ..., hi - 1 have been added in order. */
  ghost predicate Adding(s: seq<Entry>, t: seq<Entry>, lo: nat, hi: nat) {
    && s <= t && Ascends(t[|s|..])
    && forall x :: x in t[|s|..] ==> lo <= x.server < hi
  }

  lemma AddingMore(s: seq<Entry>, t: seq<Entry>, u: seq<Entry>, lo: nat, mid: nat, hi: nat)
    requires Adding(s, t, lo, mid) && Adding(t, u, mid, hi) && lo <= mid <= hi
    ensures Adding(s, u, lo, hi)
  {
    assert u[|s|..] == t[|s|..] + u[|t|..];
  }

  /** The levels of server i are added in ascending order. */
  lemma {:induction false} AddLevelsAscends(s: seq<Entry>, i: nat, lv: nat, hi: nat)
    ensures var t := AddLevels(s, i, lv, hi);
            Adding(s, t, i, i + 1) && forall x :: x in t[|s|..] ==> lv <= x.epoch < hi
    decreases hi - lv
  {
    if lv < hi {
      var s1 := AddOnce(s, Entry(lv, i));
      AddLevelsAscends(s1, i, lv + 1, hi);
      var t := AddLevels(s1, i, lv + 1, hi);
      assert t[|s|..] == s1[|s|..] + t[|s1|..];
    }
  }

  /** The block of the epoch itself comes after the levels that it links to. */
  lemma AddServerAscends(p: Params, world: World, ep: nat, i: nat, s: seq<Entry>)
    requires AllFormed(p, world) && i < p.n && ConfirmUntil(p, world(ep), i) <= ep
    ensures Adding(s, AddServer(p, world, ep, i, s), i, i + 1)
  {
    hide AddLevels, ConfirmUntil, LastLevel;
    var lv, hi := LastLevel(p, world, ep, i), ConfirmUntil(p, world(ep), i);
    var t := AddLevels(s, i, lv, hi);
    AddLevelsAscends(s, i, lv, hi);
    assert AddOnce(t, Entry(ep, i))[|s|..] == t[|s|..] + AddOnce(t, Entry(ep, i))[|t|..];
  }

  lemma {:induction false} AddEpochAscends(p: Params, world: World, ep: nat, i: nat, s: seq<Entry>)
    requires AllFormed(p, world) && i <= p.n && forall j: nat :: j < p.n ==> ConfirmUntil(p, world(ep), j) <= ep
    ensures Adding(s, AddEpoch(p, world, ep, i, s), i, p.n)
    decreases p.n - i
  {
    hide AddServer, ConfirmUntil, Adding, AllFormed;
    if i < p.n {
      var t := AddServer(p, world, ep, i, s);
      AddServerAscends(p, world, ep, i, s);
      AddEpochAscends(p, world, ep, i + 1, t);
      AddingMore(s, t, AddEpoch(p, world, ep, i + 1, t), i, i + 1, p.n);
    } else {
      AddingNothing(s, i);
    }
  }

  lemma AddingNothing(s: seq<Entry>, i: nat)
    ensures Adding(s, s, i, i)
  {
  }

  /** Block x comes before block y: it is confirmed by an earlier epoch, or by the same and stands before it there. */
  ghost predicate Precedes(p: Params, world: World, x: Entry, y: Entry)
    requires AllFormed(p, world)
  {
    && (forall e: nat :: Confirmed(p, world, e, y) ==> Confirmed(p, world, e, x))
    && ((forall e: nat :: Confirmed(p, world, e, x) ==> Confirmed(p, world, e, y)) ==> Before(x, y))
  }

  lemma ConfirmedStays(p: Params, world: World, j: nat, k: nat, x: Entry)
    requires AllFormed(p, world) && j <= k && Confirmed(p, world, j, x)
    ensures Confirmed(p, world, k, x)
  {
    hide Log, TopLevel, ConfirmUntil, Formed;
    LogIsExact(p, world, j);
    LogIsExact(p, world, k);
    LogGrows(p, world, j, k);
  }

  /** What epoch k confirms comes after what was confirmed before. */
  lemma OldPrecedes(p: Params, world: World, k: nat, x: Entry, y: Entry)
    requires AllFormed(p, world) && Confirmed(p, world, k, x) && !Confirmed(p, world, k, y)
    ensures Precedes(p, world, x, y)
  {
    hide Confirmed;
    forall e: nat | Confirmed(p, world, e, y)
      ensures Confirmed(p, world, e, x)
    {
      if e < k {
        ConfirmedStays(p, world, e, k, y);
      }
      ConfirmedStays(p, world, k, e, x);
    }
  }

  /** What one epoch newly confirms is in order of servers and epochs. */
  lemma NewPrecedes(p: Params, world: World, k: nat, x: Entry, y: Entry)
    requires AllFormed(p, world) && Before(x, y) && !Confirmed(p, world, k, x) && !Confirmed(p, world, k, y)
    requires Confirmed(p, world, k + 1, x) && Confirmed(p, world, k + 1, y)
    ensures Precedes(p, world, x, y)
  {
    hide Confirmed;
    forall e: nat | Confirmed(p, world, e, y)
      ensures Confirmed(p, world, e, x)
    {
      if e <= k {
        ConfirmedStays(p, world, e, k, y);
      }
      ConfirmedStays(p, world, k + 1, e, x);
    }
  }

  /** The order of the log: by the epoch that confirms a block first, then by server, then by the epoch of the block. */
  lemma {:induction false} LogIsOrdered(p: Params, world: World, k: nat)
    requires AllFormed(p, world) && Linked(p, world)
    ensures forall a, b :: 0 <= a < b < |Log(p, world, k)| ==> Precedes(p, world, Log(p, world, k)[a], Log(p, world, k)[b])
  {
    hide Confirmed, Precedes, AddEpoch, AllFormed, ConfirmUntil, Before;
    if k > 0 {
      var s, t := Log(p, world, k - 1), Log(p, world, k);
      LogIsOrdered(p, world, k - 1);
      LogIsExact(p, world, k - 1);
      LogIsExact(p, world, k);
      AddEpochAscends(p, world, k - 1, 0, s);
      forall a, b | 0 <= a < b < |t|
        ensures Precedes(p, world, t[a], t[b])
      {
        assert t[a] in t && t[b] in t;
        if b < |s| {
          assert t[a] == s[a] && t[b] == s[b];
        } else if a < |s| {
          assert t[a] == s[a];
          NewIsNew(s, t, b);
          OldPrecedes(p, world, k - 1, t[a], t[b]);
        } else {
          NewIsNew(s, t, a);
          NewIsNew(s, t, b);
          assert t[|s|..][a - |s|] == t[a] && t[|s|..][b - |s|] == t[b];
          NewPrecedes(p, world, k - 1, t[a], t[b]);
        }
      }
    }
  }

  lemma NewIsNew(s: seq<Entry>, t: seq<Entry>, b: nat)
    requires s <= t && Distinct(t) && |s| <= b < |t|
    ensures t[b] !in s
  {
    forall c | 0 <= c < |s|
      ensures s[c] != t[b]
    {
      assert t[c] == s[c] && t[c] != t[b];
    }
  }
}
