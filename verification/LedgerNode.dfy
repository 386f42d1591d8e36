/**
 The object of pika/pika.go that orders the blocks on one server (the part of Pika behind PrintProbes), refining
 `LedgerOrder`. What the epochs of the server know agrees with one `world`, the fate of every epoch.
 */
module LedgerNode {
  import opened Common
  import opened Dispersal
  import opened Ledger
  import opened LedgerOrder

  /** A decoded block; its body is dropped once it has been confirmed. */
  datatype Kept = Kept(references: seq<nat>, body: Option<Bytes>)

  /** What an epoch of this server knows, and which of its blocks have been confirmed. */
  datatype Record = Record(termed: bool, accepted: seq<bool>, blocks: seq<Option<Kept>>, dispersed: seq<bool>,
                           retrieved: seq<bool>, outputted: seq<bool>, confirmUntil: Option<seq<nat>>)

  /** The confirmation of a block. */
  datatype Line = Line(epoch: nat, server: nat, body: Bytes)

  function ConfirmLevels(p: Params, fate: Fate): (cu: seq<nat>)
    requires p.Resilient() && Formed(p, fate)
    ensures |cu| == p.n
  {
    seq(p.n, i requires 0 <= i < p.n => ConfirmUntil(p, fate, i))
  }

  predicate RecordSized(p: Params, r: Record) {
    |r.accepted| == |r.blocks| == |r.dispersed| == |r.retrieved| == |r.outputted| == p.n
  }

  /** Block i of record r of epoch e agrees with the world. */
  ghost predicate BlockOk(p: Params, world: World, e: nat, r: Record, done: seq<Entry>, i: nat)
    requires AllFormed(p, world) && RecordSized(p, r) && i < p.n
  {
    && (r.outputted[i] <==> Entry(e, i) in done)
    && (r.blocks[i].Some? ==>
          var b := world(e).blocks[i];
          r.blocks[i].value == Kept(b.references, if r.outputted[i] then None else Some(b.body)))
    && (r.retrieved[i] ==> r.blocks[i].Some?)
    && (r.termed && r.accepted[i] ==> r.blocks[i].Some?)
  }

  ghost predicate RecordOk(p: Params, world: World, e: nat, r: Record, done: seq<Entry>)
    requires AllFormed(p, world)
  {
    && RecordSized(p, r)
    && (forall i: nat :: i < p.n ==> BlockOk(p, world, e, r, done, i))
    && (r.termed ==> r.accepted == world(e).accepted)
    && (r.confirmUntil.Some? ==> r.termed && r.confirmUntil.value == ConfirmLevels(p, world(e)))
  }

  ghost predicate InRange(p: Params, done: seq<Entry>, k: nat) {
    forall x :: x in done ==> x.server < p.n && x.epoch < k
  }

  /** The confirmations of the blocks of done. */
  ghost function Lines(p: Params, world: World, done: seq<Entry>): seq<Line>
    requires AllFormed(p, world) && forall x :: x in done ==> x.server < p.n
  {
    seq(|done|, k requires 0 <= k < |done| =>
      assert done[k] in done;
      Line(done[k].epoch, done[k].server, world(done[k].epoch).blocks[done[k].server].body))
  }

  /** The level that block j asks for, as far as the record says. */
  lemma LevelAt(p: Params, world: World, e: nat, r: Record, done: seq<Entry>, i: nat, j: nat)
    requires AllFormed(p, world) && RecordOk(p, world, e, r, done) && r.termed && i < p.n && j < p.n
    ensures |r.accepted| == |r.blocks| == p.n
    ensures r.accepted[j] ==> r.blocks[j].Some? && |r.blocks[j].value.references| == p.n
    ensures Levels(p, world(e), i)[j] == if r.accepted[j] then r.blocks[j].value.references[i] else 0
  {
    assert BlockOk(p, world, e, r, done, j);
  }

  function FreshRecord(p: Params): Record {
    Record(false, seq(p.n, i => false), seq(p.n, i => None), seq(p.n, i => false), seq(p.n, i => false),
           seq(p.n, i => false), None)
  }

  /** Epochs up to a frontier have the blocks of server i. */
  ghost predicate HaveBlocks(epochs: seq<Record>, i: nat, k: nat) {
    k <= |epochs| && forall e: nat :: e < k ==> i < |epochs[e].blocks| && epochs[e].blocks[i].Some?
  }

  ghost predicate HaveDispersed(epochs: seq<Record>, i: nat, k: nat) {
    k <= |epochs| && forall e: nat :: e < k ==> i < |epochs[e].dispersed| && epochs[e].dispersed[i]
  }

  /** The dispersals of server i that have been seen complete, by epoch. */
  ghost function DispersedMarks(epochs: seq<Record>, i: nat): seq<bool>
    requires forall e :: 0 <= e < |epochs| ==> i < |epochs[e].dispersed|
  {
    seq(|epochs|, e requires 0 <= e < |epochs| => epochs[e].dispersed[i])
  }

  lemma GapFound(epochs: seq<Record>, i: nat, k: nat)
    requires forall e :: 0 <= e < |epochs| ==> i < |epochs[e].dispersed|
    requires HaveDispersed(epochs, i, k) && (k < |epochs| ==> !epochs[k].dispersed[i])
    ensures FirstGap(DispersedMarks(epochs, i), 0) == k
  {
    FirstGapIs(DispersedMarks(epochs, i), 0, k);
  }

  /** Nothing that a record knows of its epoch has changed, but a block may have lost its body. */
  ghost predicate SameFacts(a: Record, b: Record) {
    && a.termed == b.termed && a.accepted == b.accepted && a.dispersed == b.dispersed
    && |a.blocks| == |b.blocks| && forall i :: 0 <= i < |a.blocks| ==> (a.blocks[i].Some? <==> b.blocks[i].Some?)
  }

  ghost predicate AllSameFacts(a: seq<Record>, b: seq<Record>) {
    |a| == |b| && forall e: nat :: e < |a| ==> SameFacts(a[e], b[e])
  }

  lemma SameFactsTogether(a: seq<Record>, b: seq<Record>, c: seq<Record>)
    requires AllSameFacts(a, b) && AllSameFacts(b, c)
    ensures AllSameFacts(a, c)
  {
    forall e: nat | e < |a|
      ensures SameFacts(a[e], c[e])
    {
      assert SameFacts(a[e], b[e]) && SameFacts(b[e], c[e]);
    }
  }

  lemma SameFactsSelf(a: seq<Record>)
    ensures AllSameFacts(a, a)
  {
  }

  lemma FrontierStays(a: seq<Record>, b: seq<Record>, i: nat, k: nat)
    requires AllSameFacts(a, b)
    ensures HaveBlocks(a, i, k) ==> HaveBlocks(b, i, k)
    ensures HaveDispersed(a, i, k) ==> HaveDispersed(b, i, k)
  {
    forall e: nat | e < |a|
      ensures SameFacts(a[e], b[e])
    {
    }
  }

  lemma WithLevels(p: Params, world: World, e: nat, r: Record, done: seq<Entry>)
    requires AllFormed(p, world) && RecordOk(p, world, e, r, done) && r.termed
    ensures RecordOk(p, world, e, r.(confirmUntil := Some(ConfirmLevels(p, world(e)))), done)
  {
    hide ConfirmUntil, Formed;
    forall i: nat | i < p.n
      ensures BlockOk(p, world, e, r.(confirmUntil := Some(ConfirmLevels(p, world(e)))), done, i)
    {
      assert BlockOk(p, world, e, r, done, i);
    }
  }

  lemma WithRetrieved(p: Params, world: World, e: nat, r: Record, done: seq<Entry>, i: nat)
    requires AllFormed(p, world) && RecordOk(p, world, e, r, done) && i < p.n && r.blocks[i].Some?
    ensures RecordOk(p, world, e, r.(retrieved := r.retrieved[i := true]), done)
  {
    hide ConfirmUntil, Formed;
    var r' := r.(retrieved := r.retrieved[i := true]);
    forall j: nat | j < p.n
      ensures BlockOk(p, world, e, r', done, j)
    {
      assert BlockOk(p, world, e, r, done, j);
    }
  }

  /** Confirming a block of another epoch does not matter to a record. */
  lemma OthersConfirmed(p: Params, world: World, e: nat, r: Record, done: seq<Entry>, x: Entry)
    requires AllFormed(p, world) && RecordOk(p, world, e, r, done) && x.epoch != e
    ensures RecordOk(p, world, e, r, done + [x])
  {
    hide ConfirmUntil, Formed;
    forall j: nat | j < p.n
      ensures BlockOk(p, world, e, r, done + [x], j)
    {
      assert BlockOk(p, world, e, r, done, j);
    }
  }

  function WithOutput(r: Record, i: nat): Record
    requires i < |r.outputted| && i < |r.blocks| && r.blocks[i].Some?
  {
    r.(outputted := r.outputted[i := true], blocks := r.blocks[i := Some(r.blocks[i].value.(body := None))])
  }

  lemma OwnConfirmed(p: Params, world: World, e: nat, r: Record, done: seq<Entry>, i: nat)
    requires AllFormed(p, world) && RecordOk(p, world, e, r, done) && i < p.n && r.blocks[i].Some?
    ensures RecordOk(p, world, e, WithOutput(r, i), done + [Entry(e, i)])
  {
    hide ConfirmUntil, Formed;
    assert BlockOk(p, world, e, r, done, i);
    forall j: nat | j < p.n
      ensures BlockOk(p, world, e, WithOutput(r, i), done + [Entry(e, i)], j)
    {
      assert BlockOk(p, world, e, r, done, j);
    }
  }

  lemma LinesGrow(p: Params, world: World, done: seq<Entry>, x: Entry)
    requires AllFormed(p, world) && x.server < p.n && forall y :: y in done ==> y.server < p.n
    ensures Lines(p, world, done + [x]) == Lines(p, world, done) + [Line(x.epoch, x.server, world(x.epoch).blocks[x.server].body)]
  {
    hide ConfirmUntil, Formed;
  }

  /** Every block of server i before epoch k is there. */
  ghost predicate HaveBlocksUntil(epochs: seq<Record>, i: nat, k: nat) {
    forall e: nat :: e < k && e < |epochs| ==> i < |epochs[e].blocks| && epochs[e].blocks[i].Some?
  }

  /** The blocks that epoch ep confirms by its links are there. */
  ghost predicate BlocksThere(p: Params, world: World, epochs: seq<Record>, ep: nat)
    requires AllFormed(p, world)
  {
    forall i: nat :: i < p.n ==> HaveBlocksUntil(epochs, i, ConfirmUntil(p, world(ep), i))
  }

  lemma UntilFrontier(epochs: seq<Record>, i: nat, k: nat, level: nat)
    requires HaveBlocks(epochs, i, k) && level <= k
    ensures HaveBlocksUntil(epochs, i, level)
  {
  }

  lemma UntilStays(a: seq<Record>, b: seq<Record>, i: nat, k: nat)
    requires AllSameFacts(a, b) && HaveBlocksUntil(a, i, k)
    ensures HaveBlocksUntil(b, i, k)
  {
    forall e: nat | e < |a|
      ensures SameFacts(a[e], b[e])
    {
    }
  }

  lemma ThereStays(p: Params, world: World, a: seq<Record>, b: seq<Record>, ep: nat)
    requires AllFormed(p, world) && AllSameFacts(a, b) && BlocksThere(p, world, a, ep)
    ensures BlocksThere(p, world, b, ep)
  {
    hide ConfirmUntil, Formed, HaveBlocksUntil;
    forall i: nat | i < p.n
      ensures HaveBlocksUntil(b, i, ConfirmUntil(p, world(ep), i))
    {
      UntilStays(a, b, i, ConfirmUntil(p, world(ep), i));
    }
  }

  lemma TermedStays(a: seq<Record>, b: seq<Record>, e: nat)
    requires AllSameFacts(a, b) && e < |a|
    ensures a[e].termed == b[e].termed && a[e].accepted == b[e].accepted
  {
    assert SameFacts(a[e], b[e]);
  }

  lemma AllTermedStays(a: seq<Record>, b: seq<Record>, k: nat)
    requires AllSameFacts(a, b) && k < |a| && a[k].termed && forall e: nat :: e < k ==> a[e].termed
    ensures b[k].termed && forall e: nat :: e < k ==> b[e].termed
  {
    forall e: nat | e < |a|
      ensures SameFacts(a[e], b[e])
    {
    }
  }

  lemma LinesPrefix(p: Params, world: World, a: seq<Entry>, b: seq<Entry>)
    requires AllFormed(p, world) && a <= b && forall x :: x in b ==> x.server < p.n
    ensures (forall x :: x in a ==> x.server < p.n) && Lines(p, world, a) <= Lines(p, world, b)
  {
    hide ConfirmUntil, Formed;
    forall x | x in a
      ensures x in b
    {
      var k :| 0 <= k < |a| && a[k] == x;
      assert b[k] == x;
    }
  }

  /** r knows all that was known, and leaves alone what the ledger keeps. */
  ghost predicate Progress(before: Record, r: Record) {
    && r.outputted == before.outputted && r.confirmUntil == before.confirmUntil
    && (before.termed ==> r.termed)
    && |r.blocks| == |before.blocks| && |r.dispersed| == |before.dispersed|
    && (forall i :: 0 <= i < |r.blocks| && before.blocks[i].Some? ==> r.blocks[i].Some?)
    && (forall i :: 0 <= i < |r.dispersed| && before.dispersed[i] ==> r.dispersed[i])
  }

  class LedgerServer {
    const p: Params
    ghost const world: World
    var epochs: seq<Record>
    var firstUnoutput: nat
    var firstUnretrieved: seq<nat>
    var firstUndispersed: seq<nat>
    var firstUninited: nat
    /** What has been printed. */
    var log: seq<Line>
    /** The blocks confirmed so far. */
    ghost var done: seq<Entry>

    /** The records agree with the world and with what has been confirmed so far. */
    ghost predicate Consistent()
      reads this
    {
      && AllFormed(p, world) && Linked(p, world)
      && (forall e: nat :: e < |epochs| ==> RecordOk(p, world, e, epochs[e], done))
      && InRange(p, done, |epochs|)
      && log == Lines(p, world, done)
    }

    ghost predicate FrontiersOk()
      reads this
    {
      && |firstUnretrieved| == |firstUndispersed| == p.n
      && forall i: nat :: i < p.n ==> HaveBlocks(epochs, i, firstUnretrieved[i]) && HaveDispersed(epochs, i, firstUndispersed[i])
    }

    ghost predicate Valid()
      reads this
    {
      && Consistent() && FrontiersOk()
      && firstUnoutput <= |epochs| && (forall e: nat :: e < firstUnoutput ==> epochs[e].termed)
      && done == Log(p, world, firstUnoutput)
    }

    constructor (p: Params, ghost world: World)
      requires AllFormed(p, world) && Linked(p, world)
      ensures Valid() && this.p == p && this.world == world && epochs == [FreshRecord(p)]
      ensures firstUnoutput == firstUninited == 0 && log == []
    {
      hide Ledger.ConfirmUntil, Formed;
      this.p, this.world := p, world;
      epochs := [FreshRecord(p)];
      firstUnoutput, firstUnretrieved, firstUndispersed, firstUninited := 0, seq(p.n, i => 0), seq(p.n, i => 0), 0;
      log, done := [], [];
    }

    /** The levels that an epoch confirms, computed once. */
    method ConfirmUntil(ep: nat) returns (cu: seq<nat>)
      requires Consistent() && ep < |epochs| && epochs[ep].termed
      modifies this`epochs
      ensures Consistent() && cu == ConfirmLevels(p, world(ep))
      ensures AllSameFacts(old(epochs), epochs)
    {
      hide Ledger.ConfirmUntil, Formed, BlockOk;
      var r := epochs[ep];
      assert RecordOk(p, world, ep, r, done);
      if r.confirmUntil.Some? {
        cu := r.confirmUntil.value;
        return;
      }
      cu := ComputeLevels(r, ep);
      WithLevels(p, world, ep, r, done);
      epochs := epochs[ep := r.(confirmUntil := Some(cu))];
    }

    method ComputeLevels(r: Record, ghost e: nat) returns (cu: seq<nat>)
      requires AllFormed(p, world) && RecordOk(p, world, e, r, done) && r.termed
      ensures cu == ConfirmLevels(p, world(e))
    {
      hide Sort, Levels;
      var out := new nat[p.n](_ => 0);
      for i := 0 to p.n
        invariant out[..i] == ConfirmLevels(p, world(e))[..i]
      {
        var levels := new nat[p.n](_ => 0);
        for j := 0 to p.n
          invariant forall l: nat :: l < j ==> levels[l] == Levels(p, world(e), i)[l]
          invariant forall l: nat :: j <= l < p.n ==> levels[l] == 0
          modifies levels
        {
          LevelAt(p, world, e, r, done, i, j);
          if r.accepted[j] {
            levels[j] := r.blocks[j].value.references[i];
          }
        }
        assert levels[..] == Levels(p, world(e), i);
        var sorted := Sort(levels[..]);
        ghost var before := out[..i];
        out[i] := sorted[p.n - p.f - 1];
        ghost var cus := ConfirmLevels(p, world(e));
        assert out[i] == cus[i] && out[..i] == before;
        assert cus[..i + 1] == cus[..i] + [cus[i]] && out[..i + 1] == out[..i] + [out[i]];
      }
      cu := out[..];
    }

    /** Whether the block of server i is there; remembered once it is. */
    method PayloadRetrieved(e: nat, i: nat) returns (there: bool)
      requires Consistent() && e < |epochs| && i < p.n
      modifies this`epochs
      ensures Consistent() && AllSameFacts(old(epochs), epochs)
      ensures i < |epochs[e].blocks| && (there <==> epochs[e].blocks[i].Some?)
    {
      hide Ledger.ConfirmUntil, Formed;
      var r := epochs[e];
      assert RecordOk(p, world, e, r, done) && BlockOk(p, world, e, r, done, i);
      there := r.retrieved[i];
      if !there && r.blocks[i].Some? {
        WithRetrieved(p, world, e, r, done, i);
        epochs := epochs[e := r.(retrieved := r.retrieved[i := true])];
        there := true;
      }
    }

    /** The first epoch whose block of server i is not there. */
    method FirstUnretrieved(i: nat) returns (k: nat)
      requires Consistent() && FrontiersOk() && i < p.n
      modifies this`epochs, this`firstUnretrieved
      ensures Consistent() && FrontiersOk() && AllSameFacts(old(epochs), epochs)
      ensures HaveBlocks(epochs, i, k)
      ensures k < |epochs| ==> i < |epochs[k].blocks| && epochs[k].blocks[i].None?
    {
      hide Ledger.ConfirmUntil, Formed, RecordOk;
      k := firstUnretrieved[i];
      while k < |epochs|
        invariant Consistent() && FrontiersOk() && AllSameFacts(old(epochs), epochs)
        invariant k <= |epochs| && k == firstUnretrieved[i]
      {
        ghost var before := epochs;
        var there := PayloadRetrieved(k, i);
        SameFactsTogether(old(epochs), before, epochs);
        FrontiersStay(before);
        if !there {
          return;
        }
        k := k + 1;
        firstUnretrieved := firstUnretrieved[i := k];
      }
    }

    lemma FrontiersStay(before: seq<Record>)
      requires |firstUnretrieved| == |firstUndispersed| == p.n && AllSameFacts(before, epochs)
      requires forall i: nat :: i < p.n ==> HaveBlocks(before, i, firstUnretrieved[i]) && HaveDispersed(before, i, firstUndispersed[i])
      ensures FrontiersOk()
    {
      forall i: nat | i < p.n
        ensures HaveBlocks(epochs, i, firstUnretrieved[i]) && HaveDispersed(epochs, i, firstUndispersed[i])
      {
        FrontierStays(before, epochs, i, firstUnretrieved[i]);
        FrontierStays(before, epochs, i, firstUndispersed[i]);
      }
    }

    /** Confirms a block: prints it, marks it and drops its body. */
    method Confirm(e: nat, i: nat)
      requires Consistent() && e < |epochs| && i < p.n && RecordSized(p, epochs[e])
      requires epochs[e].blocks[i].Some? && !epochs[e].outputted[i]
      modifies this`epochs, this`log, this`done
      ensures Consistent() && AllSameFacts(old(epochs), epochs) && done == AddOnce(old(done), Entry(e, i))
    {
      hide Ledger.ConfirmUntil, Formed;
      var r := epochs[e];
      assert RecordOk(p, world, e, r, done) && BlockOk(p, world, e, r, done, i);
      forall f: nat | f < |epochs| && f != e
        ensures RecordOk(p, world, f, epochs[f], done + [Entry(e, i)])
      {
        OthersConfirmed(p, world, f, epochs[f], done, Entry(e, i));
      }
      OwnConfirmed(p, world, e, r, done, i);
      LinesGrow(p, world, done, Entry(e, i));
      epochs := epochs[e := WithOutput(r, i)];
      log := log + [Line(e, i, r.blocks[i].value.body.value)];
      done := done + [Entry(e, i)];
    }

    /** Whether every block that epoch ep confirms is there. */
    method BlocksReady(ep: nat) returns (ready: bool)
      requires Consistent() && FrontiersOk() && ep < |epochs| && epochs[ep].termed
      modifies this`epochs, this`firstUnretrieved
      ensures Consistent() && FrontiersOk() && AllSameFacts(old(epochs), epochs)
      ensures ready <==> BlocksThere(p, world, epochs, ep)
    {
      hide Ledger.ConfirmUntil, Formed, RecordOk, HaveBlocks;
      ghost var before := epochs;
      var levels := ConfirmUntil(ep);
      FrontiersStay(before);
      ready := true;
      for i := 0 to p.n
        invariant Consistent() && FrontiersOk() && AllSameFacts(old(epochs), epochs)
        invariant forall j: nat :: j < i ==> HaveBlocksUntil(epochs, j, Ledger.ConfirmUntil(p, world(ep), j))
      {
        ghost var earlier := epochs;
        var k := FirstUnretrieved(i);
        SameFactsTogether(old(epochs), earlier, epochs);
        if k < levels[i] {
          assert Ledger.ConfirmUntil(p, world(ep), i) <= ep;
          assert !HaveBlocksUntil(epochs, i, Ledger.ConfirmUntil(p, world(ep), i));
          ready := false;
          return;
        }
        UntilFrontier(epochs, i, k, levels[i]);
        forall j: nat | j < i
          ensures HaveBlocksUntil(epochs, j, Ledger.ConfirmUntil(p, world(ep), j))
        {
          UntilStays(earlier, epochs, j, Ledger.ConfirmUntil(p, world(ep), j));
        }
      }
    }

    /** Confirms the levels of server i from lv up to hi. */
    method PrintLevels(i: nat, lv: nat, hi: nat)
      requires Consistent() && i < p.n && HaveBlocksUntil(epochs, i, hi) && hi <= |epochs|
      modifies this`epochs, this`log, this`done
      ensures Consistent() && AllSameFacts(old(epochs), epochs) && done == AddLevels(old(done), i, lv, hi)
    {
      hide Ledger.ConfirmUntil, Formed, AddOnce;
      var l := lv;
      while l < hi
        invariant Consistent() && AllSameFacts(old(epochs), epochs) && HaveBlocksUntil(epochs, i, hi)
        invariant AddLevels(done, i, l, hi) == AddLevels(old(done), i, lv, hi)
      {
        ghost var before := epochs;
        ConfirmOnce(l, i);
        SameFactsTogether(old(epochs), before, epochs);
        UntilStays(before, epochs, i, hi);
        l := l + 1;
      }
    }

    /** Confirms a block unless it has been. */
    method ConfirmOnce(e: nat, i: nat)
      requires Consistent() && e < |epochs| && i < p.n && i < |epochs[e].blocks| && epochs[e].blocks[i].Some?
      modifies this`epochs, this`log, this`done
      ensures Consistent() && AllSameFacts(old(epochs), epochs) && done == AddOnce(old(done), Entry(e, i))
    {
      hide Ledger.ConfirmUntil, Formed;
      assert RecordOk(p, world, e, epochs[e], done) && BlockOk(p, world, e, epochs[e], done, i);
      if !epochs[e].outputted[i] {
        Confirm(e, i);
      }
    }

    /** Prints what epoch ep confirms. The epochs before it have been printed. */
    method PrintProbes(ep: nat)
      requires Valid() && ep == firstUnoutput < |epochs| && epochs[ep].termed && BlocksThere(p, world, epochs, ep)
      modifies this`epochs, this`log, this`done
      ensures Consistent() && AllSameFacts(old(epochs), epochs) && done == Log(p, world, ep + 1)
    {
      hide Ledger.ConfirmUntil, Formed, RecordOk, AddServer;
      var lastLevels: seq<nat> := seq(p.n, i => 0);
      if ep != 0 {
        assert epochs[ep - 1].termed;
        lastLevels := ConfirmUntil(ep - 1);
      }
      assert forall i: nat :: i < p.n ==> lastLevels[i] == LastLevel(p, world, ep, i);
      TermedStays(old(epochs), epochs, ep);
      ghost var first := epochs;
      var thisLevels := ConfirmUntil(ep);
      SameFactsTogether(old(epochs), first, epochs);
      ThereStays(p, world, old(epochs), epochs, ep);
      for i := 0 to p.n
        invariant Consistent() && AllSameFacts(old(epochs), epochs) && BlocksThere(p, world, epochs, ep)
        invariant AddEpoch(p, world, ep, i, done) == Log(p, world, ep + 1)
      {
        ghost var before := epochs;
        TermedStays(old(epochs), epochs, ep);
        PrintServer(ep, i, lastLevels[i], thisLevels[i]);
        SameFactsTogether(old(epochs), before, epochs);
        ThereStays(p, world, before, epochs, ep);
      }
    }

    /** Prints what epoch ep confirms of server i. */
    method PrintServer(ep: nat, i: nat, last: nat, level: nat)
      requires Consistent() && ep < |epochs| && epochs[ep].termed && BlocksThere(p, world, epochs, ep) && i < p.n
      requires last == LastLevel(p, world, ep, i) && level == Ledger.ConfirmUntil(p, world(ep), i)
      modifies this`epochs, this`log, this`done
      ensures Consistent() && AllSameFacts(old(epochs), epochs) && done == AddServer(p, world, ep, i, old(done))
    {
      hide Ledger.ConfirmUntil, Formed, AddOnce, AddLevels, LastLevel;
      assert Ledger.ConfirmUntil(p, world(ep), i) <= ep;
      PrintLevels(i, last, level);
      TermedStays(old(epochs), epochs, ep);
      assert RecordOk(p, world, ep, epochs[ep], done) && BlockOk(p, world, ep, epochs[ep], done, i);
      if epochs[ep].accepted[i] {
        ghost var before := epochs;
        ConfirmOnce(ep, i);
        SameFactsTogether(old(epochs), before, epochs);
      }
    }

    /** Outputs the next epoch, if it has terminated and all that it confirms is there. */
    method OutputEpoch() returns (output: bool)
      requires Valid() && firstUnoutput < |epochs|
      modifies this`epochs, this`log, this`done, this`firstUnoutput, this`firstUnretrieved
      ensures Valid() && AllSameFacts(old(epochs), epochs)
      ensures firstUnoutput == old(firstUnoutput) + if output then 1 else 0
      ensures output <==> epochs[old(firstUnoutput)].termed && BlocksThere(p, world, epochs, old(firstUnoutput))
    {
      hide Ledger.ConfirmUntil, Formed, RecordOk, HaveBlocks, Log, InRange;
      var ep := firstUnoutput;
      output := false;
      if !epochs[ep].termed {
        SameFactsSelf(epochs);
        return;
      }
      output := BlocksReady(ep);
      ghost var before := epochs;
      AllTermedStays(old(epochs), before, ep);
      if output {
        PrintProbes(ep);
        ThereStays(p, world, before, epochs, ep);
        SameFactsTogether(old(epochs), before, epochs);
        AllTermedStays(before, epochs, ep);
        FrontiersStay(before);
        firstUnoutput := ep + 1;
      }
    }

    /** Outputs as many epochs as possible, in order. */
    method OutputEpochs()
      requires Valid()
      modifies this`epochs, this`log, this`done, this`firstUnoutput, this`firstUnretrieved
      ensures Valid() && AllSameFacts(old(epochs), epochs)
      ensures firstUnoutput >= old(firstUnoutput) && old(log) <= log
      ensures firstUnoutput == |epochs| || !epochs[firstUnoutput].termed || !BlocksThere(p, world, epochs, firstUnoutput)
    {
      hide Ledger.ConfirmUntil, Formed, RecordOk, HaveBlocks, Log;
      var more := true;
      while more && firstUnoutput < |epochs|
        invariant Valid() && AllSameFacts(old(epochs), epochs) && firstUnoutput >= old(firstUnoutput)
        invariant more || (firstUnoutput < |epochs| && !(epochs[firstUnoutput].termed && BlocksThere(p, world, epochs, firstUnoutput)))
        decreases |epochs| - firstUnoutput, more
      {
        ghost var before := epochs;
        more := OutputEpoch();
        SameFactsTogether(old(epochs), before, epochs);
      }
      LogGrows(p, world, old(firstUnoutput), firstUnoutput);
      LinesPrefix(p, world, old(done), done);
    }

    /** The first epoch of server i whose dispersal has not been seen complete. */
    method FirstUndispersed(i: nat) returns (k: nat)
      requires Valid() && i < p.n
      modifies this`firstUndispersed
      ensures Valid() && HaveDispersed(epochs, i, k) && k == firstUndispersed[i]
      ensures k < |epochs| ==> i < |epochs[k].dispersed| && !epochs[k].dispersed[i]
    {
      hide Ledger.ConfirmUntil, Formed, BlockOk, HaveBlocks;
      k := firstUndispersed[i];
      while k < |epochs|
        invariant Valid() && k <= |epochs| && k == firstUndispersed[i]
      {
        assert RecordOk(p, world, k, epochs[k], done);
        if !epochs[k].dispersed[i] {
          return;
        }
        k := k + 1;
        firstUndispersed := firstUndispersed[i := k];
      }
    }

    lemma MarksSized(i: nat)
      requires Consistent() && i < p.n
      ensures forall e :: 0 <= e < |epochs| ==> i < |epochs[e].dispersed|
    {
      hide Ledger.ConfirmUntil, Formed, BlockOk;
      forall e: nat | e < |epochs|
        ensures i < |epochs[e].dispersed|
      {
        assert RecordOk(p, world, e, epochs[e], done);
      }
    }

    /** The references of the next block: as far as dispersals have been seen complete, but no further than its epoch. */
    method References() returns (refs: seq<nat>)
      requires Valid()
      modifies this`firstUndispersed
      ensures Valid() && |refs| == p.n
      ensures forall i: nat :: i < p.n ==>
                && (forall e :: 0 <= e < |epochs| ==> i < |epochs[e].dispersed|)
                && refs[i] == Reference(DispersedMarks(epochs, i), firstUninited)
    {
      hide Ledger.ConfirmUntil, Formed, BlockOk, HaveBlocks;
      refs := [];
      for i := 0 to p.n
        invariant Valid() && |refs| == i
        invariant forall j: nat :: j < i ==>
                    && (forall e :: 0 <= e < |epochs| ==> j < |epochs[e].dispersed|)
                    && refs[j] == Reference(DispersedMarks(epochs, j), firstUninited)
      {
        var k := FirstUndispersed(i);
        MarksSized(i);
        GapFound(epochs, i, k);
        if k > firstUninited {
          k := firstUninited;
        }
        refs := refs + [k];
      }
    }

    /** The next own block, and the epoch it is for, which is constructed if need be. */
    method NextBlock(body: Bytes) returns (e: nat, x: Payload)
      requires Valid()
      modifies this`epochs, this`firstUndispersed, this`firstUninited
      ensures Valid() && e == old(firstUninited) && firstUninited == e + 1
      ensures old(epochs) <= epochs && |epochs| == if e < |old(epochs)| then |old(epochs)| else e + 1
      ensures forall f: nat :: |old(epochs)| <= f < |epochs| ==> epochs[f] == FreshRecord(p)
      ensures x.Block? && x.body == body && |x.references| == p.n
      ensures forall i: nat :: i < p.n ==>
                && (forall f :: 0 <= f < |old(epochs)| ==> i < |old(epochs)[f].dispersed|)
                && x.references[i] == Reference(DispersedMarks(old(epochs), i), e)
    {
      hide Ledger.ConfirmUntil, Formed, BlockOk, HaveBlocks, Log, InRange;
      var refs := References();
      e := firstUninited;
      AllocateUntilEpoch(e);
      firstUninited := e + 1;
      x := Block(refs, body);
    }

    /** Constructs the epochs until and including idx. */
    method AllocateUntilEpoch(idx: nat)
      requires Valid()
      modifies this`epochs
      ensures Valid() && old(epochs) <= epochs
      ensures |epochs| == if idx < |old(epochs)| then |old(epochs)| else idx + 1
      ensures forall e: nat :: |old(epochs)| <= e < |epochs| ==> epochs[e] == FreshRecord(p)
    {
      hide Ledger.ConfirmUntil, Formed, Log;
      while |epochs| <= idx
        invariant Valid() && old(epochs) <= epochs
        invariant |epochs| > |old(epochs)| ==> |epochs| <= idx + 1
        invariant forall e: nat :: |old(epochs)| <= e < |epochs| ==> epochs[e] == FreshRecord(p)
        decreases idx - |epochs|
      {
        epochs := epochs + [FreshRecord(p)];
      }
    }

    /** An epoch makes progress: it learns blocks, dispersals and decisions, and forgets nothing. */
    method Learn(e: nat, r: Record)
      requires Valid() && e < |epochs| && RecordOk(p, world, e, r, done) && Progress(epochs[e], r)
      modifies this`epochs
      ensures Valid() && epochs == old(epochs)[e := r]
    {
      hide Ledger.ConfirmUntil, Formed, Log, BlockOk;
      epochs := epochs[e := r];
    }
  }

  /** The block has been printed. */
  ghost predicate Prints(log: seq<Line>, x: Entry) {
    exists k :: 0 <= k < |log| && log[k].epoch == x.epoch && log[k].server == x.server
  }

  /** No block has been printed twice. */
  ghost predicate Once(log: seq<Line>) {
    forall j, k :: 0 <= j < k < |log| ==> log[j].epoch != log[k].epoch || log[j].server != log[k].server
  }

  /** Every line has the body of its block. */
  ghost predicate Bodied(world: World, log: seq<Line>) {
    forall k :: 0 <= k < |log| ==>
      && log[k].server < |world(log[k].epoch).blocks|
      && world(log[k].epoch).blocks[log[k].server].Block?
      && log[k].body == world(log[k].epoch).blocks[log[k].server].body
  }

  /** The lines stand in the order in which their blocks are confirmed. */
  ghost predicate InOrder(p: Params, world: World, log: seq<Line>)
    requires AllFormed(p, world)
  {
    forall a, b :: 0 <= a < b < |log| ==> Precedes(p, world, Entry(log[a].epoch, log[a].server), Entry(log[b].epoch, log[b].server))
  }

  lemma LinesAreOrdered(p: Params, world: World, k: nat)
    requires AllFormed(p, world) && Linked(p, world)
    ensures forall y :: y in Log(p, world, k) ==> y.server < p.n
    ensures InOrder(p, world, Lines(p, world, Log(p, world, k)))
  {
    hide ConfirmUntil, Log, TopLevel, Precedes, Formed;
    LogIsExact(p, world, k);
    LogIsOrdered(p, world, k);
    var done := Log(p, world, k);
    forall a | 0 <= a < |done|
      ensures Entry(Lines(p, world, done)[a].epoch, Lines(p, world, done)[a].server) == done[a]
    {
      assert done[a] in done;
    }
  }

  /** The outputs of any two numbers of epochs: one is a prefix of the other. */
  lemma LogsCompare(p: Params, world: World, j: nat, k: nat)
    requires AllFormed(p, world)
    ensures forall x :: x in Log(p, world, j) || x in Log(p, world, k) ==> x.server < p.n
    ensures var a, b := Lines(p, world, Log(p, world, j)), Lines(p, world, Log(p, world, k));
            a <= b || b <= a
  {
    hide ConfirmUntil, Formed, Log, TopLevel;
    LogIsExact(p, world, j);
    LogIsExact(p, world, k);
    if j <= k {
      LogGrows(p, world, j, k);
      LinesPrefix(p, world, Log(p, world, j), Log(p, world, k));
    } else {
      LogGrows(p, world, k, j);
      LinesPrefix(p, world, Log(p, world, k), Log(p, world, j));
    }
  }

  /** The lines of k epochs: exactly the confirmed blocks, each once, with the body that was dispersed. */
  lemma LinesAreExact(p: Params, world: World, k: nat, x: Entry)
    requires AllFormed(p, world)
    ensures forall y :: y in Log(p, world, k) ==> y.server < p.n
    ensures var log := Lines(p, world, Log(p, world, k));
            (Confirmed(p, world, k, x) <==> Prints(log, x)) && Once(log) && Bodied(world, log)
  {
    hide ConfirmUntil, Log, TopLevel;
    LogIsExact(p, world, k);
    var done := Log(p, world, k);
    var log := Lines(p, world, done);
    forall a | 0 <= a < |log|
      ensures done[a] in done && Entry(log[a].epoch, log[a].server) == done[a] && Formed(p, world(done[a].epoch))
    {
    }
    if Confirmed(p, world, k, x) {
      assert x in done;
      var a :| 0 <= a < |done| && done[a] == x;
      assert log[a].epoch == x.epoch && log[a].server == x.server;
    }
  }
}
