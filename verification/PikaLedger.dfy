/**
 The ledger object on a run: a `LedgerServer` that is told what the epochs of its server come to, step by step, meets
 every precondition on the way, makes the blocks that the server proposes, and prints what the book of the server says.
 */
module PikaLedger {
  import opened Common
  import opened Dispersal
  import opened PikaEpoch
  import opened PikaEpochNetwork
  import opened Ledger
  import opened LedgerOrder
  import opened LedgerNode
  import opened PikaNetwork
  import opened PikaWorld
  import opened PikaRuns
  import PB = PikaEpochBlocks
  import PR = PikaEpochRuns
  import PS = PikaEpochSteps

  function KeptOf(v: VID, outputted: bool): Option<Kept> {
    if !HasBlock(v) then None
    else Some(Kept(v.payload.value.references, if outputted then None else Some(v.payload.value.body)))
  }

  /** What the ledger sees of an epoch; which blocks have been confirmed, the levels, and that a block is there, it remembers
      itself in the record before. */
  function RecordOf(g: Server, s: EpochState, before: Record): (r: Record)
    requires Sized(g, s) && RecordSized(g.p, before)
    ensures RecordSized(g.p, r)
  {
    Record(s.termed,
           seq(g.p.n, i requires 0 <= i < g.p.n => Accepted(s.b[i])),
           seq(g.p.n, i requires 0 <= i < g.p.n => KeptOf(s.v[i], before.outputted[i])),
           seq(g.p.n, i requires 0 <= i < g.p.n => PayloadDispersed(g.VID(i), s.v[i])),
           seq(g.p.n, i requires 0 <= i < g.p.n => before.retrieved[i] || s.retrieved[i]),
           before.outputted, before.confirmUntil)
  }

  /** The record has the facts of the epoch. */
  ghost predicate Tells(g: Server, s: EpochState, r: Record)
    requires Sized(g, s)
  {
    RecordSized(g.p, FreshRecord(g.p)) && SameFacts(r, RecordOf(g, s, FreshRecord(g.p)))
  }

  /** The epochs, the epochs output and the epochs proposed in are those of the book of server q. */
  ghost predicate Mirrors(k: Cluster, st: State, q: nat, epochs: seq<Record>, firstUnoutput: nat, firstUninited: nat)
    requires Shapely(k, st) && q < k.N()
  {
    var b := st.books[q];
    && |epochs| == b.known && firstUnoutput == b.firstUnoutput && firstUninited == |b.proposed|
    && forall e: nat :: e < |epochs| ==> Tells(k.G(q), At(k, st, q, e), epochs[e])
  }

  /** What a step of the run means to one server. */
  datatype Deed =
    | Rest
    | Progresses(epoch: nat, state: EpochState)
    | Proposal(body: Bytes, state: EpochState)
    | Output

  /** Server q is in the same state in all epochs but e. */
  ghost predicate RestsBut(k: Cluster, st: State, next: State, q: nat, e: nat)
    requires Shapely(k, st) && Shapely(k, next) && q < k.N()
  {
    forall f: nat :: f != e ==> At(k, next, q, f) == At(k, st, q, f)
  }

  ghost predicate Rests(k: Cluster, st: State, next: State, q: nat)
    requires Shapely(k, st) && Shapely(k, next) && q < k.N()
  {
    next.books[q] == st.books[q] && forall f: nat :: At(k, next, q, f) == At(k, st, q, f)
  }

  ghost predicate DeedOk(k: Cluster, st: State, next: State, q: nat, d: Deed)
    requires Shapely(k, st) && Shapely(k, next) && q < k.N() && AllFit(k, st)
  {
    match d
    case Rest => Rests(k, st, next, q)
    case Progresses(e, s) =>
      next.books[q] == Constructed(st.books[q], e) && s == At(k, next, q, e) && RestsBut(k, st, next, q, e)
    case Proposal(body, s) =>
      var b := st.books[q];
      var e := |b.proposed|;
      && next.books[q] == Constructed(b, e).(proposed := b.proposed + [Block(NextReferences(k, st, q), body)])
      && s == At(k, next, q, e) && RestsBut(k, st, next, q, e)
    case Output => Outputs(k, st, next, q)
  }

  lemma ActMovesOne(k: Cluster, net: Net, next: Net, r: nat, act: PR.Act, q: nat)
    requires PR.Fit(k, net) && PR.Acts(k, net, next, r, act) && q < k.N() && q != r
    ensures q < |next.nodes| && next.nodes[q] == net.nodes[q]
  {
  }

  lemma WorksIsDeed(k: Cluster, st: State, next: State, r: nat, e: nat, act: PR.Act, q: nat) returns (d: Deed)
    requires Shapely(k, st) && Shapely(k, next) && AllFit(k, st) && q < k.N() && Works(k, st, next, r, e, act)
    ensures DeedOk(k, st, next, q, d)
  {
    hide PR.Acts, PR.Fit, Outputs;
    ActMoves(k, st.nets(e), next.nets(e), r, act);
    if r == q {
      d := Progresses(e, At(k, next, q, e));
    } else {
      d := Rest;
      ActMovesOne(k, st.nets(e), next.nets(e), r, act, q);
      RestingElsewhere(k, st, next, q, e);
    }
  }

  lemma RestingElsewhere(k: Cluster, st: State, next: State, q: nat, e: nat)
    requires Shapely(k, st) && Shapely(k, next) && q < k.N() && OthersRest(st, next, e)
    requires At(k, next, q, e) == At(k, st, q, e) && next.books[q] == st.books[q]
    ensures Rests(k, st, next, q)
  {
  }

  lemma ProposesIsDeed(k: Cluster, st: State, next: State, r: nat, body: Bytes, q: nat) returns (d: Deed)
    requires Shapely(k, st) && Shapely(k, next) && AllFit(k, st) && q < k.N() && Proposes(k, st, next, r, body)
    ensures DeedOk(k, st, next, q, d)
  {
    hide PR.Acts, PR.Fit, Outputs, NextReferences;
    var e, x := |st.books[r].proposed|, Block(NextReferences(k, st, r), body);
    ActMoves(k, st.nets(e), next.nets(e), r, PR.Begin(x));
    if r == q {
      d := Proposal(body, At(k, next, q, e));
    } else {
      d := Rest;
      ActMovesOne(k, st.nets(e), next.nets(e), r, PR.Begin(x), q);
      RestingElsewhere(k, st, next, q, e);
    }
  }

  /** Every step of a run is one of these deeds to each server. */
  lemma MoveIsDeed(k: Cluster, st: State, next: State, q: nat) returns (d: Deed)
    requires Sound(k, st) && Moves(k, st, next) && q < k.N()
    ensures Shapely(k, st) && Shapely(k, next) && AllFit(k, st) && DeedOk(k, st, next, q, d)
  {
    hide Sound, PR.Acts, PR.Forges, PR.Fit, LinksReady, NextReferences, DeedOk, Lasts, Printed;
    SoundIsFit(k, st);
    MoveKeepsSound(k, st, next);
    if r, e, act :| Works(k, st, next, r, e, act) {
      d := WorksIsDeed(k, st, next, r, e, act, q);
    } else if r, body :| Proposes(k, st, next, r, body) {
      d := ProposesIsDeed(k, st, next, r, body, q);
    } else if r :| Outputs(k, st, next, r) {
      d := OutputsIsDeed(k, st, next, r, q);
    } else {
      var e, i, m :| Forges(k, st, next, e, i, m);
      d := ForgesIsDeed(k, st, next, e, i, m, q);
    }
  }

  lemma OutputsIsDeed(k: Cluster, st: State, next: State, r: nat, q: nat) returns (d: Deed)
    requires Shapely(k, st) && Shapely(k, next) && AllFit(k, st) && q < k.N() && Outputs(k, st, next, r)
    ensures DeedOk(k, st, next, q, d)
  {
    hide PR.Fit, LinksReady, Printed;
    d := if r == q then Output else Rest;
  }

  lemma ForgesIsDeed(k: Cluster, st: State, next: State, e: nat, i: nat, m: Env, q: nat) returns (d: Deed)
    requires Shapely(k, st) && Shapely(k, next) && AllFit(k, st) && q < k.N() && Forges(k, st, next, e, i, m)
    ensures DeedOk(k, st, next, q, d)
  {
    hide PR.Fit, Outputs;
    d := Rest;
    RestingElsewhere(k, st, next, q, e);
  }

  /** Epochs that server q has not constructed are untouched. */
  ghost predicate Untouched(k: Cluster, st: State, q: nat)
    requires Shapely(k, st) && q < k.N()
  {
    forall e: nat :: st.books[q].known <= e ==> At(k, st, q, e) == Fresh(k.G(q))
  }

  lemma DeedLeavesUntouched(k: Cluster, st: State, next: State, q: nat, d: Deed)
    requires Shapely(k, st) && Shapely(k, next) && q < k.N() && AllFit(k, st)
    requires DeedOk(k, st, next, q, d) && Untouched(k, st, q)
    ensures Untouched(k, next, q)
  {
    hide PR.Fit, LinksReady, NextReferences, AddEpoch;
    forall e: nat | next.books[q].known <= e
      ensures At(k, next, q, e) == Fresh(k.G(q))
    {
      assert At(k, st, q, e) == Fresh(k.G(q));
      if d.Output? {
        assert next.nets(e) == st.nets(e);
      }
    }
  }

  lemma FreshTells(g: Server)
    ensures Sized(g, Fresh(g)) && Tells(g, Fresh(g), FreshRecord(g.p))
  {
  }

  /** What has been decoded and decided of block i agrees with the world. */
  lemma LearnedBlockOk(k: Cluster, next: State, fin: State, foreign: Foreign, q: nat, e: nat, r: Record, done: seq<Entry>, i: nat)
    requires Sound(k, next) && Sound(k, fin) && Later(k, next, fin) && k.cfg.Correct(q) && i < k.N()
    requires Restores(k.cfg.params, k.codec) && Granted(k, fin, foreign) && AllFormed(k.cfg.params, WorldOf(k, fin, foreign))
    requires RecordSized(k.cfg.params, r) && BlockOk(k.cfg.params, WorldOf(k, fin, foreign), e, r, done, i)
    requires r.blocks[i].Some? ==> HasBlock(At(k, next, q, e).v[i])
    ensures var s, world := At(k, next, q, e), WorldOf(k, fin, foreign);
            var r' := RecordOf(k.G(q), s, r);
            BlockOk(k.cfg.params, world, e, r', done, i) && (r'.termed ==> r'.accepted[i] == world(e).accepted[i])
  {
    hide PR.Ok, Lasts, Granted, Restores, ConfirmUntil, PayloadDispersed, BlockOf, PB.AcceptedSomewhere, ProposalOk;
    assert EpochOk(k, next.nets(e));
    assert PS.FlagsOk(k.G(q), At(k, next, q, e));
    OwnAgrees(k, next, fin, foreign, q, e, i);
  }

  /** What an epoch of server q knows in a later state is a record that the ledger may learn in place of r. */
  lemma LearnIsLegal(k: Cluster, st: State, next: State, fin: State, foreign: Foreign, q: nat, e: nat, r: Record, done: seq<Entry>)
    requires Sound(k, next) && Sound(k, fin) && Later(k, st, next) && Later(k, next, fin) && k.cfg.Correct(q)
    requires Restores(k.cfg.params, k.codec) && Granted(k, fin, foreign) && AllFormed(k.cfg.params, WorldOf(k, fin, foreign))
    requires Tells(k.G(q), At(k, st, q, e), r) && RecordOk(k.cfg.params, WorldOf(k, fin, foreign), e, r, done)
    ensures var s := At(k, next, q, e);
            && RecordOk(k.cfg.params, WorldOf(k, fin, foreign), e, RecordOf(k.G(q), s, r), done)
            && Progress(r, RecordOf(k.G(q), s, r)) && Tells(k.G(q), s, RecordOf(k.G(q), s, r))
  {
    hide Sound, Lasts, Granted, Restores, ConfirmLevels, PayloadDispersed, BlockOf, PB.AcceptedSomewhere, HasBlock, Accepted, BlockOk;
    var g, s, p, world := k.G(q), At(k, next, q, e), k.cfg.params, WorldOf(k, fin, foreign);
    var r' := RecordOf(g, s, r);
    assert Formed(p, world(e));
    LearnBlock(k, st, next, q, e, r, q);
    forall i: nat | i < k.N()
      ensures BlockOk(p, world, e, r', done, i)
      ensures r'.termed ==> r'.accepted[i] == world(e).accepted[i]
      ensures r.blocks[i].Some? ==> r'.blocks[i].Some?
      ensures r.dispersed[i] ==> r'.dispersed[i]
    {
      LearnBlock(k, st, next, q, e, r, i);
      LearnedBlockOk(k, next, fin, foreign, q, e, r, done, i);
    }
  }

  lemma LearnBlock(k: Cluster, st: State, next: State, q: nat, e: nat, r: Record, i: nat)
    requires Later(k, st, next) && k.cfg.Correct(q) && i < k.N() && Tells(k.G(q), At(k, st, q, e), r)
    ensures |r.blocks| == |r.dispersed| == k.N()
    ensures r.blocks[i].Some? ==> HasBlock(At(k, next, q, e).v[i])
    ensures r.dispersed[i] ==> PayloadDispersed(k.G(q).VID(i), At(k, next, q, e).v[i])
    ensures r.termed ==> At(k, next, q, e).termed
  {
    hide PayloadDispersed;
    assert Lasts(k, st, next, e, q);
    assert PB.LastsAt(k.G(q), At(k, st, q, e), At(k, next, q, e), i);
  }

  /** The ledger object and the book see alike whether the next epoch can be output. */
  lemma OutputMatches(k: Cluster, st: State, fin: State, foreign: Foreign, q: nat, epochs: seq<Record>, inited: nat)
    requires Sound(k, st) && Sound(k, fin) && Later(k, st, fin) && k.cfg.Correct(q)
    requires Restores(k.cfg.params, k.codec) && Granted(k, fin, foreign) && AllFormed(k.cfg.params, WorldOf(k, fin, foreign))
    requires AllFormed(k.cfg.params, Own(k, st, q)) && Linked(k.cfg.params, WorldOf(k, fin, foreign))
    requires Mirrors(k, st, q, epochs, st.books[q].firstUnoutput, inited) && st.books[q].firstUnoutput < |epochs|
    ensures var ep := st.books[q].firstUnoutput;
            && epochs[ep].termed == At(k, st, q, ep).termed
            && (epochs[ep].termed ==>
                  (LinksReady(k, st, q, ep) <==> BlocksThere(k.cfg.params, WorldOf(k, fin, foreign), epochs, ep)))
  {
    hide Sound, Lasts, Granted, Restores, Formed, ConfirmUntil, WorldOf, Own, HasBlock;
    var p, world, ep := k.cfg.params, WorldOf(k, fin, foreign), st.books[q].firstUnoutput;
    forall e: nat | e < |epochs|
      ensures epochs[e].termed == At(k, st, q, e).termed && |epochs[e].blocks| == k.N()
      ensures forall i: nat :: i < k.N() ==> (epochs[e].blocks[i].Some? <==> HasBlock(At(k, st, q, e).v[i]))
    {
      assert Tells(k.G(q), At(k, st, q, e), epochs[e]);
    }
    if epochs[ep].termed {
      OwnConfirms(k, st, fin, foreign, q, ep);
      forall i: nat | i < k.N()
        ensures ConfirmUntil(p, world(ep), i) <= ep
      {
      }
    }
  }

  /** The marks of the ledger object are those of the book. */
  lemma MarksMatch(k: Cluster, st: State, q: nat, epochs: seq<Record>, out: nat, inited: nat, i: nat)
    requires Shapely(k, st) && q < k.N() && i < k.N() && Mirrors(k, st, q, epochs, out, inited)
    ensures (forall e :: 0 <= e < |epochs| ==> i < |epochs[e].dispersed|) && DispersedMarks(epochs, i) == Marks(k, st, q, i)
  {
    hide PayloadDispersed, HasBlock, Accepted;
    forall e: nat | e < |epochs|
      ensures i < |epochs[e].dispersed| && epochs[e].dispersed[i] == Sees(k, st, q, i, e)
    {
      assert Tells(k.G(q), At(k, st, q, e), epochs[e]);
    }
  }

  /** State st is on the way to fin, where all that the environment grants is known. */
  ghost predicate Underway(k: Cluster, st: State, fin: State, foreign: Foreign, q: nat) {
    && Sound(k, st) && Sound(k, fin) && Later(k, st, fin) && k.cfg.Correct(q) && AllFit(k, st) && Untouched(k, st, q)
    && Restores(k.cfg.params, k.codec) && Granted(k, fin, foreign)
    && AllFormed(k.cfg.params, WorldOf(k, fin, foreign)) && Linked(k.cfg.params, WorldOf(k, fin, foreign))
  }

  /** The object stands for the book of server q. */
  ghost predicate Stands(a: LedgerServer, k: Cluster, st: State, fin: State, foreign: Foreign, q: nat)
    requires Shapely(k, st) && Shapely(k, fin) && q < k.N()
    reads a
  {
    && a.Valid() && a.p == k.cfg.params && a.world == WorldOf(k, fin, foreign)
    && Mirrors(k, st, q, a.epochs, a.firstUnoutput, a.firstUninited)
  }

  /** Constructing epochs that the server has not touched mirrors them. */
  lemma ConstructedMirror(k: Cluster, st: State, q: nat, before: seq<Record>, after: seq<Record>, f: nat)
    requires Shapely(k, st) && q < k.N() && Untouched(k, st, q) && |before| == st.books[q].known
    requires before <= after && f < |after|
    requires forall e: nat :: e < |before| ==> Tells(k.G(q), At(k, st, q, e), before[e])
    requires forall e: nat :: |before| <= e < |after| ==> after[e] == FreshRecord(k.cfg.params)
    ensures Tells(k.G(q), At(k, st, q, f), after[f])
  {
    hide Tells, Fresh;
    FreshTells(k.G(q));
    if f < |before| {
      assert after[f] == before[f];
    }
  }

  /** The object learns what epoch e has come to. */
  method LearnEpoch(a: LedgerServer, g: Server, e: nat, s: EpochState,
                    ghost k: Cluster, ghost st: State, ghost next: State, ghost fin: State, ghost foreign: Foreign, ghost q: nat)
    requires Underway(k, st, fin, foreign, q) && Underway(k, next, fin, foreign, q) && Later(k, st, next)
    requires g == k.G(q) && s == At(k, next, q, e) && RestsBut(k, st, next, q, e)
    requires a.Valid() && a.p == k.cfg.params && a.world == WorldOf(k, fin, foreign)
    requires |a.epochs| == Constructed(st.books[q], e).known && e < |a.epochs|
    requires forall f: nat :: f < |a.epochs| ==> Tells(k.G(q), At(k, st, q, f), a.epochs[f])
    modifies a`epochs
    ensures a.Valid() && |a.epochs| == |old(a.epochs)|
    ensures forall f: nat :: f < |a.epochs| ==> Tells(k.G(q), At(k, next, q, f), a.epochs[f])
  {
    hide Sound, Lasts, Granted, Restores, Formed, ConfirmUntil, Linked, PR.Fit, Tells, BlockOk, WorldOf;
    ghost var before := a.epochs;
    assert RecordOk(a.p, a.world, e, a.epochs[e], a.done);
    var r := RecordOf(g, s, a.epochs[e]);
    LearnIsLegal(k, st, next, fin, foreign, q, e, before[e], a.done);
    a.Learn(e, r);
    forall f: nat | f < |a.epochs|
      ensures Tells(k.G(q), At(k, next, q, f), a.epochs[f])
    {
      if f != e {
        assert Tells(k.G(q), At(k, st, q, f), before[f]);
      }
    }
  }

  lemma SameTells(g: Server, s: EpochState, before: seq<Record>, after: seq<Record>, f: nat)
    requires Sized(g, s) && AllSameFacts(before, after) && f < |before| && Tells(g, s, before[f])
    ensures Tells(g, s, after[f])
  {
    assert SameFacts(before[f], after[f]);
  }

  /** The object outputs its next epoch together with the server. */
  method OutputNext(a: LedgerServer, ghost k: Cluster, ghost st: State, ghost next: State, ghost fin: State,
                    ghost foreign: Foreign, ghost q: nat)
    requires Underway(k, st, fin, foreign, q) && Underway(k, next, fin, foreign, q) && Outputs(k, st, next, q)
    requires Stands(a, k, st, fin, foreign, q)
    modifies a
    ensures Stands(a, k, next, fin, foreign, q)
  {
    hide Sound, Lasts, Granted, Restores, Formed, ConfirmUntil, PR.Fit, Tells, LinksReady, BlocksThere, WorldOf, AddEpoch, Own;
    ghost var before := a.epochs;
    OutputMatches(k, st, fin, foreign, q, a.epochs, a.firstUninited);
    var output := a.OutputEpoch();
    ghost var ep := st.books[q].firstUnoutput;
    ThereStays(a.p, a.world, before, a.epochs, ep);
    TermedStays(before, a.epochs, ep);
    assert output;
    forall f: nat | f < |a.epochs|
      ensures Tells(k.G(q), At(k, next, q, f), a.epochs[f])
    {
      assert next.nets(f) == st.nets(f);
      assert Tells(k.G(q), At(k, st, q, f), before[f]);
      SameTells(k.G(q), At(k, st, q, f), before, a.epochs, f);
    }
  }

  /** The object makes the next block of the server, and learns what the epoch of that block has come to. */
  method MakeBlock(a: LedgerServer, g: Server, body: Bytes, s: EpochState, ghost k: Cluster, ghost st: State,
                   ghost next: State, ghost fin: State, ghost foreign: Foreign, ghost q: nat) returns (x: Payload)
    requires Underway(k, st, fin, foreign, q) && Underway(k, next, fin, foreign, q) && Later(k, st, next)
    requires Stands(a, k, st, fin, foreign, q) && DeedOk(k, st, next, q, Proposal(body, s)) && g == k.G(q)
    modifies a
    ensures Stands(a, k, next, fin, foreign, q)
    ensures next.books[q].proposed == st.books[q].proposed + [x]
  {
    hide Sound, Lasts, Granted, Restores, Formed, ConfirmUntil, Linked, PR.Fit, Tells, WorldOf, Reference, Marks;
    ghost var before := a.epochs;
    var e;
    e, x := a.NextBlock(body);
    forall i: nat | i < k.N()
      ensures x.references[i] == NextReferences(k, st, q)[i]
    {
      MarksMatch(k, st, q, before, st.books[q].firstUnoutput, e, i);
    }
    assert x.references == NextReferences(k, st, q);
    forall f: nat | f < |a.epochs|
      ensures Tells(k.G(q), At(k, st, q, f), a.epochs[f])
    {
      ConstructedMirror(k, st, q, before, a.epochs, f);
    }
    LearnEpoch(a, g, e, s, k, st, next, fin, foreign, q);
  }

  /** The object constructs the epoch if need be, and learns what it has come to. */
  method TakeIn(a: LedgerServer, g: Server, e: nat, s: EpochState, ghost k: Cluster, ghost st: State,
                ghost next: State, ghost fin: State, ghost foreign: Foreign, ghost q: nat)
    requires Underway(k, st, fin, foreign, q) && Underway(k, next, fin, foreign, q) && Later(k, st, next)
    requires Stands(a, k, st, fin, foreign, q) && DeedOk(k, st, next, q, Progresses(e, s)) && g == k.G(q)
    modifies a
    ensures Stands(a, k, next, fin, foreign, q)
  {
    hide Sound, Lasts, Granted, Restores, Formed, ConfirmUntil, Linked, PR.Fit, Tells, WorldOf;
    ghost var before := a.epochs;
    a.AllocateUntilEpoch(e);
    forall f: nat | f < |a.epochs|
      ensures Tells(k.G(q), At(k, st, q, f), a.epochs[f])
    {
      ConstructedMirror(k, st, q, before, a.epochs, f);
    }
    LearnEpoch(a, g, e, s, k, st, next, fin, foreign, q);
  }

  lemma RunIsUnderway(k: Cluster, run: seq<State>, t: nat, foreign: Foreign, q: nat)
    requires Run(k, run) && t < |run| && k.cfg.Correct(q) && Shapely(k, run[|run| - 1])
    requires Restores(k.cfg.params, k.codec) && Granted(k, run[|run| - 1], foreign)
    ensures Underway(k, run[t], run[|run| - 1], foreign, q)
  {
    hide Sound, Moves, Lasts, Granted, Restores, Formed, ConfirmUntil, Linked, PR.Fit, WorldOf, Start;
    var fin := run[|run| - 1];
    RunIsLater(k, run, t, |run| - 1);
    SoundIsFit(k, run[t]);
    WorldIsLinked(k, fin, foreign);
    RunIsUntouched(k, run, t, q);
  }

  lemma {:induction false} RunIsUntouched(k: Cluster, run: seq<State>, t: nat, q: nat)
    requires Run(k, run) && t < |run| && q < k.N()
    ensures Shapely(k, run[t]) && Untouched(k, run[t], q)
  {
    hide Sound, Moves, DeedOk, PR.Fit, Untouched, Start;
    RunIsSound(k, run, t);
    SoundIsFit(k, run[t]);
    if t == 0 {
      StartUntouched(k, run[0], q);
    } else {
      RunIsUntouched(k, run, t - 1, q);
      RunIsSound(k, run, t - 1);
      assert Moves(k, run[t - 1], run[t]);
      var d := MoveIsDeed(k, run[t - 1], run[t], q);
      DeedLeavesUntouched(k, run[t - 1], run[t], q, d);
    }
  }

  lemma StartUntouched(k: Cluster, st: State, q: nat)
    requires Start(k, st) && Shapely(k, st) && q < k.N()
    ensures Untouched(k, st, q)
  {
  }

  /** The deeds are what the steps of the run mean to server q. */
  ghost predicate Recounts(k: Cluster, run: seq<State>, q: nat, deeds: seq<Deed>) {
    && |deeds| + 1 == |run|
    && forall t: nat, u: nat :: u == t + 1 < |run| ==> Recounted(k, run[t], run[u], q, deeds[t])
  }

  ghost predicate Recounted(k: Cluster, st: State, next: State, q: nat, d: Deed) {
    Shapely(k, st) && Shapely(k, next) && q < k.N() && AllFit(k, st) && DeedOk(k, st, next, q, d)
  }

  method Perform(a: LedgerServer, g: Server, d: Deed, ghost k: Cluster, ghost st: State,
                 ghost next: State, ghost fin: State, ghost foreign: Foreign, ghost q: nat)
    requires Underway(k, st, fin, foreign, q) && Underway(k, next, fin, foreign, q) && Later(k, st, next)
    requires Stands(a, k, st, fin, foreign, q) && DeedOk(k, st, next, q, d) && g == k.G(q)
    modifies a
    ensures Stands(a, k, next, fin, foreign, q)
  {
    hide Sound, Granted, Restores, Formed, Linked, PR.Fit, Untouched, Outputs, NextReferences, Tells, Lasts, WorldOf;
    match d {
      case Rest =>
        assert Stands(a, k, next, fin, foreign, q) by {
          RestingMirror(k, st, next, q, a.epochs, a.firstUnoutput, a.firstUninited);
        }
      case Progresses(e, s) => TakeIn(a, g, e, s, k, st, next, fin, foreign, q);
      case Proposal(body, s) => var x := MakeBlock(a, g, body, s, k, st, next, fin, foreign, q);
      case Output => OutputNext(a, k, st, next, fin, foreign, q);
    }
  }

  lemma RestingMirror(k: Cluster, st: State, next: State, q: nat, epochs: seq<Record>, out: nat, inited: nat)
    requires Shapely(k, st) && Shapely(k, next) && q < k.N() && Rests(k, st, next, q) && Mirrors(k, st, q, epochs, out, inited)
    ensures Mirrors(k, next, q, epochs, out, inited)
  {
    hide Tells;
  }

  /**
   A ledger object that is told, step by step, what the steps of the run mean to its server prints what the book of the
   server says.
   */
  method Follow(g: Server, deeds: seq<Deed>, ghost k: Cluster, ghost run: seq<State>, ghost foreign: Foreign, ghost q: nat)
      returns (a: LedgerServer)
    requires Run(k, run) && Recounts(k, run, q, deeds) && k.cfg.Correct(q) && g == k.G(q) && Shapely(k, run[|run| - 1])
    requires Restores(k.cfg.params, k.codec) && Granted(k, run[|run| - 1], foreign)
    ensures Stands(a, k, run[|run| - 1], run[|run| - 1], foreign, q)
    ensures a.log == run[|run| - 1].books[q].log
  {
    hide Underway, Moves, Outputs, NextReferences, Tells, Lasts, DeedOk, Granted, Restores, Stands, Start;
    ghost var fin := run[|run| - 1];
    RunIsUnderway(k, run, 0, foreign, q);
    UnderwayIsFit(k, run[0], fin, foreign, q);
    a := new LedgerServer(g.p, WorldOf(k, fin, foreign));
    StartStands(a, k, run[0], fin, foreign, q);
    for t := 0 to |deeds|
      invariant Shapely(k, run[t]) && Stands(a, k, run[t], fin, foreign, q)
      invariant fresh(a)
    {
      assert Moves(k, run[t], run[t + 1]) && Recounted(k, run[t], run[t + 1], q, deeds[t]);
      RunIsUnderway(k, run, t, foreign, q);
      RunIsUnderway(k, run, t + 1, foreign, q);
      RunIsLater(k, run, t, t + 1);
      Perform(a, g, deeds[t], k, run[t], run[t + 1], fin, foreign, q);
    }
    RunBookOk(k, run, |run| - 1, |run| - 1, foreign, q);
    BookIsLog(a, k, fin, foreign, q);
  }

  lemma UnderwayIsFit(k: Cluster, st: State, fin: State, foreign: Foreign, q: nat)
    requires Underway(k, st, fin, foreign, q)
    ensures Shapely(k, st) && Shapely(k, fin) && AllFormed(k.cfg.params, WorldOf(k, fin, foreign))
    ensures Linked(k.cfg.params, WorldOf(k, fin, foreign)) && Untouched(k, st, q)
  {
  }

  lemma StartStands(a: LedgerServer, k: Cluster, st: State, fin: State, foreign: Foreign, q: nat)
    requires Start(k, st) && Shapely(k, st) && Shapely(k, fin) && q < k.N()
    requires a.Valid() && a.p == k.cfg.params && a.world == WorldOf(k, fin, foreign)
    requires a.epochs == [FreshRecord(a.p)] && a.firstUnoutput == a.firstUninited == 0
    ensures Stands(a, k, st, fin, foreign, q)
  {
    hide Tells, WorldOf, LedgerServer.Valid, Fresh;
    FreshTells(k.G(q));
    assert st.nets(0).nodes[q] == Fresh(k.G(q));
  }

  lemma BookIsLog(a: LedgerServer, k: Cluster, fin: State, foreign: Foreign, q: nat)
    requires Shapely(k, fin) && q < k.N() && AllFormed(k.cfg.params, WorldOf(k, fin, foreign))
    requires Stands(a, k, fin, fin, foreign, q) && BookOk(k, fin, q, WorldOf(k, fin, foreign))
    ensures a.log == fin.books[q].log
  {
    hide Tells, WorldOf, Formed, Log, RecordOk;
  }
}
