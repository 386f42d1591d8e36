/**
 The network of whole servers (Pika in pika/pika.go): all epochs run side by side, and every server keeps a book of what
 it has proposed and output. A new block refers to the dispersals its server has seen complete; an epoch is output from
 what the server itself has decided and decoded.
 */
module PikaNetwork {
  import opened Common
  import opened Dispersal
  import opened PikaEpoch
  import opened PikaEpochNetwork
  import opened Ledger
  import opened LedgerOrder
  import opened LedgerNode
  import PR = PikaEpochRuns
  import PB = PikaEpochBlocks
  import PP = PikaEpochProposal

  /** What a server keeps beside its epochs: the number it has constructed, its own blocks so far, the number of epochs
      output, the blocks confirmed and the lines printed. The next own block is for epoch |proposed|. */
  datatype Book = Book(known: nat, proposed: seq<Payload>, firstUnoutput: nat, done: seq<Entry>, log: seq<Line>)

  /** Every epoch is there from the start; servers construct their part of it when they first hear of it. */
  datatype State = State(nets: nat -> Net, books: seq<Book>)

  ghost predicate Shapely(k: Cluster, st: State) {
    |st.books| == k.N() && forall e: nat :: Shaped(k, st.nets(e))
  }

  ghost predicate AllFit(k: Cluster, st: State) {
    |st.books| == k.N() && forall e: nat :: PR.Fit(k, st.nets(e))
  }

  /** The state of server q in epoch e. */
  ghost function At(k: Cluster, st: State, q: nat, e: nat): EpochState
    requires Shapely(k, st) && q < k.N()
  {
    st.nets(e).nodes[q]
  }

  /** Server q has seen the dispersal of server i in epoch e complete. */
  ghost predicate Sees(k: Cluster, st: State, q: nat, i: nat, e: nat)
    requires Shapely(k, st) && q < k.N() && i < k.N()
  {
    PayloadDispersed(k.G(q).VID(i), At(k, st, q, e).v[i])
  }

  /** The dispersals of server i that server q has seen complete, among the epochs it has constructed. */
  ghost function Marks(k: Cluster, st: State, q: nat, i: nat): seq<bool>
    requires Shapely(k, st) && q < k.N() && i < k.N()
  {
    seq(st.books[q].known, e requires 0 <= e < st.books[q].known => Sees(k, st, q, i, e))
  }

  /** The references of the next block of server q. */
  ghost function NextReferences(k: Cluster, st: State, q: nat): seq<nat>
    requires Shapely(k, st) && q < k.N()
  {
    seq(k.N(), i requires 0 <= i < k.N() => Reference(Marks(k, st, q, i), |st.books[q].proposed|))
  }

  /** A block that refers to nothing. */
  function NoBlock(n: nat): Payload {
    Block(seq(n, i => 0), [])
  }

  /** What an epoch has come to as far as this server knows. */
  function OwnFate(g: Server, s: EpochState): Fate
    requires Sized(g, s)
  {
    Fate(seq(g.p.n, j requires 0 <= j < g.p.n => Accepted(s.b[j])),
         seq(g.p.n, j requires 0 <= j < g.p.n => if HasBlock(s.v[j]) then s.v[j].payload.value else NoBlock(g.p.n)))
  }

  ghost function Own(k: Cluster, st: State, q: nat): World
    requires Shapely(k, st) && q < k.N()
  {
    (e: nat) => OwnFate(k.G(q), At(k, st, q, e))
  }

  /** Only epoch e has moved. */
  ghost predicate OthersRest(st: State, next: State, e: nat) {
    forall f: nat :: f != e ==> next.nets(f) == st.nets(f)
  }

  function Constructed(b: Book, e: nat): Book {
    b.(known := if b.known > e then b.known else e + 1)
  }

  /** Server q does act in epoch e, which it constructs if a message asks for it. */
  ghost predicate Works(k: Cluster, st: State, next: State, q: nat, e: nat, act: PR.Act)
    requires AllFit(k, st)
  {
    && !act.Begin? && PR.Acts(k, st.nets(e), next.nets(e), q, act) && OthersRest(st, next, e)
    && (act.GetVID? || act.GetBA? || e < st.books[q].known)
    && next.books == st.books[q := Constructed(st.books[q], e)]
  }

  /** Server q proposes its next block. */
  ghost predicate Proposes(k: Cluster, st: State, next: State, q: nat, body: Bytes)
    requires AllFit(k, st)
  {
    q < k.N() &&
    var b := st.books[q];
    var e, x := |b.proposed|, Block(NextReferences(k, st, q), body);
    && PR.Acts(k, st.nets(e), next.nets(e), q, PR.Begin(x)) && OthersRest(st, next, e)
    && next.books == st.books[q := Constructed(b, e).(proposed := b.proposed + [x])]
  }

  /** Server q has decoded the blocks that epoch ep confirms by its links. */
  ghost predicate LinksReady(k: Cluster, st: State, q: nat, ep: nat)
    requires Shapely(k, st) && q < k.N() && AllFormed(k.cfg.params, Own(k, st, q))
  {
    forall i: nat, lv: nat :: i < k.N() && lv < ConfirmUntil(k.cfg.params, Own(k, st, q)(ep), i)
                              ==> lv < st.books[q].known && HasBlock(At(k, st, q, lv).v[i])
  }

  /** The book after epoch ep has been output, with the lines of the blocks newly confirmed. */
  ghost function Printed(k: Cluster, st: State, q: nat): Book
    requires Shapely(k, st) && q < k.N() && AllFormed(k.cfg.params, Own(k, st, q))
    requires OfServers(k.cfg.params, st.books[q].done)
  {
    var b, p, own := st.books[q], k.cfg.params, Own(k, st, q);
    AddEpochInRange(p, own, b.firstUnoutput, b.done);
    var done := AddEpoch(p, own, b.firstUnoutput, 0, b.done);
    b.(firstUnoutput := b.firstUnoutput + 1, done := done, log := b.log + Lines(p, own, done[|b.done|..]))
  }

  ghost predicate OfServers(p: Params, done: seq<Entry>) {
    forall x :: x in done ==> x.server < p.n
  }

  lemma AddEpochInRange(p: Params, world: World, ep: nat, done: seq<Entry>)
    requires AllFormed(p, world) && OfServers(p, done)
    ensures OfServers(p, AddEpoch(p, world, ep, 0, done))
    ensures done <= AddEpoch(p, world, ep, 0, done)
    ensures OfServers(p, AddEpoch(p, world, ep, 0, done)[|done|..])
  {
    AddEpochExtends(p, world, ep, 0, done);
  }

  /** Server q outputs its next epoch, which has terminated and confirms only blocks that are there. A block with too few
      references would make the code panic. */
  ghost predicate Outputs(k: Cluster, st: State, next: State, q: nat)
    requires AllFit(k, st)
  {
    k.cfg.Correct(q) &&
    var b := st.books[q];
    && AllFormed(k.cfg.params, Own(k, st, q)) && OfServers(k.cfg.params, b.done)
    && b.firstUnoutput < b.known && At(k, st, q, b.firstUnoutput).termed && LinksReady(k, st, q, b.firstUnoutput)
    && next.books == st.books[q := Printed(k, st, q)]
    && forall e: nat :: next.nets(e) == st.nets(e)
  }

  /** A faulty server sends a message in dispersal i of epoch e. */
  ghost predicate Forges(k: Cluster, st: State, next: State, e: nat, i: nat, m: Env)
    requires AllFit(k, st)
  {
    PR.Forges(k, st.nets(e), next.nets(e), i, m) && OthersRest(st, next, e) && next.books == st.books
  }

  ghost predicate Moves(k: Cluster, st: State, next: State) {
    && AllFit(k, st)
    && (|| (exists q, e, act :: Works(k, st, next, q, e, act))
        || (exists q, body :: Proposes(k, st, next, q, body))
        || (exists q :: Outputs(k, st, next, q))
        || (exists e, i, m :: Forges(k, st, next, e, i, m)))
  }

  const NEW_BOOK := Book(1, [], 0, [], [])

  ghost predicate Start(k: Cluster, st: State) {
    st.books == seq(k.N(), q => NEW_BOOK) && forall e: nat :: st.nets(e) == PR.Start(k)
  }

  ghost predicate Run(k: Cluster, run: seq<State>) {
    && k.cfg.Valid() && |run| > 0 && Start(k, run[0])
    && forall t: nat, u: nat :: u == t + 1 < |run| ==> Moves(k, run[t], run[u])
  }

  /** Server j has seen the dispersals of server i before epoch lv complete. */
  ghost predicate SeesUntil(k: Cluster, st: State, j: nat, i: nat, lv: nat)
    requires Shapely(k, st) && j < k.N() && i < k.N()
  {
    forall e: nat :: e < lv ==> Sees(k, st, j, i, e)
  }

  /** The references of block x of epoch e go no further than the epoch, and to dispersals that server j has seen complete. */
  ghost predicate Refers(k: Cluster, st: State, j: nat, e: nat, x: Payload)
    requires Shapely(k, st) && j < k.N()
  {
    && x.Block? && |x.references| == k.N()
    && forall i: nat :: i < k.N() ==> x.references[i] <= e && SeesUntil(k, st, j, i, x.references[i])
  }

  /** Server j has dispersed in epoch e what its book says, and nothing if it has not proposed there yet. */
  ghost predicate ProposalOk(k: Cluster, st: State, j: nat, e: nat)
    requires Shapely(k, st) && j < k.N()
  {
    var proposed := st.books[j].proposed;
    if e < |proposed| then
      && Refers(k, st, j, e, proposed[e])
      && |k.codec.encode(proposed[e])| == k.N() && |k.codec.encode(EmptyPayload)| == k.N()
      && PP.Dispersed(st.nets(e), j) == PP.Proposal(k, j, proposed[e])
    else PP.Dispersed(st.nets(e), j) == {}
  }

  ghost predicate EpochOk(k: Cluster, net: Net) {
    PR.Ok(k, net) && PB.AllFlagsOk(k, net)
  }

  /** What holds in every state of every run. */
  ghost predicate Sound(k: Cluster, st: State) {
    && k.cfg.Valid() && |st.books| == k.N()
    && (forall e: nat :: EpochOk(k, st.nets(e)))
    && (forall j: nat, e: nat :: k.cfg.Correct(j) ==> ProposalOk(k, st, j, e))
  }

  /** What correct servers know stays known, and books only grow. */
  ghost predicate Later(k: Cluster, st: State, next: State) {
    && Shapely(k, st) && Shapely(k, next)
    && (forall q: nat :: q < k.N() ==> st.books[q].proposed <= next.books[q].proposed && st.books[q].known <= next.books[q].known)
    && (forall e: nat, q: nat :: k.cfg.Correct(q) ==> Lasts(k, st, next, e, q))
  }

  ghost predicate Lasts(k: Cluster, st: State, next: State, e: nat, q: nat)
    requires Shapely(k, st) && Shapely(k, next) && q < k.N()
  {
    forall i: nat :: i < k.N() ==> PB.LastsAt(k.G(q), At(k, st, q, e), At(k, next, q, e), i)
  }

  lemma StartSound(k: Cluster, st: State)
    requires k.cfg.Valid() && Start(k, st)
    ensures Sound(k, st)
  {
    hide Invariant, PR.Start, Runnable, PB.AllFlagsOk;
    PR.StartOk(k);
    PB.StartFlags(k);
    forall j: nat, e: nat | k.cfg.Correct(j)
      ensures ProposalOk(k, st, j, e)
    {
      StartDisperses(k, j);
    }
  }

  lemma StartDisperses(k: Cluster, j: nat)
    requires j < k.N()
    ensures j < |PR.Start(k).vid| && PP.Dispersed(PR.Start(k), j) == {}
  {
  }

  /** What correct servers know of an epoch stays known. */
  ghost predicate NetLasts(k: Cluster, net: Net, next: Net) {
    && Shaped(k, net) && Shaped(k, next)
    && forall q: nat, i: nat :: k.cfg.Correct(q) && i < k.N() ==> PB.LastsAt(k.G(q), net.nodes[q], next.nodes[q], i)
  }

  /** An epoch that moves stays in order. */
  lemma EpochMoves(k: Cluster, net: Net, next: Net)
    requires EpochOk(k, net) && PR.Moves(k, net, next)
    ensures EpochOk(k, next) && NetLasts(k, net, next)
  {
    hide Invariant, PR.Moves, PB.AllFlagsOk, PB.LastsAt, Runnable;
    PR.MoveKeepsOk(k, net, next);
    PB.MoveKeepsFlags(k, net, next);
    forall q: nat, i: nat | k.cfg.Correct(q) && i < k.N()
      ensures PB.LastsAt(k.G(q), net.nodes[q], next.nodes[q], i)
    {
      PB.MoveLasts(k, net, next, q, i);
    }
  }

  /** The network of epoch e moves and the others rest, or none moves. */
  ghost predicate NetsMove(k: Cluster, st: State, next: State, e: nat) {
    OthersRest(st, next, e) && (next.nets(e) == st.nets(e) || PR.Moves(k, st.nets(e), next.nets(e)))
  }

  lemma NetsKeep(k: Cluster, st: State, next: State, e: nat)
    requires Sound(k, st) && NetsMove(k, st, next, e)
    ensures forall f: nat :: EpochOk(k, next.nets(f)) && NetLasts(k, st.nets(f), next.nets(f))
  {
    hide Invariant, PR.Moves, PB.AllFlagsOk, ProposalOk, Runnable, PayloadDispersed;
    assert EpochOk(k, st.nets(e));
    if PR.Moves(k, st.nets(e), next.nets(e)) {
      EpochMoves(k, st.nets(e), next.nets(e));
    }
    forall f: nat
      ensures EpochOk(k, next.nets(f)) && NetLasts(k, st.nets(f), next.nets(f))
    {
      assert EpochOk(k, st.nets(f));
    }
  }

  lemma SoundIsFit(k: Cluster, st: State)
    requires Sound(k, st)
    ensures AllFit(k, st) && Shapely(k, st)
  {
    hide Invariant, Runnable, PB.AllFlagsOk, ProposalOk;
    forall e: nat
      ensures PR.Fit(k, st.nets(e))
    {
      assert EpochOk(k, st.nets(e));
    }
  }

  lemma SeesStays(k: Cluster, st: State, next: State, j: nat, i: nat, lv: nat)
    requires Later(k, st, next) && k.cfg.Correct(j) && i < k.N() && SeesUntil(k, st, j, i, lv)
    ensures SeesUntil(k, next, j, i, lv)
  {
    hide PayloadDispersed;
    forall e: nat | e < lv
      ensures Sees(k, next, j, i, e)
    {
      assert Lasts(k, st, next, e, j);
      assert Sees(k, st, j, i, e);
      assert PB.LastsAt(k.G(j), At(k, st, j, e), At(k, next, j, e), i);
    }
  }

  lemma RefersStays(k: Cluster, st: State, next: State, j: nat, e: nat, x: Payload)
    requires Later(k, st, next) && k.cfg.Correct(j) && Refers(k, st, j, e, x)
    ensures Refers(k, next, j, e, x)
  {
    hide SeesUntil;
    forall i: nat | i < k.N()
      ensures SeesUntil(k, next, j, i, x.references[i])
    {
      SeesStays(k, st, next, j, i, x.references[i]);
    }
  }

  lemma MovesLater(k: Cluster, st: State, next: State, e: nat)
    requires Sound(k, st) && NetsMove(k, st, next, e) && |next.books| == k.N()
    requires forall q: nat :: q < k.N() ==> st.books[q].proposed <= next.books[q].proposed && st.books[q].known <= next.books[q].known
    ensures Shapely(k, st) && Shapely(k, next) && Later(k, st, next)
  {
    hide PR.Ok, PR.Moves, PB.AllFlagsOk, ProposalOk, PB.LastsAt;
    SoundIsFit(k, st);
    NetsKeep(k, st, next, e);
    forall f: nat
      ensures Shaped(k, next.nets(f))
      ensures forall q: nat :: k.cfg.Correct(q) ==> Lasts(k, st, next, f, q)
    {
      assert NetLasts(k, st.nets(f), next.nets(f));
    }
  }

  lemma ProposalStays(k: Cluster, st: State, next: State, j: nat, e: nat)
    requires Later(k, st, next) && k.cfg.Correct(j) && ProposalOk(k, st, j, e)
    requires next.books[j].proposed == st.books[j].proposed
    requires PP.Dispersed(next.nets(e), j) == PP.Dispersed(st.nets(e), j)
    ensures ProposalOk(k, next, j, e)
  {
    hide PP.Dispersed, PP.Proposal, Refers;
    if e < |st.books[j].proposed| {
      RefersStays(k, st, next, j, e, st.books[j].proposed[e]);
    }
  }

  lemma WorksSound(k: Cluster, st: State, next: State, q: nat, e: nat, act: PR.Act)
    requires Sound(k, st)
    ensures AllFit(k, st) && (Works(k, st, next, q, e, act) ==> Sound(k, next) && Later(k, st, next))
  {
    hide PR.Acts, PR.Ok, PP.Dispersed, PB.AllFlagsOk, ProposalOk, Later, PR.Fit;
    SoundIsFit(k, st);
    if Works(k, st, next, q, e, act) {
      ActMoves(k, st.nets(e), next.nets(e), q, act);
      assert NetsMove(k, st, next, e);
      MovesLater(k, st, next, e);
      NetsKeep(k, st, next, e);
      forall j: nat, f: nat | k.cfg.Correct(j)
        ensures ProposalOk(k, next, j, f)
      {
        assert ProposalOk(k, st, j, f);
        if f == e {
          PP.ActDisperses(k, st.nets(e), next.nets(e), q, act, j);
        }
        ProposalStays(k, st, next, j, f);
      }
    }
  }

  lemma ActMoves(k: Cluster, net: Net, next: Net, q: nat, act: PR.Act)
    requires PR.Fit(k, net) && PR.Acts(k, net, next, q, act)
    ensures PR.Moves(k, net, next) && q < k.N() && k.cfg.Correct(q)
  {
  }

  lemma ForgesSound(k: Cluster, st: State, next: State, e: nat, i: nat, m: Env)
    requires Sound(k, st)
    ensures AllFit(k, st) && (Forges(k, st, next, e, i, m) ==> Sound(k, next) && Later(k, st, next))
  {
    hide PR.Forges, PR.Ok, PP.Dispersed, PB.AllFlagsOk, ProposalOk, Later;
    SoundIsFit(k, st);
    if Forges(k, st, next, e, i, m) {
      assert PR.Moves(k, st.nets(e), next.nets(e));
      assert NetsMove(k, st, next, e);
      MovesLater(k, st, next, e);
      NetsKeep(k, st, next, e);
      forall j: nat, f: nat | k.cfg.Correct(j)
        ensures ProposalOk(k, next, j, f)
      {
        assert ProposalOk(k, st, j, f);
        if f == e {
          PP.ForgeDisperses(k, st.nets(e), next.nets(e), i, m, j);
        }
        ProposalStays(k, st, next, j, f);
      }
    }
  }

  lemma OutputsSound(k: Cluster, st: State, next: State, q: nat)
    requires Sound(k, st)
    ensures AllFit(k, st) && (Outputs(k, st, next, q) ==> Sound(k, next) && Later(k, st, next))
  {
    hide PR.Ok, PP.Dispersed, PB.AllFlagsOk, ProposalOk, Later, LinksReady, AddEpoch;
    SoundIsFit(k, st);
    if Outputs(k, st, next, q) {
      assert NetsMove(k, st, next, 0);
      MovesLater(k, st, next, 0);
      NetsKeep(k, st, next, 0);
      forall j: nat, f: nat | k.cfg.Correct(j)
        ensures ProposalOk(k, next, j, f)
      {
        assert ProposalOk(k, st, j, f);
        ProposalStays(k, st, next, j, f);
      }
    }
  }

  /** A new block refers as it should. */
  lemma NextRefers(k: Cluster, st: State, q: nat, body: Bytes)
    requires Shapely(k, st) && q < k.N()
    ensures Refers(k, st, q, |st.books[q].proposed|, Block(NextReferences(k, st, q), body))
  {
    hide Sees;
    var refs := NextReferences(k, st, q);
    forall i: nat | i < k.N()
      ensures refs[i] <= |st.books[q].proposed| && SeesUntil(k, st, q, i, refs[i])
    {
      var marks := Marks(k, st, q, i);
      forall e: nat | e < refs[i]
        ensures Sees(k, st, q, i, e)
      {
        assert marks[e];
      }
    }
  }

  /** The proposal of server q refers to all that it may: up to the epoch, or to the first dispersal that the server has not
      seen complete, of those in the epochs it has constructed. */
  ghost predicate RefersFar(k: Cluster, st: State, q: nat, e: nat, x: Payload)
    requires Shapely(k, st) && q < k.N()
  {
    && x.Block? && |x.references| == k.N()
    && forall i: nat :: i < k.N() ==>
         var r := x.references[i];
         && r <= e && SeesUntil(k, st, q, i, r)
         && (r == e || r >= st.books[q].known || !Sees(k, st, q, i, r))
  }

  /** In a run, a new block refers exactly as far as it may. */
  lemma ProposalIsFull(k: Cluster, run: seq<State>, t: nat, q: nat, body: Bytes)
    requires Run(k, run) && t + 1 < |run| && AllFit(k, run[t]) && Proposes(k, run[t], run[t + 1], q, body)
    ensures Shapely(k, run[t]) && |run[t + 1].books| == k.N()
    ensures var e, proposed := |run[t].books[q].proposed|, run[t + 1].books[q].proposed;
            |proposed| == e + 1 && proposed[e].Block? && proposed[e].body == body && RefersFar(k, run[t], q, e, proposed[e])
  {
    hide Run, PR.Acts, Runnable, Sees;
    var st := run[t];
    var refs := NextReferences(k, st, q);
    forall i: nat | i < k.N()
      ensures SeesUntil(k, st, q, i, refs[i])
      ensures refs[i] == |st.books[q].proposed| || refs[i] >= st.books[q].known || !Sees(k, st, q, i, refs[i])
    {
      var marks := Marks(k, st, q, i);
      forall e: nat | e < refs[i]
        ensures Sees(k, st, q, i, e)
      {
        assert marks[e];
      }
      assert refs[i] < |marks| ==> marks[refs[i]] == Sees(k, st, q, i, refs[i]);
    }
  }

  lemma ProposesSound(k: Cluster, st: State, next: State, q: nat, body: Bytes)
    requires Sound(k, st)
    ensures AllFit(k, st) && (Proposes(k, st, next, q, body) ==> Sound(k, next) && Later(k, st, next))
  {
    hide PR.Ok, PR.Acts, PP.Dispersed, PB.AllFlagsOk, ProposalOk, Later, NextReferences, PR.Fit;
    SoundIsFit(k, st);
    if Proposes(k, st, next, q, body) {
      var e, x := |st.books[q].proposed|, Block(NextReferences(k, st, q), body);
      ActMoves(k, st.nets(e), next.nets(e), q, PR.Begin(x));
      assert NetsMove(k, st, next, e);
      MovesLater(k, st, next, e);
      NetsKeep(k, st, next, e);
      forall j: nat, f: nat | k.cfg.Correct(j)
        ensures ProposalOk(k, next, j, f)
      {
        assert ProposalOk(k, st, j, f);
        if f == e {
          PP.ActDisperses(k, st.nets(e), next.nets(e), q, PR.Begin(x), j);
        }
        if j != q {
          ProposalStays(k, st, next, j, f);
        } else {
          OwnProposal(k, st, next, q, f, body);
        }
      }
    }
  }

  lemma OwnProposal(k: Cluster, st: State, next: State, q: nat, f: nat, body: Bytes)
    requires AllFit(k, st) && Shapely(k, st) && Proposes(k, st, next, q, body) && Later(k, st, next)
    requires ProposalOk(k, st, q, f)
    ensures ProposalOk(k, next, q, f)
  {
    hide PP.Dispersed, PP.Proposal, Refers, NextReferences, Later, Runnable;
    var b := st.books[q];
    var e, x := |b.proposed|, Block(NextReferences(k, st, q), body);
    if f == e {
      NextRefers(k, st, q, body);
      RefersStays(k, st, next, q, e, x);
      PP.ActDisperses(k, st.nets(e), next.nets(e), q, PR.Begin(x), q);
    } else if f < e {
      assert next.books[q].proposed[f] == b.proposed[f];
      RefersStays(k, st, next, q, f, b.proposed[f]);
    }
  }

  lemma MoveKeepsSound(k: Cluster, st: State, next: State)
    requires Sound(k, st) && Moves(k, st, next)
    ensures Sound(k, next) && Later(k, st, next)
  {
    hide AllFit, Sound, Later, Works, Proposes, Outputs, Forges;
    if q, e, act :| Works(k, st, next, q, e, act) {
      WorksSound(k, st, next, q, e, act);
    } else if q, body :| Proposes(k, st, next, q, body) {
      ProposesSound(k, st, next, q, body);
    } else if q :| Outputs(k, st, next, q) {
      OutputsSound(k, st, next, q);
    } else {
      var e, i, m :| Forges(k, st, next, e, i, m);
      ForgesSound(k, st, next, e, i, m);
    }
  }

  /** In every state of every run each epoch is in order, and each correct server has dispersed what its book says. */
  lemma {:induction false} RunIsSound(k: Cluster, run: seq<State>, t: nat)
    requires Run(k, run) && t < |run|
    ensures Sound(k, run[t])
  {
    hide Sound, Moves, Start;
    if t == 0 {
      StartSound(k, run[0]);
    } else {
      RunIsSound(k, run, t - 1);
      assert Moves(k, run[t - 1], run[t]);
      MoveKeepsSound(k, run[t - 1], run[t]);
    }
  }

  lemma LaterSelf(k: Cluster, st: State)
    requires Shapely(k, st)
    ensures Later(k, st, st)
  {
  }

  lemma LaterTogether(k: Cluster, a: State, b: State, c: State)
    requires Later(k, a, b) && Later(k, b, c)
    ensures Later(k, a, c)
  {
    hide PayloadDispersed;
    forall e: nat, q: nat | k.cfg.Correct(q)
      ensures Lasts(k, a, c, e, q)
    {
      assert Lasts(k, a, b, e, q) && Lasts(k, b, c, e, q);
      forall i: nat | i < k.N()
        ensures PB.LastsAt(k.G(q), At(k, a, q, e), At(k, c, q, e), i)
      {
        assert PB.LastsAt(k.G(q), At(k, a, q, e), At(k, b, q, e), i) && PB.LastsAt(k.G(q), At(k, b, q, e), At(k, c, q, e), i);
      }
    }
    forall q: nat | q < k.N()
      ensures a.books[q].proposed <= c.books[q].proposed
    {
      assert a.books[q].proposed <= b.books[q].proposed <= c.books[q].proposed;
    }
  }

  /** Nothing is forgotten in a run. */
  lemma {:induction false} RunIsLater(k: Cluster, run: seq<State>, t: nat, u: nat)
    requires Run(k, run) && t <= u < |run|
    ensures Sound(k, run[t]) && Sound(k, run[u]) && Later(k, run[t], run[u])
    decreases u
  {
    hide Moves, Sound, Later, Start, Shapely;
    RunIsSound(k, run, t);
    RunIsSound(k, run, u);
    if t == u {
      SoundIsFit(k, run[t]);
      LaterSelf(k, run[t]);
    } else {
      RunIsLater(k, run, t, u - 1);
      assert Moves(k, run[u - 1], run[u]);
      MoveKeepsSound(k, run[u - 1], run[u]);
      LaterTogether(k, run[t], run[u - 1], run[u]);
    }
  }
}
