/**
 One world for all servers: as faulty servers cannot make up chunks, every block that a correct server decodes in any
 epoch is the one its proposer dispersed, and what an epoch has come to is the same for every server that has finished
 it. The links between epochs follow: a confirmed level lies before its epoch and has been seen dispersed.
 */
module PikaWorld {
  import opened Common
  import opened Dispersal
  import opened PikaEpoch
  import opened PikaEpochNetwork
  import opened Ledger
  import opened PikaNetwork
  import AR = AgreementRuns
  import DN = DispersalNetwork
  import DQ = DispersalSilence
  import DR = DispersalRuns
  import DT = DispersalRetrieval
  import PR = PikaEpochRuns
  import PB = PikaEpochBlocks
  import PS = PikaEpochSteps
  import PP = PikaEpochProposal

  /** The blocks that faulty servers disperse, by epoch and server. */
  type Foreign = (nat, nat) -> Payload

  predicate WellFormed(n: nat, x: Payload) {
    x.Block? && |x.references| == n
  }

  /** Faulty servers send chunks of x and y only. */
  ghost predicate Honors(k: Cluster, net: Net, i: nat, x: Payload, y: Payload)
    requires Shaped(k, net) && i < k.N() && Restores(k.cfg.params, k.codec)
  {
    forall e :: e in net.vid[i] && e.from in k.cfg.faulty ==> DT.Authentic(k.S(i), x, y, e)
  }

  /** What the environment grants: a faulty server disperses a well-formed block, and the chunks that faulty servers send
      are those of the block dispersed. */
  ghost predicate Granted(k: Cluster, st: State, foreign: Foreign)
    requires Shapely(k, st) && Restores(k.cfg.params, k.codec)
  {
    forall e: nat, i: nat :: i < k.N() ==> GrantedAt(k, st, foreign, e, i)
  }

  ghost predicate GrantedAt(k: Cluster, st: State, foreign: Foreign, e: nat, i: nat)
    requires Shapely(k, st) && Restores(k.cfg.params, k.codec) && i < k.N()
  {
    if i in k.cfg.faulty then WellFormed(k.N(), foreign(e, i)) && exists y :: Honors(k, st.nets(e), i, foreign(e, i), y)
    else e < |st.books[i].proposed| ==> Honors(k, st.nets(e), i, st.books[i].proposed[e], EmptyPayload)
  }

  /** The block of server i in epoch e; an empty one if a correct server has not proposed yet. */
  ghost function BlockOf(k: Cluster, st: State, foreign: Foreign, e: nat, i: nat): Payload
    requires Shapely(k, st) && i < k.N()
  {
    if i in k.cfg.faulty then foreign(e, i)
    else if e < |st.books[i].proposed| then st.books[i].proposed[e]
    else NoBlock(k.N())
  }

  /** The fate of every epoch, as it stands in state st. */
  ghost function WorldOf(k: Cluster, st: State, foreign: Foreign): World
    requires Shapely(k, st)
  {
    (e: nat) => Fate(seq(k.N(), i requires 0 <= i < k.N() => PB.AcceptedSomewhere(k, st.nets(e), i)),
                     seq(k.N(), i requires 0 <= i < k.N() => BlockOf(k, st, foreign, e, i)))
  }

  lemma WorldIsFormed(k: Cluster, st: State, foreign: Foreign)
    requires Sound(k, st) && Shapely(k, st) && Restores(k.cfg.params, k.codec) && Granted(k, st, foreign)
    ensures AllFormed(k.cfg.params, WorldOf(k, st, foreign))
    ensures Modest(k.cfg, WorldOf(k, st, foreign))
  {
    hide EpochOk, Honors, Restores, SeesUntil, PB.AcceptedSomewhere;
    forall e: nat, i: nat | i < k.N()
      ensures WellFormed(k.N(), BlockOf(k, st, foreign, e, i))
      ensures k.cfg.Correct(i) ==> forall j: nat :: j < k.N() ==> BlockOf(k, st, foreign, e, i).references[j] <= e
    {
      assert GrantedAt(k, st, foreign, e, i);
      if k.cfg.Correct(i) {
        assert ProposalOk(k, st, i, e);
      }
    }
  }

  /** No epoch confirms a level beyond itself. */
  lemma WorldIsLinked(k: Cluster, st: State, foreign: Foreign)
    requires Sound(k, st) && Shapely(k, st) && Restores(k.cfg.params, k.codec) && Granted(k, st, foreign)
    ensures AllFormed(k.cfg.params, WorldOf(k, st, foreign)) && Linked(k.cfg.params, WorldOf(k, st, foreign))
  {
    hide Sound, Granted, Restores, Formed, Linked, Modest;
    WorldIsFormed(k, st, foreign);
    SoundIsValid(k, st);
    ModestyLinks(k.cfg, WorldOf(k, st, foreign));
  }

  lemma SoundIsValid(k: Cluster, st: State)
    requires Sound(k, st)
    ensures k.cfg.Valid()
  {
  }

  /** What the environment grants, together with what correct servers do, is that all chunks are authentic. */
  lemma HonoredIsGiven(k: Cluster, net: Net, i: nat, x: Payload, y: Payload)
    requires PR.Ok(k, net) && i < k.N() && Restores(k.cfg.params, k.codec) && Honors(k, net, i, x, y)
    requires k.cfg.Correct(i) ==> y == EmptyPayload && PP.Dispersed(net, i) == PP.Proposal(k, i, x)
    ensures DT.Given(k.S(i), x, y, VNet(k, net, i))
  {
    hide AR.Reachable, VotesOk, Runnable, DN.ReadySent, DN.NodeOk, DN.HandledOk;
    assert InstanceOk(k, net, i);
    DN.ReachableOk(k.S(i), VNet(k, net, i));
    forall e | e in net.vid[i] && e.from !in k.cfg.faulty && e.msg.disperse
      ensures DT.Authentic(k.S(i), x, y, e)
    {
      assert DN.MessageOk(k.S(i), VNet(k, net, i), e);
      assert e in PP.Dispersed(net, i);
    }
  }

  /** A block of a correct proposer that has not proposed yet is nowhere. */
  lemma UnproposedIsNowhere(k: Cluster, net: Net, i: nat, q: nat)
    requires PR.Ok(k, net) && k.cfg.Correct(i) && k.cfg.Correct(q) && PP.Dispersed(net, i) == {}
    ensures !HasBlock(net.nodes[q].v[i]) && (q == i ==> net.nodes[q].v[i].payload == Some(EmptyPayload))
  {
    hide AR.Reachable, DN.Reachable, VotesOk, Runnable;
    assert InstanceOk(k, net, i);
    DQ.UnbegunIsSilent(k.S(i), VNet(k, net, i), q);
    assert VNet(k, net, i).nodes[q] == net.nodes[q].v[i];
  }

  /** Server i has dispersed the block of the world, and nothing else. */
  lemma WorldIsDispersed(k: Cluster, st: State, foreign: Foreign, e: nat, i: nat)
    requires Sound(k, st) && Shapely(k, st) && Restores(k.cfg.params, k.codec) && Granted(k, st, foreign)
    requires i < k.N() && (k.cfg.Correct(i) ==> e < |st.books[i].proposed|)
    ensures PB.Disperses(k, st.nets(e), i, BlockOf(k, st, foreign, e, i))
  {
    hide PR.Ok, PB.AllFlagsOk, Restores, Honors, Refers, PP.Dispersed, PP.Proposal, DT.Given;
    var net := st.nets(e);
    assert EpochOk(k, net) && GrantedAt(k, st, foreign, e, i);
    if k.cfg.Correct(i) {
      assert ProposalOk(k, st, i, e);
      HonoredIsGiven(k, net, i, st.books[i].proposed[e], EmptyPayload);
    } else {
      var y :| Honors(k, net, i, foreign(e, i), y);
      HonoredIsGiven(k, net, i, foreign(e, i), y);
    }
  }

  /** Whatever block a correct server has decoded is the block of the world, and a correct proposer has proposed it. */
  lemma DecodedIsProposed(k: Cluster, st: State, foreign: Foreign, q: nat, e: nat, i: nat)
    requires Sound(k, st) && Shapely(k, st) && Restores(k.cfg.params, k.codec) && Granted(k, st, foreign)
    requires k.cfg.Correct(q) && i < k.N() && HasBlock(At(k, st, q, e).v[i])
    ensures At(k, st, q, e).v[i].payload.value == BlockOf(k, st, foreign, e, i)
    ensures k.cfg.Correct(i) ==> e < |st.books[i].proposed|
  {
    hide PR.Ok, PB.AllFlagsOk, Restores, Refers, PP.Dispersed, PP.Proposal, PB.Disperses, Granted;
    var net := st.nets(e);
    assert EpochOk(k, net);
    if k.cfg.Correct(i) {
      assert ProposalOk(k, st, i, e);
      if e >= |st.books[i].proposed| {
        UnproposedIsNowhere(k, net, i, q);
      }
    }
    WorldIsDispersed(k, st, foreign, e, i);
    PB.DecodedIsDispersed(k, net, q, i, BlockOf(k, st, foreign, e, i));
  }

  /** A correct server can always propose its next block. */
  lemma CanPropose(k: Cluster, st: State, q: nat, body: Bytes)
    requires Sound(k, st) && Shapely(k, st) && k.cfg.Correct(q) && Restores(k.cfg.params, k.codec)
    ensures var e := |st.books[q].proposed|;
            PR.Fit(k, st.nets(e)) && PR.Possible(k, st.nets(e), q, PR.Begin(Block(NextReferences(k, st, q), body)))
  {
    hide Invariant, Runnable, PB.AllFlagsOk, PP.Dispersed, NextReferences;
    var e := |st.books[q].proposed|;
    assert EpochOk(k, st.nets(e)) && ProposalOk(k, st, q, e);
    UnproposedIsNowhere(k, st.nets(e), q, q);
  }

  /** What server q has decided and decoded in epoch e by state st agrees with the world as it is in a later state. */
  lemma OwnAgrees(k: Cluster, st: State, fin: State, foreign: Foreign, q: nat, e: nat, i: nat)
    requires Sound(k, st) && Sound(k, fin) && Later(k, st, fin)
    requires Restores(k.cfg.params, k.codec) && Granted(k, fin, foreign) && k.cfg.Correct(q) && i < k.N()
    ensures var s, fate := At(k, st, q, e), WorldOf(k, fin, foreign)(e);
            && (HasBlock(s.v[i]) ==> s.v[i].payload.value == fate.blocks[i])
            && (s.termed ==> s.b[i].Decided? && (Accepted(s.b[i]) <==> fate.accepted[i]) && (Accepted(s.b[i]) ==> HasBlock(s.v[i])))
  {
    hide PR.Ok, Granted, Restores, PayloadDispersed, ProposalOk, BlockOf;
    var s, w := At(k, st, q, e), At(k, fin, q, e);
    assert Lasts(k, st, fin, e, q);
    assert PB.LastsAt(k.G(q), s, w, i);
    if HasBlock(s.v[i]) {
      DecodedIsProposed(k, fin, foreign, q, e, i);
    }
    assert EpochOk(k, st.nets(e)) && EpochOk(k, fin.nets(e));
    assert PS.FlagsOk(k.G(q), s);
    if s.termed && PB.AcceptedSomewhere(k, fin.nets(e), i) {
      var r: nat :| k.cfg.Correct(r) && Accepted(fin.nets(e).nodes[r].b[i]);
      PR.SameDecision(k, fin.nets(e), q, r, i);
    }
  }

  /** What a correct server has decoded is well formed. */
  lemma OwnIsFormed(k: Cluster, st: State, foreign: Foreign, q: nat)
    requires Sound(k, st) && Shapely(k, st) && Restores(k.cfg.params, k.codec) && Granted(k, st, foreign)
    requires k.cfg.Correct(q)
    ensures AllFormed(k.cfg.params, Own(k, st, q))
  {
    hide EpochOk, Granted, Restores, ProposalOk, BlockOf;
    WorldIsFormed(k, st, foreign);
    var p, own, world := k.cfg.params, Own(k, st, q), WorldOf(k, st, foreign);
    SoundIsValid(k, st);
    forall e: nat
      ensures Formed(p, own(e))
    {
      assert Formed(p, world(e));
      forall i | 0 <= i < k.N()
        ensures own(e).blocks[i].Block? && |own(e).blocks[i].references| == k.N()
      {
        if HasBlock(At(k, st, q, e).v[i]) {
          DecodedIsProposed(k, st, foreign, q, e, i);
          assert world(e).blocks[i] == BlockOf(k, st, foreign, e, i);
        }
      }
    }
  }

  /** An epoch that has terminated at a correct server confirms there what it confirms in the world. */
  lemma OwnConfirms(k: Cluster, st: State, fin: State, foreign: Foreign, q: nat, e: nat)
    requires Sound(k, st) && Sound(k, fin) && Later(k, st, fin) && k.cfg.Correct(q) && At(k, st, q, e).termed
    requires Restores(k.cfg.params, k.codec) && Granted(k, fin, foreign)
    requires AllFormed(k.cfg.params, Own(k, st, q)) && AllFormed(k.cfg.params, WorldOf(k, fin, foreign))
    ensures var own, fate := Own(k, st, q)(e), WorldOf(k, fin, foreign)(e);
            && own.accepted == fate.accepted
            && forall i: nat :: i < k.N() ==> ConfirmUntil(k.cfg.params, own, i) == ConfirmUntil(k.cfg.params, fate, i)
  {
    hide Sound, Lasts, Granted, Restores, BlockOf, PB.AcceptedSomewhere, Sort;
    var p, own, fate := k.cfg.params, Own(k, st, q)(e), WorldOf(k, fin, foreign)(e);
    assert Formed(p, own) && Formed(p, fate);
    forall j: nat | j < k.N()
      ensures own.accepted[j] == fate.accepted[j]
      ensures own.accepted[j] ==> own.blocks[j] == fate.blocks[j]
    {
      OwnAgrees(k, st, fin, foreign, q, e, j);
    }
    assert own.accepted == fate.accepted;
    forall i: nat | i < k.N()
      ensures Levels(p, own, i) == Levels(p, fate, i)
    {
    }
  }

  /** An epoch that has terminated at a correct server has accepted N-F blocks there. */
  lemma OwnAcceptsEnough(k: Cluster, st: State, q: nat, e: nat)
    requires Sound(k, st) && Shapely(k, st) && k.cfg.Correct(q) && At(k, st, q, e).termed
    ensures |Marked(Own(k, st, q)(e).accepted)| >= k.N() - k.cfg.params.f
  {
    hide Invariant, Runnable, ProposalOk, HasBlock;
    assert EpochOk(k, st.nets(e));
    assert PS.FlagsOk(k.G(q), At(k, st, q, e));
    PR.OkGivesSubset(k, st.nets(e), q);
    assert Marked(Own(k, st, q)(e).accepted) == Accepts(At(k, st, q, e).b);
  }

  /** The block of a correct server that has been accepted is the one it has proposed. */
  lemma AcceptedIsProposed(k: Cluster, st: State, foreign: Foreign, q: nat, e: nat, j: nat)
    requires Sound(k, st) && Shapely(k, st) && k.cfg.Correct(q) && At(k, st, q, e).termed
    requires Restores(k.cfg.params, k.codec) && Granted(k, st, foreign) && AllFormed(k.cfg.params, Own(k, st, q))
    requires k.cfg.Correct(j) && Accepted(At(k, st, q, e).b[j])
    ensures e < |st.books[j].proposed| && st.books[j].proposed[e] == Own(k, st, q)(e).blocks[j]
    ensures WellFormed(k.N(), st.books[j].proposed[e])
  {
    hide Sound, Lasts, Granted, Restores, PB.AcceptedSomewhere, Accepted;
    LaterSelf(k, st);
    OwnAgrees(k, st, st, foreign, q, e, j);
    DecodedIsProposed(k, st, foreign, q, e, j);
    assert Formed(k.cfg.params, Own(k, st, q)(e));
  }

  /** A correct server whose block was accepted in epoch e refers beyond level lv of server i, and has seen its dispersal. */
  ghost predicate Vouches(k: Cluster, st: State, q: nat, e: nat, i: nat, lv: nat, j: nat)
    requires Shapely(k, st) && q < k.N() && i < k.N()
  {
    && k.cfg.Correct(j) && Accepted(At(k, st, q, e).b[j])
    && e < |st.books[j].proposed| && WellFormed(k.N(), st.books[j].proposed[e]) && st.books[j].proposed[e].references[i] > lv
    && Sees(k, st, j, i, lv)
  }

  /** Of the block of server i in epoch lv, N-2F correct servers hold their chunk. */
  ghost predicate Retrievable(k: Cluster, st: State, i: nat, lv: nat)
    requires Shapely(k, st) && i < k.N()
  {
    |DR.Holders(k.S(i), VNet(k, st.nets(lv), i), k.cfg.faulty)| >= k.N() - 2 * k.cfg.params.f
  }

  /** Level lv of server i, which epoch e confirms, lies before it and has been seen dispersed. */
  ghost predicate LinkOk(k: Cluster, st: State, q: nat, e: nat, i: nat, lv: nat)
    requires Shapely(k, st) && q < k.N() && i < k.N()
  {
    && lv < e && (exists j :: Vouches(k, st, q, e, i, lv, j))
    && (i in k.cfg.faulty || |k.cfg.faulty| < k.cfg.params.f ==> Retrievable(k, st, i, lv))
  }

  lemma LinkIsVouched(k: Cluster, st: State, foreign: Foreign, q: nat, e: nat, i: nat, lv: nat)
    requires Sound(k, st) && Shapely(k, st) && k.cfg.Correct(q) && At(k, st, q, e).termed && i < k.N()
    requires Restores(k.cfg.params, k.codec) && Granted(k, st, foreign)
    requires AllFormed(k.cfg.params, Own(k, st, q)) && lv < ConfirmUntil(k.cfg.params, Own(k, st, q)(e), i)
    ensures LinkOk(k, st, q, e, i, lv)
  {
    hide PR.Ok, Granted, Restores, PayloadDispersed, PB.AllFlagsOk, ConfirmUntil, PP.Dispersed, PP.Proposal, DR.Holders;
    var own := Own(k, st, q)(e);
    assert Formed(k.cfg.params, own);
    var j := ConfirmedByCorrect(k.cfg, own, i);
    AcceptedIsProposed(k, st, foreign, q, e, j);
    assert ProposalOk(k, st, j, e);
    assert Refers(k, st, j, e, st.books[j].proposed[e]);
    assert SeesUntil(k, st, j, i, own.blocks[j].references[i]);
    assert Vouches(k, st, q, e, i, lv, j);
    if i in k.cfg.faulty || |k.cfg.faulty| < k.cfg.params.f {
      assert EpochOk(k, st.nets(lv));
      PR.DispersedIsHeld(k, st.nets(lv), j, i);
    }
  }

  /**
   Linking bound: in every state of every run, each level below what an epoch of a correct server confirms lies before
   the epoch, and its dispersal has been seen complete by a correct server whose block the epoch accepted. So the block
   can be retrieved, even if its server is faulty.
   */
  lemma LinksAreDispersed(k: Cluster, run: seq<State>, t: nat, foreign: Foreign, q: nat, e: nat)
    requires Run(k, run) && t < |run| && Shapely(k, run[t]) && k.cfg.Correct(q) && At(k, run[t], q, e).termed
    requires Restores(k.cfg.params, k.codec) && Granted(k, run[t], foreign)
    ensures AllFormed(k.cfg.params, Own(k, run[t], q))
    ensures forall i: nat, lv: nat :: i < k.N() && lv < ConfirmUntil(k.cfg.params, Own(k, run[t], q)(e), i) ==>
              LinkOk(k, run[t], q, e, i, lv)
  {
    hide Sound, Granted, Restores, LinkOk, ConfirmUntil;
    RunIsSound(k, run, t);
    OwnIsFormed(k, run[t], foreign, q);
    forall i: nat, lv: nat | i < k.N() && lv < ConfirmUntil(k.cfg.params, Own(k, run[t], q)(e), i)
      ensures LinkOk(k, run[t], q, e, i, lv)
    {
      LinkIsVouched(k, run[t], foreign, q, e, i, lv);
    }
  }

  /** What an epoch confirms reaches the reference of some correct server whose block it accepted, as it accepts N-F. */
  lemma LinksReachFar(k: Cluster, run: seq<State>, t: nat, foreign: Foreign, q: nat, e: nat, i: nat) returns (j: nat)
    requires Run(k, run) && t < |run| && Shapely(k, run[t]) && k.cfg.Correct(q) && At(k, run[t], q, e).termed && i < k.N()
    requires Restores(k.cfg.params, k.codec) && Granted(k, run[t], foreign)
    ensures AllFormed(k.cfg.params, Own(k, run[t], q))
    ensures k.cfg.Correct(j) && Accepted(At(k, run[t], q, e).b[j]) && e < |run[t].books[j].proposed|
    ensures WellFormed(k.N(), run[t].books[j].proposed[e])
    ensures run[t].books[j].proposed[e].references[i] <= ConfirmUntil(k.cfg.params, Own(k, run[t], q)(e), i)
  {
    hide Sound, Granted, Restores, ConfirmUntil, Accepted, HasBlock;
    var st := run[t];
    RunIsSound(k, run, t);
    SoundIsValid(k, st);
    OwnIsFormed(k, st, foreign, q);
    OwnAcceptsEnough(k, st, q, e);
    var own := Own(k, st, q)(e);
    assert Formed(k.cfg.params, own);
    j := ConfirmsEnough(k.cfg, own, i);
    AcceptedIsProposed(k, st, foreign, q, e, j);
  }
}
