/**
 Whole runs that have come to rest: a server whose next epoch has terminated, and which has asked for the blocks that the
 epoch confirms, has them and can output the epoch.
 */
module PikaDelivery {
  import opened Common
  import opened Dispersal
  import opened PikaEpoch
  import opened PikaEpochNetwork
  import opened Ledger
  import opened PikaNetwork
  import opened PikaWorld
  import DN = DispersalNetwork
  import DQ = DispersalSilence
  import DT = DispersalRetrieval
  import AR = AgreementRuns
  import PR = PikaEpochRuns
  import PB = PikaEpochBlocks
  import PD = PikaEpochDuties
  import PE = PikaEpochProgress
  import PP = PikaEpochProposal
  import PW = PikaRuns

  /** Who has dispersed its block has it. */
  ghost predicate OwnKept(k: Cluster, net: Net)
    requires Shaped(k, net)
  {
    forall q: nat :: k.cfg.Correct(q) && PP.Dispersed(net, q) != {} ==> HasBlock(net.nodes[q].v[q])
  }

  ghost predicate Dutiful(k: Cluster, net: Net) {
    Shaped(k, net) && PE.AllDutiful(k, net) && OwnKept(k, net)
  }

  lemma BeginKeepsOwn(k: Cluster, net: Net, q: nat, act: PR.Act)
    requires PR.Fit(k, net) && PR.Possible(k, net, q, act) && act.Begin? && PD.Duties(k.G(q), net.nodes[q])
    ensures PR.Do(k, net, q, act).0.v[q].payload.Some? && HasBlock(PR.Do(k, net, q, act).0.v[q])
  {
    hide Init, Runnable, PD.Duties;
    PD.InitOwes(k.G(q), net.nodes[q], act.x);
  }

  lemma MoveKeepsOwn(k: Cluster, net: Net, next: Net)
    requires PR.Moves(k, net, next) && Dutiful(k, net) && Shaped(k, next)
    ensures OwnKept(k, next)
  {
    hide Runnable, PR.Do, PP.Dispersed, PD.Duties, PP.Proposal, PayloadDispersed, PR.Possible;
    forall j: nat | k.cfg.Correct(j) && PP.Dispersed(next, j) != {}
      ensures HasBlock(next.nodes[j].v[j])
    {
      PB.MoveLasts(k, net, next, j, j);
      if q: nat, act :| PR.Acts(k, net, next, q, act) {
        PP.ActDisperses(k, net, next, q, act, j);
        if act.Begin? && j == q {
          BeginKeepsOwn(k, net, q, act);
        }
      } else {
        var i: nat, m :| PR.Forges(k, net, next, i, m);
        PP.ForgeDisperses(k, net, next, i, m, j);
      }
    }
  }

  lemma MoveKeepsDuty(k: Cluster, net: Net, next: Net)
    requires PR.Moves(k, net, next) && Dutiful(k, net) && Shaped(k, next)
    ensures Dutiful(k, next)
  {
    hide PR.Moves, PE.AllDutiful, OwnKept;
    assert PR.Fit(k, net) by {
      MoveIsFit(k, net, next);
    }
    PE.MoveOwes(k, net, next);
    MoveKeepsOwn(k, net, next);
  }

  lemma MoveIsFit(k: Cluster, net: Net, next: Net)
    requires PR.Moves(k, net, next)
    ensures PR.Fit(k, net)
  {
  }

  /** Every step of a run moves the network of one epoch, or none. */
  lemma MoveIsOfEpoch(k: Cluster, st: State, next: State) returns (e: nat)
    requires Moves(k, st, next)
    ensures NetsMove(k, st, next, e)
  {
    hide PR.Acts, PR.Forges, Runnable, LinksReady, Printed, NextReferences;
    e := 0;
    if q: nat, f: nat, act :| Works(k, st, next, q, f, act) {
      e := f;
      ActMoves(k, st.nets(e), next.nets(e), q, act);
    } else if q: nat, body: Bytes :| Proposes(k, st, next, q, body) {
      e := |st.books[q].proposed|;
      ActMoves(k, st.nets(e), next.nets(e), q, PR.Begin(Block(NextReferences(k, st, q), body)));
    } else if q: nat :| Outputs(k, st, next, q) {
    } else {
      var f: nat, i: nat, m :| Forges(k, st, next, f, i, m);
      e := f;
      assert PR.Moves(k, st.nets(e), next.nets(e));
    }
  }

  ghost predicate AllDutiful(k: Cluster, st: State) {
    forall e: nat :: Dutiful(k, st.nets(e))
  }

  lemma StepDutiful(k: Cluster, st: State, next: State)
    requires Sound(k, st) && AllDutiful(k, st) && Moves(k, st, next)
    ensures AllDutiful(k, next)
  {
    hide Dutiful, PR.Moves, Moves, Sound, Later, Shaped;
    MoveKeepsSound(k, st, next);
    var e := MoveIsOfEpoch(k, st, next);
    forall f: nat
      ensures Dutiful(k, next.nets(f))
    {
      assert Dutiful(k, st.nets(f));
      SoundIsShaped(k, next, f);
      if next.nets(f) != st.nets(f) {
        MoveKeepsDuty(k, st.nets(f), next.nets(f));
      }
    }
  }

  lemma SoundIsShaped(k: Cluster, st: State, f: nat)
    requires Sound(k, st)
    ensures Shaped(k, st.nets(f)) && PR.Ok(k, st.nets(f))
  {
    hide ProposalOk, PB.AllFlagsOk;
    assert EpochOk(k, st.nets(f));
  }

  lemma StartIsDutiful(k: Cluster)
    requires k.cfg.Valid()
    ensures Dutiful(k, PR.Start(k))
  {
    hide PE.AllDutiful;
    PR.StartOk(k);
    PE.StartDutiful(k);
    forall q: nat | k.cfg.Correct(q)
      ensures PP.Dispersed(PR.Start(k), q) == {}
    {
      StartDisperses(k, q);
    }
  }

  lemma {:induction false} RunIsDutiful(k: Cluster, run: seq<State>, t: nat)
    requires Run(k, run) && t < |run|
    ensures Sound(k, run[t]) && AllDutiful(k, run[t])
  {
    hide Sound, Moves, Dutiful, PR.Start;
    RunIsSound(k, run, t);
    if t == 0 {
      StartIsDutiful(k);
    } else {
      RunIsDutiful(k, run, t - 1);
      assert Moves(k, run[t - 1], run[t]);
      StepDutiful(k, run[t - 1], run[t]);
    }
  }

  /** Nothing is under way in any dispersal of any epoch. */
  ghost predicate AtRest(k: Cluster, st: State)
    requires Shapely(k, st)
  {
    forall e: nat :: PE.AllQuiet(k, st.nets(e))
  }

  /** Server q has asked for the block of server i in epoch e. */
  ghost predicate Asked(k: Cluster, st: State, q: nat, e: nat, i: nat)
    requires Shapely(k, st) && q < k.N() && i < k.N()
  {
    var v := At(k, st, q, e).v[i];
    v.retrieval.Some? ==> v.retrieval.value.scheduled
  }

  /** A dispersal that somebody sees complete has been begun by a correct initiator. */
  lemma SeenIsBegun(k: Cluster, net: Net, p: nat, i: nat)
    requires PR.Ok(k, net) && k.cfg.Correct(p) && k.cfg.Correct(i) && PayloadDispersed(k.G(p).VID(i), net.nodes[p].v[i])
    ensures PP.Dispersed(net, i) != {}
  {
    hide AR.Reachable, DN.Reachable, VotesOk, Runnable, PayloadDispersed;
    assert InstanceOk(k, net, i);
    assert VNet(k, net, i).nodes[p] == net.nodes[p].v[i];
    if PP.Dispersed(net, i) == {} {
      DQ.UnbegunIsSilent(k.S(i), VNet(k, net, i), p);
    }
  }

  /** Of a dispersal that has been seen complete, whatever is decoded is a block. */
  lemma SeenIsBlock(k: Cluster, st: State, foreign: Foreign, p: nat, q: nat, e: nat, i: nat)
    requires Sound(k, st) && Shapely(k, st) && Dutiful(k, st.nets(e)) && Restores(k.cfg.params, k.codec) && Granted(k, st, foreign)
    requires k.cfg.Correct(p) && k.cfg.Correct(q) && i < k.N() && Sees(k, st, p, i, e) && At(k, st, q, e).v[i].payload.Some?
    ensures HasBlock(At(k, st, q, e).v[i])
  {
    hide Runnable, VotesOk, PB.AllFlagsOk, Restores, Refers, PP.Dispersed, PP.Proposal, Granted, DT.Given, PE.AllDutiful, AR.Reachable, PayloadDispersed;
    var net := st.nets(e);
    assert EpochOk(k, net);
    if k.cfg.Correct(i) {
      SeenIsBegun(k, net, p, i);
      assert ProposalOk(k, st, i, e);
    }
    if i != q {
      WorldIsDispersed(k, st, foreign, e, i);
      var x := BlockOf(k, st, foreign, e, i);
      var y :| DT.Given(k.S(i), x, y, VNet(k, net, i));
      BlocksAreBlocks(k, st, foreign, e, i);
      assert InstanceOk(k, net, i);
      var vrun :| DN.Run(k.S(i), vrun) && vrun[|vrun| - 1] == VNet(k, net, i);
      DT.RetrievedIsDispersed(k.S(i), vrun, |vrun| - 1, q, x, y);
      assert VNet(k, net, i).nodes[q] == net.nodes[q].v[i];
    }
  }

  lemma BlocksAreBlocks(k: Cluster, st: State, foreign: Foreign, e: nat, i: nat)
    requires Sound(k, st) && Shapely(k, st) && Restores(k.cfg.params, k.codec) && Granted(k, st, foreign) && i < k.N()
    ensures BlockOf(k, st, foreign, e, i).Block?
  {
    hide EpochOk, Honors, Restores;
    assert GrantedAt(k, st, foreign, e, i);
    if k.cfg.Correct(i) {
      assert ProposalOk(k, st, i, e);
    }
  }

  /** N-2F correct servers hold their chunk: sure if the proposer is faulty or fewer than F servers are. */
  ghost predicate Secured(k: Cluster, st: State, e: nat, i: nat)
    requires Shapely(k, st) && i < k.N()
  {
    i in k.cfg.faulty || |k.cfg.faulty| < k.cfg.params.f || PE.Held(k, st.nets(e), i)
  }

  /** A block that somebody has seen dispersed reaches whoever has asked for it. */
  lemma SeenArrives(k: Cluster, st: State, foreign: Foreign, p: nat, q: nat, e: nat, i: nat)
    requires Sound(k, st) && AllDutiful(k, st) && Shapely(k, st) && AtRest(k, st)
    requires Restores(k.cfg.params, k.codec) && Granted(k, st, foreign) && k.cfg.Correct(p) && k.cfg.Correct(q) && i < k.N()
    requires Sees(k, st, p, i, e) && Asked(k, st, q, e, i) && Secured(k, st, e, i)
    ensures HasBlock(At(k, st, q, e).v[i])
  {
    hide Sound, Restores, Granted, PE.AllDutiful, OwnKept, PE.AllQuiet, PE.Held, PayloadDispersed, HasBlock, PR.Ok;
    var net := st.nets(e);
    SoundIsShaped(k, st, e);
    assert Dutiful(k, net) && PE.AllQuiet(k, net);
    forall h: nat | k.cfg.Correct(h)
      ensures PE.Held(k, net, i) && Terminated(k.G(h).VID(i), net.nodes[h].v[i])
    {
      PE.SeenIsDone(k, net, p, i, h);
    }
    PE.SeenIsDone(k, net, p, i, q);
    PE.DoneIsReleased(k, net, i);
    PE.AskerHasBlock(k, net, q, i);
    SeenIsBlock(k, st, foreign, p, q, e, i);
  }

  /** Server q has asked for every block that epoch e confirms by its links. */
  ghost predicate LinksAsked(k: Cluster, st: State, q: nat, e: nat)
    requires Shapely(k, st) && q < k.N() && AllFormed(k.cfg.params, Own(k, st, q))
  {
    forall i: nat, lv: nat :: i < k.N() && lv < ConfirmUntil(k.cfg.params, Own(k, st, q)(e), i)
                              ==> Asked(k, st, q, lv, i) && Secured(k, st, lv, i)
  }

  /**
   Output: in a state of a run in which nothing is under way in the dispersals, a correct server whose next epoch has
   terminated, and which has asked for the blocks that it confirms, can output it.
   */
  lemma OutputIsDue(k: Cluster, run: seq<State>, t: nat, foreign: Foreign, q: nat)
    requires Run(k, run) && t < |run| && Shapely(k, run[t]) && AtRest(k, run[t]) && k.cfg.Correct(q)
    requires Restores(k.cfg.params, k.codec) && Granted(k, run[t], foreign)
    requires run[t].books[q].firstUnoutput < run[t].books[q].known && At(k, run[t], q, run[t].books[q].firstUnoutput).termed
    ensures AllFormed(k.cfg.params, Own(k, run[t], q)) && AllFit(k, run[t])
    ensures LinksAsked(k, run[t], q, run[t].books[q].firstUnoutput) ==> exists next :: Outputs(k, run[t], next, q)
  {
    hide Sound, Restores, Granted, AtRest, AllDutiful, LinkOk, ConfirmUntil, LinksAsked, LinksReady, PR.Fit, OwnFate;
    var st, e := run[t], run[t].books[q].firstUnoutput;
    RunIsDutiful(k, run, t);
    SoundIsFit(k, st);
    PW.CanOutput(k, run, t, foreign, q);
    LinksAreDispersed(k, run, t, foreign, q, e);
    if LinksAsked(k, st, q, e) {
      assert LinksReady(k, st, q, e) by {
        LinksArrive(k, st, foreign, q, e);
      }
      ReadyOutputs(k, st, q);
    }
  }

  lemma LinkArrives(k: Cluster, st: State, foreign: Foreign, q: nat, e: nat, i: nat, lv: nat)
    requires Sound(k, st) && AllDutiful(k, st) && Shapely(k, st) && AtRest(k, st) && k.cfg.Correct(q) && e < st.books[q].known
    requires Restores(k.cfg.params, k.codec) && Granted(k, st, foreign) && i < k.N()
    requires LinkOk(k, st, q, e, i, lv) && Asked(k, st, q, lv, i) && Secured(k, st, lv, i)
    ensures HasBlock(At(k, st, q, lv).v[i])
  {
    hide Sound, Restores, Granted, AtRest, AllDutiful, LinkOk, Sees, Asked, Secured;
    LinkIsSeen(k, st, q, e, i, lv);
    var j: nat :| k.cfg.Correct(j) && Sees(k, st, j, i, lv);
    SeenArrives(k, st, foreign, j, q, lv, i);
  }

  lemma LinksArrive(k: Cluster, st: State, foreign: Foreign, q: nat, e: nat)
    requires Sound(k, st) && AllDutiful(k, st) && Shapely(k, st) && AtRest(k, st) && k.cfg.Correct(q) && e < st.books[q].known
    requires Restores(k.cfg.params, k.codec) && Granted(k, st, foreign)
    requires AllFormed(k.cfg.params, Own(k, st, q)) && LinksAsked(k, st, q, e)
    requires forall i: nat, lv: nat :: i < k.N() && lv < ConfirmUntil(k.cfg.params, Own(k, st, q)(e), i) ==> LinkOk(k, st, q, e, i, lv)
    ensures LinksReady(k, st, q, e)
  {
    hide Sound, Restores, Granted, AtRest, AllDutiful, LinkOk, ConfirmUntil, Asked, Secured;
    forall i: nat | i < k.N()
      ensures ConfirmUntil(k.cfg.params, Own(k, st, q)(e), i) <= e
    {
      var cu := ConfirmUntil(k.cfg.params, Own(k, st, q)(e), i);
      if cu > 0 {
        LinkIsSeen(k, st, q, e, i, cu - 1);
      }
    }
    forall i: nat, lv: nat | i < k.N() && lv < ConfirmUntil(k.cfg.params, Own(k, st, q)(e), i)
      ensures HasBlock(At(k, st, q, lv).v[i])
    {
      assert LinkOk(k, st, q, e, i, lv) && Asked(k, st, q, lv, i) && Secured(k, st, lv, i);
      LinkArrives(k, st, foreign, q, e, i, lv);
    }
  }

  lemma LinkIsSeen(k: Cluster, st: State, q: nat, e: nat, i: nat, lv: nat)
    requires Shapely(k, st) && q < k.N() && i < k.N() && LinkOk(k, st, q, e, i, lv)
    ensures lv < e && exists j: nat :: k.cfg.Correct(j) && Sees(k, st, j, i, lv)
  {
    hide Sees;
    var j :| Vouches(k, st, q, e, i, lv, j);
  }

  lemma ReadyOutputs(k: Cluster, st: State, q: nat)
    requires AllFit(k, st) && Shapely(k, st) && k.cfg.Correct(q)
    requires AllFormed(k.cfg.params, Own(k, st, q)) && OfServers(k.cfg.params, st.books[q].done)
    requires st.books[q].firstUnoutput < st.books[q].known && At(k, st, q, st.books[q].firstUnoutput).termed
    requires LinksReady(k, st, q, st.books[q].firstUnoutput)
    ensures exists next :: Outputs(k, st, next, q)
  {
    hide ConfirmUntil, Runnable, Printed, LinksReady;
    var next := State(st.nets, st.books[q := Printed(k, st, q)]);
    assert Outputs(k, st, next, q);
  }
}
