/**
 Whole runs of an epoch: votes are cast and said as they are due, and once all messages have been handled, a server that
 has started requesting has every block that it has accepted.
 */
module PikaEpochProgress {
  import opened Common
  import opened Dispersal
  import opened PikaEpoch
  import opened PikaEpochNetwork
  import opened PikaEpochRuns
  import opened PikaEpochDuties
  import A = Agreement
  import AE = AgreementEpoch
  import AP = AgreementProgress
  import AR = AgreementRuns
  import DN = DispersalNetwork
  import DP = DispersalProgress
  import DQ = DispersalSilence
  import DR = DispersalRuns
  import DV = DispersalDelivery
  import PB = PikaEpochBlocks
  import PS = PikaEpochSteps

  /** Every correct server has done what it owes. */
  ghost predicate AllDutiful(k: Cluster, net: Net)
    requires Shaped(k, net)
  {
    forall q: nat :: k.cfg.Correct(q) ==> Duties(k.G(q), net.nodes[q])
  }

  lemma DoOwes(k: Cluster, net: Net, q: nat, act: Act)
    requires Fit(k, net) && Possible(k, net, q, act) && Duties(k.G(q), net.nodes[q])
    ensures var s := Do(k, net, q, act).0;
            && Sized(k.G(q), s) && Duties(k.G(q), s)
            && ((act.GetVID? || act.GetBA?) && !net.nodes[q].requestStarted ==> s.requested == net.nodes[q].requested)
  {
    hide OnVID, OnBA, Init, StartRequesting, Request, Conclude, Runnable, Duties, Terminated;
    var g, s := k.G(q), net.nodes[q];
    match act
    case GetVID(i, from, m) =>
      OnVIDOwes(g, s, i, from, m);
      ConcludeOwes(g, OnVID(g, s, i, from, m).0);
    case GetBA(i, from, m) =>
      OnBAOwes(g, s, i, from, m);
      ConcludeOwes(g, OnBA(g, s, i, from, m).0);
    case Begin(x) => InitOwes(g, s, x);
    case StartAsking => StartOwes(g, s);
    case Ask(i) => AskOwes(g, s, i);
  }

  lemma MoveOwes(k: Cluster, net: Net, next: Net)
    requires Fit(k, net) && AllDutiful(k, net) && Moves(k, net, next) && Shaped(k, next)
    ensures AllDutiful(k, next)
  {
    hide Do, Possible, Runnable, Duties;
    if q: nat, act :| Acts(k, net, next, q, act) {
      PossibleIsCorrect(k, net, q, act);
      DoOwes(k, net, q, act);
    }
  }

  lemma PossibleIsCorrect(k: Cluster, net: Net, q: nat, act: Act)
    requires Fit(k, net) && Possible(k, net, q, act)
    ensures k.cfg.Correct(q)
  {
  }

  lemma {:induction false} RunIsDutiful(k: Cluster, run: seq<Net>, t: nat)
    requires Run(k, run) && t < |run|
    ensures Ok(k, run[t]) && AllDutiful(k, run[t])
  {
    hide Invariant, Runnable, Moves, Duties;
    RunKeepsOk(k, run, t);
    if t == 0 {
      StartDutiful(k);
    } else {
      RunIsDutiful(k, run, t - 1);
      assert Moves(k, run[t - 1], run[t]);
      MoveOwes(k, run[t - 1], run[t]);
    }
  }

  lemma StartDutiful(k: Cluster)
    requires k.cfg.Valid() && Shaped(k, Start(k))
    ensures AllDutiful(k, Start(k))
  {
    hide Duties;
    forall q: nat | k.cfg.Correct(q)
      ensures Duties(k.G(q), Start(k).nodes[q])
    {
      FreshOwes(k.G(q));
    }
  }

  /**
   In every state of every run a correct server has voted in agreement i if it has seen dispersal i complete, and in all
   agreements if it has accepted N-F blocks; it serves the chunks of a block that is dispersed or accepted, and has asked
   for the block if it has started requesting. It serves no others before it has proposed.
   */
  lemma VotesAreCast(k: Cluster, run: seq<Net>, t: nat, q: nat, i: nat)
    requires Run(k, run) && t < |run| && k.cfg.Correct(q) && i < k.N()
    ensures Shaped(k, run[t])
    ensures var s := run[t].nodes[q];
            && (Terminated(k.G(q).VID(i), s.v[i]) ==> s.input[i].Some?)
            && (|Accepts(s.b)| + k.cfg.params.f >= k.N() ==> s.input[i].Some?)
            && (Terminated(k.G(q).VID(i), s.v[i]) || Accepted(s.b[i]) ==>
                  && s.v[i].canRelease
                  && (s.requestStarted && s.v[i].retrieval.Some? ==> s.v[i].retrieval.value.scheduled))
            && (s.released[i] ==> Terminated(k.G(q).VID(i), s.v[i]) || Accepted(s.b[i]) || HasBlock(s.v[q]))
  {
    hide Invariant, Runnable, Terminated, Accepts;
    RunIsDutiful(k, run, t);
    assert Duties(k.G(q), run[t].nodes[q]);
    assert DutyAt(k.G(q), run[t].nodes[q], i);
  }

  /** A message after which dispersal i is complete makes a correct server vote for the block, if it has not voted. */
  lemma VoteFollows(k: Cluster, run: seq<Net>, t: nat, q: nat, i: nat, from: nat, m: Msg)
    requires Run(k, run) && t + 1 < |run| && Fit(k, run[t]) && Acts(k, run[t], run[t + 1], q, GetVID(i, from, m)) && i < k.N()
    ensures Shaped(k, run[t + 1])
    ensures Terminated(k.G(q).VID(i), run[t + 1].nodes[q].v[i]) && run[t].nodes[q].input[i].None?
            ==> run[t + 1].nodes[q].input[i] == Some(true)
  {
    hide Invariant, Runnable, Terminated, OnVID, Duties, Moves;
    RunIsDutiful(k, run, t);
    RunIsDutiful(k, run, t + 1);
    OnVIDOwes(k.G(q), run[t].nodes[q], i, from, m);
  }

  /** A vote in an agreement that is still in its first epoch has been sent to all. */
  lemma VoteIsOut(k: Cluster, run: seq<Net>, t: nat, q: nat, i: nat, x: bool)
    requires Run(k, run) && t < |run| && k.cfg.Correct(q) && i < k.N() && Shaped(k, run[t])
    requires run[t].nodes[q].input[i] == Some(x)
    ensures run[t].nodes[q].b[i].Running? && run[t].nodes[q].b[i].core.epochNum == 0
            ==> (q, A.EpochMsg(0, AE.Signal(AE.Viable, x))) in run[t].ba[i]
  {
    hide DN.Reachable, VotesOk, Runnable, Terminated;
    RunIsDutiful(k, run, t);
    var net := run[t];
    assert InstanceOk(k, net, i);
    assert DutyAt(k.G(q), net.nodes[q], i);
    var brun :| AR.Run(k.cfg, brun) && brun[|brun| - 1] == BANet(k, net, i);
    AP.EstimateIsSent(k.cfg, brun, |brun| - 1, q);
    assert BANet(k, net, i).servers[q] == net.nodes[q].b[i];
  }

  /** After a message has been handled: the epoch has terminated exactly if all agreements are decided and all accepted
      blocks are there; and it is dispersed exactly if all agreements are decided. */
  lemma EndsWhenDone(k: Cluster, run: seq<Net>, t: nat, q: nat, act: Act)
    requires Run(k, run) && t + 1 < |run| && Fit(k, run[t]) && Acts(k, run[t], run[t + 1], q, act) && (act.GetVID? || act.GetBA?)
    ensures Shaped(k, run[t + 1])
    ensures var s := run[t + 1].nodes[q];
            && (s.termed <==> AllDecided(s) && forall i: nat :: i < k.N() && Accepted(s.b[i]) ==> HasBlock(s.v[i]))
            && (s.hptermed <==> AllDecided(s))
  {
    hide Invariant, Runnable, OnVID, OnBA, Moves, HasBlock;
    PB.RunKeepsFlags(k, run, t + 1);
    var s := run[t + 1].nodes[q];
    assert PS.FlagsOk(k.G(q), s);
    assert Fit(k, run[t]);
    var u := match act
      case GetVID(i, from, m) => OnVID(k.G(q), run[t].nodes[q], i, from, m).0
      case GetBA(i, from, m) => OnBA(k.G(q), run[t].nodes[q], i, from, m).0;
    assert s == Conclude(u);
    ConcludesWhenDone(u);
  }

  lemma ConcludesWhenDone(u: EpochState)
    requires |u.retrieved| == |u.b| == |u.v|
    ensures var s := Conclude(u);
            && s.b == u.b && s.v == u.v && (AllDecided(u) ==> s.hptermed)
            && (AllDecided(u) && (forall i: nat :: i < |u.b| && Accepted(u.b[i]) ==> HasBlock(u.v[i])) ==> s.termed)
  {
    hide HasBlock;
  }

  /** All messages of all dispersals between correct servers have been handled. */
  ghost predicate AllQuiet(k: Cluster, net: Net)
    requires Shaped(k, net)
  {
    forall i: nat :: i < k.N() ==> DR.Quiet(k.S(i), VNet(k, net, i))
  }

  /** N-2F correct servers hold their chunk of block i. */
  ghost predicate Held(k: Cluster, net: Net, i: nat)
    requires Shaped(k, net) && i < k.N()
  {
    DR.Available(k.S(i), VNet(k, net, i), k.cfg.faulty)
  }

  /** A correct server has the own block only if it has dispersed it. */
  lemma OwnBlockIsBegun(k: Cluster, net: Net, r: nat)
    requires Ok(k, net) && k.cfg.Correct(r) && HasBlock(net.nodes[r].v[r])
    ensures DV.Begun(k.S(r), VNet(k, net, r))
  {
    hide AR.Reachable, DN.Reachable, VotesOk, Runnable;
    assert InstanceOk(k, net, r);
    assert VNet(k, net, r).nodes[r] == net.nodes[r].v[r];
    if DQ.Disperses(net.vid[r], r) == {} {
      DQ.UnbegunIsSilent(k.S(r), VNet(k, net, r), r);
    }
    var e :| e in DQ.Disperses(net.vid[r], r);
    assert DV.DispersedTo(VNet(k, net, r).sent, r, e.dest);
  }

  /** Once some correct server has voted for block i, all correct servers see it dispersed when nothing is under way. */
  lemma VotedIsDone(k: Cluster, net: Net, r: nat, i: nat, q: nat)
    requires Ok(k, net) && AllDutiful(k, net) && AllQuiet(k, net) && k.cfg.Correct(r) && k.cfg.Correct(q) && i < k.N()
    requires net.nodes[r].input[i] == Some(true)
    ensures i in k.cfg.faulty || |k.cfg.faulty| < k.cfg.params.f ==> Held(k, net, i)
    ensures Held(k, net, i) ==> Terminated(k.G(q).VID(i), net.nodes[q].v[i])
  {
    hide AR.Reachable, VotesOk, Runnable, DN.Step, DR.Quiet, DR.Available, PayloadDispersed, HasBlock, DV.Begun;
    var vnet := VNet(k, net, i);
    assert InstanceOk(k, net, i);
    assert DutyAt(k.G(r), net.nodes[r], i);
    assert vnet.nodes[r] == net.nodes[r].v[i] && vnet.nodes[q] == net.nodes[q].v[i];
    if i == r && HasBlock(net.nodes[r].v[r]) {
      OwnBlockIsBegun(k, net, r);
    }
    var vrun :| DN.Run(k.S(i), vrun) && vrun[|vrun| - 1] == vnet;
    DV.EveryoneIsDone(k.S(i), vrun, |vrun| - 1, r, q);
  }

  /** So do they if one of them sees it dispersed. */
  lemma SeenIsDone(k: Cluster, net: Net, p: nat, i: nat, q: nat)
    requires Ok(k, net) && AllQuiet(k, net) && k.cfg.Correct(p) && k.cfg.Correct(q) && i < k.N()
    requires PayloadDispersed(k.G(p).VID(i), net.nodes[p].v[i])
    ensures i in k.cfg.faulty || |k.cfg.faulty| < k.cfg.params.f ==> Held(k, net, i)
    ensures Held(k, net, i) ==> Terminated(k.G(q).VID(i), net.nodes[q].v[i])
  {
    hide AR.Reachable, VotesOk, Runnable, DN.Step, DR.Quiet, DR.Available, PayloadDispersed, DV.Begun;
    var vnet := VNet(k, net, i);
    assert InstanceOk(k, net, i);
    assert vnet.nodes[p] == net.nodes[p].v[i] && vnet.nodes[q] == net.nodes[q].v[i];
    var vrun :| DN.Run(k.S(i), vrun) && vrun[|vrun| - 1] == vnet;
    DV.EveryoneIsDone(k.S(i), vrun, |vrun| - 1, p, q);
  }

  /** Correct servers release their chunks of a block that is complete everywhere. */
  lemma DoneIsReleased(k: Cluster, net: Net, i: nat)
    requires Ok(k, net) && AllDutiful(k, net) && i < k.N()
    requires forall h: nat :: k.cfg.Correct(h) ==> Terminated(k.G(h).VID(i), net.nodes[h].v[i])
    ensures DV.AllRelease(k.S(i), VNet(k, net, i))
  {
    hide InstanceOk, VotesOk, Runnable, Terminated;
    forall h | h in DP.Keepers(k.S(i), VNet(k, net, i))
      ensures VNet(k, net, i).nodes[h].canRelease
    {
      assert DutyAt(k.G(h), net.nodes[h], i);
    }
  }

  /**
   Delivery of an epoch: when all messages of the dispersals have been handled, a server that has started requesting has
   every block that it has accepted, if the proposer is faulty, or fewer than F servers are, or N-2F correct servers hold
   their chunk of it; and all correct servers have seen its dispersal complete.
   */
  lemma AcceptedIsThere(k: Cluster, run: seq<Net>, t: nat, q: nat, i: nat)
    requires Run(k, run) && t < |run| && Shaped(k, run[t]) && AllQuiet(k, run[t]) && k.cfg.Correct(q) && i < k.N()
    requires Accepted(run[t].nodes[q].b[i]) && run[t].nodes[q].requestStarted
    requires i in k.cfg.faulty || |k.cfg.faulty| < k.cfg.params.f || Held(k, run[t], i)
    ensures run[t].nodes[q].v[i].payload.Some?
    ensures forall h: nat :: k.cfg.Correct(h) ==> Terminated(k.G(h).VID(i), run[t].nodes[h].v[i])
  {
    hide Invariant, Runnable, Terminated, AllQuiet, Held, Accepts;
    var net := run[t];
    RunIsDutiful(k, run, t);
    var r := DecisionHasVoter(k, net, q, i);
    forall h: nat | k.cfg.Correct(h)
      ensures Terminated(k.G(h).VID(i), net.nodes[h].v[i])
    {
      VotedIsDone(k, net, r, i, h);
    }
    VotedIsDone(k, net, r, i, q);
    DoneIsReleased(k, net, i);
    assert DutyAt(k.G(q), net.nodes[q], i);
    AskerHasBlock(k, net, q, i);
  }

  lemma AskerHasBlock(k: Cluster, net: Net, q: nat, i: nat)
    requires Ok(k, net) && AllQuiet(k, net) && k.cfg.Correct(q) && i < k.N() && Held(k, net, i)
    requires DV.AllRelease(k.S(i), VNet(k, net, i))
    requires net.nodes[q].v[i].retrieval.Some? ==> net.nodes[q].v[i].retrieval.value.scheduled
    ensures net.nodes[q].v[i].payload.Some?
  {
    hide AR.Reachable, VotesOk, Runnable, DN.Step, DR.Quiet, DR.Available, DV.AllRelease;
    var vnet := VNet(k, net, i);
    assert InstanceOk(k, net, i);
    assert vnet.nodes[q] == net.nodes[q].v[i];
    var vrun :| DN.Run(k.S(i), vrun) && vrun[|vrun| - 1] == vnet;
    DV.AskersHavePayload(k.S(i), vrun, |vrun| - 1, q);
  }
}
