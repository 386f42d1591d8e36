/** Whole runs of an epoch: the common subset, and that whatever is accepted can be retrieved. */
module PikaEpochRuns {
  import opened Common
  import opened Dispersal
  import opened PikaEpoch
  import opened PikaEpochNetwork
  import A = Agreement
  import AN = AgreementNetwork
  import AR = AgreementRuns
  import DS = DispersalStep
  import DN = DispersalNetwork
  import DR = DispersalRuns

  /** What server q does: handle a message, start its own dispersal, or ask for blocks. */
  datatype Act =
    | GetVID(i: nat, from: nat, m: Msg)
    | GetBA(i: nat, from: nat, msg: A.BAMsg)
    | Begin(x: Payload)
    | StartAsking
    | Ask(i: nat)

  ghost predicate Fit(k: Cluster, net: Net) {
    && k.cfg.Valid() && Shaped(k, net)
    && forall q: nat :: k.cfg.Correct(q) ==> Runnable(k.G(q), net.nodes[q])
  }

  /** Messages have been sent to the server; a dispersal is begun once, with a block. */
  ghost predicate Possible(k: Cluster, net: Net, q: nat, act: Act)
    requires Fit(k, net)
  {
    k.cfg.Correct(q) &&
    match act
    case GetVID(i, from, m) => i < k.N() && Envelope(m, from, q) in net.vid[i] && DS.Possible(k.G(q).VID(i), DS.Hear(from, m))
    case GetBA(i, from, m) => i < k.N() && from < k.N() && AN.Deliverable(k.cfg, BANet(k, net, i).history, from, m)
    case Begin(x) =>
      && x.Block? && net.nodes[q].v[q].payload == Some(EmptyPayload)
      && DS.Possible(k.G(q).VID(q), DS.Begin(x, EmptyPayload))
    case StartAsking => true
    case Ask(i) => i < k.N()
  }

  ghost function Do(k: Cluster, net: Net, q: nat, act: Act): (EpochState, seq<Out>)
    requires Fit(k, net) && Possible(k, net, q, act)
  {
    var g, s := k.G(q), net.nodes[q];
    match act
    case GetVID(i, from, m) => var (s1, out) := OnVID(g, s, i, from, m); (Conclude(s1), out)
    case GetBA(i, from, m) => var (s1, out) := OnBA(g, s, i, from, m); (Conclude(s1), out)
    case Begin(x) => Init(g, s, x)
    case StartAsking => StartRequesting(g, s)
    case Ask(i) => Request(g, s, i)
  }

  ghost predicate Acts(k: Cluster, net: Net, next: Net, q: nat, act: Act)
    requires Fit(k, net)
  {
    && Possible(k, net, q, act)
    && var (s, out) := Do(k, net, q, act);
       next == if act.GetVID? then PostHeard(k, net, q, s, out, act.i, {Envelope(act.m, act.from, q)}) else Post(k, net, q, s, out)
  }

  /** A faulty server sends a message in dispersal i. */
  ghost predicate Forges(k: Cluster, net: Net, next: Net, i: nat, e: Env)
    requires Shaped(k, net)
  {
    && i < k.N() && e.from in k.cfg.faulty && e.dest < k.N() && e.msg.Complete()
    && next == net.(vid := net.vid[i := net.vid[i] + {e}])
  }

  ghost predicate Moves(k: Cluster, net: Net, next: Net) {
    && Fit(k, net)
    && ((exists q, act :: Acts(k, net, next, q, act)) || (exists i, e :: Forges(k, net, next, i, e)))
  }

  ghost function Start(k: Cluster): Net {
    Net(seq(k.N(), q requires 0 <= q < k.N() => Fresh(k.G(q))), seq(k.N(), i => {}), seq(k.N(), i => {}), seq(k.N(), i => {}))
  }

  ghost predicate Run(k: Cluster, run: seq<Net>) {
    && k.cfg.Valid() && |run| > 0 && run[0] == Start(k)
    && forall t: nat, u: nat :: u == t + 1 < |run| ==> Moves(k, run[t], run[u])
  }

  /** The invariant of an epoch, and that every agreement can be run. */
  ghost predicate Ok(k: Cluster, net: Net) {
    Invariant(k, net) && Fit(k, net)
  }

  lemma StartOk(k: Cluster)
    requires k.cfg.Valid()
    ensures Ok(k, Start(k))
  {
    var net := Start(k);
    forall i: nat | i < k.N()
      ensures InstanceOk(k, net, i)
    {
      StartInstance(k, i);
    }
    forall q: nat | k.cfg.Correct(q)
      ensures VotesOk(k, net.nodes[q], q) && Runnable(k.G(q), net.nodes[q])
    {
    }
  }

  lemma StartInstance(k: Cluster, i: nat)
    requires k.cfg.Valid() && i < k.N() && Shaped(k, Start(k))
    ensures InstanceOk(k, Start(k), i)
  {
    hide AR.Reachable, DN.Reachable;
    var net := Start(k);
    assert Votes(k, net, i) == {};
    assert BANet(k, net, i).servers == AN.Start(k.cfg).servers;
    assert VNet(k, net, i).nodes == DN.Start(k.S(i)).nodes;
    AR.StartReachable(k.cfg);
    DN.StartReachable(k.S(i));
  }

  lemma ActKeeps(k: Cluster, net: Net, next: Net, q: nat, act: Act)
    requires Ok(k, net)
    ensures Acts(k, net, next, q, act) ==> Ok(k, next)
  {
    hide InstanceOk, VotesOk, OnVID, OnBA, Init, RequestAll, Request, Conclude, Runnable, AN.Deliverable;
    if !Acts(k, net, next, q, act) {
      return;
    }
    match act
    case GetVID(i, from, m) => OnVIDKeeps(k, net, q, i, from, m);
    case GetBA(i, from, m) =>
      OnBAKeeps(k, net, q, i, from, m);
      ConcludeKeeps(k, net, q, OnBA(k.G(q), net.nodes[q], i, from, m).0, OnBA(k.G(q), net.nodes[q], i, from, m).1);
    case Begin(x) => InitKeeps(k, net, q, x);
    case StartAsking =>
      var s := net.nodes[q].(requestStarted := true);
      FlagsKeep(k, net, q, s);
      RequestAllKeeps(k, Post(k, net, q, s, []), q, 0);
      PostsThen(k, net, q, s, [], RequestAll(k.G(q), s, 0).0, RequestAll(k.G(q), s, 0).1);
      assert [] + RequestAll(k.G(q), s, 0).1 == RequestAll(k.G(q), s, 0).1;
    case Ask(i) => RequestKeeps(k, net, q, i);
  }

  lemma ForgeKeeps(k: Cluster, net: Net, next: Net, i: nat, e: Env)
    requires Ok(k, net) && Forges(k, net, next, i, e)
    ensures Ok(k, next)
  {
    hide AR.Reachable, DN.Reachable, VotesOk, Runnable;
    forall j: nat | j < k.N()
      ensures InstanceOk(k, next, j)
    {
      assert InstanceOk(k, net, j);
      assert BANet(k, next, j).servers == BANet(k, net, j).servers && Votes(k, next, j) == Votes(k, net, j);
      assert VNet(k, next, j).nodes == VNet(k, net, j).nodes;
      if j == i {
        var a, b := VNet(k, net, i), VNet(k, next, i);
        assert DN.Forges(k.S(i), a, b, e);
        assert DN.Step(k.S(i), a, b);
        DN.StepReachable(k.S(i), a, b);
      } else {
        assert VNet(k, next, j) == VNet(k, net, j);
      }
    }
  }

  lemma MoveKeepsOk(k: Cluster, net: Net, next: Net)
    requires Ok(k, net) && Moves(k, net, next)
    ensures Ok(k, next)
  {
    hide Invariant, Runnable, Acts, Forges;
    if q, act :| Acts(k, net, next, q, act) {
      ActKeeps(k, net, next, q, act);
    } else {
      var i, e :| Forges(k, net, next, i, e);
      ForgeKeeps(k, net, next, i, e);
    }
  }

  lemma {:induction false} RunKeepsOk(k: Cluster, run: seq<Net>, t: nat)
    requires Run(k, run) && t < |run|
    ensures Ok(k, run[t])
  {
    hide Ok, Moves;
    if t == 0 {
      StartOk(k);
    } else {
      RunKeepsOk(k, run, t - 1);
      assert Moves(k, run[t - 1], run[t]);
      MoveKeepsOk(k, run[t - 1], run[t]);
    }
  }

  /** Correct servers that decide an agreement of the epoch decide it alike. */
  lemma SameDecision(k: Cluster, net: Net, q: nat, r: nat, i: nat)
    requires Ok(k, net) && k.cfg.Correct(q) && k.cfg.Correct(r) && i < k.N()
    requires net.nodes[q].b[i].Decided? && net.nodes[r].b[i].Decided?
    ensures net.nodes[q].b[i].output == net.nodes[r].b[i].output
  {
    hide AN.Invariant, DN.Reachable, VotesOk, Runnable;
    assert InstanceOk(k, net, i);
    AR.ReachableOk(k.cfg, BANet(k, net, i));
    assert BANet(k, net, i).servers[q] == net.nodes[q].b[i] && BANet(k, net, i).servers[r] == net.nodes[r].b[i];
    AR.InvariantGivesAgreement(k.cfg, BANet(k, net, i), q, r);
  }

  /** Some correct server has voted for what is decided. */
  lemma DecisionHasVoter(k: Cluster, net: Net, q: nat, i: nat) returns (r: nat)
    requires Ok(k, net) && k.cfg.Correct(q) && i < k.N() && net.nodes[q].b[i].Decided?
    ensures k.cfg.Correct(r) && net.nodes[r].input[i] == Some(net.nodes[q].b[i].output)
  {
    hide AN.Invariant, DN.Reachable, VotesOk, Runnable;
    assert InstanceOk(k, net, i);
    AR.ReachableOk(k.cfg, BANet(k, net, i));
    var x := net.nodes[q].b[i].output;
    assert BANet(k, net, i).servers[q] == net.nodes[q].b[i];
    AR.InvariantGivesValidity(k.cfg, BANet(k, net, i), q);
    r :| k.cfg.Correct(r) && (r, x) in BANet(k, net, i).history.inputs;
  }

  /** Why a correct server has voted as it has. */
  lemma VoteHasReason(k: Cluster, net: Net, r: nat, i: nat)
    requires Ok(k, net) && k.cfg.Correct(r) && i < k.N()
    ensures net.nodes[r].input[i] == Some(false) ==> |Accepts(net.nodes[r].b)| + k.cfg.params.f >= k.N()
    ensures net.nodes[r].input[i] == Some(true) && i != r ==> PayloadDispersed(k.G(r).VID(i), net.nodes[r].v[i])
  {
    hide InstanceOk, Runnable, PayloadDispersed;
    assert VoteOk(k, net.nodes[r], r, i);
  }

  lemma OkGivesSubset(k: Cluster, net: Net, q: nat)
    requires Ok(k, net) && k.cfg.Correct(q) && AllDecided(net.nodes[q])
    ensures |Accepts(net.nodes[q].b)| >= k.N() - k.cfg.params.f
  {
    hide InstanceOk, Runnable, VotesOk;
    var b := net.nodes[q].b;
    if i: nat :| i < k.N() && !b[i].output {
      var r := DecisionHasVoter(k, net, q, i);
      VoteHasReason(k, net, r, i);
      forall j | j in Accepts(net.nodes[r].b)
        ensures j in Accepts(b)
      {
        SameDecision(k, net, q, r, j);
      }
      SubsetCount(Accepts(net.nodes[r].b), Accepts(b));
    } else {
      assert Accepts(b) == Nodes(k.N());
    }
  }

  /** Common subset: once all agreements have decided at a correct server, at least N-F blocks are accepted there. */
  lemma CommonSubset(k: Cluster, run: seq<Net>, t: nat, q: nat)
    requires Run(k, run) && t < |run| && k.cfg.Correct(q)
    requires Shaped(k, run[t]) && AllDecided(run[t].nodes[q])
    ensures |Accepts(run[t].nodes[q].b)| >= k.N() - k.cfg.params.f
  {
    hide Invariant;
    RunKeepsOk(k, run, t);
    OkGivesSubset(k, run[t], q);
  }

  /** Once a correct server has seen the dispersal of server i complete, N-2F correct servers hold their chunk, unless i is
      correct and as many servers are faulty as may be. */
  lemma DispersedIsHeld(k: Cluster, net: Net, q: nat, i: nat)
    requires Ok(k, net) && k.cfg.Correct(q) && i < k.N() && (i in k.cfg.faulty || |k.cfg.faulty| < k.cfg.params.f)
    requires PayloadDispersed(k.G(q).VID(i), net.nodes[q].v[i])
    ensures |DR.Holders(k.S(i), VNet(k, net, i), k.cfg.faulty)| >= k.N() - 2 * k.cfg.params.f
  {
    hide AR.Reachable, VotesOk, Runnable, PayloadDispersed;
    assert InstanceOk(k, net, i);
    DR.InitiatorShields(k.S(i), k.cfg.faulty);
    assert VNet(k, net, i).nodes[q] == net.nodes[q].v[i];
    var vrun :| DN.Run(k.S(i), vrun) && vrun[|vrun| - 1] == VNet(k, net, i);
    DR.DispersedIsAvailable(k.S(i), vrun, |vrun| - 1, k.cfg.faulty, q);
  }

  /**
   Accepted blocks are retrievable: when a correct server has accepted the block of a faulty server i, at least N-2F
   correct servers hold their chunk of it.
   */
  lemma AcceptedIsRetrievable(k: Cluster, run: seq<Net>, t: nat, q: nat, i: nat)
    requires Run(k, run) && t < |run| && k.cfg.Correct(q) && i in k.cfg.faulty
    requires Shaped(k, run[t]) && i < k.N() && Accepted(run[t].nodes[q].b[i])
    ensures |DR.Holders(k.S(i), VNet(k, run[t], i), k.cfg.faulty)| >= k.N() - 2 * k.cfg.params.f
  {
    hide Invariant, PayloadDispersed, Runnable;
    RunKeepsOk(k, run, t);
    var r := DecisionHasVoter(k, run[t], q, i);
    VoteHasReason(k, run[t], r, i);
    DispersedIsHeld(k, run[t], r, i);
  }

  /** No agreement of a correct server has panicked or is stuck. */
  lemma AgreementsRun(k: Cluster, run: seq<Net>, t: nat, q: nat, i: nat)
    requires Run(k, run) && t < |run| && k.cfg.Correct(q) && i < k.N()
    ensures Shaped(k, run[t]) && (run[t].nodes[q].b[i].Running? || run[t].nodes[q].b[i].Decided?)
  {
    hide DN.Reachable, VotesOk, Runnable;
    RunKeepsOk(k, run, t);
    assert InstanceOk(k, run[t], i);
    AR.ReachableOk(k.cfg, BANet(k, run[t], i));
    assert BANet(k, run[t], i).servers[q] == run[t].nodes[q].b[i];
    assert AN.ServerKnows(k.cfg, BANet(k, run[t], i).history, q, run[t].nodes[q].b[i]);
  }
}
