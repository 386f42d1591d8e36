/**
 What an epoch hands over to the ledger: a terminated epoch has decided all agreements and decoded all accepted blocks,
 whatever has been decoded is what was dispersed, and nothing of this is forgotten.
 */
module PikaEpochBlocks {
  import opened Common
  import opened Dispersal
  import opened PikaEpoch
  import opened PikaEpochSteps
  import opened PikaEpochNetwork
  import opened PikaEpochRuns
  import DN = DispersalNetwork
  import DT = DispersalRetrieval

  /** The flags of every correct server keep their promise. */
  ghost predicate AllFlagsOk(k: Cluster, net: Net)
    requires Shaped(k, net)
  {
    forall q: nat :: k.cfg.Correct(q) ==> FlagsOk(k.G(q), net.nodes[q])
  }

  /** Whatever a server does, it goes on, up to the check for termination. */
  lemma ActGoesOn(k: Cluster, net: Net, next: Net, q: nat, act: Act) returns (u: EpochState)
    requires Fit(k, net) && Acts(k, net, next, q, act)
    ensures Onward(k.G(q), net.nodes[q], u) && Sized(k.G(q), u)
    ensures next.nodes == net.nodes[q := u] || next.nodes == net.nodes[q := Conclude(u)]
  {
    hide OnVID, OnBA, Init, RequestAll, Request, Conclude, Runnable, StaysAt, Sized;
    var g, s := k.G(q), net.nodes[q];
    match act
    case GetVID(i, from, m) =>
      u := OnVID(g, s, i, from, m).0;
      OnVIDOnward(g, s, i, from, m);
    case GetBA(i, from, m) =>
      u := OnBA(g, s, i, from, m).0;
      OnBAOnward(g, s, i, from, m);
    case Begin(x) =>
      u := Init(g, s, x).0;
      InitOnward(g, s, x);
    case StartAsking =>
      u := StartRequesting(g, s).0;
      StartOnward(g, s);
    case Ask(i) =>
      u := Request(g, s, i).0;
      RequestOnward(g, s, i);
  }

  lemma ActKeepsFlags(k: Cluster, net: Net, next: Net, q: nat, act: Act)
    requires Fit(k, net) && AllFlagsOk(k, net) && Acts(k, net, next, q, act)
    ensures Shaped(k, next) ==> AllFlagsOk(k, next)
  {
    hide Conclude, Acts, Runnable, Onward, FlagsOk;
    var u := ActGoesOn(k, net, next, q, act);
    ActIsCorrect(k, net, next, q, act);
    OnwardKeepsFlags(k.G(q), net.nodes[q], u);
    ConcludeKeepsFlags(k.G(q), u);
  }

  lemma ActIsCorrect(k: Cluster, net: Net, next: Net, q: nat, act: Act)
    requires Fit(k, net) && Acts(k, net, next, q, act)
    ensures k.cfg.Correct(q)
  {
  }

  lemma MoveKeepsFlags(k: Cluster, net: Net, next: Net)
    requires Fit(k, net) && AllFlagsOk(k, net) && Moves(k, net, next)
    ensures Shaped(k, next) ==> AllFlagsOk(k, next)
  {
    hide Runnable, Acts, FlagsOk;
    if q, act :| Acts(k, net, next, q, act) {
      ActKeepsFlags(k, net, next, q, act);
    }
  }

  lemma {:induction false} RunKeepsFlags(k: Cluster, run: seq<Net>, t: nat)
    requires Run(k, run) && t < |run|
    ensures Ok(k, run[t]) && AllFlagsOk(k, run[t])
  {
    hide Invariant, Runnable, Moves, AllFlagsOk;
    RunKeepsOk(k, run, t);
    if t == 0 {
      StartFlags(k);
    } else {
      RunKeepsFlags(k, run, t - 1);
      assert Moves(k, run[t - 1], run[t]);
      MoveKeepsFlags(k, run[t - 1], run[t]);
    }
  }

  lemma StartFlags(k: Cluster)
    requires Shaped(k, Start(k))
    ensures AllFlagsOk(k, Start(k))
  {
  }

  /** The network of dispersal i and what it dispersed fit together, as far as the environment is concerned. */
  ghost predicate Disperses(k: Cluster, net: Net, i: nat, x: Payload)
    requires Shaped(k, net) && i < k.N() && Restores(k.cfg.params, k.codec)
  {
    exists y :: DT.Given(k.S(i), x, y, VNet(k, net, i))
  }

  /** Whatever block of server i a correct server has decoded is the one that was dispersed. */
  lemma DecodedIsDispersed(k: Cluster, net: Net, q: nat, i: nat, x: Payload)
    requires Ok(k, net) && k.cfg.Correct(q) && i < k.N() && Restores(k.cfg.params, k.codec)
    requires Disperses(k, net, i, x) && HasBlock(net.nodes[q].v[i])
    ensures net.nodes[q].v[i].payload.value == x
  {
    hide Restores, VotesOk, Runnable;
    var y :| DT.Given(k.S(i), x, y, VNet(k, net, i));
    assert InstanceOk(k, net, i);
    var run :| DN.Run(k.S(i), run) && run[|run| - 1] == VNet(k, net, i);
    DT.RetrievedIsDispersed(k.S(i), run, |run| - 1, q, x, y);
    assert VNet(k, net, i).nodes[q] == net.nodes[q].v[i];
  }

  /** Some correct server has accepted block i. */
  ghost predicate AcceptedSomewhere(k: Cluster, net: Net, i: nat)
    requires Shaped(k, net) && i < k.N()
  {
    exists q: nat :: k.cfg.Correct(q) && Accepted(net.nodes[q].b[i])
  }

  /** What server q knows of block i in state s it knows in state t. */
  ghost predicate LastsAt(g: Server, s: EpochState, t: EpochState, i: nat)
    requires i < |s.b| && i < |s.v| && i < |t.b| && i < |t.v|
  {
    && (s.termed ==> t.termed)
    && (PayloadDispersed(g.VID(i), s.v[i]) ==> PayloadDispersed(g.VID(i), t.v[i]))
    && (s.b[i].Decided? ==> t.b[i] == s.b[i])
    && (HasBlock(s.v[i]) ==> t.v[i].payload == s.v[i].payload)
  }

  lemma MoveLasts(k: Cluster, net: Net, next: Net, q: nat, i: nat)
    requires Moves(k, net, next) && Shaped(k, next) && k.cfg.Correct(q) && i < k.N()
    ensures LastsAt(k.G(q), net.nodes[q], next.nodes[q], i)
  {
    hide Acts, Runnable, PayloadDispersed;
    if r: nat, act: Act :| Acts(k, net, next, r, act) {
      var u := ActGoesOn(k, net, next, r, act);
      ActIsCorrect(k, net, next, r, act);
      assert StaysAt(k.G(r), net.nodes[r], u, i);
    }
  }
}
