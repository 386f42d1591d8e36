/**
 The network of one epoch: N dispersals and N agreements run side by side on the same servers, coupled by the votes.
 Each instance moves by the steps of its own network, so its invariant carries over; what is new is why a vote is cast.
 */
module PikaEpochNetwork {
  import opened Common
  import opened Dispersal
  import opened PikaEpoch
  import opened PikaEpochSteps
  import A = Agreement
  import AS = AgreementSafety
  import AN = AgreementNetwork
  import AR = AgreementRuns
  import DS = DispersalStep
  import DN = DispersalNetwork

  datatype Cluster = Cluster(cfg: Config, codec: Codec) {
    function G(q: nat): Server {
      Server(cfg.params, q, codec)
    }

    function S(i: nat): DN.System {
      DN.System(cfg, i, codec)
    }

    function N(): nat {
      cfg.params.n
    }
  }

  /** Per server its epoch state; per instance the broadcasts of its agreement, and the messages of its dispersal that
      have been sent and handled. */
  datatype Net = Net(nodes: seq<EpochState>, ba: seq<set<(nat, A.BAMsg)>>, vid: seq<set<Env>>, heard: seq<set<Env>>)

  ghost predicate Shaped(k: Cluster, net: Net) {
    && |net.nodes| == |net.ba| == |net.vid| == |net.heard| == k.N()
    && forall q: nat :: q < k.N() ==> Sized(k.G(q), net.nodes[q])
  }

  /** The votes cast in agreement i. */
  ghost function Votes(k: Cluster, net: Net, i: nat): set<(nat, bool)>
    requires Shaped(k, net) && i < k.N()
  {
    set q: nat, x: bool | q < k.N() && net.nodes[q].input[i] == Some(x) :: (q, x)
  }

  /** The network of agreement i. */
  ghost function BANet(k: Cluster, net: Net, i: nat): AN.Net
    requires Shaped(k, net) && i < k.N()
  {
    AN.Net(seq(k.N(), q requires 0 <= q < k.N() => net.nodes[q].b[i]), AS.History(net.ba[i], Votes(k, net, i)))
  }

  /** The network of dispersal i. */
  ghost function VNet(k: Cluster, net: Net, i: nat): DN.Net
    requires Shaped(k, net) && i < k.N()
  {
    DN.Net(seq(k.N(), q requires 0 <= q < k.N() => net.nodes[q].v[i]), net.vid[i], net.heard[i])
  }

  /** Instance i is in a state of its own runs, so that what holds in those holds here. */
  ghost predicate InstanceOk(k: Cluster, net: Net, i: nat)
    requires Shaped(k, net) && i < k.N()
  {
    AR.Reachable(k.cfg, BANet(k, net, i)) && DN.Reachable(k.S(i), VNet(k, net, i))
  }

  /** Why server q has voted as it has in agreement i. */
  ghost predicate VoteOk(k: Cluster, s: EpochState, q: nat, i: nat)
    requires Sized(k.G(q), s) && i < k.N()
  {
    && (s.input[i] == Some(true) ==> i == q || PayloadDispersed(k.G(q).VID(i), s.v[i]))
    && (s.input[i] == Some(false) ==> |Accepts(s.b)| + k.cfg.params.f >= k.N())
  }

  ghost predicate VotesOk(k: Cluster, s: EpochState, q: nat)
    requires Sized(k.G(q), s)
  {
    forall i: nat :: i < k.N() ==> VoteOk(k, s, q, i)
  }

  ghost predicate Invariant(k: Cluster, net: Net) {
    && k.cfg.Valid()
    && Shaped(k, net)
    && (forall i: nat :: i < k.N() ==> InstanceOk(k, net, i))
    && (forall q: nat :: k.cfg.Correct(q) ==> VotesOk(k, net.nodes[q], q))
  }

  /** Server q gets state s and sends out. */
  ghost function Post(k: Cluster, net: Net, q: nat, s: EpochState, out: seq<Out>): Net
    requires Shaped(k, net) && q < k.N()
  {
    Net(net.nodes[q := s],
        seq(k.N(), i requires 0 <= i < k.N() => net.ba[i] + BASent(q, out, i)),
        seq(k.N(), i requires 0 <= i < k.N() => net.vid[i] + VIDSent(out, i)),
        net.heard)
  }

  lemma PostTwice(k: Cluster, net: Net, q: nat, s1: EpochState, out1: seq<Out>, s2: EpochState, out2: seq<Out>)
    requires Shaped(k, net) && q < k.N() && Sized(k.G(q), s1)
    ensures Shaped(k, Post(k, net, q, s1, out1))
    ensures Post(k, Post(k, net, q, s1, out1), q, s2, out2) == Post(k, net, q, s2, out1 + out2)
  {
    var a, b := Post(k, Post(k, net, q, s1, out1), q, s2, out2), Post(k, net, q, s2, out1 + out2);
    forall i | 0 <= i < k.N()
      ensures a.ba[i] == b.ba[i] && a.vid[i] == b.vid[i]
    {
      SentAppend(q, out1, out2, i);
      assert (net.ba[i] + BASent(q, out1, i)) + BASent(q, out2, i) == net.ba[i] + (BASent(q, out1, i) + BASent(q, out2, i));
      assert (net.vid[i] + VIDSent(out1, i)) + VIDSent(out2, i) == net.vid[i] + (VIDSent(out1, i) + VIDSent(out2, i));
    }
    assert a.nodes == b.nodes && a.ba == b.ba && a.vid == b.vid;
  }

  /** Only instance i of server q has moved from s to s'. */
  ghost predicate MovesAt(k: Cluster, s: EpochState, s': EpochState, q: nat, i: nat)
    requires Sized(k.G(q), s) && i < k.N()
  {
    && Sized(k.G(q), s')
    && forall j: nat :: j < k.N() && j != i ==> s'.b[j] == s.b[j] && s'.v[j] == s.v[j] && s'.input[j] == s.input[j]
  }

  /** Instances that nobody moves stay as they are. */
  lemma OthersStay(k: Cluster, net: Net, next: Net, q: nat, i: nat, j: nat)
    requires Shaped(k, net) && Shaped(k, next) && q < k.N() && i < k.N() && j < k.N() && j != i
    requires next.nodes == net.nodes[q := next.nodes[q]] && MovesAt(k, net.nodes[q], next.nodes[q], q, i)
    requires next.ba[j] == net.ba[j] && next.vid[j] == net.vid[j] && next.heard[j] == net.heard[j]
    ensures BANet(k, next, j) == BANet(k, net, j) && VNet(k, next, j) == VNet(k, net, j)
  {
    assert BANet(k, next, j).servers == BANet(k, net, j).servers;
    assert VNet(k, next, j).nodes == VNet(k, net, j).nodes;
    assert Votes(k, next, j) == Votes(k, net, j);
  }

  /** The state after a step of dispersal i, and the network after it. */
  ghost predicate VIDMoves(k: Cluster, net: Net, next: Net, q: nat, i: nat, act: DS.Act)
    requires k.cfg.Valid() && Shaped(k, net) && i < k.N()
  {
    && k.cfg.Correct(q) && DN.Heard(q, act) <= net.vid[i] && DS.Possible(k.G(q).VID(i), act)
    && var s := net.nodes[q];
       var (v, out) := DS.Do(k.G(q).VID(i), s.v[i], act);
       && Shaped(k, next)
       && next.nodes == net.nodes[q := next.nodes[q]] && MovesAt(k, s, next.nodes[q], q, i)
       && next.nodes[q].v[i] == v && next.nodes[q].b == s.b && next.nodes[q].input == s.input
       && next.ba == net.ba
       && next.vid == net.vid[i := net.vid[i] + set e | e in out]
       && next.heard == net.heard[i := net.heard[i] + DN.Heard(q, act)]
  }

  lemma VIDMoveIsAct(k: Cluster, net: Net, next: Net, q: nat, i: nat, act: DS.Act)
    requires Invariant(k, net) && i < k.N() && VIDMoves(k, net, next, q, i, act)
    ensures DN.Acts(k.S(i), VNet(k, net, i), VNet(k, next, i), q, act)
    ensures BANet(k, next, i) == BANet(k, net, i)
  {
    hide InstanceOk, VoteOk, DS.Do;
    var (v, out) := DS.Do(k.G(q).VID(i), net.nodes[q].v[i], act);
    assert VNet(k, next, i).nodes == VNet(k, net, i).nodes[q := v];
    assert BANet(k, next, i).servers == BANet(k, net, i).servers;
    assert Votes(k, next, i) == Votes(k, net, i);
  }

  lemma VIDMoveKeeps(k: Cluster, net: Net, next: Net, q: nat, i: nat, act: DS.Act)
    requires Invariant(k, net) && i < k.N() && VIDMoves(k, net, next, q, i, act)
    ensures Invariant(k, next)
  {
    hide AR.Reachable, DN.Reachable, DS.Do, VoteOk, BANet, VNet;
    VIDMoveIsAct(k, net, next, q, i, act);
    forall j: nat | j < k.N()
      ensures InstanceOk(k, next, j)
    {
      assert InstanceOk(k, net, j);
      if j == i {
        InstanceActs(k, net, next, q, i, act);
      } else {
        OthersStay(k, net, next, q, i, j);
      }
    }
    forall j: nat | j < k.N()
      ensures VoteOk(k, next.nodes[q], q, j)
    {
      assert VoteOk(k, net.nodes[q], q, j);
      VoteStays(k, net, next, q, i, act, j);
    }
  }

  lemma InstanceActs(k: Cluster, net: Net, next: Net, q: nat, i: nat, act: DS.Act)
    requires Shaped(k, net) && Shaped(k, next) && i < k.N() && InstanceOk(k, net, i)
    ensures DN.Acts(k.S(i), VNet(k, net, i), VNet(k, next, i), q, act) && BANet(k, next, i) == BANet(k, net, i)
            ==> InstanceOk(k, next, i)
  {
    hide AR.Reachable, DN.Reachable, DN.Acts, BANet, VNet;
    if DN.Acts(k.S(i), VNet(k, net, i), VNet(k, next, i), q, act) {
      assert DN.Step(k.S(i), VNet(k, net, i), VNet(k, next, i));
      DN.StepReachable(k.S(i), VNet(k, net, i), VNet(k, next, i));
    }
  }

  lemma VoteStays(k: Cluster, net: Net, next: Net, q: nat, i: nat, act: DS.Act, j: nat)
    requires Invariant(k, net) && i < k.N() && VIDMoves(k, net, next, q, i, act) && j < k.N()
    requires VoteOk(k, net.nodes[q], q, j)
    ensures VoteOk(k, next.nodes[q], q, j)
  {
    hide InstanceOk, DS.Do, PayloadDispersed, DS.Kept;
    var c := k.G(q).VID(i);
    DS.DoKept(c, net.nodes[q].v[i], act);
    if j == i && PayloadDispersed(c, net.nodes[q].v[i]) {
      DispersedStays(c, net.nodes[q].v[i], next.nodes[q].v[i]);
    }
  }

  /** Agreement i of server q moves to t and broadcasts out. */
  ghost predicate BAMoves(k: Cluster, net: Net, next: Net, q: nat, i: nat, t: A.State, out: seq<A.BAMsg>)
    requires Shaped(k, net) && i < k.N() && q < k.N()
  {
    && Shaped(k, next)
    && next.nodes == net.nodes[q := next.nodes[q]] && MovesAt(k, net.nodes[q], next.nodes[q], q, i)
    && next.nodes[q].b == net.nodes[q].b[i := t] && next.nodes[q].v == net.nodes[q].v
    && next.ba == net.ba[i := net.ba[i] + set m | m in out :: (q, m)]
    && next.vid == net.vid && next.heard == net.heard
  }

  lemma BAMoveIsDelivery(k: Cluster, net: Net, next: Net, q: nat, i: nat, from: nat, m: A.BAMsg)
    requires Invariant(k, net) && i < k.N() && k.cfg.Correct(q)
    requires AN.Deliverable(k.cfg, BANet(k, net, i).history, from, m) && from < k.N()
    requires AN.Shaped(k.cfg, BANet(k, net, i)) && BARunnable(k.G(q), net.nodes[q].b[i])
    requires var (t, out) := A.Recv(k.cfg.params, net.nodes[q].b[i], from, m);
             BAMoves(k, net, next, q, i, t, out) && next.nodes[q].input == net.nodes[q].input
    ensures AN.Deliver(k.cfg, BANet(k, net, i), BANet(k, next, i), q, from, m)
    ensures VNet(k, next, i) == VNet(k, net, i)
  {
    hide InstanceOk, VoteOk, A.Recv, AN.Shaped;
    var (t, out) := A.Recv(k.cfg.params, net.nodes[q].b[i], from, m);
    assert BANet(k, next, i).servers == BANet(k, net, i).servers[q := t];
    assert Votes(k, next, i) == Votes(k, net, i);
    assert VNet(k, next, i).nodes == VNet(k, net, i).nodes;
  }

  lemma BAMoveIsInput(k: Cluster, net: Net, next: Net, q: nat, i: nat, x: bool)
    requires Invariant(k, net) && i < k.N() && k.cfg.Correct(q)
    requires AN.Shaped(k.cfg, BANet(k, net, i)) && BARunnable(k.G(q), net.nodes[q].b[i])
    requires net.nodes[q].input[i].None?
    requires var (t, out) := A.Input(net.nodes[q].b[i], x);
             BAMoves(k, net, next, q, i, t, out) && next.nodes[q].input == net.nodes[q].input[i := Some(x)]
    ensures AN.GiveInput(k.cfg, BANet(k, net, i), BANet(k, next, i), q, x)
    ensures VNet(k, next, i) == VNet(k, net, i)
  {
    hide InstanceOk, VoteOk, A.Input, AN.Shaped;
    var (t, out) := A.Input(net.nodes[q].b[i], x);
    assert BANet(k, next, i).servers == BANet(k, net, i).servers[q := t];
    assert Votes(k, next, i) == Votes(k, net, i) + {(q, x)};
    assert VNet(k, next, i).nodes == VNet(k, net, i).nodes;
  }

  /** A step of agreement i keeps the invariant if the votes of the server stay justified. */
  lemma BAMoveKeeps(k: Cluster, net: Net, next: Net, q: nat, i: nat, t: A.State, out: seq<A.BAMsg>)
    requires Invariant(k, net) && i < k.N() && k.cfg.Correct(q) && BAMoves(k, net, next, q, i, t, out)
    requires AR.Reachable(k.cfg, BANet(k, next, i)) && VNet(k, next, i) == VNet(k, net, i)
    requires VotesOk(k, next.nodes[q], q)
    ensures Invariant(k, next)
  {
    hide AR.Reachable, DN.Reachable, VoteOk, BANet, VNet;
    forall j: nat | j < k.N()
      ensures InstanceOk(k, next, j)
    {
      assert InstanceOk(k, net, j);
      if j != i {
        OthersStay(k, net, next, q, i, j);
      }
    }
  }

  /** Votes stay justified: dispersals have not moved, and what has been decided stays decided. */
  lemma VotesStay(k: Cluster, s: EpochState, s': EpochState, q: nat, i: nat)
    requires i < k.N() && Sized(k.G(q), s) && VotesOk(k, s, q) && MovesAt(k, s, s', q, i) && s'.v == s.v
    requires s.b[i].Decided? ==> s'.b[i] == s.b[i]
    requires s'.input[i] == s.input[i] || VoteOk(k, s', q, i)
    ensures VotesOk(k, s', q)
  {
    hide PayloadDispersed;
    SubsetCount(Accepts(s.b), Accepts(s'.b));
    forall j: nat | j < k.N()
      ensures VoteOk(k, s', q, j)
    {
      assert VoteOk(k, s, q, j);
    }
  }

  lemma DeliveryKeeps(k: Cluster, net: Net, next: Net, q: nat, i: nat, from: nat, m: A.BAMsg)
    requires Invariant(k, net) && i < k.N() && k.cfg.Correct(q) && from < k.N()
    requires AN.Deliverable(k.cfg, BANet(k, net, i).history, from, m) && BARunnable(k.G(q), net.nodes[q].b[i])
    requires var (t, out) := A.Recv(k.cfg.params, net.nodes[q].b[i], from, m);
             BAMoves(k, net, next, q, i, t, out) && next.nodes[q].input == net.nodes[q].input
    ensures Invariant(k, next)
  {
    hide AN.Invariant, AR.Reachable, DN.Reachable, AN.Deliver, AN.Deliverable, AN.Shaped, BANet, VNet, VotesOk, A.Record, A.CatchUp;
    var (t, out) := A.Recv(k.cfg.params, net.nodes[q].b[i], from, m);
    assert InstanceOk(k, net, i);
    AR.ReachableOk(k.cfg, BANet(k, net, i));
    AR.InvariantShapes(k.cfg, BANet(k, net, i));
    BAMoveIsDelivery(k, net, next, q, i, from, m);
    AR.MoveReachable(k.cfg, BANet(k, net, i), BANet(k, next, i));
    VotesStay(k, net.nodes[q], next.nodes[q], q, i);
    BAMoveKeeps(k, net, next, q, i, t, out);
  }

  lemma InputKeeps(k: Cluster, net: Net, next: Net, q: nat, i: nat, x: bool)
    requires Invariant(k, net) && i < k.N() && k.cfg.Correct(q)
    requires BARunnable(k.G(q), net.nodes[q].b[i]) && net.nodes[q].input[i].None?
    requires var (t, out) := A.Input(net.nodes[q].b[i], x);
             BAMoves(k, net, next, q, i, t, out) && next.nodes[q].input == net.nodes[q].input[i := Some(x)]
    requires VoteOk(k, next.nodes[q], q, i)
    ensures Invariant(k, next)
  {
    hide AN.Invariant, AR.Reachable, DN.Reachable, AN.GiveInput, AN.Shaped, BANet, VNet, VotesOk, VoteOk;
    var (t, out) := A.Input(net.nodes[q].b[i], x);
    assert InstanceOk(k, net, i);
    AR.ReachableOk(k.cfg, BANet(k, net, i));
    AR.InvariantShapes(k.cfg, BANet(k, net, i));
    BAMoveIsInput(k, net, next, q, i, x);
    AR.MoveReachable(k.cfg, BANet(k, net, i), BANet(k, next, i));
    VotesStay(k, net.nodes[q], next.nodes[q], q, i);
    BAMoveKeeps(k, net, next, q, i, t, out);
  }

  /** The state of q and the network are fit for a further operation of q. */
  ghost predicate Ready(k: Cluster, net: Net, q: nat) {
    Invariant(k, net) && k.cfg.Correct(q) && Runnable(k.G(q), net.nodes[q])
  }

  ghost predicate Posts(k: Cluster, net: Net, q: nat, r: (EpochState, seq<Out>))
    requires Shaped(k, net) && q < k.N()
  {
    Sized(k.G(q), r.0) && Ready(k, Post(k, net, q, r.0, r.1), q)
  }

  /** Nothing but flags has changed. */
  lemma FlagsKeep(k: Cluster, net: Net, q: nat, s: EpochState)
    requires Ready(k, net, q) && Sized(k.G(q), s)
    requires s.b == net.nodes[q].b && s.v == net.nodes[q].v && s.input == net.nodes[q].input
    ensures Posts(k, net, q, (s, []))
  {
    hide AR.Reachable, DN.Reachable, PayloadDispersed, BANet, VNet;
    var next := Post(k, net, q, s, []);
    PostNothing(k, net, q, s);
    forall i: nat | i < k.N()
      ensures InstanceOk(k, next, i)
    {
      assert InstanceOk(k, net, i);
      SameInstance(k, net, next, q, i);
    }
    forall i: nat | i < k.N()
      ensures VoteOk(k, s, q, i)
    {
      assert VoteOk(k, net.nodes[q], q, i);
    }
  }

  lemma SameInstance(k: Cluster, net: Net, next: Net, q: nat, i: nat)
    requires Shaped(k, net) && Shaped(k, next) && q < k.N() && i < k.N()
    requires next.nodes == net.nodes[q := next.nodes[q]] && next.ba == net.ba && next.vid == net.vid && next.heard == net.heard
    requires var s, t := next.nodes[q], net.nodes[q];
             s.b == t.b && s.v == t.v && s.input == t.input
    ensures BANet(k, next, i) == BANet(k, net, i) && VNet(k, next, i) == VNet(k, net, i)
  {
    assert BANet(k, next, i).servers == BANet(k, net, i).servers;
    assert VNet(k, next, i).nodes == VNet(k, net, i).nodes;
    assert Votes(k, next, i) == Votes(k, net, i);
  }

  /** One operation after another. */
  lemma PostsThen(k: Cluster, net: Net, q: nat, s1: EpochState, out1: seq<Out>, s2: EpochState, out2: seq<Out>)
    requires Shaped(k, net) && q < k.N() && Sized(k.G(q), s1) && Shaped(k, Post(k, net, q, s1, out1))
    requires Posts(k, Post(k, net, q, s1, out1), q, (s2, out2))
    ensures Posts(k, net, q, (s2, out1 + out2))
  {
    hide Ready;
    PostTwice(k, net, q, s1, out1, s2, out2);
  }

  /** A vote may be cast when there is reason for it. */
  lemma InputBAKeeps(k: Cluster, net: Net, q: nat, i: nat, x: bool)
    requires Ready(k, net, q) && i < k.N()
    requires x ==> i == q || PayloadDispersed(k.G(q).VID(i), net.nodes[q].v[i])
    requires !x ==> |Accepts(net.nodes[q].b)| + k.cfg.params.f >= k.N()
    ensures Posts(k, net, q, InputBA(k.G(q), net.nodes[q], i, x))
    ensures InputBA(k.G(q), net.nodes[q], i, x).0.v == net.nodes[q].v
    ensures Accepts(InputBA(k.G(q), net.nodes[q], i, x).0.b) == Accepts(net.nodes[q].b)
  {
    hide InstanceOk, VotesOk, PayloadDispersed, A.Input;
    var g, s := k.G(q), net.nodes[q];
    if s.input[i].Some? {
      FlagsKeep(k, net, q, s);
    } else {
      var (t, out) := A.Input(s.b[i], x);
      InputKeepsRunnable(g, s, i, x);
      InputAccepts(g, s, i, x);
      var (s1, out1) := InputBA(g, s, i, x);
      var next := Post(k, net, q, s1, out1);
      BAPosted(k, net, q, i, s1, out);
      InputKeeps(k, net, next, q, i, x);
    }
  }

  lemma PostNothing(k: Cluster, net: Net, q: nat, s: EpochState)
    requires Shaped(k, net) && q < k.N()
    ensures Post(k, net, q, s, []).ba == net.ba && Post(k, net, q, s, []).vid == net.vid
  {
    forall j | 0 <= j < k.N()
      ensures net.ba[j] + BASent(q, [], j) == net.ba[j] && net.vid[j] + VIDSent([], j) == net.vid[j]
    {
      assert BASent(q, [], j) == {} && VIDSent([], j) == {};
    }
  }

  lemma PostBA(k: Cluster, net: Net, q: nat, i: nat, s: EpochState, out: seq<A.BAMsg>)
    requires Shaped(k, net) && q < k.N() && i < k.N()
    ensures var next := Post(k, net, q, s, BAOuts(i, out));
            next.ba == net.ba[i := net.ba[i] + set m | m in out :: (q, m)] && next.vid == net.vid
  {
    hide BASent, VIDSent, BAOuts, VIDOuts;
    forall j | 0 <= j < k.N()
      ensures net.vid[j] + VIDSent(BAOuts(i, out), j) == net.vid[j]
      ensures net.ba[j] + BASent(q, BAOuts(i, out), j) == net.ba[i := net.ba[i] + set m | m in out :: (q, m)][j]
    {
      SentBy(q, i, out, [], j);
    }
  }

  lemma PostVID(k: Cluster, net: Net, q: nat, i: nat, s: EpochState, out: seq<Env>)
    requires Shaped(k, net) && q < k.N() && i < k.N()
    ensures var next := Post(k, net, q, s, VIDOuts(i, out));
            next.vid == net.vid[i := net.vid[i] + set e | e in out] && next.ba == net.ba
  {
    hide BASent, VIDSent, BAOuts, VIDOuts;
    forall j | 0 <= j < k.N()
      ensures net.ba[j] + BASent(q, VIDOuts(i, out), j) == net.ba[j]
      ensures net.vid[j] + VIDSent(VIDOuts(i, out), j) == net.vid[i := net.vid[i] + set e | e in out][j]
    {
      SentBy(q, i, [], out, j);
    }
  }

  lemma BAPosted(k: Cluster, net: Net, q: nat, i: nat, s: EpochState, out: seq<A.BAMsg>)
    requires Shaped(k, net) && q < k.N() && i < k.N() && MovesAt(k, net.nodes[q], s, q, i)
    requires s.v == net.nodes[q].v && s.b == net.nodes[q].b[i := s.b[i]]
    ensures BAMoves(k, net, Post(k, net, q, s, BAOuts(i, out)), q, i, s.b[i], out)
  {
    hide BASent, VIDSent, BAOuts, VIDOuts;
    PostBA(k, net, q, i, s, out);
  }

  lemma VIDPosted(k: Cluster, net: Net, q: nat, i: nat, act: DS.Act, s: EpochState)
    requires k.cfg.Valid() && Shaped(k, net) && k.cfg.Correct(q) && i < k.N() && MovesAt(k, net.nodes[q], s, q, i)
    requires DN.Heard(q, act) <= net.vid[i] && DS.Possible(k.G(q).VID(i), act)
    requires s.b == net.nodes[q].b && s.input == net.nodes[q].input && s.v[i] == DS.Do(k.G(q).VID(i), net.nodes[q].v[i], act).0
    ensures var out := DS.Do(k.G(q).VID(i), net.nodes[q].v[i], act).1;
            VIDMoves(k, net, Post(k, net, q, s, VIDOuts(i, out)).(heard := net.heard[i := net.heard[i] + DN.Heard(q, act)]), q, i, act)
  {
    hide DS.Do, DS.Possible, BASent, VIDSent, BAOuts, VIDOuts;
    PostVID(k, net, q, i, s, DS.Do(k.G(q).VID(i), net.nodes[q].v[i], act).1);
  }

  /** A step of dispersal i other than hearing a message. */
  lemma QuietKeeps(k: Cluster, net: Net, q: nat, i: nat, act: DS.Act, s: EpochState)
    requires Ready(k, net, q) && i < k.N() && MovesAt(k, net.nodes[q], s, q, i)
    requires !act.Hear? && DS.Possible(k.G(q).VID(i), act)
    requires s.b == net.nodes[q].b && s.input == net.nodes[q].input && s.v[i] == DS.Do(k.G(q).VID(i), net.nodes[q].v[i], act).0
    ensures Posts(k, net, q, (s, VIDOuts(i, DS.Do(k.G(q).VID(i), net.nodes[q].v[i], act).1)))
  {
    hide InstanceOk, VotesOk, DS.Do;
    var out := DS.Do(k.G(q).VID(i), net.nodes[q].v[i], act).1;
    var next := Post(k, net, q, s, VIDOuts(i, out));
    assert net.heard[i := net.heard[i] + DN.Heard(q, act)] == net.heard;
    VIDPosted(k, net, q, i, act, s);
    VIDMoveKeeps(k, net, next, q, i, act);
  }

  lemma ReleaseKeeps(k: Cluster, net: Net, q: nat, i: nat)
    requires Ready(k, net, q) && i < k.N()
    ensures Posts(k, net, q, Release(k.G(q), net.nodes[q], i))
  {
    hide InstanceOk, VotesOk, ReleaseChunk, Posts;
    var s := net.nodes[q];
    if s.released[i] {
      FlagsKeep(k, net, q, s);
    } else {
      QuietKeeps(k, net, q, i, DS.Release, Release(k.G(q), s, i).0);
    }
  }

  lemma RequestKeeps(k: Cluster, net: Net, q: nat, i: nat)
    requires Ready(k, net, q) && i < k.N()
    ensures Posts(k, net, q, Request(k.G(q), net.nodes[q], i))
  {
    hide InstanceOk, VotesOk, RequestPayload, Posts;
    var s := net.nodes[q];
    if s.requested[i] {
      FlagsKeep(k, net, q, s);
    } else {
      QuietKeeps(k, net, q, i, DS.Request, Request(k.G(q), s, i).0);
    }
  }

  lemma FetchKeeps(k: Cluster, net: Net, q: nat, i: nat)
    requires Ready(k, net, q) && i < k.N()
    ensures Posts(k, net, q, Fetch(k.G(q), net.nodes[q], i))
    ensures Fetch(k.G(q), net.nodes[q], i).0.b == net.nodes[q].b
  {
    hide InstanceOk, VotesOk, Release, Request, Runnable;
    var g, s := k.G(q), net.nodes[q];
    var (s1, out1) := Release(g, s, i);
    ReleaseKeeps(k, net, q, i);
    FetchLeaves(g, s, i);
    if s1.requestStarted {
      RequestKeeps(k, Post(k, net, q, s1, out1), q, i);
      PostsThen(k, net, q, s1, out1, Request(g, s1, i).0, Request(g, s1, i).1);
    }
  }

  lemma {:induction false} InputFalseKeeps(k: Cluster, net: Net, q: nat, i: nat)
    requires Ready(k, net, q) && |Accepts(net.nodes[q].b)| + k.cfg.params.f >= k.N()
    ensures Posts(k, net, q, InputFalse(k.G(q), net.nodes[q], i))
    decreases k.N() - i
  {
    hide InstanceOk, VotesOk, InputBA, Accepts;
    var g, s := k.G(q), net.nodes[q];
    if i >= k.N() {
      FlagsKeep(k, net, q, s);
    } else {
      InputBAKeeps(k, net, q, i, false);
      var (s1, out1) := InputBA(g, s, i, false);
      var net1 := Post(k, net, q, s1, out1);
      InputFalseKeeps(k, net1, q, i + 1);
      PostsThen(k, net, q, s1, out1, InputFalse(g, s1, i + 1).0, InputFalse(g, s1, i + 1).1);
    }
  }

  lemma DecideKeeps(k: Cluster, net: Net, q: nat, i: nat)
    requires Ready(k, net, q) && i < k.N()
    ensures Posts(k, net, q, Decide(k.G(q), net.nodes[q], i))
  {
    hide InstanceOk, VotesOk, Runnable, Fetch, InputFalse, Accepts, Accepted;
    var g, s := k.G(q), net.nodes[q];
    if Accepted(s.b[i]) {
      FetchKeeps(k, net, q, i);
    } else {
      FlagsKeep(k, net, q, s);
    }
    var (s1, out1) := if Accepted(s.b[i]) then Fetch(g, s, i) else (s, []);
    if |Accepts(s1.b)| + k.cfg.params.f >= k.N() {
      InputFalseKeeps(k, Post(k, net, q, s1, out1), q, 0);
      PostsThen(k, net, q, s1, out1, InputFalse(g, s1, 0).0, InputFalse(g, s1, 0).1);
    }
  }

  lemma {:induction false} ReleaseAllKeeps(k: Cluster, net: Net, q: nat, i: nat)
    requires Ready(k, net, q)
    ensures Posts(k, net, q, ReleaseAll(k.G(q), net.nodes[q], i))
    ensures ReleaseAll(k.G(q), net.nodes[q], i).0.input == net.nodes[q].input
    decreases k.N() - i
  {
    hide InstanceOk, VotesOk, Runnable, Release;
    var g, s := k.G(q), net.nodes[q];
    if i >= k.N() {
      FlagsKeep(k, net, q, s);
    } else {
      ReleaseKeeps(k, net, q, i);
      var (s1, out1) := Release(g, s, i);
      ReleaseAllKeeps(k, Post(k, net, q, s1, out1), q, i + 1);
      PostsThen(k, net, q, s1, out1, ReleaseAll(g, s1, i + 1).0, ReleaseAll(g, s1, i + 1).1);
    }
  }

  lemma {:induction false} RequestAllKeeps(k: Cluster, net: Net, q: nat, i: nat)
    requires Ready(k, net, q)
    ensures Posts(k, net, q, RequestAll(k.G(q), net.nodes[q], i))
    decreases k.N() - i
  {
    hide InstanceOk, VotesOk, Runnable, Request;
    var g, s := k.G(q), net.nodes[q];
    if i >= k.N() {
      FlagsKeep(k, net, q, s);
    } else {
      if s.released[i] {
        RequestKeeps(k, net, q, i);
      } else {
        FlagsKeep(k, net, q, s);
      }
      var (s1, out1) := if s.released[i] then Request(g, s, i) else (s, []);
      RequestAllKeeps(k, Post(k, net, q, s1, out1), q, i + 1);
      PostsThen(k, net, q, s1, out1, RequestAll(g, s1, i + 1).0, RequestAll(g, s1, i + 1).1);
    }
  }

  lemma ConcludeKeeps(k: Cluster, net: Net, q: nat, s: EpochState, out: seq<Out>)
    requires Shaped(k, net) && q < k.N() && Posts(k, net, q, (s, out))
    ensures Posts(k, net, q, (Conclude(s), out))
  {
    hide InstanceOk, VotesOk, Runnable;
    FlagsKeep(k, Post(k, net, q, s, out), q, Conclude(s));
    PostsThen(k, net, q, s, out, Conclude(s), []);
    assert out + [] == out;
  }

  lemma OnBAKeeps(k: Cluster, net: Net, q: nat, i: nat, from: nat, m: A.BAMsg)
    requires Ready(k, net, q) && i < k.N() && from < k.N() && AN.Deliverable(k.cfg, BANet(k, net, i).history, from, m)
    ensures Posts(k, net, q, OnBA(k.G(q), net.nodes[q], i, from, m))
  {
    hide InstanceOk, VotesOk, A.Recv, Decide, AN.Deliverable;
    var g, s := k.G(q), net.nodes[q];
    var (t, out) := A.Recv(g.p, s.b[i], from, m);
    var s1 := s.(b := s.b[i := t]);
    RecvKeepsRunnable(g, s.b[i], from, m);
    var net1 := Post(k, net, q, s1, BAOuts(i, out));
    BAPosted(k, net, q, i, s1, out);
    DeliveryKeeps(k, net, net1, q, i, from, m);
    if s.b[i].Running? && t.Decided? {
      DecideKeeps(k, net1, q, i);
      PostsThen(k, net, q, s1, BAOuts(i, out), Decide(g, s1, i).0, Decide(g, s1, i).1);
    }
  }

  /** As Post, when q has also handled the messages hs of dispersal i. */
  ghost function PostHeard(k: Cluster, net: Net, q: nat, s: EpochState, out: seq<Out>, i: nat, hs: set<Env>): Net
    requires Shaped(k, net) && q < k.N() && i < k.N()
  {
    Post(k, net, q, s, out).(heard := net.heard[i := net.heard[i] + hs])
  }

  lemma HeardThen(k: Cluster, net: Net, q: nat, s1: EpochState, out1: seq<Out>, i: nat, hs: set<Env>, s2: EpochState, out2: seq<Out>)
    requires Shaped(k, net) && q < k.N() && i < k.N() && Sized(k.G(q), s1)
    requires Shaped(k, PostHeard(k, net, q, s1, out1, i, hs)) && Posts(k, PostHeard(k, net, q, s1, out1, i, hs), q, (s2, out2))
    ensures Sized(k.G(q), s2) && Ready(k, PostHeard(k, net, q, s2, out1 + out2, i, hs), q)
  {
    hide Ready;
    PostTwice(k, net, q, s1, out1, s2, out2);
    assert Post(k, PostHeard(k, net, q, s1, out1, i, hs), q, s2, out2) == PostHeard(k, net, q, s2, out1 + out2, i, hs);
  }

  lemma VoteAndFetchKeeps(k: Cluster, net: Net, q: nat, i: nat)
    requires Ready(k, net, q) && i < k.N() && PayloadDispersed(k.G(q).VID(i), net.nodes[q].v[i])
    ensures var g, s := k.G(q), net.nodes[q];
            var (s2, out2) := InputBA(g, s, i, true);
            Sized(g, s2) && var (s3, out3) := Fetch(g, s2, i);
            Posts(k, net, q, (s3, out2 + out3))
  {
    hide InstanceOk, VotesOk, InputBA, Fetch, PayloadDispersed;
    var g, s := k.G(q), net.nodes[q];
    InputBAKeeps(k, net, q, i, true);
    var (s2, out2) := InputBA(g, s, i, true);
    FetchKeeps(k, Post(k, net, q, s2, out2), q, i);
    PostsThen(k, net, q, s2, out2, Fetch(g, s2, i).0, Fetch(g, s2, i).1);
  }

  lemma OnVIDKeeps(k: Cluster, net: Net, q: nat, i: nat, from: nat, m: Msg)
    requires Ready(k, net, q) && i < k.N() && DS.Possible(k.G(q).VID(i), DS.Hear(from, m)) && Envelope(m, from, q) in net.vid[i]
    ensures var (s, out) := OnVID(k.G(q), net.nodes[q], i, from, m);
            Sized(k.G(q), s) && Ready(k, PostHeard(k, net, q, Conclude(s), out, i, {Envelope(m, from, q)}), q)
  {
    hide InstanceOk, VotesOk, InputBA, Fetch, Recv, Conclude;
    var g, s, act, e := k.G(q), net.nodes[q], DS.Hear(from, m), Envelope(m, from, q);
    var (v, out) := Recv(g.VID(i), s.v[i], from, m);
    var s1 := s.(v := s.v[i := v]);
    var net1 := PostHeard(k, net, q, s1, VIDOuts(i, out), i, {e});
    VIDPosted(k, net, q, i, act, s1);
    VIDMoveKeeps(k, net, net1, q, i, act);
    var (s2, out2) := InputBA(g, s1, i, true);
    if Terminated(g.VID(i), v) {
      VoteAndFetchKeeps(k, net1, q, i);
      var (s3, out3) := Fetch(g, s2, i);
      ConcludeKeeps(k, net1, q, s3, out2 + out3);
      HeardThen(k, net, q, s1, VIDOuts(i, out), i, {e}, Conclude(s3), out2 + out3);
      assert VIDOuts(i, out) + (out2 + out3) == VIDOuts(i, out) + out2 + out3;
    } else {
      FlagsKeep(k, net1, q, s1);
      ConcludeKeeps(k, net1, q, s1, []);
      HeardThen(k, net, q, s1, VIDOuts(i, out), i, {e}, Conclude(s1), []);
      assert VIDOuts(i, out) + [] == VIDOuts(i, out);
    }
  }

  lemma InitKeeps(k: Cluster, net: Net, q: nat, x: Payload)
    requires Ready(k, net, q) && DS.Possible(k.G(q).VID(q), DS.Begin(x, EmptyPayload))
    ensures Posts(k, net, q, Init(k.G(q), net.nodes[q], x))
  {
    hide InstanceOk, VotesOk, InputBA, Disperse, ReleaseAll;
    var g, s, act := k.G(q), net.nodes[q], DS.Begin(x, EmptyPayload);
    var (v, out) := Disperse(g.VID(q), s.v[q], x, EmptyPayload);
    var s1, out1 := s.(v := s.v[q := v]), VIDOuts(q, out);
    QuietKeeps(k, net, q, q, act, s1);
    var net1 := Post(k, net, q, s1, out1);
    ReleaseAllKeeps(k, net1, q, 0);
    var (s2, out2) := ReleaseAll(g, s1, 0);
    PostsThen(k, net, q, s1, out1, s2, out2);
    var net2 := Post(k, net, q, s2, out1 + out2);
    InputBAKeeps(k, net2, q, q, true);
    PostsThen(k, net, q, s2, out1 + out2, InputBA(g, s2, q, true).0, InputBA(g, s2, q, true).1);
  }
}
