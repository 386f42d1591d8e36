/**
 Who disperses in an epoch: the messages that carry a block to its holders are sent when the server begins its own
 dispersal, and by no other step.
 */
module PikaEpochProposal {
  import opened Common
  import opened Dispersal
  import opened PikaEpoch
  import opened PikaEpochSteps
  import opened PikaEpochNetwork
  import opened PikaEpochRuns
  import A = Agreement
  import AN = AgreementNetwork
  import DS = DispersalStep
  import DQ = DispersalSilence

  /** None of the messages disperses. */
  ghost predicate Plain(out: seq<Out>) {
    forall o :: o in out && o.VIDOut? ==> !o.env.msg.disperse
  }

  lemma PlainVID(i: nat, out: seq<Env>)
    requires forall e :: e in out ==> !e.msg.disperse
    ensures Plain(VIDOuts(i, out))
  {
  }

  lemma RecvPlain(c: Ctx, v: VID, from: nat, m: Msg, i: nat)
    requires c.p.Resilient() && m.Complete() && from < c.p.n
    ensures Plain(VIDOuts(i, Recv(c, v, from, m).1))
  {
    hide Intake, React, DS.Honest;
    var (u, out1) := Intake(c, v, from, m);
    forall e | e in Recv(c, v, from, m).1
      ensures !e.msg.disperse
    {
      if e in out1 {
        DS.IntakeHonest(c, v, from, m, e);
      } else {
        DS.ReactHonest(c, u, e);
      }
    }
    PlainVID(i, Recv(c, v, from, m).1);
  }

  lemma ReleasePlain(g: Server, s: EpochState, i: nat)
    requires Sized(g, s) && i < g.p.n
    ensures Plain(Release(g, s, i).1)
  {
    hide Flush;
    var out := ReleaseChunk(g.VID(i), s.v[i]).1;
    forall e | e in out
      ensures !e.msg.disperse
    {
      DS.FlushHonest(g.VID(i), s.v[i].(canRelease := true), e);
    }
    PlainVID(i, out);
  }

  lemma RequestPlain(g: Server, s: EpochState, i: nat)
    requires Sized(g, s) && i < g.p.n
    ensures Plain(Request(g, s, i).1)
  {
    hide Requests;
    var out := RequestPayload(g.VID(i), s.v[i]).1;
    forall e | e in out
      ensures !e.msg.disperse
    {
      DS.RequestsAre(g.VID(i), s.v[i].core.value.echos, 0, e);
    }
    PlainVID(i, out);
  }

  lemma FetchPlain(g: Server, s: EpochState, i: nat)
    requires Sized(g, s) && i < g.p.n
    ensures Plain(Fetch(g, s, i).1)
  {
    hide Release, Request;
    ReleasePlain(g, s, i);
    RequestPlain(g, Release(g, s, i).0, i);
  }

  lemma {:induction false} InputFalsePlain(g: Server, s: EpochState, i: nat)
    requires Sized(g, s) && Runnable(g, s)
    ensures Plain(InputFalse(g, s, i).1)
    decreases g.p.n - i
  {
    hide A.Input;
    if i < g.p.n {
      InputKeepsRunnable(g, s, i, false);
      InputFalsePlain(g, InputBA(g, s, i, false).0, i + 1);
    }
  }

  lemma DecidePlain(g: Server, s: EpochState, i: nat)
    requires Sized(g, s) && Runnable(g, s) && i < g.p.n
    ensures Plain(Decide(g, s, i).1)
  {
    hide Fetch, InputFalse, Accepts;
    FetchPlain(g, s, i);
    FetchLeaves(g, s, i);
    InputFalsePlain(g, if Accepted(s.b[i]) then Fetch(g, s, i).0 else s, 0);
  }

  lemma OnVIDPlain(g: Server, s: EpochState, i: nat, from: nat, m: Msg)
    requires g.p.Resilient() && Sized(g, s) && Runnable(g, s) && i < g.p.n && from < g.p.n && m.Complete()
    ensures Plain(OnVID(g, s, i, from, m).1)
  {
    hide Recv, Fetch, A.Input;
    RecvPlain(g.VID(i), s.v[i], from, m, i);
    var s1 := s.(v := s.v[i := Recv(g.VID(i), s.v[i], from, m).0]);
    FetchPlain(g, InputBA(g, s1, i, true).0, i);
  }

  lemma OnBAPlain(g: Server, s: EpochState, i: nat, from: nat, m: A.BAMsg)
    requires Sized(g, s) && Runnable(g, s) && i < g.p.n && from < g.p.n
    ensures Plain(OnBA(g, s, i, from, m).1)
  {
    hide A.Recv, Decide;
    RecvKeepsRunnable(g, s.b[i], from, m);
    DecidePlain(g, s.(b := s.b[i := A.Recv(g.p, s.b[i], from, m).0]), i);
  }

  lemma {:induction false} ReleaseAllPlain(g: Server, s: EpochState, i: nat)
    requires Sized(g, s)
    ensures Plain(ReleaseAll(g, s, i).1)
    decreases g.p.n - i
  {
    hide Release;
    if i < g.p.n {
      ReleasePlain(g, s, i);
      ReleaseAllPlain(g, Release(g, s, i).0, i + 1);
    }
  }

  lemma {:induction false} RequestAllPlain(g: Server, s: EpochState, i: nat)
    requires Sized(g, s)
    ensures Plain(RequestAll(g, s, i).1)
    decreases g.p.n - i
  {
    hide Request;
    if i < g.p.n {
      RequestPlain(g, s, i);
      RequestAllPlain(g, if s.released[i] then Request(g, s, i).0 else s, i + 1);
    }
  }

  /** The messages by which server j disperses block x. */
  ghost function Proposal(k: Cluster, j: nat, x: Payload): set<Env>
    requires |k.codec.encode(x)| == k.N() && |k.codec.encode(EmptyPayload)| == k.N()
  {
    set d: nat | d < k.N() :: Envelope(DisperseMsg(k.codec.encode(x)[d], k.codec.encode(EmptyPayload)[d]), j, d)
  }

  lemma DisperseSends(k: Cluster, j: nat, v: VID, x: Payload)
    requires |k.codec.encode(x)| == k.N() && |k.codec.encode(EmptyPayload)| == k.N()
    ensures (set e | e in Disperse(k.G(j).VID(j), v, x, EmptyPayload).1) == Proposal(k, j, x)
  {
    var out := Disperse(k.G(j).VID(j), v, x, EmptyPayload).1;
    forall e
      ensures e in out <==> e in Proposal(k, j, x)
    {
      if e in Proposal(k, j, x) {
        assert out[e.dest] == e;
      }
    }
  }

  /** When server q begins the dispersal of x, it sends the messages of its proposal and plain ones. */
  lemma InitSends(k: Cluster, q: nat, s: EpochState, x: Payload) returns (rest: seq<Out>)
    requires Sized(k.G(q), s) && Runnable(k.G(q), s) && q < k.N()
    requires |k.codec.encode(x)| == k.N() && |k.codec.encode(EmptyPayload)| == k.N()
    ensures Plain(rest)
    ensures Init(k.G(q), s, x).1 == VIDOuts(q, Disperse(k.G(q).VID(q), s.v[q], x, EmptyPayload).1) + rest
  {
    hide Disperse, ReleaseAll, A.Input;
    var g := k.G(q);
    var (v, out1) := Disperse(g.VID(q), s.v[q], x, EmptyPayload);
    var (s2, out2) := ReleaseAll(g, s.(v := s.v[q := v]), 0);
    ReleaseAllPlain(g, s.(v := s.v[q := v]), 0);
    rest := out2 + InputBA(g, s2, q, true).1;
    assert VIDOuts(q, out1) + out2 + InputBA(g, s2, q, true).1 == VIDOuts(q, out1) + rest;
  }

  lemma ActPlain(k: Cluster, net: Net, q: nat, act: Act)
    requires Fit(k, net) && Possible(k, net, q, act) && !act.Begin?
    ensures Plain(Do(k, net, q, act).1)
  {
    hide OnVID, OnBA, RequestAll, Request, Conclude, Runnable, AN.Deliverable, Plain;
    var g, s := k.G(q), net.nodes[q];
    match act
    case GetVID(i, from, m) => OnVIDPlain(g, s, i, from, m);
    case GetBA(i, from, m) => OnBAPlain(g, s, i, from, m);
    case StartAsking => RequestAllPlain(g, s.(requestStarted := true), 0);
    case Ask(i) => RequestPlain(g, s, i);
  }

  /** What server j has sent to disperse its own block. */
  ghost function Dispersed(net: Net, j: nat): set<Env>
    requires j < |net.vid|
  {
    DQ.Disperses(net.vid[j], j)
  }

  lemma PlainAddsNothing(out: seq<Out>, i: nat, j: nat)
    requires Plain(out)
    ensures DQ.Disperses(VIDSent(out, i), j) == {}
  {
  }

  lemma DispersesUnion(a: set<Env>, b: set<Env>, j: nat)
    ensures DQ.Disperses(a + b, j) == DQ.Disperses(a, j) + DQ.Disperses(b, j)
  {
  }

  lemma ProposalDisperses(k: Cluster, j: nat, x: Payload)
    requires |k.codec.encode(x)| == k.N() && |k.codec.encode(EmptyPayload)| == k.N()
    ensures DQ.Disperses(Proposal(k, j, x), j) == Proposal(k, j, x)
  {
  }

  /** Only beginning the own dispersal disperses, and it sends exactly the proposal. */
  lemma ActDisperses(k: Cluster, net: Net, next: Net, q: nat, act: Act, j: nat)
    requires Fit(k, net) && Acts(k, net, next, q, act) && j < k.N()
    ensures j < |next.vid|
    ensures Dispersed(next, j) == Dispersed(net, j) + if act.Begin? && j == q then Proposal(k, q, act.x) else {}
  {
    hide Do, DQ.Disperses, VIDSent, BASent, Plain, Runnable, Proposal;
    var out := Do(k, net, q, act).1;
    assert next.vid[j] == net.vid[j] + VIDSent(out, j);
    DispersesUnion(net.vid[j], VIDSent(out, j), j);
    if act.Begin? {
      BeginDisperses(k, net, q, act, j);
    } else {
      ActPlain(k, net, q, act);
      PlainAddsNothing(out, j, j);
    }
  }

  lemma BeginDisperses(k: Cluster, net: Net, q: nat, act: Act, j: nat)
    requires Fit(k, net) && Possible(k, net, q, act) && act.Begin? && j < k.N()
    ensures DQ.Disperses(VIDSent(Do(k, net, q, act).1, j), j) == if j == q then Proposal(k, q, act.x) else {}
  {
    hide DQ.Disperses, Init, Disperse, VIDSent, BASent, Plain, Runnable, Proposal;
    var rest := InitSends(k, q, net.nodes[q], act.x);
    var d := Disperse(k.G(q).VID(q), net.nodes[q].v[q], act.x, EmptyPayload).1;
    SentAppend(q, VIDOuts(q, d), rest, j);
    SentBy(q, q, [], d, j);
    PlainAddsNothing(rest, j, j);
    DispersesUnion(VIDSent(VIDOuts(q, d), j), VIDSent(rest, j), j);
    DisperseSends(k, q, net.nodes[q].v[q], act.x);
    ProposalDisperses(k, q, act.x);
    NoneDisperse(j);
  }

  lemma NoneDisperse(j: nat)
    ensures DQ.Disperses({}, j) == {}
  {
  }

  lemma ForgeDisperses(k: Cluster, net: Net, next: Net, i: nat, e: Env, j: nat)
    requires Shaped(k, net) && Forges(k, net, next, i, e) && k.cfg.Correct(j)
    ensures j < |next.vid| && Dispersed(next, j) == Dispersed(net, j)
  {
  }
}
