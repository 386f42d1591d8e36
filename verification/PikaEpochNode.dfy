/** The object of pika/pika.go that runs one epoch on a server, refining the functions of `PikaEpoch`. */
module PikaEpochNode {
  import opened Common
  import opened Dispersal
  import opened PikaEpoch
  import A = Agreement
  import DS = DispersalStep
  import E = AgreementEpoch

  lemma AcceptsPrefix(b: seq<A.State>, i: nat)
    requires i < |b|
    ensures |Accepts(b[..i + 1])| == |Accepts(b[..i])| + if Accepted(b[i]) then 1 else 0
  {
    assert Accepts(b[..i + 1]) == Accepts(b[..i]) + if Accepted(b[i]) then {i} else {};
  }

  /** Only instance i has moved: every other dispersal and agreement is as before. */
  ghost predicate OnlyAt(s: EpochState, t: EpochState, i: nat) {
    && |t.b| == |s.b| && |t.v| == |s.v|
    && (forall j :: 0 <= j < |s.b| && j != i ==> t.b[j] == s.b[j])
    && (forall j :: 0 <= j < |s.v| && j != i ==> t.v[j] == s.v[j])
  }

  /** A vote is final: a second one in the same agreement, for whichever value, changes and sends nothing. */
  lemma VoteStands(g: Server, s: EpochState, i: nat, x: bool, y: bool)
    requires Sized(g, s) && Runnable(g, s) && i < g.p.n
    ensures var t := InputBA(g, s, i, x).0;
            && BARunnable(g, t.b[i]) && InputBA(g, t, i, y) == (t, [])
            && t.input[i] == if s.input[i].Some? then s.input[i] else Some(x)
  {
    InputKeepsRunnable(g, s, i, x);
  }

  /** The first vote x in an agreement that has not begun sends exactly one message: Viable(x) of epoch 0, unless that epoch
      has ended or has said so already. */
  lemma VoteIsSaid(g: Server, s: EpochState, i: nat, x: bool)
    requires Sized(g, s) && i < g.p.n && BARunnable(g, s.b[i]) && s.input[i].None?
    requires s.b[i].Running? && s.b[i].core.firstUninited == 0
    ensures var ep, out := s.b[i].core.epochs[0], InputBA(g, s, i, x).1;
            && (!ep.termed && !ep.At(x).sent ==> out == [BAOut(i, A.EpochMsg(0, E.Signal(E.Viable, x)))])
            && (ep.termed || ep.At(x).sent ==> out == [])
  {
  }

  /** Releasing a chunk answers everybody who has asked for it, by name of the chunk, and nobody else. */
  lemma ReleaseServes(g: Server, s: EpochState, i: nat, o: Out)
    requires Sized(g, s) && i < g.p.n && !s.released[i] && !s.v[i].canRelease
    ensures o in Release(g, s, i).1 <==>
            && s.v[i].ourChunk.Some? && s.v[i].unanswered.Some? && o.VIDOut? && o.idx == i && o.env.dest < g.p.n
            && o.env.dest in s.v[i].unanswered.value && o.env == Envelope(RespondMsg(s.v[i].ourChunk.value), g.id, o.env.dest)
  {
    hide Answers;
    var c, v := g.VID(i), s.v[i].(canRelease := true);
    if o.VIDOut? && v.ourChunk.Some? && v.unanswered.Some? {
      DS.AnswersAre(c, v.unanswered.value, v.ourChunk.value, 0, o.env);
    }
    OutsAre(i, ReleaseChunk(c, s.v[i]).1, o);
  }

  /** Requesting a block asks everybody whose Echo is there, and nobody else. */
  lemma RequestAsks(g: Server, s: EpochState, i: nat, o: Out)
    requires Sized(g, s) && i < g.p.n && !s.requested[i]
    requires s.v[i].retrieval.Some? && !s.v[i].retrieval.value.scheduled && s.v[i].payload.None? && s.v[i].core.Some?
    ensures o in Request(g, s, i).1 <==>
            && o.VIDOut? && o.idx == i && o.env.dest < g.p.n && o.env.dest in s.v[i].core.value.echos
            && o.env == Envelope(REQUEST, g.id, o.env.dest)
    ensures Request(g, s, i).0.v[i].retrieval.Some? && Request(g, s, i).0.v[i].retrieval.value.scheduled
  {
    hide Requests;
    if o.VIDOut? {
      DS.RequestsAre(g.VID(i), s.v[i].core.value.echos, 0, o.env);
    }
    OutsAre(i, RequestPayload(g.VID(i), s.v[i]).1, o);
  }

  lemma OutsAre(i: nat, out: seq<Env>, o: Out)
    ensures o in VIDOuts(i, out) <==> o.VIDOut? && o.idx == i && o.env in out
  {
    if o.VIDOut? && o.idx == i && o.env in out {
      var a :| 0 <= a < |out| && out[a] == o.env;
      assert VIDOuts(i, out)[a] == o;
    }
  }

  /** What a PikaEpochMessage carries. */
  datatype In = GotVID(vid: Msg) | GotBA(ba: A.BAMsg)

  predicate SameFlags(s: EpochState, t: EpochState) {
    s.termed == t.termed && s.hptermed == t.hptermed
  }

  lemma FlagsStayVID(g: Server, s: EpochState, i: nat, from: nat, m: Msg)
    requires g.p.Resilient() && Sized(g, s) && Runnable(g, s) && i < g.p.n && m.Complete()
    ensures SameFlags(s, OnVID(g, s, i, from, m).0)
  {
    hide A.Input, Recv, ReleaseChunk, RequestPayload;
  }

  lemma {:induction false} FlagsStayFalse(g: Server, s: EpochState, i: nat)
    requires Sized(g, s) && Runnable(g, s)
    ensures SameFlags(s, InputFalse(g, s, i).0)
    decreases g.p.n - i
  {
    hide A.Input;
    if i < g.p.n {
      InputKeepsRunnable(g, s, i, false);
      FlagsStayFalse(g, InputBA(g, s, i, false).0, i + 1);
    }
  }

  lemma FlagsStayBA(g: Server, s: EpochState, i: nat, from: nat, m: A.BAMsg)
    requires Sized(g, s) && Runnable(g, s) && i < g.p.n && from < g.p.n
    ensures SameFlags(s, OnBA(g, s, i, from, m).0)
  {
    hide A.Recv, ReleaseChunk, RequestPayload, InputFalse, Accepts;
    var t := A.Recv(g.p, s.b[i], from, m).0;
    RecvKeepsRunnable(g, s.b[i], from, m);
    var s1 := s.(b := s.b[i := t]);
    if s.b[i].Running? && t.Decided? {
      var s2 := if Accepted(s1.b[i]) then Fetch(g, s1, i).0 else s1;
      FlagsStayFalse(g, s2, 0);
    }
  }

  /** PikaEpoch, over the states of its agreements and dispersals. */
  class PikaEpochServer {
    const p: Params
    const id: nat
    const codec: Codec
    var v: seq<VID>
    var b: seq<A.State>
    var bInit: seq<bool>
    var requested: seq<bool>
    var released: seq<bool>
    var retrieved: seq<bool>
    var requestStarted: bool
    var termed: bool
    var hptermed: bool
    /** The votes cast. */
    ghost var input: seq<Option<bool>>

    ghost function G(): Server {
      Server(p, id, codec)
    }

    ghost function Model(): EpochState
      reads this
    {
      EpochState(b, v, input, requested, released, retrieved, requestStarted, termed, hptermed)
    }

    ghost predicate Valid()
      reads this
    {
      && p.Resilient() && id < p.n
      && Sized(G(), Model()) && Runnable(G(), Model())
      && |bInit| == p.n && forall i :: 0 <= i < p.n ==> (bInit[i] <==> input[i].Some?)
    }

    constructor (p: Params, id: nat, codec: Codec)
      requires p.Resilient() && id < p.n
      ensures Valid() && G() == Server(p, id, codec) && Model() == Fresh(G())
    {
      this.p, this.id, this.codec := p, id, codec;
      var s := Fresh(Server(p, id, codec));
      v, b, input, bInit := s.v, s.b, s.input, seq(p.n, i => false);
      requested, released, retrieved := s.requested, s.released, s.retrieved;
      requestStarted, termed, hptermed := false, false, false;
    }

    /** Casts a vote, once. */
    method InputBA(i: nat, x: bool) returns (msgs: seq<Out>)
      requires Valid() && i < p.n
      modifies this`b, this`bInit, this`input
      ensures Valid()
      ensures old(bInit[i]) ==> msgs == [] && b == old(b)
      ensures bInit == old(bInit)[i := true] && input == if old(bInit[i]) then old(input) else old(input)[i := Some(x)]
      ensures OnlyAt(old(Model()), Model(), i) && forall o :: o in msgs ==> o.BAOut? && o.idx == i
      ensures (Model(), msgs) == PikaEpoch.InputBA(G(), old(Model()), i, x)
    {
      hide A.Input;
      msgs := [];
      if !bInit[i] {
        InputKeepsRunnable(G(), Model(), i, x);
        var (t, out) := A.Input(b[i], x);
        bInit, input, b := bInit[i := true], input[i := Some(x)], b[i := t];
        msgs := BAOuts(i, out);
      }
    }

    method Release(i: nat) returns (msgs: seq<Out>)
      requires Valid() && i < p.n
      modifies this`v, this`released
      ensures Valid()
      ensures old(released[i]) ==> msgs == [] && v == old(v)
      ensures released == old(released)[i := true] && (!old(released[i]) ==> v[i].canRelease)
      ensures OnlyAt(old(Model()), Model(), i) && forall o :: o in msgs ==> o.VIDOut? && o.idx == i
      ensures (Model(), msgs) == PikaEpoch.Release(G(), old(Model()), i)
    {
      hide Flush;
      msgs := [];
      if released[i] {
        return;
      }
      DS.FlushLeaves(Ctx(p, id, i, codec), v[i].(canRelease := true));
      var (w, out) := ReleaseChunk(Ctx(p, id, i, codec), v[i]);
      released, v := released[i := true], v[i := w];
      msgs := VIDOuts(i, out);
    }

    method Request(i: nat) returns (msgs: seq<Out>)
      requires Valid() && i < p.n
      modifies this`v, this`requested
      ensures Valid()
      ensures old(requested[i]) ==> msgs == [] && v == old(v)
      ensures requested == old(requested)[i := true]
      ensures !old(requested[i]) && v[i].retrieval.Some? ==> v[i].retrieval.value.scheduled
      ensures OnlyAt(old(Model()), Model(), i) && forall o :: o in msgs ==> o.VIDOut? && o.idx == i
      ensures (Model(), msgs) == PikaEpoch.Request(G(), old(Model()), i)
    {
      hide Requests;
      msgs := [];
      if requested[i] {
        return;
      }
      var (w, out) := RequestPayload(Ctx(p, id, i, codec), v[i]);
      requested, v := requested[i := true], v[i := w];
      msgs := VIDOuts(i, out);
    }

    method Fetch(i: nat) returns (msgs: seq<Out>)
      requires Valid() && i < p.n
      modifies this`v, this`released, this`requested
      ensures Valid()
      ensures (Model(), msgs) == PikaEpoch.Fetch(G(), old(Model()), i)
    {
      hide PikaEpoch.Release, PikaEpoch.Request, Runnable;
      msgs := Release(i);
      if requestStarted {
        var more := Request(i);
        msgs := msgs + more;
      }
    }

    method NumBATrue() returns (n: nat)
      requires Valid()
      ensures n == |Accepts(b)|
    {
      hide Runnable, Accepts;
      n := 0;
      NoneAccepted();
      for i := 0 to p.n
        invariant n == |Accepts(b[..i])|
      {
        AcceptsPrefix(b, i);
        if b[i].Decided? && b[i].output {
          n := n + 1;
        }
      }
      assert b[..p.n] == b;
    }

    lemma NoneAccepted()
      ensures |Accepts(b[..0])| == 0
    {
    }

    /** Votes against every block that has no vote yet. */
    method InputFalse() returns (msgs: seq<Out>)
      requires Valid()
      modifies this`b, this`bInit, this`input
      ensures Valid()
      ensures (Model(), msgs) == PikaEpoch.InputFalse(G(), old(Model()), 0)
    {
      hide PikaEpoch.InputBA, OnlyAt;
      ghost var goal := PikaEpoch.InputFalse(G(), Model(), 0);
      msgs := [];
      assert [] + goal.1 == goal.1;
      for i := 0 to p.n
        invariant Valid()
        invariant goal.0 == PikaEpoch.InputFalse(G(), Model(), i).0
        invariant goal.1 == msgs + PikaEpoch.InputFalse(G(), Model(), i).1
      {
        var more := InputBA(i, false);
        msgs := msgs + more;
      }
      assert msgs + [] == msgs;
    }

    /** Handles a message of dispersal i, up to the end of the case. */
    method HandleVID(i: nat, from: nat, m: Msg) returns (msgs: seq<Out>)
      requires Valid() && i < p.n && m.Complete()
      modifies this
      ensures Valid()
      ensures (Model(), msgs) == OnVID(G(), old(Model()), i, from, m)
    {
      hide Dispersal.Recv, PikaEpoch.InputBA, PikaEpoch.Fetch;
      var (w, out) := Dispersal.Recv(Ctx(p, id, i, codec), v[i], from, m);
      v := v[i := w];
      msgs := VIDOuts(i, out);
      if Terminated(Ctx(p, id, i, codec), w) {
        var out2 := InputBA(i, true);
        var out3 := Fetch(i);
        msgs := msgs + out2 + out3;
      }
    }

    /** Handles a message of agreement i, up to the end of the case. */
    method HandleBA(i: nat, from: nat, m: A.BAMsg) returns (msgs: seq<Out>)
      requires Valid() && i < p.n && from < p.n
      modifies this
      ensures Valid()
      ensures (Model(), msgs) == OnBA(G(), old(Model()), i, from, m)
    {
      hide A.Recv, PikaEpoch.Fetch, PikaEpoch.InputFalse;
      RecvKeepsRunnable(G(), b[i], from, m);
      var (t, out) := A.Recv(p, b[i], from, m);
      var justDecided := b[i].Running? && t.Decided?;
      b := b[i := t];
      msgs := BAOuts(i, out);
      if justDecided {
        var more := AfterDecision(i);
        msgs := msgs + more;
      }
    }

    method AfterDecision(i: nat) returns (msgs: seq<Out>)
      requires Valid() && i < p.n
      modifies this
      ensures Valid()
      ensures (Model(), msgs) == Decide(G(), old(Model()), i)
    {
      hide PikaEpoch.Fetch, PikaEpoch.InputFalse, Runnable;
      msgs := [];
      if b[i].Decided? && b[i].output {
        msgs := Fetch(i);
      }
      var n := NumBATrue();
      if n >= p.n - p.f {
        var more := InputFalse();
        msgs := msgs + more;
      }
    }

    /** Looks whether the block of server i has been decoded, and remembers it. */
    method PayloadRetrieved(i: nat) returns (there: bool)
      requires Valid() && i < p.n
      modifies this`retrieved
      ensures Valid() && there == (old(retrieved[i]) || HasBlock(v[i]))
      ensures retrieved == old(retrieved)[i := there]
    {
      there := retrieved[i];
      if !there && v[i].payload.Some? && v[i].payload.value.Block? {
        retrieved := retrieved[i := true];
        there := true;
      }
    }

    /** The end of Recv. The results tell whether the epoch has just been dispersed, or terminated. */
    method CheckTermination() returns (dispersed: bool, terminated: bool)
      requires Valid()
      modifies this`retrieved, this`termed, this`hptermed
      ensures Valid()
      ensures Model() == Conclude(old(Model()))
      ensures dispersed <==> hptermed && !old(hptermed)
      ensures terminated <==> termed && !old(termed)
    {
      hide Retrieved;
      dispersed, terminated := false, false;
      for i := 0 to p.n
        invariant forall j :: 0 <= j < i ==> b[j].Decided?
      {
        if !b[i].Decided? {
          return;
        }
      }
      ghost var goal := Retrieved(Model());
      var chunkRcvd := CheckBlocks();
      if !hptermed {
        hptermed, dispersed := true, true;
      }
      if chunkRcvd && !termed {
        termed, terminated := true, true;
      }
    }

    /** Whether all accepted blocks have been decoded. */
    method CheckBlocks() returns (chunkRcvd: bool)
      requires Valid() && AllDecided(Model())
      modifies this`retrieved
      ensures Valid() && retrieved == Retrieved(old(Model()))
      ensures chunkRcvd <==> forall j :: 0 <= j < |b| && Accepted(b[j]) ==> retrieved[j]
    {
      chunkRcvd := true;
      ghost var goal, before := Retrieved(Model()), retrieved;
      for i := 0 to p.n
        invariant Valid() && |retrieved| == p.n
        invariant forall j :: 0 <= j < i ==> retrieved[j] == goal[j]
        invariant forall j :: i <= j < p.n ==> retrieved[j] == before[j]
        invariant chunkRcvd <==> forall j :: 0 <= j < i && Accepted(b[j]) ==> goal[j]
      {
        if b[i].output {
          var there := PayloadRetrieved(i);
          chunkRcvd := chunkRcvd && there;
        }
      }
      assert retrieved == goal;
    }

    /** Handles a message of instance i of the two protocols. */
    method Recv(i: nat, from: nat, m: In) returns (msgs: seq<Out>, dispersed: bool, terminated: bool)
      requires Valid() && i < p.n && from < p.n && (m.GotVID? ==> m.vid.Complete())
      modifies this
      ensures Valid()
      ensures var (s, out) := if m.GotVID? then OnVID(G(), old(Model()), i, from, m.vid) else OnBA(G(), old(Model()), i, from, m.ba);
              Model() == Conclude(s) && msgs == out
      ensures dispersed <==> hptermed && !old(hptermed)
      ensures terminated <==> termed && !old(termed)
    {
      hide OnVID, OnBA, Conclude;
      match m {
        case GotVID(vid) =>
          FlagsStayVID(G(), Model(), i, from, vid);
          msgs := HandleVID(i, from, vid);
        case GotBA(ba) =>
          FlagsStayBA(G(), Model(), i, from, ba);
          msgs := HandleBA(i, from, ba);
      }
      dispersed, terminated := CheckTermination();
    }

    method ReleaseAll() returns (msgs: seq<Out>)
      requires Valid()
      modifies this`v, this`released
      ensures Valid()
      ensures (Model(), msgs) == PikaEpoch.ReleaseAll(G(), old(Model()), 0)
    {
      hide PikaEpoch.Release;
      ghost var goal := PikaEpoch.ReleaseAll(G(), Model(), 0);
      msgs := [];
      assert [] + goal.1 == goal.1;
      for i := 0 to p.n
        invariant Valid()
        invariant goal.0 == PikaEpoch.ReleaseAll(G(), Model(), i).0
        invariant goal.1 == msgs + PikaEpoch.ReleaseAll(G(), Model(), i).1
      {
        var more := Release(i);
        msgs := msgs + more;
      }
      assert msgs + [] == msgs;
    }

    /** Starts the dispersal of the own block, releases all chunks and votes for the block. */
    method Init(x: Payload) returns (msgs: seq<Out>)
      requires Valid() && |codec.encode(x)| == p.n && |codec.encode(EmptyPayload)| == p.n
      modifies this
      ensures Valid()
      ensures (Model(), msgs) == PikaEpoch.Init(G(), old(Model()), x)
    {
      hide Disperse, PikaEpoch.ReleaseAll, PikaEpoch.InputBA;
      var (w, out) := Disperse(Ctx(p, id, id, codec), v[id], x, EmptyPayload);
      v := v[id := w];
      msgs := VIDOuts(id, out);
      var out2 := ReleaseAll();
      var out3 := InputBA(id, true);
      msgs := msgs + out2 + out3;
    }

    /** From now on blocks are asked for when they are released; asks for those that have been already. */
    method StartRequesting() returns (msgs: seq<Out>)
      requires Valid()
      modifies this`v, this`requested, this`requestStarted
      ensures Valid()
      ensures (Model(), msgs) == PikaEpoch.StartRequesting(G(), old(Model()))
    {
      hide PikaEpoch.Request, OnlyAt, BARunnable;
      requestStarted := true;
      ghost var goal := RequestAll(G(), Model(), 0);
      msgs := [];
      assert [] + goal.1 == goal.1;
      for i := 0 to p.n
        invariant Valid()
        invariant goal.0 == RequestAll(G(), Model(), i).0
        invariant goal.1 == msgs + RequestAll(G(), Model(), i).1
        modifies this`v, this`requested
      {
        var more := RequestReleased(i);
        msgs := msgs + more;
      }
      assert msgs + [] == msgs;
    }

    method RequestReleased(i: nat) returns (msgs: seq<Out>)
      requires Valid() && i < p.n
      modifies this`v, this`requested
      ensures Valid()
      ensures (Model(), msgs) == if old(released[i]) then PikaEpoch.Request(G(), old(Model()), i) else (old(Model()), [])
    {
      hide PikaEpoch.Request, OnlyAt, BARunnable;
      msgs := [];
      if released[i] {
        msgs := Request(i);
      }
    }
  }
}
