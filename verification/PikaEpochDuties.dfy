/**
 What a server owes in an epoch: a vote for every block whose dispersal is complete, a vote in every agreement once N-F
 blocks are accepted, its chunk of every block that may be accepted, and a request for it once requesting has started.
 */
module PikaEpochDuties {
  import opened Common
  import opened Dispersal
  import opened PikaEpoch
  import A = Agreement
  import AE = AgreementEpoch
  import AP = AgreementProgress
  import DS = DispersalStep
  import DP = DispersalProgress
  import PS = PikaEpochSteps

  /** The dispersal of server i is complete here. */
  predicate Done(g: Server, s: EpochState, i: nat)
    requires Sized(g, s) && i < g.p.n
  {
    Terminated(g.VID(i), s.v[i])
  }

  /** An agreement still in its first epoch has taken in the vote, if there is one. */
  predicate VoteTaken(t: A.State, input: Option<bool>) {
    t.Running? && t.core.epochNum == 0 && |t.core.epochs| > 0 ==>
      match input
      case None => t.core.firstUninited == 0
      case Some(x) => t.core.firstUninited == 1 && t.core.epochs[0].estimate == x
  }

  /** What is marked as released or requested is so in the VID. */
  predicate Marked(v: VID, released: bool, requested: bool) {
    && (released ==> v.canRelease)
    && (requested && v.retrieval.Some? ==> v.retrieval.value.scheduled)
  }

  /** What holds of instance i even in the middle of a step. */
  predicate Base(g: Server, s: EpochState, i: nat)
    requires Sized(g, s) && i < g.p.n
  {
    && Marked(s.v[i], s.released[i], s.requested[i]) && VoteTaken(s.b[i], s.input[i])
    && (i == g.id ==> s.v[i].payload.Some? && s.v[i].assoc.Some?)
    && (s.input[i] == Some(true) ==> Done(g, s, i) || (i == g.id && HasBlock(s.v[i])))
  }

  /** The server has voted in agreement i if the dispersal is complete; and it serves and fetches what may be accepted. */
  predicate DutyAt(g: Server, s: EpochState, i: nat)
    requires Sized(g, s) && i < g.p.n
  {
    && Base(g, s, i)
    && (Done(g, s, i) ==> s.input[i].Some?)
    && (Done(g, s, i) || Accepted(s.b[i]) ==> s.released[i] && (s.requestStarted ==> s.requested[i]))
  }

  predicate AllVoted(s: EpochState) {
    forall i :: 0 <= i < |s.input| ==> s.input[i].Some?
  }

  /** Chunks are released of blocks that are dispersed or accepted, and of all once the server has proposed. */
  predicate Reasoned(g: Server, s: EpochState)
    requires Sized(g, s)
  {
    forall i :: 0 <= i < g.p.n && s.released[i] ==> Done(g, s, i) || Accepted(s.b[i]) || (g.id < g.p.n && HasBlock(s.v[g.id]))
  }

  ghost predicate Duties(g: Server, s: EpochState)
    requires Sized(g, s)
  {
    && Reasoned(g, s)
    && (forall i: nat :: i < g.p.n ==> DutyAt(g, s, i))
    && (|Accepts(s.b)| + g.p.f >= g.p.n ==> AllVoted(s))
  }

  /** The first vote takes effect in an agreement that is still in its first epoch. */
  lemma InputTaken(g: Server, t: A.State, x: bool)
    requires BARunnable(g, t) && VoteTaken(t, None)
    ensures VoteTaken(A.Input(t, x).0, Some(x)) && (Accepted(A.Input(t, x).0) <==> Accepted(t))
  {
  }

  lemma {:induction false} LaterLeavesFirst(p: Params, core: A.Core, from: nat, v: bool, e: nat)
    requires e > 0 && |core.epochs| > 0
    ensures A.ApplyTerm(p, core, from, v, e).0.epochs[0] == core.epochs[0]
    decreases |core.epochs| - e
  {
    hide A.InsertTerm;
    if e < |core.epochs| {
      LaterLeavesFirst(p, A.ApplyOne(p, core, from, v, e).0, from, v, e + 1);
    }
  }

  lemma SignalKeepsEstimate(p: Params, ep: AE.Epoch, from: nat, s: AE.Signal)
    ensures AE.RecvSignal(p, ep, from, s).0.estimate == ep.estimate
  {
  }

  lemma RecordKeepsEstimate(p: Params, core: A.Core, from: nat, m: A.BAMsg)
    requires from < |core.terms| && |core.epochs| > 0
    ensures A.Record(p, core, from, m).0.epochs[0].estimate == core.epochs[0].estimate
  {
    hide A.Allocate, A.ApplyTerm, AE.RecvSignal;
    var core1 := A.Allocate(p, core, m.epoch).0;
    match m
    case EpochMsg(e, s) => SignalKeepsEstimate(p, core1.epochs[e], from, s);
    case TermMsg(e, v) =>
      if core1.terms[from].None? {
        LaterLeavesFirst(p, core1.(terms := core1.terms[from := Some(A.TermStatus(e, v))]), from, v, e + 1);
      }
  }

  /** Hearing a message leaves the vote as it is. */
  lemma RecvTaken(g: Server, t: A.State, input: Option<bool>, from: nat, m: A.BAMsg)
    requires BARunnable(g, t) && VoteTaken(t, input) && from < g.p.n
    ensures VoteTaken(A.Recv(g.p, t, from, m).0, input)
  {
    hide A.Record, A.Advance, AE.InitEpoch;
    if t.Running? {
      var core1 := A.Record(g.p, t.core, from, m).0;
      RecordKeepsEstimate(g.p, t.core, from, m);
      AP.LoopMovesOn(g.p, core1, core1.epochNum, |core1.epochs| + 2);
    }
  }

  /** What hearing a message cannot undo in a VID. */
  lemma RecvDone(c: Ctx, v: VID, from: nat, m: Msg, released: bool, requested: bool)
    requires c.p.Resilient() && m.Complete()
    ensures var w := Recv(c, v, from, m).0;
            && (Marked(v, released, requested) ==> Marked(w, released, requested))
            && (Terminated(c, v) ==> Terminated(c, w))
            && (v.payload.Some? ==> w.payload == v.payload) && (v.assoc.Some? ==> w.assoc.Some?)
  {
    hide Recv, PayloadDispersed, DS.Kept;
    var w := Recv(c, v, from, m).0;
    PS.RecvKept(c, v, from, m);
    if PayloadDispersed(c, v) {
      PS.DispersedStays(c, v, w);
    }
    if v.payload.Some? {
      PS.RecvKeepsBlock(c, v, from, m);
    }
    RecvSchedules(c, v, from, m);
    ReleaseStays(v, w);
  }

  lemma ReleaseStays(v: VID, w: VID)
    requires DS.Kept(v, w)
    ensures v.canRelease ==> w.canRelease
  {
  }

  lemma RecvSchedules(c: Ctx, v: VID, from: nat, m: Msg)
    requires c.p.Resilient() && m.Complete()
    ensures var w := Recv(c, v, from, m).0;
            && (v.assoc.Some? ==> w.assoc.Some?)
            && (w.retrieval.Some? ==> v.retrieval.Some? && (v.retrieval.value.scheduled ==> w.retrieval.value.scheduled))
  {
    hide Intake, React, DP.Extended;
    IntakeSchedules(c, v, from, m);
    DP.ReactFiles(c, Intake(c, v, from, m).0);
  }

  /** The associated object and the request for the payload are the same. */
  predicate SamePlan(v: VID, w: VID) {
    && w.assoc == v.assoc && (w.retrieval.Some? <==> v.retrieval.Some?)
    && (w.retrieval.Some? ==> w.retrieval.value.scheduled == v.retrieval.value.scheduled)
  }

  lemma HandlersKeepPlan(c: Ctx, v: VID, from: nat, chunk: Bytes, ad: Bytes)
    ensures SamePlan(v, OnEcho(v, from, ad)) && SamePlan(v, OnReady(v, from)) && SamePlan(v, OnDisperse(c, v, from, chunk, ad))
    ensures SamePlan(v, OnRespond(v, from, chunk)) && SamePlan(v, OnRequest(c, v, from).0)
  {
  }

  lemma IntakeSchedules(c: Ctx, v: VID, from: nat, m: Msg)
    requires m.Complete()
    ensures SamePlan(v, Intake(c, v, from, m).0)
  {
    hide OnEcho, OnReady, OnDisperse, OnRespond, OnRequest, Prompted;
    var chunk, ad := if m.payload.Some? then m.payload.value else [], if m.assoc.Some? then m.assoc.value else [];
    var v1 := if m.echo then OnEcho(v, from, ad) else v;
    var v2 := if m.ready then OnReady(v1, from) else v1;
    var v3 := if m.disperse then OnDisperse(c, v2, from, chunk, ad) else v2;
    var v4 := if m.respond then OnRespond(v3, from, chunk) else v3;
    HandlersKeepPlan(c, v, from, chunk, ad);
    HandlersKeepPlan(c, v1, from, chunk, ad);
    HandlersKeepPlan(c, v2, from, chunk, ad);
    HandlersKeepPlan(c, v3, from, chunk, ad);
    HandlersKeepPlan(c, v4, from, chunk, ad);
  }

  /** The instances other than i have not moved. */
  ghost predicate Only(g: Server, s: EpochState, t: EpochState, i: nat)
    requires Sized(g, s) && Sized(g, t)
  {
    && t.requestStarted == s.requestStarted
    && forall j :: 0 <= j < g.p.n && j != i ==>
         && t.b[j] == s.b[j] && t.v[j] == s.v[j] && t.input[j] == s.input[j]
         && t.released[j] == s.released[j] && t.requested[j] == s.requested[j]
  }

  /** A step on instance i for which there is reason keeps the reasons. */
  lemma ReasonsStay(g: Server, s: EpochState, t: EpochState, i: nat)
    requires Sized(g, s) && Sized(g, t) && Only(g, s, t, i) && i < g.p.n && Reasoned(g, s)
    requires Done(g, s, i) || Accepted(s.b[i]) ==> Done(g, t, i) || Accepted(t.b[i])
    requires i == g.id && HasBlock(s.v[i]) ==> HasBlock(t.v[i])
    requires t.released[i] == s.released[i] || Done(g, t, i) || Accepted(t.b[i])
    ensures Reasoned(g, t)
  {
    hide Terminated;
  }

  lemma OthersOwe(g: Server, s: EpochState, t: EpochState, i: nat)
    requires Sized(g, s) && Sized(g, t) && Only(g, s, t, i)
    requires forall j: nat :: j < g.p.n && j != i ==> DutyAt(g, s, j)
    ensures forall j: nat :: j < g.p.n && j != i ==> DutyAt(g, t, j)
  {
    hide Marked, VoteTaken, Terminated, HasBlock;
    forall j: nat | j < g.p.n && j != i
      ensures DutyAt(g, t, j)
    {
      assert DutyAt(g, s, j);
    }
  }

  /** A vote in agreement i. */
  lemma InputOwes(g: Server, s: EpochState, i: nat, x: bool)
    requires Sized(g, s) && i < g.p.n && BARunnable(g, s.b[i]) && Base(g, s, i)
    requires x ==> Done(g, s, i) || (i == g.id && HasBlock(s.v[i]))
    ensures var t := InputBA(g, s, i, x).0;
            && Only(g, s, t, i) && Base(g, t, i) && t.v == s.v && t.released == s.released && t.requested == s.requested
            && t.input[i] == (if s.input[i].Some? then s.input[i] else Some(x)) && (Accepted(t.b[i]) <==> Accepted(s.b[i]))
  {
    hide A.Input, VoteTaken, Marked, Terminated;
    if s.input[i].None? {
      InputTaken(g, s.b[i], x);
    }
  }

  lemma ReleaseLeaves(c: Ctx, v: VID)
    ensures var w := ReleaseChunk(c, v).0;
            w.canRelease && w.core == v.core && w.retrieval == v.retrieval && w.assoc == v.assoc && w.payload == v.payload
  {
    hide Answers;
  }

  lemma RequestLeaves(c: Ctx, v: VID)
    ensures var w := RequestPayload(c, v).0;
            && (w.retrieval.Some? ==> w.retrieval.value.scheduled)
            && w.canRelease == v.canRelease && w.core == v.core && w.assoc == v.assoc && w.payload == v.payload
  {
    hide Requests;
  }

  lemma ReleaseOwes(g: Server, s: EpochState, i: nat)
    requires Sized(g, s) && i < g.p.n && Base(g, s, i)
    ensures var t := Release(g, s, i).0;
            && Only(g, s, t, i) && Base(g, t, i) && t.b == s.b && t.input == s.input && t.requested == s.requested
            && t.released == s.released[i := true] && (Done(g, t, i) <==> Done(g, s, i)) && t.v[i].payload == s.v[i].payload
  {
    hide VoteTaken, ReleaseChunk;
    ReleaseLeaves(g.VID(i), s.v[i]);
  }

  lemma RequestOwes(g: Server, s: EpochState, i: nat)
    requires Sized(g, s) && i < g.p.n && Base(g, s, i)
    ensures var t := Request(g, s, i).0;
            && Only(g, s, t, i) && Base(g, t, i) && t.b == s.b && t.input == s.input && t.released == s.released
            && t.requested == s.requested[i := true] && (Done(g, t, i) <==> Done(g, s, i)) && t.v[i].payload == s.v[i].payload
  {
    hide VoteTaken, RequestPayload;
    RequestLeaves(g.VID(i), s.v[i]);
  }

  /** Fetching does what is owed to block i. */
  lemma FetchOwes(g: Server, s: EpochState, i: nat)
    requires Sized(g, s) && i < g.p.n && Base(g, s, i)
    ensures var t := Fetch(g, s, i).0;
            && Only(g, s, t, i) && Base(g, t, i) && t.b == s.b && t.input == s.input && t.released[i]
            && (t.requestStarted ==> t.requested[i]) && (!t.requestStarted ==> t.requested == s.requested)
            && (Done(g, t, i) <==> Done(g, s, i)) && t.v[i].payload == s.v[i].payload
  {
    hide Release, Request, Base, Done;
    ReleaseOwes(g, s, i);
    RequestOwes(g, Release(g, s, i).0, i);
  }

  lemma HeardBase(g: Server, s: EpochState, i: nat, from: nat, m: Msg)
    requires g.p.Resilient() && Sized(g, s) && i < g.p.n && m.Complete() && DutyAt(g, s, i)
    ensures var s1 := s.(v := s.v[i := Recv(g.VID(i), s.v[i], from, m).0]);
            && Only(g, s, s1, i) && Base(g, s1, i) && (Done(g, s, i) ==> Done(g, s1, i))
            && (s.v[i].payload.Some? ==> s1.v[i].payload == s.v[i].payload)
  {
    hide Recv, Terminated, Marked, VoteTaken;
    RecvDone(g.VID(i), s.v[i], from, m, s.released[i], s.requested[i]);
  }

  /**
   A message of dispersal i: if it completes the dispersal, the server votes for the block unless it has voted, and it
   keeps all that it owes.
   */
  lemma OnVIDOwes(g: Server, s: EpochState, i: nat, from: nat, m: Msg)
    requires g.p.Resilient() && Sized(g, s) && Runnable(g, s) && i < g.p.n && m.Complete() && Duties(g, s)
    ensures var t := OnVID(g, s, i, from, m).0;
            && Duties(g, t)
            && (Done(g, t, i) ==> t.input[i] == if s.input[i].Some? then s.input[i] else Some(true))
            && (!Done(g, t, i) ==> t.input == s.input)
            && t.requestStarted == s.requestStarted && (!s.requestStarted ==> t.requested == s.requested)
  {
    hide Recv, InputBA, Fetch, Base, Accepts, Terminated;
    var s1 := s.(v := s.v[i := Recv(g.VID(i), s.v[i], from, m).0]);
    assert DutyAt(g, s, i);
    HeardBase(g, s, i, from, m);
    OthersOwe(g, s, s1, i);
    ReasonsStay(g, s, s1, i);
    if Done(g, s1, i) {
      var s2 := InputBA(g, s1, i, true).0;
      InputOwes(g, s1, i, true);
      PS.InputAccepts(g, s1, i, true);
      OthersOwe(g, s1, s2, i);
      ReasonsStay(g, s1, s2, i);
      FetchOwes(g, s2, i);
      OthersOwe(g, s2, Fetch(g, s2, i).0, i);
      ReasonsStay(g, s2, Fetch(g, s2, i).0, i);
    }
  }

  /** After voting against the rest, every vote has been cast. */
  lemma {:induction false} InputFalseOwes(g: Server, s: EpochState, i: nat)
    requires Sized(g, s) && Runnable(g, s) && forall j: nat :: j < g.p.n ==> DutyAt(g, s, j)
    requires forall j: nat :: j < g.p.n && j < i ==> s.input[j].Some?
    ensures var t := InputFalse(g, s, i).0;
            && AllVoted(t) && (Reasoned(g, s) ==> Reasoned(g, t)) && (forall j: nat :: j < g.p.n ==> DutyAt(g, t, j))
            && t.requestStarted == s.requestStarted && t.requested == s.requested
    decreases g.p.n - i
  {
    hide InputBA, Base, Terminated;
    if i < g.p.n {
      var s1 := InputBA(g, s, i, false).0;
      assert DutyAt(g, s, i);
      InputKeepsRunnable(g, s, i, false);
      InputOwes(g, s, i, false);
      OthersOwe(g, s, s1, i);
      if Reasoned(g, s) {
        ReasonsStay(g, s, s1, i);
      }
      InputFalseOwes(g, s1, i + 1);
    }
  }

  /** An agreement that has just decided: the block is served and fetched, and N-F accepted blocks lead to all votes. */
  lemma DecideOwes(g: Server, s: EpochState, i: nat)
    requires Sized(g, s) && Runnable(g, s) && i < g.p.n && Base(g, s, i)
    requires forall j: nat :: j < g.p.n && j != i ==> DutyAt(g, s, j)
    requires Done(g, s, i) ==> s.input[i].Some? && s.released[i] && (s.requestStarted ==> s.requested[i])
    requires Reasoned(g, s)
    ensures var t := Decide(g, s, i).0;
            && Duties(g, t) && t.requestStarted == s.requestStarted && (!s.requestStarted ==> t.requested == s.requested)
  {
    hide Fetch, InputFalse, Base, Accepts, Terminated;
    var s1 := if Accepted(s.b[i]) then Fetch(g, s, i).0 else s;
    FetchOwes(g, s, i);
    OthersOwe(g, s, s1, i);
    assert Only(g, s, s1, i);
    ReasonsStay(g, s, s1, i);
    assert DutyAt(g, s1, i);
    if |Accepts(s1.b)| + g.p.f >= g.p.n {
      InputFalseOwes(g, s1, 0);
    }
  }

  lemma OnBAOwes(g: Server, s: EpochState, i: nat, from: nat, m: A.BAMsg)
    requires Sized(g, s) && Runnable(g, s) && i < g.p.n && from < g.p.n && Duties(g, s)
    ensures var t := OnBA(g, s, i, from, m).0;
            && Duties(g, t) && t.requestStarted == s.requestStarted && (!s.requestStarted ==> t.requested == s.requested)
  {
    hide A.Record, A.CatchUp, Decide, Terminated, Marked, VoteTaken, Accepts;
    RecvKeepsRunnable(g, s.b[i], from, m);
    var t := A.Recv(g.p, s.b[i], from, m).0;
    var s1 := s.(b := s.b[i := t]);
    assert DutyAt(g, s, i);
    RecvTaken(g, s.b[i], s.input[i], from, m);
    assert Only(g, s, s1, i) && Base(g, s1, i);
    OthersOwe(g, s, s1, i);
    ReasonsStay(g, s, s1, i);
    if s.b[i].Running? && t.Decided? {
      DecideOwes(g, s1, i);
    } else {
      assert Accepted(t) <==> Accepted(s.b[i]);
      SameAccepts(s.b, i, t);
    }
  }

  lemma SameAccepts(b: seq<A.State>, i: nat, t: A.State)
    requires i < |b| && (Accepted(t) <==> Accepted(b[i]))
    ensures Accepts(b[i := t]) == Accepts(b)
  {
    forall j: nat
      ensures j in Accepts(b[i := t]) <==> j in Accepts(b)
    {
    }
  }

  /** Releasing every chunk from i on leaves everything else as it is. */
  lemma {:induction false} ReleaseAllOwes(g: Server, s: EpochState, i: nat)
    requires Sized(g, s) && (forall j: nat :: j < g.p.n ==> Base(g, s, j))
    ensures var t := ReleaseAll(g, s, i).0;
            && (forall j: nat :: j < g.p.n ==> Base(g, t, j) && (Done(g, t, j) <==> Done(g, s, j)) && t.v[j].payload == s.v[j].payload)
            && (forall j: nat :: j < g.p.n ==> t.released[j] == (s.released[j] || i <= j))
            && t.requested == s.requested && t.requestStarted == s.requestStarted
    decreases g.p.n - i
  {
    hide Release, Marked, VoteTaken, Terminated;
    if i < g.p.n {
      var s1 := Release(g, s, i).0;
      ReleaseOwes(g, s, i);
      forall j: nat | j < g.p.n
        ensures Base(g, s1, j) && (Done(g, s1, j) <==> Done(g, s, j)) && s1.v[j].payload == s.v[j].payload
      {
        assert Base(g, s, j);
      }
      ReleaseAllOwes(g, s1, i + 1);
    }
  }

  lemma DisperseDone(c: Ctx, v: VID, x: Payload)
    requires |c.codec.encode(x)| == c.p.n && |c.codec.encode(EmptyPayload)| == c.p.n && v.assoc.Some?
    ensures Terminated(c, Disperse(c, v, x, EmptyPayload).0) <==> Terminated(c, v)
  {
  }

  /** Proposing: the own block gets the vote of its server, and all chunks are released. */
  lemma InitOwes(g: Server, s: EpochState, x: Payload)
    requires Sized(g, s) && Runnable(g, s) && g.id < g.p.n && x.Block? && Duties(g, s)
    requires |g.codec.encode(x)| == g.p.n && |g.codec.encode(EmptyPayload)| == g.p.n
    ensures var t := Init(g, s, x).0;
            && Sized(g, t) && Duties(g, t) && (forall j: nat :: j < g.p.n ==> t.released[j]) && HasBlock(t.v[g.id])
            && t.input[g.id] == if s.input[g.id].Some? then s.input[g.id] else Some(true)
  {
    hide ReleaseAll, InputBA, Terminated, Marked, VoteTaken, Accepts;
    var s1 := s.(v := s.v[g.id := Disperse(g.VID(g.id), s.v[g.id], x, EmptyPayload).0]);
    assert DutyAt(g, s, g.id);
    DisperseDone(g.VID(g.id), s.v[g.id], x);
    assert Base(g, s1, g.id) by {
      DisperseMarked(g.VID(g.id), s.v[g.id], x, s.released[g.id], s.requested[g.id]);
    }
    assert Only(g, s, s1, g.id);
    OthersOwe(g, s, s1, g.id);
    assert DutyAt(g, s1, g.id);
    var s2 := ReleaseAll(g, s1, 0).0;
    forall j: nat | j < g.p.n
      ensures Base(g, s1, j)
    {
      assert DutyAt(g, s1, j);
    }
    ReleaseAllOwes(g, s1, 0);
    forall j: nat | j < g.p.n
      ensures DutyAt(g, s2, j)
    {
      assert DutyAt(g, s1, j);
    }
    InputOwes(g, s2, g.id, true);
    PS.InputAccepts(g, s2, g.id, true);
    OthersOwe(g, s2, InputBA(g, s2, g.id, true).0, g.id);
  }

  lemma DisperseMarked(c: Ctx, v: VID, x: Payload, released: bool, requested: bool)
    requires |c.codec.encode(x)| == c.p.n && |c.codec.encode(EmptyPayload)| == c.p.n && Marked(v, released, requested)
    ensures Marked(Disperse(c, v, x, EmptyPayload).0, released, requested)
  {
  }

  lemma {:induction false} RequestAllOwes(g: Server, s: EpochState, i: nat)
    requires Sized(g, s) && (forall j: nat :: j < g.p.n ==> Base(g, s, j))
    ensures var t := RequestAll(g, s, i).0;
            && (forall j: nat :: j < g.p.n ==> Base(g, t, j) && (Done(g, t, j) <==> Done(g, s, j)) && t.v[j].payload == s.v[j].payload)
            && (forall j: nat :: j < g.p.n ==> t.requested[j] == (s.requested[j] || (i <= j && s.released[j])))
            && t.released == s.released && t.requestStarted == s.requestStarted
    decreases g.p.n - i
  {
    hide Request, Marked, VoteTaken, Terminated;
    if i < g.p.n {
      var s1 := if s.released[i] then Request(g, s, i).0 else s;
      RequestOwes(g, s, i);
      forall j: nat | j < g.p.n
        ensures Base(g, s1, j) && (Done(g, s1, j) <==> Done(g, s, j)) && s1.v[j].payload == s.v[j].payload
      {
        assert Base(g, s, j);
      }
      RequestAllOwes(g, s1, i + 1);
    }
  }

  lemma StartOwes(g: Server, s: EpochState)
    requires Sized(g, s) && Duties(g, s)
    ensures var t := StartRequesting(g, s).0;
            Sized(g, t) && Duties(g, t) && t.requestStarted
  {
    hide RequestAll, Marked, VoteTaken, Terminated, Accepts;
    var s1 := s.(requestStarted := true);
    forall j: nat | j < g.p.n
      ensures Base(g, s1, j)
    {
      assert DutyAt(g, s, j);
    }
    RequestAllOwes(g, s1, 0);
    forall j: nat | j < g.p.n
      ensures DutyAt(g, RequestAll(g, s1, 0).0, j)
    {
      assert DutyAt(g, s, j);
    }
  }

  lemma AskOwes(g: Server, s: EpochState, i: nat)
    requires Sized(g, s) && Duties(g, s) && i < g.p.n
    ensures Duties(g, Request(g, s, i).0)
  {
    hide Request, Base, Terminated, Accepts;
    assert DutyAt(g, s, i);
    RequestOwes(g, s, i);
    OthersOwe(g, s, Request(g, s, i).0, i);
    ReasonsStay(g, s, Request(g, s, i).0, i);
  }

  lemma ConcludeOwes(g: Server, s: EpochState)
    requires Sized(g, s) && Duties(g, s)
    ensures Sized(g, Conclude(s)) && Duties(g, Conclude(s)) && Conclude(s).requested == s.requested
  {
    hide Marked, VoteTaken, Terminated, Accepts;
    forall j: nat | j < g.p.n
      ensures DutyAt(g, Conclude(s), j)
    {
      assert DutyAt(g, s, j);
    }
  }

  lemma FreshOwes(g: Server)
    requires g.p.Resilient()
    ensures Duties(g, Fresh(g))
  {
    assert Accepts(Fresh(g).b) == {};
  }
}
