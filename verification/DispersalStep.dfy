/** One step of a VID on a correct server: what it keeps, and what each message it sends says about the server. */
module DispersalStep {
  import opened Common
  import opened Dispersal
  import opened DispersalInvariant

  datatype Act =
    | Hear(from: nat, m: Msg)
    | Release
    | Request
    | Begin(x: Payload, y: Payload)

  /** Messages are well formed, and only the initiator disperses. */
  predicate Possible(c: Ctx, act: Act) {
    match act
    case Hear(from, m) => from < c.p.n && m.Complete()
    case Begin(x, y) => c.id == c.initID && |c.codec.encode(x)| == c.p.n && |c.codec.encode(y)| == c.p.n
    case _ => true
  }

  predicate Enabled(c: Ctx, v: VID, act: Act) {
    Possible(c, act) && (act.Hear? ==> Genuine(c, v, act.from, act.m))
  }

  function Do(c: Ctx, v: VID, act: Act): (VID, seq<Env>)
    requires c.p.Resilient() && Possible(c, act)
  {
    match act
    case Hear(from, m) => Recv(c, v, from, m)
    case Release => ReleaseChunk(c, v)
    case Request => RequestPayload(c, v)
    case Begin(x, y) => Disperse(c, v, x, y)
  }

  /** The state once the message has been taken in. */
  function Mid(c: Ctx, v: VID, act: Act): VID
    requires Possible(c, act)
  {
    if act.Hear? then Intake(c, v, act.from, act.m).0 else v
  }

  lemma DoKeepsOk(c: Ctx, v: VID, act: Act)
    requires Ok(c, v) && Enabled(c, v, act)
    ensures Ok(c, Do(c, v, act).0)
  {
    hide Shape, Settled, Recv, ReleaseChunk, RequestPayload, Disperse, Genuine;
    match act
    case Hear(from, m) => RecvKeepsOk(c, v, from, m);
    case Release => ReleaseKeepsOk(c, v);
    case Request => RequestKeepsOk(c, v);
    case Begin(x, y) => DisperseKeepsOk(c, v, x, y);
  }

  /** Ready has been sent: the core is dropped only after that. */
  predicate Speaks(v: VID) {
    v.core.None? || v.core.value.sentReady
  }

  /** What a server once has or has done stays that way. */
  ghost predicate Kept(v: VID, w: VID) {
    && (v.ourChunk.Some? ==> w.ourChunk == v.ourChunk)
    && (v.ourEcho.Some? ==> w.ourEcho == v.ourEcho)
    && (Speaks(v) ==> Speaks(w))
    && (v.core.None? ==> w.core.None?)
    && (w.core.Some? ==> v.core.Some? && v.core.value.readys <= w.core.value.readys)
    && (v.canRelease ==> w.canRelease)
  }

  lemma IntakeKept(c: Ctx, v: VID, from: nat, m: Msg)
    requires m.Complete()
    ensures Kept(v, Intake(c, v, from, m).0)
  {
  }

  /** The own chunks are the same as well. */
  ghost predicate KeptWhole(v: VID, w: VID) {
    Kept(v, w) && w.ourChunk == v.ourChunk && w.ourEcho == v.ourEcho
  }

  lemma KeptTogether(u: VID, v: VID, w: VID)
    requires KeptWhole(u, v) && KeptWhole(v, w)
    ensures KeptWhole(u, w)
  {
  }

  lemma SendKept(c: Ctx, v: VID)
    ensures KeptWhole(v, SendEcho(c, SendReady(c, v).0).0)
  {
    hide Copies;
  }

  lemma TailKept(c: Ctx, v: VID)
    requires c.p.Resilient()
    ensures KeptWhole(v, DropCore(c, DropRetrieval(c, DecodePayload(c, DecodeAssoc(c, Flush(c, v).0))).0))
  {
    hide Gather, Answers, Copies;
  }

  lemma ReactKept(c: Ctx, v: VID)
    requires c.p.Resilient()
    ensures Kept(v, React(c, v).0)
    ensures React(c, v).0.ourChunk == v.ourChunk && React(c, v).0.ourEcho == v.ourEcho
  {
    hide Kept, SendReady, SendEcho, Flush, DecodePayload, DecodeAssoc, DropRetrieval, DropCore;
    var u := SendEcho(c, SendReady(c, v).0).0;
    SendKept(c, v);
    TailKept(c, u);
    KeptTogether(v, u, React(c, v).0);
  }

  lemma DoKept(c: Ctx, v: VID, act: Act)
    requires c.p.Resilient() && Possible(c, act)
    ensures Kept(v, Do(c, v, act).0)
  {
    hide Intake, React;
    if act.Hear? {
      IntakeKept(c, v, act.from, act.m);
      ReactKept(c, Intake(c, v, act.from, act.m).0);
    }
  }

  /** Every server is sent a message with the Ready flag. */
  ghost predicate ReadyToAll(c: Ctx, out: seq<Env>) {
    forall d: nat :: d < c.p.n ==> ReadyTo(c, out, d)
  }

  ghost predicate ReadyTo(c: Ctx, out: seq<Env>, d: nat) {
    exists e :: e in out && e.from == c.id && e.dest == d && e.msg.ready
  }

  lemma CopiesReach<M>(n: nat, from: nat, m: M, d: nat)
    requires d < n
    ensures Envelope(m, from, d) in Copies(n, from, m)
  {
    assert Copies(n, from, m)[d] == Envelope(m, from, d);
  }

  lemma {:induction false} AnswersAre(c: Ctx, waiting: set<nat>, chunk: Bytes, j: nat, e: Env)
    ensures e in Answers(c, waiting, chunk, j) <==> e == Envelope(RespondMsg(chunk), c.id, e.dest) && j <= e.dest < c.p.n && e.dest in waiting
    decreases c.p.n - j
  {
    if j < c.p.n {
      AnswersAre(c, waiting, chunk, j + 1, e);
    }
  }

  lemma {:induction false} RequestsAre(c: Ctx, echos: map<nat, Bytes>, j: nat, e: Env)
    ensures e in Requests(c, echos, j) <==> e == Envelope(REQUEST, c.id, e.dest) && j <= e.dest < c.p.n && e.dest in echos
    decreases c.p.n - j
  {
    if j < c.p.n {
      RequestsAre(c, echos, j + 1, e);
    }
  }

  /** What a message says about its sender, w being the state of the sender once it is sent. */
  ghost predicate Honest(c: Ctx, w: VID, e: Env) {
    && e.from == c.id && e.dest < c.p.n && e.msg.Complete()
    && (e.msg.echo ==> w.ourEcho == e.msg.assoc)
    && (e.msg.respond ==> w.ourChunk == e.msg.payload)
    && (e.msg.ready ==> Speaks(w) || e.msg.disperse)
  }

  lemma HonestStays(c: Ctx, v: VID, w: VID, e: Env)
    requires Honest(c, v, e) && Kept(v, w)
    ensures Honest(c, w, e)
  {
  }

  lemma FlushHonest(c: Ctx, v: VID, e: Env)
    requires e in Flush(c, v).1
    ensures Honest(c, v, e) && !e.msg.ready && !e.msg.disperse
  {
    AnswersAre(c, v.unanswered.value, v.ourChunk.value, 0, e);
  }

  lemma IntakeHonest(c: Ctx, v: VID, from: nat, m: Msg, e: Env)
    requires m.Complete() && from < c.p.n && e in Intake(c, v, from, m).1
    ensures Honest(c, Intake(c, v, from, m).0, e) && !e.msg.ready && !e.msg.disperse
  {
  }

  lemma CancelsOnly(c: Ctx, v: VID, e: Env)
    requires e in DropRetrieval(c, v).1
    ensures e.msg == CANCEL && e.from == c.id && e.dest < c.p.n
  {
  }

  lemma ReactHonest(c: Ctx, v: VID, e: Env)
    requires c.p.Resilient() && e in React(c, v).1
    ensures Honest(c, React(c, v).0, e) && !e.msg.disperse
  {
    hide Flush, DecodePayload, DecodeAssoc, DropCore, DropRetrieval;
    var (v1, out1) := SendReady(c, v);
    var (v2, out2) := SendEcho(c, v1);
    var (v3, out3) := Flush(c, v2);
    TailKept(c, v2);
    if e in out1 + out2 {
      assert Honest(c, v2, e);
    } else if e in out3 {
      FlushHonest(c, v2, e);
    } else {
      assert e.msg == CANCEL && e.from == c.id && e.dest < c.p.n by {
        CancelsOnly(c, DecodePayload(c, DecodeAssoc(c, v3)), e);
      }
    }
  }

  lemma ReadyAmongMore(c: Ctx, a: seq<Env>, b: seq<Env>)
    requires ReadyToAll(c, b)
    ensures ReadyToAll(c, a + b)
  {
    forall d: nat | d < c.p.n
      ensures ReadyTo(c, a + b, d)
    {
      assert ReadyTo(c, b, d);
      var e :| e in b && e.from == c.id && e.dest == d && e.msg.ready;
      assert e in a + b;
    }
  }

  /** A server speaks up only when it has heard enough Echos or Readys. */
  lemma SpeaksWhenRipe(c: Ctx, v: VID)
    requires c.p.Resilient()
    requires !Speaks(v) && Speaks(React(c, v).0)
    ensures v.core.Some? && Ripe(c, v.core.value)
    ensures ReadyToAll(c, React(c, v).1)
  {
    hide Gather;
    forall d: nat | d < c.p.n
      ensures ReadyTo(c, React(c, v).1, d)
    {
      CopiesReach(c.p.n, c.id, READY, d);
      assert Envelope(READY, c.id, d) in SendReady(c, v).1;
    }
  }

  /** A Ready goes to all servers. */
  lemma ReadyIsBroadcast(c: Ctx, v: VID, act: Act, e: Env)
    requires c.p.Resilient() && c.id < c.p.n && Enabled(c, v, act)
    requires e in Do(c, v, act).1 && e.msg.ready
    ensures ReadyToAll(c, Do(c, v, act).1)
  {
    hide Intake, React, Flush, Requests;
    match act
    case Hear(from, m) =>
      var v1 := Intake(c, v, from, m).0;
      if e in Intake(c, v, from, m).1 {
        IntakeHonest(c, v, from, m, e);
      }
      ReadyOfReact(c, v1, e);
      ReadyAmongMore(c, Intake(c, v, from, m).1, React(c, v1).1);
    case Release => FlushHonest(c, v.(canRelease := true), e);
    case Request => RequestsAre(c, v.core.value.echos, 0, e);
    case Begin(x, y) =>
      var out := Disperse(c, v, x, y).1;
      forall d: nat | d < c.p.n
        ensures ReadyTo(c, out, d)
      {
        assert out[d] in out && out[d].dest == d;
      }
  }

  lemma ReadyOfReact(c: Ctx, v: VID, e: Env)
    requires c.p.Resilient() && e in React(c, v).1 && e.msg.ready
    ensures ReadyToAll(c, React(c, v).1)
  {
    hide Gather, Answers;
    var (v1, out1) := SendReady(c, v);
    var (v2, out2) := SendEcho(c, v1);
    if e in Flush(c, v2).1 {
      FlushHonest(c, v2, e);
    }
    assert e in out1;
    forall d: nat | d < c.p.n
      ensures ReadyTo(c, React(c, v).1, d)
    {
      CopiesReach(c.p.n, c.id, READY, d);
    }
  }

  /** Every message of a step is honest about the state after it; only Begin disperses. */
  lemma DoHonest(c: Ctx, v: VID, act: Act, e: Env)
    requires Ok(c, v) && Enabled(c, v, act) && e in Do(c, v, act).1
    ensures Honest(c, Do(c, v, act).0, e)
    ensures e.msg.disperse ==> act.Begin?
  {
    hide Intake, React, Flush, Settled;
    match act
    case Hear(from, m) =>
      var v1 := Intake(c, v, from, m).0;
      if e in Intake(c, v, from, m).1 {
        IntakeHonest(c, v, from, m, e);
        ReactKept(c, v1);
        HonestStays(c, v1, React(c, v1).0, e);
      } else {
        ReactHonest(c, v1, e);
      }
    case Release =>
      FlushHonest(c, v.(canRelease := true), e);
      FlushKept(c, v.(canRelease := true));
    case Request => RequestsAre(c, v.core.value.echos, 0, e);
    case Begin(x, y) =>
  }

  lemma FlushKept(c: Ctx, v: VID)
    ensures Kept(v, Flush(c, v).0)
  {
  }

  /** From v to u, Readys of rs have been heard and at most the Echos of es, besides the own one. */
  ghost predicate HeardMore(c: Ctx, v: VID, u: VID, rs: set<nat>, es: set<nat>) {
    && (u.core.Some? <==> v.core.Some?)
    && (u.core.Some? ==>
          && u.core.value.sentReady == v.core.value.sentReady
          && u.core.value.readys == v.core.value.readys + rs
          && u.core.value.echos.Keys <= v.core.value.echos.Keys + es + (if u.ourEcho.Some? then {c.id} else {}))
  }

  lemma DisperseAdds(c: Ctx, v: VID, from: nat, chunk: Bytes, ad: Bytes)
    ensures HeardMore(c, v, OnDisperse(c, v, from, chunk, ad), {}, {})
    ensures v.ourEcho.Some? ==> OnDisperse(c, v, from, chunk, ad).ourEcho.Some?
  {
  }

  lemma EchoAdds(c: Ctx, v: VID, from: nat, ad: Bytes)
    ensures HeardMore(c, v, OnEcho(v, from, ad), {}, {from})
    ensures v.ourEcho == OnEcho(v, from, ad).ourEcho
  {
  }

  lemma ReadyAdds(c: Ctx, v: VID, from: nat)
    ensures HeardMore(c, v, OnReady(v, from), {from}, {})
    ensures v.ourEcho == OnReady(v, from).ourEcho
  {
  }

  lemma NothingAdds(c: Ctx, v: VID, u: VID)
    requires v.core == u.core && v.ourEcho == u.ourEcho
    ensures HeardMore(c, v, u, {}, {})
  {
  }

  lemma HeardTogether(c: Ctx, v: VID, u: VID, w: VID, rs: set<nat>, es: set<nat>, rs': set<nat>, es': set<nat>)
    requires HeardMore(c, v, u, rs, es) && HeardMore(c, u, w, rs', es') && (u.ourEcho.Some? ==> w.ourEcho.Some?)
    ensures HeardMore(c, v, w, rs + rs', es + es')
  {
  }

  /** The Echos and Readys that a message adds. */
  lemma IntakeAdds(c: Ctx, v: VID, from: nat, m: Msg)
    requires m.Complete()
    ensures HeardMore(c, v, Intake(c, v, from, m).0, if m.ready then {from} else {}, if m.echo then {from} else {})
  {
    hide HeardMore, OnEcho, OnReady, OnDisperse;
    var es: set<nat>, rs: set<nat> := if m.echo then {from} else {}, if m.ready then {from} else {};
    var v1 := if m.echo then OnEcho(v, from, m.assoc.value) else v;
    if m.echo {
      EchoAdds(c, v, from, m.assoc.value);
    } else {
      NothingAdds(c, v, v1);
    }
    var v2 := if m.ready then OnReady(v1, from) else v1;
    if m.ready {
      ReadyAdds(c, v1, from);
    } else {
      NothingAdds(c, v1, v2);
    }
    HeardTogether(c, v, v1, v2, {}, es, rs, {});
    var v3 := if m.disperse then OnDisperse(c, v2, from, m.payload.value, m.assoc.value) else v2;
    if m.disperse {
      DisperseAdds(c, v2, from, m.payload.value, m.assoc.value);
    } else {
      NothingAdds(c, v2, v3);
    }
    HeardTogether(c, v, v2, v3, {} + rs, es + {}, {}, {});
    NothingAdds(c, v3, Intake(c, v, from, m).0);
    HeardTogether(c, v, v3, Intake(c, v, from, m).0, {} + rs + {}, es + {} + {}, {}, {});
    assert {} + rs + {} + {} == rs && es + {} + {} + {} == es;
  }

  lemma FlushLeaves(c: Ctx, u: VID)
    ensures Flush(c, u).0 == u.(unanswered := Flush(c, u).0.unanswered)
  {
  }

  lemma SendLeaves(c: Ctx, u: VID)
    ensures var v := SendEcho(c, SendReady(c, u).0).0;
            && (u.core.Some? <==> v.core.Some?)
            && (u.core.Some? ==> v.core.value.readys == u.core.value.readys && v.core.value.echos == u.core.value.echos)
  {
  }

  lemma DropLeaves(c: Ctx, u: VID)
    requires c.p.Resilient()
    ensures var w := DropCore(c, DropRetrieval(c, DecodePayload(c, DecodeAssoc(c, u))).0);
            w.core == u.core || (w.core.None? && PayloadDispersed(c, u))
  {
    hide Gather;
  }

  /** React leaves the Echos and Readys as they are, and drops the core only on 2F+1 Readys. */
  lemma ReactLeaves(c: Ctx, u: VID)
    requires c.p.Resilient()
    ensures var w := React(c, u).0;
            && (w.core.Some? ==> u.core.Some? && w.core.value.readys == u.core.value.readys && w.core.value.echos == u.core.value.echos)
            && (w.core.None? ==> PayloadDispersed(c, u))
  {
    hide SendReady, SendEcho, Flush, DecodePayload, DecodeAssoc, DropRetrieval, DropCore;
    var v := SendEcho(c, SendReady(c, u).0).0;
    SendLeaves(c, u);
    FlushLeaves(c, v);
    DropLeaves(c, Flush(c, v).0);
  }

  /** A recorded request stays recorded or is answered. */
  lemma FlushAnswers(c: Ctx, v: VID, r: nat)
    requires v.unanswered.Some? && r in v.unanswered.value && r < c.p.n
    ensures Answered(c, Flush(c, v).0, Flush(c, v).1, r)
  {
    if v.canRelease && v.ourChunk.Some? {
      AnswersAre(c, v.unanswered.value, v.ourChunk.value, 0, Envelope(RespondMsg(v.ourChunk.value), c.id, r));
    }
  }

  /** The request of server r is on record, or the answer to it goes out. */
  ghost predicate Answered(c: Ctx, w: VID, out: seq<Env>, r: nat) {
    || (w.unanswered.Some? && r in w.unanswered.value)
    || (w.ourChunk.Some? && Envelope(RespondMsg(w.ourChunk.value), c.id, r) in out)
  }

  lemma CountAppend<T>(a: seq<T>, b: seq<T>, x: T)
    ensures multiset(a + b)[x] == multiset(a)[x] + multiset(b)[x]
  {
    assert multiset(a + b) == multiset(a) + multiset(b);
  }

  /** The answer to server j, if it waits. */
  function AnswerTo(c: Ctx, waiting: set<nat>, chunk: Bytes, j: nat): seq<Env> {
    if j in waiting then [Envelope(RespondMsg(chunk), c.id, j)] else []
  }

  lemma AnswersUnfold(c: Ctx, waiting: set<nat>, chunk: Bytes, j: nat)
    ensures Answers(c, waiting, chunk, j)
            == if j < c.p.n then AnswerTo(c, waiting, chunk, j) + Answers(c, waiting, chunk, j + 1) else []
  {
  }

  lemma CountAnswer(c: Ctx, waiting: set<nat>, chunk: Bytes, j: nat, r: nat)
    ensures multiset(AnswerTo(c, waiting, chunk, j))[Envelope(RespondMsg(chunk), c.id, r)] == if r in waiting && r == j then 1 else 0
  {
    hide RespondMsg;
  }

  /** Each recorded request is answered exactly once, and nobody else is. */
  lemma {:induction false} AnsweredOnce(c: Ctx, waiting: set<nat>, chunk: Bytes, j: nat, r: nat)
    ensures multiset(Answers(c, waiting, chunk, j))[Envelope(RespondMsg(chunk), c.id, r)]
            == if r in waiting && j <= r < c.p.n then 1 else 0
    decreases c.p.n - j
  {
    hide Answers, AnswerTo, RespondMsg;
    AnswersUnfold(c, waiting, chunk, j);
    if j < c.p.n {
      AnsweredOnce(c, waiting, chunk, j + 1, r);
      CountAnswer(c, waiting, chunk, j, r);
      CountAppend(AnswerTo(c, waiting, chunk, j), Answers(c, waiting, chunk, j + 1), Envelope(RespondMsg(chunk), c.id, r));
    }
  }

  /** The handlers before the one of requests leave the record alone. */
  lemma IntakeEndsWithRequest(c: Ctx, v: VID, from: nat, m: Msg) returns (u: VID, out: seq<Env>)
    requires m.Complete()
    ensures u.unanswered == v.unanswered && u.canRelease == v.canRelease
    ensures m.request ==> Intake(c, v, from, m) == (OnRequest(c, u, from).0, out + OnRequest(c, u, from).1)
    ensures !m.request ==> Intake(c, v, from, m) == (u, out)
  {
    hide OnRequest;
    var v1 := if m.echo then OnEcho(v, from, m.assoc.value) else v;
    out := if m.echo then Prompted(c, v1, from) else [];
    var v2 := if m.ready then OnReady(v1, from) else v1;
    var v3 := if m.disperse then OnDisperse(c, v2, from, m.payload.value, m.assoc.value) else v2;
    u := if m.respond then OnRespond(v3, from, m.payload.value) else v3;
    assert out + [] == out;
  }

  lemma IntakeRecords(c: Ctx, v: VID, from: nat, m: Msg, r: nat)
    requires Ok(c, v) && Genuine(c, v, from, m)
    requires (v.unanswered.Some? && r in v.unanswered.value) || (m.request && from == r)
    ensures var (u, out) := Intake(c, v, from, m);
            Answered(c, u, out, r)
  {
    hide Intake, Settled;
    var u, out := IntakeEndsWithRequest(c, v, from, m);
    IntakeKeeps(c, v, from, m);
  }

  lemma ReactAnswers(c: Ctx, u: VID, r: nat)
    requires c.p.Resilient() && r < c.p.n && u.unanswered.Some? && r in u.unanswered.value
    ensures Answered(c, React(c, u).0, React(c, u).1, r)
  {
    hide Flush, Gather;
    var (v1, out1) := SendReady(c, u);
    var (v2, out2) := SendEcho(c, v1);
    FlushAnswers(c, v2, r);
  }

  /** No chunk request is lost: it stays recorded until it is answered. */
  lemma DoAnswers(c: Ctx, v: VID, act: Act, r: nat)
    requires Ok(c, v) && Enabled(c, v, act)
    requires (v.unanswered.Some? && r in v.unanswered.value) || (act.Hear? && act.m.request && act.from == r)
    ensures Answered(c, Do(c, v, act).0, Do(c, v, act).1, r)
  {
    hide Intake, React, Flush, Settled;
    match act
    case Hear(from, m) =>
      IntakeRecords(c, v, from, m, r);
      var u := Intake(c, v, from, m).0;
      ReactKept(c, u);
      if u.unanswered.Some? && r in u.unanswered.value {
        ReactAnswers(c, u, r);
      }
    case Release =>
      if !v.canRelease {
        FlushAnswers(c, v.(canRelease := true), r);
      }
    case _ =>
  }
}
