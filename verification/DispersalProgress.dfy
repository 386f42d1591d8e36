/**
 What a VID owes to the others, in every state of every run: whatever its state calls for is on the wire, and whatever
 it has handled is on record. So once all messages have been handled, whoever asks for the payload has it.
 */
module DispersalProgress {
  import opened Common
  import opened Dispersal
  import opened DispersalInvariant
  import opened DispersalStep
  import opened DispersalNetwork
  import opened DispersalRuns

  /** What is on record stays as it is, for as long as the record is there. */
  ghost predicate Files(v: VID, w: VID) {
    && (w.core.Some? ==> v.core.Some? && Extended(v.core.value.echos, w.core.value.echos))
    && (w.retrieval.Some? ==> v.retrieval.Some? && Extended(v.retrieval.value.chunks, w.retrieval.value.chunks))
    && (w.retrieval.Some? && v.retrieval.value.scheduled ==> w.retrieval.value.scheduled)
    && (v.payload.Some? ==> w.payload.Some?)
    && (v.assoc.Some? ==> w.assoc.Some?)
  }

  ghost predicate Extended(a: map<nat, Bytes>, b: map<nat, Bytes>) {
    forall j :: j in a ==> j in b && b[j] == a[j]
  }

  lemma FilesMore(u: VID, v: VID, w: VID)
    requires Files(u, v) && Files(v, w)
    ensures Files(u, w)
  {
  }

  lemma FilesSame(v: VID)
    ensures Files(v, v)
  {
  }

  lemma EchoFiles(v: VID, from: nat, ad: Bytes)
    ensures var w := OnEcho(v, from, ad);
            && Files(v, w) && (w.core.Some? ==> from in w.core.value.echos)
            && (v.core.Some? && w.core.Some? && from !in v.core.value.echos ==> w.core.value.echos[from] == ad)
  {
  }

  lemma ReadyFiles(v: VID, from: nat)
    ensures Files(v, OnReady(v, from))
  {
  }

  lemma RespondFiles(v: VID, from: nat, chunk: Bytes)
    ensures var w := OnRespond(v, from, chunk);
            && Files(v, w) && (w.retrieval.Some? ==> from in w.retrieval.value.chunks)
            && (v.retrieval.Some? && w.retrieval.Some? && from !in v.retrieval.value.chunks ==> w.retrieval.value.chunks[from] == chunk)
  {
  }

  lemma RequestFiles(c: Ctx, v: VID, from: nat)
    ensures Files(v, OnRequest(c, v, from).0)
  {
  }

  /** The own slots are empty as long as the initiator has not been heard. */
  predicate OwnEmpty(c: Ctx, v: VID) {
    && (v.retrieval.Some? && v.ourChunk.None? ==> c.id !in v.retrieval.value.chunks)
    && (v.core.Some? && v.ourEcho.None? ==> c.id !in v.core.value.echos)
  }

  lemma DisperseFiles(c: Ctx, v: VID, from: nat, chunk: Bytes, ad: Bytes)
    requires OwnEmpty(c, v)
    ensures var w := OnDisperse(c, v, from, chunk, ad);
            Files(v, w) && (from == c.initID && w.core.Some? ==> w.ourChunk.Some? && w.ourEcho.Some?)
  {
  }

  lemma ReadyLeavesOwn(c: Ctx, v: VID, from: nat)
    requires OwnEmpty(c, v)
    ensures OwnEmpty(c, OnReady(v, from))
  {
  }

  lemma ShapeOwnEmpty(c: Ctx, v: VID)
    requires Shape(c, v)
    ensures OwnEmpty(c, v)
  {
  }

  /** The states between the handlers of a message. */
  lemma IntakeStages(c: Ctx, v: VID, from: nat, m: Msg) returns (v1: VID, v2: VID, v3: VID, v4: VID)
    requires Shape(c, v) && m.Complete()
    ensures v1 == (if m.echo then OnEcho(v, from, m.assoc.value) else v) && v2 == (if m.ready then OnReady(v1, from) else v1)
    ensures v3 == if m.disperse then OnDisperse(c, v2, from, m.payload.value, m.assoc.value) else v2
    ensures v4 == if m.respond then OnRespond(v3, from, m.payload.value) else v3
    ensures Intake(c, v, from, m).0 == if m.request then OnRequest(c, v4, from).0 else v4
    ensures Files(v, v1) && Files(v1, v2) && Files(v2, v3) && Files(v3, v4) && Files(v4, Intake(c, v, from, m).0)
    ensures m.disperse ==> OwnEmpty(c, v2)
  {
    hide OnEcho, OnReady, OnDisperse, OnRespond, OnRequest, Prompted, Shape, Files, OwnEmpty;
    v1 := if m.echo then OnEcho(v, from, m.assoc.value) else v;
    v2 := if m.ready then OnReady(v1, from) else v1;
    v3 := if m.disperse then OnDisperse(c, v2, from, m.payload.value, m.assoc.value) else v2;
    v4 := if m.respond then OnRespond(v3, from, m.payload.value) else v3;
    ShapeOwnEmpty(c, v);
    FilesSame(v);
    FilesSame(v1);
    FilesSame(v2);
    FilesSame(v3);
    FilesSame(v4);
    if m.echo {
      EchoFiles(v, from, m.assoc.value);
    } else {
      ReadyLeavesOwn(c, v, from);
    }
    ReadyFiles(v1, from);
    if m.disperse {
      DisperseFiles(c, v2, from, m.payload.value, m.assoc.value);
    }
    if m.respond {
      RespondFiles(v3, from, m.payload.value);
    }
    RequestFiles(c, v4, from);
  }

  lemma IntakeFiles(c: Ctx, v: VID, from: nat, m: Msg)
    requires Shape(c, v) && m.Complete()
    ensures Files(v, Intake(c, v, from, m).0)
  {
    hide OnEcho, OnReady, OnDisperse, OnRespond, OnRequest, Intake, Shape, Files;
    var v1, v2, v3, v4 := IntakeStages(c, v, from, m);
    FilesMore(v, v1, v2);
    FilesMore(v, v2, v3);
    FilesMore(v, v3, v4);
    FilesMore(v, v4, Intake(c, v, from, m).0);
  }

  lemma ReactFiles(c: Ctx, v: VID)
    requires c.p.Resilient()
    ensures Files(v, React(c, v).0)
  {
    hide Files, SendReady, SendEcho, Flush, DecodePayload, DecodeAssoc, DropRetrieval, DropCore;
    var u := Spoken(c, v);
    SpeakingFiles(c, v);
    DecodingFiles(c, u);
    FilesMore(v, u, React(c, v).0);
  }

  lemma SpeakingFiles(c: Ctx, v: VID)
    ensures Files(v, Spoken(c, v))
  {
    hide Answers, Copies;
  }

  lemma DecodingFiles(c: Ctx, v: VID)
    requires c.p.Resilient()
    ensures Files(v, DropCore(c, DropRetrieval(c, DecodePayload(c, DecodeAssoc(c, v))).0))
  {
    hide Gather, Copies;
  }

  lemma DoFiles(c: Ctx, v: VID, act: Act)
    requires Ok(c, v) && Possible(c, act)
    ensures Files(v, Do(c, v, act).0)
  {
    hide Intake, React, Answers, Settled, Files;
    match act
    case Hear(from, m) =>
      IntakeFiles(c, v, from, m);
      ReactFiles(c, Intake(c, v, from, m).0);
      FilesMore(v, Intake(c, v, from, m).0, React(c, Intake(c, v, from, m).0).0);
    case _ => OthersFile(c, v, act);
  }

  lemma OthersFile(c: Ctx, v: VID, act: Act)
    requires c.p.Resilient() && Possible(c, act) && !act.Hear?
    ensures Files(v, Do(c, v, act).0)
  {
    hide Answers, Requests;
  }

  /** The message has been taken in: an Echo or a response is on record while the record is there, and after the
      dispersal of the initiator the own chunks are stored. */
  ghost predicate Recorded(c: Ctx, w: VID, from: nat, m: Msg) {
    && (m.echo ==> w.core.None? || from in w.core.value.echos)
    && (m.respond ==> w.retrieval.None? || from in w.retrieval.value.chunks)
    && (m.disperse && from == c.initID ==> w.core.None? || (w.ourChunk.Some? && w.ourEcho.Some?))
  }

  lemma RecordStays(c: Ctx, v: VID, w: VID, from: nat, m: Msg)
    requires Files(v, w) && Kept(v, w) && Recorded(c, v, from, m)
    ensures Recorded(c, w, from, m)
  {
  }

  lemma IntakeTakesIn(c: Ctx, v: VID, from: nat, m: Msg)
    requires Shape(c, v) && m.Complete()
    ensures Recorded(c, Intake(c, v, from, m).0, from, m)
  {
    hide OnEcho, OnReady, OnDisperse, OnRespond, OnRequest, Intake, Shape;
    var v1, v2, v3, v4 := IntakeStages(c, v, from, m);
    if m.echo {
      EchoFiles(v, from, m.assoc.value);
    }
    if m.respond {
      RespondFiles(v3, from, m.payload.value);
    }
    if m.disperse {
      DisperseFiles(c, v2, from, m.payload.value, m.assoc.value);
      RequestKeepsOwn(c, v3, from);
    }
  }

  lemma RequestKeepsOwn(c: Ctx, v: VID, from: nat)
    ensures var w := OnRequest(c, v, from).0;
            w.ourChunk == v.ourChunk && w.ourEcho == v.ourEcho && w.core == v.core
  {
  }

  lemma HearRecords(c: Ctx, v: VID, from: nat, m: Msg)
    requires Ok(c, v) && m.Complete()
    ensures Recorded(c, Recv(c, v, from, m).0, from, m)
  {
    hide Intake, React, Settled, Recorded, Files, Kept;
    var u := Intake(c, v, from, m).0;
    IntakeTakesIn(c, v, from, m);
    ReactFiles(c, u);
    ReactKept(c, u);
    RecordStays(c, u, React(c, u).0, from, m);
  }

  /** A message that is the first of its kind from its sender is what counts. */
  ghost predicate Counts(v: VID, w: VID, from: nat, m: Msg)
    requires m.Complete()
  {
    && (m.respond && v.retrieval.Some? && w.retrieval.Some? && from !in v.retrieval.value.chunks
        ==> from in w.retrieval.value.chunks && w.retrieval.value.chunks[from] == m.payload.value)
    && (m.echo && v.core.Some? && w.core.Some? && from !in v.core.value.echos
        ==> from in w.core.value.echos && w.core.value.echos[from] == m.assoc.value)
  }

  lemma IntakeCounts(c: Ctx, v: VID, from: nat, m: Msg)
    requires Shape(c, v) && m.Complete()
    ensures Counts(v, Intake(c, v, from, m).0, from, m)
  {
    hide OnEcho, OnReady, OnDisperse, OnRespond, OnRequest, Intake, Shape;
    var v1, v2, v3, v4 := IntakeStages(c, v, from, m);
    if m.echo {
      EchoFiles(v, from, m.assoc.value);
    }
    if m.respond {
      RespondFiles(v3, from, m.payload.value);
      EarlierLeaveChunks(c, v, from, m);
    }
  }

  /** A response comes before any other change of the chunks. */
  lemma EarlierLeaveChunks(c: Ctx, v: VID, from: nat, m: Msg)
    requires m.Complete() && m.respond
    ensures var v1 := if m.echo then OnEcho(v, from, m.assoc.value) else v;
            (if m.ready then OnReady(v1, from) else v1).retrieval == v.retrieval
  {
  }

  lemma FirstCounts(c: Ctx, v: VID, from: nat, m: Msg)
    requires Ok(c, v) && m.Complete()
    ensures Counts(v, Recv(c, v, from, m).0, from, m)
  {
    hide Intake, React, Settled, Shape;
    IntakeCounts(c, v, from, m);
    ReactFiles(c, Intake(c, v, from, m).0);
  }

  ghost predicate ToAll(n: nat, sent: set<Env>, q: nat, m: Msg) {
    forall d: nat :: d < n ==> Envelope(m, q, d) in sent
  }

  lemma CopiesToAll(n: nat, q: nat, m: Msg, out: seq<Env>, a: seq<Env>, b: seq<Env>)
    requires out == a + Copies(n, q, m) + b
    ensures ToAll(n, (set e | e in out), q, m)
  {
    forall d: nat | d < n
      ensures Envelope(m, q, d) in out
    {
      CopiesReach(n, q, m, d);
    }
  }

  /** What a state calls for goes out with the step that leads to it. */
  ghost predicate Utters(c: Ctx, v: VID, w: VID, sent: set<Env>) {
    && (w.ourEcho.Some? ==> v.ourEcho == w.ourEcho || ToAll(c.p.n, sent, c.id, EchoMsg(w.ourEcho.value)))
    && (w.canceled ==> v.canceled || ToAll(c.p.n, sent, c.id, CANCEL))
  }

  /** The own Echo chunk is stored by a Disperse, and goes out at once. */
  lemma ReactEchoes(c: Ctx, v: VID)
    requires c.p.Resilient() && v.core.Some? && !v.core.value.sentEcho && v.ourChunk.Some? && v.ourEcho.Some?
    ensures ToAll(c.p.n, (set e | e in React(c, v).1), c.id, EchoMsg(v.ourEcho.value))
  {
    hide Flush, DecodePayload, DecodeAssoc, DropRetrieval, DropCore, Copies;
    var (v1, out1) := SendReady(c, v);
    var (v2, out2) := SendEcho(c, v1);
    var (v3, out3) := Flush(c, v2);
    var out5 := DropRetrieval(c, DecodePayload(c, DecodeAssoc(c, v3))).1;
    assert out2 == Copies(c.p.n, c.id, EchoMsg(v.ourEcho.value));
    assert React(c, v).1 == out1 + out2 + (out3 + out5);
    CopiesToAll(c.p.n, c.id, EchoMsg(v.ourEcho.value), React(c, v).1, out1, out3 + out5);
  }

  lemma ReactCancels(c: Ctx, v: VID)
    requires c.p.Resilient() && !v.canceled && React(c, v).0.canceled
    ensures ToAll(c.p.n, (set e | e in React(c, v).1), c.id, CANCEL)
  {
    hide Gather, Answers, Copies;
    var (v1, out1) := SendReady(c, v);
    var (v2, out2) := SendEcho(c, v1);
    var (v3, out3) := Flush(c, v2);
    assert DropRetrieval(c, DecodePayload(c, DecodeAssoc(c, v3))).1 == Copies(c.p.n, c.id, CANCEL);
    assert React(c, v).1 == out1 + out2 + out3 + Copies(c.p.n, c.id, CANCEL) + [];
    CopiesToAll(c.p.n, c.id, CANCEL, React(c, v).1, out1 + out2 + out3, []);
  }

  lemma ToAllMore(n: nat, sent: set<Env>, more: set<Env>, q: nat, m: Msg)
    requires ToAll(n, sent, q, m) && sent <= more
    ensures ToAll(n, more, q, m)
  {
  }

  /** The Cancel, the own chunks and the mark of the Echo as a message is taken in. */
  ghost predicate Quietly(v: VID, u: VID) {
    && u.canceled == v.canceled && ((v.ourEcho.Some? <==> v.ourChunk.Some?) ==> (u.ourEcho.Some? <==> u.ourChunk.Some?))
    && (u.core.Some? <==> v.core.Some?) && (u.core.Some? ==> u.core.value.sentEcho == v.core.value.sentEcho)
    && (u.ourEcho == v.ourEcho || (v.ourEcho.None? && v.core.Some?))
  }

  lemma HandlersAreQuiet(c: Ctx, v: VID, from: nat, chunk: Bytes, ad: Bytes)
    ensures Quietly(v, OnEcho(v, from, ad)) && Quietly(v, OnReady(v, from)) && Quietly(v, OnDisperse(c, v, from, chunk, ad))
    ensures Quietly(v, OnRespond(v, from, chunk)) && Quietly(v, OnRequest(c, v, from).0)
  {
  }

  lemma IntakeUtters(c: Ctx, v: VID, from: nat, m: Msg)
    requires Shape(c, v) && m.Complete()
    ensures Quietly(v, Intake(c, v, from, m).0)
  {
    hide OnEcho, OnReady, OnDisperse, OnRespond, OnRequest, Intake, Shape, Files;
    var chunk, ad := if m.payload.Some? then m.payload.value else [], if m.assoc.Some? then m.assoc.value else [];
    var v1, v2, v3, v4 := IntakeStages(c, v, from, m);
    HandlersAreQuiet(c, v, from, chunk, ad);
    HandlersAreQuiet(c, v1, from, chunk, ad);
    HandlersAreQuiet(c, v2, from, chunk, ad);
    HandlersAreQuiet(c, v3, from, chunk, ad);
    HandlersAreQuiet(c, v4, from, chunk, ad);
  }

  lemma HearUtters(c: Ctx, v: VID, from: nat, m: Msg)
    requires Ok(c, v) && m.Complete()
    ensures Utters(c, v, Recv(c, v, from, m).0, set e | e in Recv(c, v, from, m).1)
  {
    hide Intake, React, Settled, ToAll;
    var (u, out1) := Intake(c, v, from, m);
    var (w, out2) := React(c, u);
    var a, b := (set e | e in out2), (set e | e in out1 + out2);
    IntakeUtters(c, v, from, m);
    ReactKept(c, u);
    if u.ourEcho != v.ourEcho {
      ReactEchoes(c, u);
      ToAllMore(c.p.n, a, b, c.id, EchoMsg(u.ourEcho.value));
    }
    if w.canceled && !v.canceled {
      ReactCancels(c, u);
      ToAllMore(c.p.n, a, b, c.id, CANCEL);
    }
  }

  lemma DoUtters(c: Ctx, v: VID, act: Act)
    requires Ok(c, v) && Possible(c, act)
    ensures Utters(c, v, Do(c, v, act).0, set e | e in Do(c, v, act).1)
  {
    hide Recv, Settled, ToAll, Answers, Requests;
    if act.Hear? {
      HearUtters(c, v, act.from, act.m);
    }
  }

  /** The payload has been asked for and is not there yet. */
  predicate Wants(v: VID) {
    v.payload.None? && v.retrieval.Some? && v.retrieval.value.scheduled
  }

  /** Who starts to want the payload asks all whose Echo is there, and who wants it asks the sender of an Echo. */
  lemma WantingAsks(c: Ctx, v: VID, act: Act, r: nat)
    requires Ok(c, v) && Possible(c, act) && Wants(Do(c, v, act).0) && r < c.p.n
    requires (!Wants(v) && v.core.Some? && r in v.core.value.echos) || (act.Hear? && act.m.echo && act.from == r)
    ensures Envelope(REQUEST, c.id, r) in Do(c, v, act).1
  {
    hide Intake, React, Settled, Answers, Requests;
    match act
    case Hear(from, m) =>
      IntakePrompts(c, v, from, m);
      ReactWants(c, Intake(c, v, from, m).0);
    case Request => RequestsAre(c, v.core.value.echos, 0, Envelope(REQUEST, c.id, r));
    case _ =>
  }

  lemma IntakePrompts(c: Ctx, v: VID, from: nat, m: Msg)
    requires m.Complete()
    ensures Wants(v) <==> Wants(Intake(c, v, from, m).0)
    ensures Wants(v) && m.echo ==> Envelope(REQUEST, c.id, from) in Intake(c, v, from, m).1
  {
  }

  lemma ReactWants(c: Ctx, u: VID)
    requires c.p.Resilient() && Wants(React(c, u).0)
    ensures Wants(u)
  {
    hide Answers, Copies, Gather;
  }

  /** Nothing is said without reason, nor an Echo, a Ready or a Cancel twice. */
  ghost predicate Meant(c: Ctx, v: VID, w: VID, act: Act, e: Env) {
    && (e.msg.echo ==> v.ourEcho.None?)
    && (e.msg.ready && !act.Begin? ==> !Speaks(v))
    && (e.msg.cancel ==> !v.canceled && w.canceled)
    && (e.msg.respond ==> w.canRelease)
    && (e.msg.request ==>
          if act.Hear? then Wants(v) && act.m.echo && e.dest == act.from
          else act.Request? && !Wants(v) && Wants(w) && v.core.Some? && e.dest in v.core.value.echos)
  }

  lemma IntakeMeans(c: Ctx, v: VID, from: nat, m: Msg, e: Env)
    requires m.Complete() && e in Intake(c, v, from, m).1
    ensures !e.msg.echo && !e.msg.ready && !e.msg.cancel && (e.msg.respond ==> v.canRelease)
    ensures e.msg.request ==> Wants(v) && m.echo && e.dest == from
  {
  }

  lemma FlushMeans(c: Ctx, v: VID, e: Env)
    requires e in Flush(c, v).1
    ensures !e.msg.echo && !e.msg.ready && !e.msg.cancel && !e.msg.request && v.canRelease
  {
    AnswersAre(c, v.unanswered.value, v.ourChunk.value, 0, e);
  }

  lemma SpokenKeeps(c: Ctx, v: VID)
    ensures var u := SendEcho(c, SendReady(c, v).0).0;
            u.canRelease == v.canRelease && u.canceled == v.canceled && Flush(c, u).0.canceled == v.canceled
  {
    hide Copies, Answers;
  }

  lemma ReactMeans(c: Ctx, v: VID, e: Env)
    requires c.p.Resilient() && e in React(c, v).1
    ensures !e.msg.request && (e.msg.respond ==> v.canRelease)
    ensures e.msg.echo ==> v.core.Some? && !v.core.value.sentEcho && v.ourEcho.Some?
    ensures e.msg.ready ==> !Speaks(v)
    ensures e.msg.cancel ==> !v.canceled && React(c, v).0.canceled
  {
    hide Flush, Gather;
    var (v1, out1) := SendReady(c, v);
    var (v2, out2) := SendEcho(c, v1);
    var (v3, out3) := Flush(c, v2);
    SpokenKeeps(c, v);
    if e in out3 {
      FlushMeans(c, v2, e);
    } else if e !in out1 && e !in out2 {
      CancelsOnly(c, DecodePayload(c, DecodeAssoc(c, v3)), e);
    }
  }

  lemma HearMeans(c: Ctx, v: VID, from: nat, m: Msg, e: Env)
    requires Ok(c, v) && m.Complete() && e in Recv(c, v, from, m).1
    ensures Meant(c, v, Recv(c, v, from, m).0, Hear(from, m), e)
  {
    hide Intake, React, Kept, Settled;
    var u := Intake(c, v, from, m).0;
    IntakeUtters(c, v, from, m);
    IntakeAdds(c, v, from, m);
    IntakeReleases(c, v, from, m);
    ReactReleases(c, u);
    if e in Intake(c, v, from, m).1 {
      IntakeMeans(c, v, from, m, e);
    } else {
      ReactMeans(c, u, e);
      EchoedBefore(c, v);
    }
  }

  lemma IntakeReleases(c: Ctx, v: VID, from: nat, m: Msg)
    requires m.Complete()
    ensures Intake(c, v, from, m).0.canRelease == v.canRelease
  {
  }

  lemma ReactReleases(c: Ctx, v: VID)
    requires c.p.Resilient()
    ensures React(c, v).0.canRelease == v.canRelease
  {
    hide Copies, Answers, Gather;
  }

  /** Who holds the own Echo chunk between steps has sent its Echo. */
  lemma EchoedBefore(c: Ctx, v: VID)
    requires Ok(c, v)
    ensures v.core.Some? && v.ourEcho.Some? ==> v.core.value.sentEcho
  {
    hide Shape;
  }

  lemma DoMeans(c: Ctx, v: VID, act: Act, e: Env)
    requires Ok(c, v) && Possible(c, act) && e in Do(c, v, act).1
    ensures Meant(c, v, Do(c, v, act).0, act, e)
  {
    hide Recv, Flush, Settled, Requests;
    match act
    case Hear(from, m) => HearMeans(c, v, from, m, e);
    case Release =>
      FlushMeans(c, v.(canRelease := true), e);
      FlushLeaves(c, v.(canRelease := true));
    case Request => RequestsAre(c, v.core.value.echos, 0, e);
    case Begin(x, y) =>
  }

  /** Whatever the state of a correct server calls for is on the wire. */
  ghost predicate WireOk(s: System, net: Net, q: nat)
    requires |net.nodes| == s.cfg.params.n
  {
    s.Correct(q) ==>
      var v := net.nodes[q];
      && (v.ourEcho.Some? ==> ToAll(s.cfg.params.n, net.sent, q, EchoMsg(v.ourEcho.value)))
      && (v.canceled ==> ToAll(s.cfg.params.n, net.sent, q, CANCEL))
  }

  /** Whatever a correct server has handled is on record, and who has sent it an Echo is asked if it wants the payload. */
  ghost predicate TakenOk(s: System, net: Net, e: Env)
    requires |net.nodes| == s.cfg.params.n
  {
    s.Correct(e.dest) ==>
      var v := net.nodes[e.dest];
      && Recorded(s.At(e.dest), v, e.from, e.msg)
      && (e.msg.echo && Wants(v) ==> Envelope(REQUEST, e.dest, e.from) in net.sent)
  }

  /** What a correct server has sent it has reason to send: only released chunks, and requests once they are wanted. */
  ghost predicate SentOk(s: System, net: Net, e: Env)
    requires |net.nodes| == s.cfg.params.n
  {
    s.Correct(e.from) ==>
      var v := net.nodes[e.from];
      && (e.msg.respond ==> v.canRelease)
      && (e.msg.request && v.retrieval.Some? ==> v.retrieval.value.scheduled)
      && (e.msg.cancel ==> v.retrieval.None?)
  }

  ghost predicate Owed(s: System, net: Net) {
    && |net.nodes| == s.cfg.params.n
    && (forall q: nat :: WireOk(s, net, q))
    && (forall e :: e in net.sent ==> SentOk(s, net, e))
    && (forall e :: e in net.delivered ==> TakenOk(s, net, e))
  }

  lemma WireMoves(s: System, net: Net, next: Net, q: nat, act: Act, r: nat)
    requires Invariant(s, net) && Acts(s, net, next, q, act) && WireOk(s, net, r)
    ensures WireOk(s, next, r)
  {
    hide Do, Ok, ToAll, MessageOk, HandledOk, ReadySent, Founded, Vouched;
    if r == q {
      var c, v, w, out := s.At(q), net.nodes[q], Do(s.At(q), net.nodes[q], act).0, Do(s.At(q), net.nodes[q], act).1;
      var a := set e | e in out;
      assert NodeOk(s, net, q);
      DoUtters(c, v, act);
      if w.ourEcho.Some? {
        ToAllMore(c.p.n, if v.ourEcho == w.ourEcho then net.sent else a, next.sent, q, EchoMsg(w.ourEcho.value));
      }
      if w.canceled {
        ToAllMore(c.p.n, if v.canceled then net.sent else a, next.sent, q, CANCEL);
      }
    } else if s.Correct(r) {
      var v := net.nodes[r];
      if v.ourEcho.Some? {
        ToAllMore(s.cfg.params.n, net.sent, next.sent, r, EchoMsg(v.ourEcho.value));
      }
      if v.canceled {
        ToAllMore(s.cfg.params.n, net.sent, next.sent, r, CANCEL);
      }
    }
  }

  lemma TakenMoves(s: System, net: Net, next: Net, q: nat, act: Act, e: Env)
    requires Invariant(s, net) && Acts(s, net, next, q, act) && e in next.delivered
    requires e in net.delivered ==> TakenOk(s, net, e)
    ensures TakenOk(s, next, e)
  {
    hide Do, NodeOk, HandledOk, MessageOk, Recorded, Wants;
    if e.dest == q && s.Correct(q) {
      if e in net.delivered {
        OldTaken(s, net, next, q, act, e);
      } else {
        NewTaken(s, net, next, q, act);
      }
    }
  }

  lemma OldTaken(s: System, net: Net, next: Net, q: nat, act: Act, e: Env)
    requires Invariant(s, net) && Acts(s, net, next, q, act) && e in net.delivered && TakenOk(s, net, e) && e.dest == q
    ensures TakenOk(s, next, e)
  {
    hide Do, Settled, ReadySent, Founded, Vouched, Recorded, Files, Kept, Served, Wants;
    var c, v, w := s.At(q), net.nodes[q], next.nodes[q];
    assert NodeOk(s, net, q) && HandledOk(s, net, e) && MessageOk(s, net, e);
    DoKept(c, v, act);
    DoFiles(c, v, act);
    RecordStays(c, v, w, e.from, e.msg);
    if e.msg.echo && Wants(w) && !Wants(v) {
      StillCore(c, v, w);
      HasEcho(c, v, e.from, e.msg);
      WantingAsks(c, v, act, e.from);
    }
  }

  lemma NewTaken(s: System, net: Net, next: Net, q: nat, act: Act)
    requires Invariant(s, net) && Acts(s, net, next, q, act) && act.Hear?
    ensures TakenOk(s, next, Envelope(act.m, act.from, q))
  {
    hide Recv, Ok, ReadySent, Founded, Vouched, Recorded, Wants, MessageOk, HandledOk;
    var c, v := s.At(q), net.nodes[q];
    assert NodeOk(s, net, q);
    HearRecords(c, v, act.from, act.m);
    if act.m.echo && Wants(next.nodes[q]) {
      WantingAsks(c, v, act, act.from);
    }
  }

  lemma HasEcho(c: Ctx, v: VID, from: nat, m: Msg)
    requires Recorded(c, v, from, m) && m.echo && v.core.Some?
    ensures from in v.core.value.echos
  {
  }

  /** Who wants the payload has not dropped the core. */
  lemma StillCore(c: Ctx, v: VID, w: VID)
    requires Ok(c, v) && Files(v, w) && Wants(w)
    ensures v.core.Some?
  {
    hide Settled;
  }

  lemma SentMoves(s: System, net: Net, next: Net, q: nat, act: Act, e: Env)
    requires Invariant(s, net) && Acts(s, net, next, q, act) && e in next.sent && e.from == q
    requires e in net.sent ==> SentOk(s, net, e)
    requires e !in net.sent ==> e in Do(s.At(q), net.nodes[q], act).1
    ensures SentOk(s, next, e)
  {
    hide Do, Settled, ReadySent, Founded, Vouched, Extended, MessageOk, HandledOk;
    var c, v := s.At(q), net.nodes[q];
    assert NodeOk(s, net, q);
    DoFiles(c, v, act);
    DoKept(c, v, act);
    ActEnabled(s, net, q, act);
    DoKeepsOk(c, v, act);
    if e !in net.sent {
      DoMeans(c, v, act, e);
    }
  }

  lemma SentStays(s: System, net: Net, next: Net, q: nat, e: Env)
    requires |net.nodes| == |next.nodes| == s.cfg.params.n && SentOk(s, net, e) && e.from != q
    requires forall r: nat :: r < s.cfg.params.n && r != q ==> next.nodes[r] == net.nodes[r]
    ensures SentOk(s, next, e)
  {
  }

  /** What is sent in the name of a correct server it sends itself. */
  lemma SentByItself(s: System, net: Net, next: Net, q: nat, act: Act, e: Env)
    requires Invariant(s, net) && Acts(s, net, next, q, act) && e in next.sent && e !in net.sent
    ensures e.from == q && e in Do(s.At(q), net.nodes[q], act).1
  {
    hide Do, Ok, NodeOk, MessageOk, HandledOk;
    ActEnabled(s, net, q, act);
    DoHonest(s.At(q), net.nodes[q], act, e);
  }

  lemma ActKeepsOwed(s: System, net: Net, next: Net, q: nat, act: Act)
    requires Invariant(s, net) && Owed(s, net) && Acts(s, net, next, q, act)
    ensures Owed(s, next)
  {
    hide Do, NodeOk, MessageOk, HandledOk, WireOk, SentOk, TakenOk;
    forall r: nat
      ensures WireOk(s, next, r)
    {
      WireMoves(s, net, next, q, act, r);
    }
    forall e | e in next.sent
      ensures SentOk(s, next, e)
    {
      if e !in net.sent {
        SentByItself(s, net, next, q, act, e);
      }
      if e.from == q {
        SentMoves(s, net, next, q, act, e);
      } else {
        assert SentOk(s, net, e) by {
          assert e in net.sent;
        }
        SentStays(s, net, next, q, e);
      }
    }
    forall e | e in next.delivered
      ensures TakenOk(s, next, e)
    {
      TakenMoves(s, net, next, q, act, e);
    }
  }

  lemma ForgeKeepsOwed(s: System, net: Net, next: Net, e: Env)
    requires Owed(s, net) && Forges(s, net, next, e)
    ensures Owed(s, next)
  {
    hide Recorded, Wants;
    forall r: nat
      ensures WireOk(s, next, r)
    {
      assert WireOk(s, net, r);
    }
    forall f | f in next.sent
      ensures SentOk(s, next, f)
    {
      if f in net.sent {
        assert SentOk(s, net, f);
      }
    }
    forall f | f in next.delivered
      ensures TakenOk(s, next, f)
    {
      assert TakenOk(s, net, f);
    }
  }

  /** In every state of every run, correct servers have said what they owe, and have recorded what they handled. */
  lemma {:induction false} RunIsOwed(s: System, run: seq<Net>, i: nat)
    requires Run(s, run) && i < |run|
    ensures Invariant(s, run[i]) && Owed(s, run[i])
  {
    hide Step, Invariant, Owed;
    RunKeepsInvariant(s, run, i);
    if i == 0 {
      StartOwed(s);
    } else {
      RunIsOwed(s, run, i - 1);
      assert Step(s, run[i - 1], run[i]);
      StepKeepsOwed(s, run[i - 1], run[i]);
    }
  }

  lemma StartOwed(s: System)
    requires s.Valid()
    ensures Owed(s, Start(s))
  {
  }

  lemma StepKeepsOwed(s: System, net: Net, next: Net)
    requires Invariant(s, net) && Owed(s, net) && Step(s, net, next)
    ensures Owed(s, next)
  {
    hide Acts, Forges, Invariant, Owed;
    if q, act :| Acts(s, net, next, q, act) {
      ActKeepsOwed(s, net, next, q, act);
    } else {
      var e :| Forges(s, net, next, e);
      ForgeKeepsOwed(s, net, next, e);
    }
  }

  /**
   The sub-states are dropped in order: without the core there are no chunks any more, and without those the payload
   is known. A server without core has sent Ready to everybody and knows the associated object; one without chunks has sent
   a Cancel to everybody; and one that has its own chunks has sent its Echo to everybody.
   */
  lemma DroppedInOrder(s: System, run: seq<Net>, i: nat, q: nat)
    requires Run(s, run) && i < |run| && s.Correct(q)
    ensures |run[i].nodes| == s.cfg.params.n
    ensures var v, n, sent := run[i].nodes[q], s.cfg.params.n, run[i].sent;
            && (v.core.None? ==> v.retrieval.None? && v.assoc.Some? && ReadySent(s, sent, q))
            && (v.retrieval.None? ==> v.payload.Some? && ToAll(n, sent, q, CANCEL))
            && (v.core.Some? ==> (v.core.value.sentEcho <==> v.ourChunk.Some? && v.ourEcho.Some?))
            && (v.ourEcho.Some? ==> ToAll(n, sent, q, EchoMsg(v.ourEcho.value)))
  {
    RunIsOwed(s, run, i);
    assert NodeOk(s, run[i], q) && WireOk(s, run[i], q);
  }

  /** A server that has handled the responses of N-2F servers has the payload. */
  lemma ResponsesSuffice(s: System, run: seq<Net>, i: nat, q: nat, rs: set<nat>)
    requires Run(s, run) && i < |run| && s.Correct(q) && |rs| + 2 * s.cfg.params.f >= s.cfg.params.n
    requires forall r :: r in rs ==> exists m: Msg :: m.respond && Envelope(m, r, q) in run[i].delivered
    ensures |run[i].nodes| == s.cfg.params.n && run[i].nodes[q].payload.Some?
  {
    hide NodeOk, MessageOk, HandledOk, WireOk, TakenOk;
    RunIsOwed(s, run, i);
    HeardSuffices(s, run[i], q, rs);
  }

  lemma HeardSuffices(s: System, net: Net, q: nat, rs: set<nat>)
    requires Invariant(s, net) && Owed(s, net) && s.Correct(q) && |rs| + 2 * s.cfg.params.f >= s.cfg.params.n
    requires forall r :: r in rs ==> exists m: Msg :: m.respond && Envelope(m, r, q) in net.delivered
    ensures net.nodes[q].payload.Some?
  {
    hide ReadySent, Founded, Vouched, MessageOk, HandledOk, WireOk;
    assert NodeOk(s, net, q);
    var v := net.nodes[q];
    if v.retrieval.Some? {
      forall r | r in rs
        ensures r in v.retrieval.value.chunks.Keys
      {
        var m: Msg :| m.respond && Envelope(m, r, q) in net.delivered;
        assert TakenOk(s, net, Envelope(m, r, q));
      }
      SubsetCount(rs, v.retrieval.value.chunks.Keys);
      assert |v.retrieval.value.chunks.Keys| == |v.retrieval.value.chunks|;
    }
  }

  /** Between times t and u of a run a server loses nothing of its record. */
  lemma {:induction false} RunFiles(s: System, run: seq<Net>, t: nat, u: nat, q: nat)
    requires Run(s, run) && t <= u < |run| && s.Correct(q)
    ensures |run[t].nodes| == |run[u].nodes| == s.cfg.params.n && Files(run[t].nodes[q], run[u].nodes[q])
    decreases u
  {
    hide NodeOk, MessageOk, HandledOk, Files, Do;
    RunKeepsInvariant(s, run, u);
    if t < u {
      RunFiles(s, run, t, u - 1, q);
      RunKeepsInvariant(s, run, u - 1);
      assert Step(s, run[u - 1], run[u]);
      StepFiles(s, run[u - 1], run[u], q);
      FilesMore(run[t].nodes[q], run[u - 1].nodes[q], run[u].nodes[q]);
    } else {
      FilesSame(run[t].nodes[q]);
    }
  }

  lemma StepFiles(s: System, net: Net, next: Net, q: nat)
    requires Invariant(s, net) && Step(s, net, next) && s.Correct(q)
    ensures |next.nodes| == s.cfg.params.n && Files(net.nodes[q], next.nodes[q])
  {
    hide Files, Do, Ok, ReadySent, Founded, Vouched, MessageOk, HandledOk;
    assert NodeOk(s, net, q);
    FilesSame(net.nodes[q]);
    if r, act :| Acts(s, net, next, r, act) {
      if r == q {
        DoFiles(s.At(q), net.nodes[q], act);
      }
    }
  }

  /** The first chunk and the first Echo that come from a server are the ones that count from then on. */
  lemma FirstStands(s: System, run: seq<Net>, t: nat, u: nat, q: nat, from: nat, m: Msg)
    requires Run(s, run) && t < u < |run| && Acts(s, run[t], run[t + 1], q, Hear(from, m))
    ensures |run[t].nodes| == |run[u].nodes| == s.cfg.params.n && m.Complete()
    ensures run[u].nodes[q].retrieval.Some? ==> run[t].nodes[q].retrieval.Some?
    ensures run[u].nodes[q].core.Some? ==> run[t].nodes[q].core.Some?
    ensures Counts(run[t].nodes[q], run[u].nodes[q], from, m)
  {
    hide Recv, Ok, ReadySent, Founded, Vouched, MessageOk, HandledOk;
    RunKeepsInvariant(s, run, t);
    RunFiles(s, run, t, u, q);
    RunFiles(s, run, t + 1, u, q);
    assert NodeOk(s, run[t], q);
    FirstCounts(s.At(q), run[t].nodes[q], from, m);
  }

  /** The correct servers that have stored their own chunk. */
  ghost function Keepers(s: System, net: Net): set<nat>
    requires |net.nodes| == s.cfg.params.n
  {
    Holders(s, net, s.cfg.faulty)
  }

  /** In a quiet state the Echo of a holder is on record wherever there is one. */
  lemma EchoArrives(s: System, net: Net, h: nat, q: nat)
    requires Invariant(s, net) && Owed(s, net) && Quiet(s, net) && s.Correct(q) && h in Keepers(s, net)
    ensures net.nodes[h].ourEcho.Some?
    ensures Envelope(EchoMsg(net.nodes[h].ourEcho.value), h, q) in net.delivered
    ensures net.nodes[q].core.None? || h in net.nodes[q].core.value.echos
  {
    hide ReadySent, Founded, Vouched, MessageOk, HandledOk, Settled;
    assert NodeOk(s, net, h) && WireOk(s, net, h);
    var e := Envelope(EchoMsg(net.nodes[h].ourEcho.value), h, q);
    assert e in net.delivered && TakenOk(s, net, e);
  }

  /** So there is an Echo for every holder. */
  lemma EchosArrive(s: System, net: Net, q: nat)
    requires Invariant(s, net) && Owed(s, net) && Quiet(s, net) && s.Correct(q) && net.nodes[q].core.Some?
    ensures |net.nodes[q].core.value.echos| >= |Keepers(s, net)|
  {
    hide NodeOk, MessageOk, HandledOk, WireOk, TakenOk, Quiet;
    var echos := net.nodes[q].core.value.echos;
    forall h | h in Keepers(s, net)
      ensures h in echos.Keys
    {
      EchoArrives(s, net, h, q);
    }
    SubsetCount(Keepers(s, net), echos.Keys);
    assert |echos.Keys| == |echos|;
  }
}
