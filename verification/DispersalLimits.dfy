/**
 Exactly when the dispersed payload is available in every run. The Ready of the initiator travels with its Disperse, so
 together with F faulty servers it can make everybody send Ready before more than one server has received a chunk.
 */
module DispersalLimits {
  import opened Common
  import opened Dispersal
  import opened DispersalInvariant
  import opened DispersalStep
  import opened DispersalNetwork
  import opened DispersalRuns

  /** In every run, once a correct server sees the payload dispersed, N-2F servers outside b hold their chunk. */
  ghost predicate AlwaysAvailable(s: System, b: set<nat>) {
    forall net :: Reachable(s, net) ==> AvailableIn(s, net, b)
  }

  ghost predicate AvailableIn(s: System, net: Net, b: set<nat>) {
    |net.nodes| == s.cfg.params.n && forall q: nat :: s.Correct(q) && PayloadDispersed(s.At(q), net.nodes[q]) ==> Available(s, net, b)
  }

  lemma ShieldedIsAvailable(s: System, b: set<nat>)
    requires s.Valid() && Shields(s, b)
    ensures AlwaysAvailable(s, b)
  {
    hide NodeOk, MessageOk, HandledOk, Available, Backed;
    forall net | Reachable(s, net)
      ensures AvailableIn(s, net, b)
    {
      var run :| Run(s, run) && run[|run| - 1] == net;
      RunKeepsBacked(s, run, |run| - 1, b);
      forall q: nat | s.Correct(q) && PayloadDispersed(s.At(q), net.nodes[q])
        ensures Available(s, net, b)
      {
        BackedIsAvailable(s, net, b, q);
      }
    }
  }

  /** A single server has heard a Ready, or has dropped its core, only if it holds its chunk. */
  ghost predicate Alone(s: System, net: Net) {
    && |net.nodes| == s.cfg.params.n == 1
    && (Speaks(net.nodes[0]) || net.nodes[0].core.value.readys != {} ==> net.nodes[0].ourChunk.Some?)
  }

  lemma HeardAlone(s: System, net: Net, next: Net, act: Act)
    requires s.cfg.params.n == 1 && Invariant(s, net) && Alone(s, net) && Acts(s, net, next, 0, act) && act.Hear?
    requires net.nodes[0].core.Some?
    ensures var u := Mid(s.At(0), net.nodes[0], act);
            u.core.Some? && (u.core.value.readys != {} ==> u.ourChunk.Some?)
  {
    hide React, Intake, Ok, ReadySent, HandledOk;
    var c, v := s.At(0), net.nodes[0];
    var e := Envelope(act.m, act.from, 0);
    assert e in Heard(0, act);
    assert MessageOk(s, net, e) && NodeOk(s, net, 0);
    assert |s.cfg.faulty| == 0;
    IntakeAdds(c, v, act.from, act.m);
    IntakeKept(c, v, act.from, act.m);
    if act.m.disperse {
      DisperseGives(c, v, act.from, act.m);
    }
  }

  lemma DisperseGives(c: Ctx, v: VID, from: nat, m: Msg)
    requires m.Complete() && m.disperse && from == c.initID && v.core.Some?
    ensures Intake(c, v, from, m).0.ourChunk.Some?
  {
  }

  lemma StaysAlone(s: System, net: Net, next: Net, act: Act)
    requires s.cfg.params.n == 1 && Invariant(s, net) && Alone(s, net) && Acts(s, net, next, 0, act)
    ensures Alone(s, next)
  {
    hide Intake, React, Ok, ReadySent, ReadyToAll, NodeOk, MessageOk, HandledOk, Kept;
    var c, v := s.At(0), net.nodes[0];
    ActLater(s, net, next, 0, act);
    KeptChunk(v, next.nodes[0]);
    if !act.Hear? {
      OthersLeaveCore(c, v, act);
    } else if v.core.Some? && v.ourChunk.None? {
      var u := Mid(c, v, act);
      HeardAlone(s, net, next, act);
      ReactLeaves(c, u);
      ReactKept(c, u);
      if !Speaks(v) && Speaks(next.nodes[0]) {
        IntakeAdds(c, v, act.from, act.m);
        SpeaksWhenRipe(c, u);
        MidFounded(s, net, next, 0, act);
        MidInRange(s, net, next, 0, act);
        EchoAlone(s, next, u.core.value);
      }
    }
  }

  lemma KeptChunk(v: VID, w: VID)
    requires Kept(v, w)
    ensures v.ourChunk.Some? ==> w.ourChunk.Some?
    ensures v.core.None? ==> w.core.None?
  {
  }

  lemma EchoAlone(s: System, net: Net, u: CoreState)
    requires s.Valid() && |net.nodes| == s.cfg.params.n == 1 && Founded(s, net, u) && u.echos.Keys <= Nodes(1)
    ensures |u.echos| > 0 ==> net.nodes[0].ourChunk.Some?
  {
    if |u.echos| > 0 {
      assert |u.echos.Keys| == |u.echos|;
      var r :| r in u.echos.Keys;
      assert |s.cfg.faulty| == 0 && r == 0;
    }
  }

  lemma {:induction false} RunIsAlone(s: System, run: seq<Net>, i: nat)
    requires Run(s, run) && i < |run| && s.cfg.params.n == 1
    ensures Invariant(s, run[i]) && Alone(s, run[i])
  {
    hide Invariant, Step;
    RunKeepsInvariant(s, run, i);
    if i > 0 {
      RunIsAlone(s, run, i - 1);
      assert Step(s, run[i - 1], run[i]);
      StepStaysAlone(s, run[i - 1], run[i]);
    }
  }

  lemma StepStaysAlone(s: System, net: Net, next: Net)
    requires s.cfg.params.n == 1 && Invariant(s, net) && Alone(s, net) && Step(s, net, next)
    ensures Alone(s, next)
  {
    hide Do, NodeOk, MessageOk, HandledOk;
    if q, act :| Acts(s, net, next, q, act) {
      assert q == 0;
      StaysAlone(s, net, next, act);
    }
  }

  lemma AloneIsAvailable(s: System, b: set<nat>)
    requires s.Valid() && s.cfg.params.n == 1 && |b| <= s.cfg.params.f
    ensures AlwaysAvailable(s, b)
  {
    hide NodeOk, MessageOk, HandledOk;
    forall net | Reachable(s, net)
      ensures AvailableIn(s, net, b)
    {
      var run :| Run(s, run) && run[|run| - 1] == net;
      RunIsAlone(s, run, |run| - 1);
      if PayloadDispersed(s.At(0), net.nodes[0]) {
        assert Speaks(net.nodes[0]) || net.nodes[0].core.value.readys != {};
        assert Holders(s, net, b) == {0};
      }
    }
  }

  /** The server waits for more: it has heard at most one Echo, its own, and has sent Ready on F+1 Readys. */
  ghost predicate Waits(c: Ctx, v: VID) {
    && c.id != c.initID && c.id < c.p.n
    && v.payload.None? && v.assoc.None? && v.retrieval.Some? && v.core.Some? && !v.canRelease
    && v.retrieval.value.chunks.Keys <= {c.id} && v.core.value.echos.Keys <= {c.id}
    && (v.core.value.sentEcho <==> v.ourEcho.Some?) && (v.ourChunk.Some? <==> v.ourEcho.Some?)
    && (v.core.value.sentReady <==> |v.core.value.readys| >= c.p.f + 1)
  }

  lemma OneIsFew(c: Ctx, slots: map<nat, Bytes>)
    requires c.p.Resilient() && c.p.n >= 2 && slots.Keys <= {c.id}
    ensures |slots| < Enough(c.p) && |slots| + c.p.f < c.p.n
  {
    SubsetCount(slots.Keys, {c.id});
    assert |slots| == |slots.Keys|;
  }

  /** What a Ready from server f, or the Disperse with its Ready, does to a server that waits. */
  lemma HearsReady(c: Ctx, v: VID, f: nat)
    requires c.p.Resilient() && c.p.n >= 2 && Waits(c, v)
    ensures var (w, out) := Recv(c, v, f, READY);
            && Waits(c, w) && w.ourChunk == v.ourChunk && w.core.value.readys == v.core.value.readys + {f}
            && (Speaks(w) && !Speaks(v) ==> forall d: nat :: d < c.p.n ==> Envelope(READY, c.id, d) in out)
  {
    hide Gather, Answers, Copies;
    assert Intake(c, v, f, READY).0 == OnReady(v, f);
    OneIsFew(c, v.core.value.echos);
    OneIsFew(c, v.retrieval.value.chunks);
    SubsetCount(v.core.value.readys, v.core.value.readys + {f});
    forall d: nat | d < c.p.n
      ensures Envelope(READY, c.id, d) in Copies(c.p.n, c.id, READY)
    {
      CopiesReach(c.p.n, c.id, READY, d);
    }
  }

  lemma HearsDisperse(c: Ctx, chunk: Bytes, ad: Bytes)
    requires c.p.Resilient() && c.p.n >= 2 && c.id != c.initID && c.id < c.p.n
    ensures var (w, out) := Recv(c, Initial(c), c.initID, DisperseMsg(chunk, ad));
            && Waits(c, w) && w.ourChunk.Some? && w.core.value.readys == {c.initID}
            && (Speaks(w) ==> forall d: nat :: d < c.p.n ==> Envelope(READY, c.id, d) in out)
  {
    hide Gather, Answers;
    var v := Intake(c, Initial(c), c.initID, DisperseMsg(chunk, ad)).0;
    OneIsFew(c, v.core.value.echos);
    OneIsFew(c, v.retrieval.value.chunks);
    forall d: nat | d < c.p.n
      ensures Envelope(READY, c.id, d) in Copies(c.p.n, c.id, READY)
    {
      CopiesReach(c.p.n, c.id, READY, d);
    }
  }

  /** Server r has sent a plain Ready to everybody. */
  ghost predicate Announced(s: System, sent: set<Env>, r: nat) {
    forall d: nat :: d < s.cfg.params.n ==> Envelope(READY, r, d) in sent
  }

  ghost predicate WaitsIn(s: System, net: Net, r: nat) {
    && |net.nodes| == s.cfg.params.n && s.Correct(r) && Waits(s.At(r), net.nodes[r])
    && (Speaks(net.nodes[r]) ==> Announced(s, net.sent, r))
  }

  /** More has been sent, and only server r has moved. */
  ghost predicate Ahead(net: Net, next: Net, r: nat) {
    r < |net.nodes| == |next.nodes| && net.sent <= next.sent && next.nodes == net.nodes[r := next.nodes[r]]
  }

  lemma ActReachable(s: System, net: Net, q: nat, act: Act) returns (next: Net)
    requires Reachable(s, net) && s.Valid() && |net.nodes| == s.cfg.params.n && s.Correct(q)
    requires Possible(s.At(q), act) && Heard(q, act) <= net.sent
    ensures Reachable(s, next) && Ahead(net, next, q)
    ensures var (w, out) := Do(s.At(q), net.nodes[q], act);
            next.nodes[q] == w && forall e :: e in out ==> e in next.sent
  {
    hide Do, Reachable;
    var (w, out) := Do(s.At(q), net.nodes[q], act);
    next := Posted(net, q, w, out, Heard(q, act));
    assert Acts(s, net, next, q, act);
    StepReachable(s, net, next);
  }

  /** One more Ready is heard. */
  lemma HearOne(s: System, net: Net, r: nat, f: nat) returns (next: Net)
    requires Reachable(s, net) && s.Valid() && s.cfg.params.n >= 2 && WaitsIn(s, net, r)
    requires f < s.cfg.params.n && Envelope(READY, f, r) in net.sent
    ensures Reachable(s, next) && Ahead(net, next, r) && WaitsIn(s, next, r)
    ensures next.nodes[r].ourChunk == net.nodes[r].ourChunk
    ensures next.nodes[r].core.value.readys == net.nodes[r].core.value.readys + {f}
  {
    hide Recv, Reachable, Waits;
    var act := Hear(f, READY);
    WaitsCore(s, net, r);
    HearsReady(s.At(r), net.nodes[r], f);
    next := ActReachable(s, net, r, act);
    WaitsCore(s, net, r);
  }

  lemma WaitsCore(s: System, net: Net, r: nat)
    requires WaitsIn(s, net, r)
    ensures net.nodes[r].core.Some?
  {
  }

  /** Server r hears the Readys of all of fs. */
  lemma {:induction false} HearAll(s: System, net: Net, r: nat, fs: set<nat>) returns (next: Net)
    requires Reachable(s, net) && s.Valid() && s.cfg.params.n >= 2 && WaitsIn(s, net, r)
    requires forall f :: f in fs ==> f < s.cfg.params.n && Envelope(READY, f, r) in net.sent
    ensures Reachable(s, next) && Ahead(net, next, r) && WaitsIn(s, next, r)
    ensures next.nodes[r].ourChunk == net.nodes[r].ourChunk
    ensures next.nodes[r].core.value.readys == net.nodes[r].core.value.readys + fs
    decreases |fs|
  {
    hide Reachable;
    next := net;
    if fs != {} {
      var f :| f in fs;
      var mid := HearOne(s, net, r, f);
      next := HearAll(s, mid, r, fs - {f});
      assert {f} + (fs - {f}) == fs;
    }
  }

  /** Faulty servers send all of es. */
  lemma {:induction false} ForgeAll(s: System, net: Net, es: set<Env>) returns (next: Net)
    requires Reachable(s, net)
    requires forall e :: e in es ==> e.from in s.cfg.faulty && e.dest < s.cfg.params.n && e.msg.Complete()
    ensures Reachable(s, next) && next.nodes == net.nodes && next.sent == net.sent + es
    decreases |es|
  {
    hide Reachable;
    next := net;
    if es != {} {
      var e :| e in es;
      var mid := net.(sent := net.sent + {e});
      assert Forges(s, net, mid, e);
      StepReachable(s, net, mid);
      next := ForgeAll(s, mid, es - {e});
      assert {e} + (es - {e}) == es;
    }
  }

  /** Only server q has its chunk; the others wait, and the faulty servers have sent Ready to everybody. */
  ghost predicate OneHolds(s: System, net: Net, q: nat) {
    && Reachable(s, net) && |net.nodes| == s.cfg.params.n && s.Correct(s.initID) && net.nodes[s.initID].ourChunk.None?
    && (forall r: nat :: s.Correct(r) && r != s.initID ==> WaitsIn(s, net, r) && (r != q ==> net.nodes[r].ourChunk.None?))
    && (forall f: nat :: f in s.cfg.faulty ==> Announced(s, net.sent, f))
  }

  lemma StillOneHolds(s: System, net: Net, next: Net, q: nat, r: nat)
    requires OneHolds(s, net, q) && Reachable(s, next) && Ahead(net, next, r) && r != s.initID
    requires WaitsIn(s, next, r) && next.nodes[r].ourChunk == net.nodes[r].ourChunk
    ensures OneHolds(s, next, q)
    ensures forall f: nat :: Announced(s, net.sent, f) ==> Announced(s, next.sent, f)
  {
    hide Reachable, Waits;
    forall t: nat | s.Correct(t) && t != s.initID
      ensures WaitsIn(s, next, t)
    {
      assert WaitsIn(s, net, t);
    }
  }

  lemma StartWaits(s: System, q: nat)
    requires s.Valid() && s.cfg.params.n >= 2
    ensures |Start(s).nodes| == s.cfg.params.n && Start(s).nodes[s.initID].ourChunk.None?
    ensures forall r: nat :: s.Correct(r) && r != s.initID ==> WaitsIn(s, Start(s), r) && Start(s).nodes[r] == Initial(s.At(r))
  {
  }

  /** The initiator begins to disperse, and server q is the first to get its chunks. */
  lemma FirstChunk(s: System, q: nat, x: Payload) returns (net: Net)
    requires s.Valid() && s.cfg.params.n >= 2 && s.Correct(s.initID) && s.Correct(q) && q != s.initID
    requires |s.codec.encode(x)| == s.cfg.params.n
    ensures Reachable(s, net) && |net.nodes| == s.cfg.params.n && net.nodes[s.initID].ourChunk.None?
    ensures forall r: nat :: s.Correct(r) && r != s.initID ==> WaitsIn(s, net, r) && (r != q ==> net.nodes[r].ourChunk.None?)
    ensures net.nodes[q].ourChunk.Some? && net.nodes[q].core.Some? && net.nodes[q].core.value.readys == {s.initID}
  {
    hide Reachable, Recv, Waits;
    var n0, i := Start(s), s.initID;
    StartReachable(s);
    StartWaits(s, q);
    var chunks := s.codec.encode(x);
    var n1 := ActReachable(s, n0, i, Begin(x, x));
    var out := Disperse(s.At(i), n0.nodes[i], x, x).1;
    var m := DisperseMsg(chunks[q], chunks[q]);
    assert out[q] == Envelope(m, i, q);
    HearsDisperse(s.At(q), chunks[q], chunks[q]);
    net := ActReachable(s, n1, q, Hear(i, m));
    forall r: nat | s.Correct(r) && r != i
      ensures WaitsIn(s, net, r) && (r != q ==> net.nodes[r].ourChunk.None?)
    {
      assert WaitsIn(s, n0, r);
      if r != q {
        QuietStart(s.At(r));
      }
    }
    WaitsCore(s, net, q);
  }

  lemma QuietStart(c: Ctx)
    requires c.p.Resilient()
    ensures !Speaks(Initial(c)) && Initial(c).ourChunk.None?
  {
  }

  /** Then the faulty servers send Ready to everybody. */
  lemma Opening(s: System, q: nat, x: Payload) returns (net: Net)
    requires s.Valid() && s.cfg.params.n >= 2 && s.Correct(s.initID) && s.Correct(q) && q != s.initID
    requires |s.codec.encode(x)| == s.cfg.params.n
    ensures OneHolds(s, net, q) && net.nodes[q].ourChunk.Some? && s.initID in net.nodes[q].core.value.readys
  {
    hide Reachable, Waits;
    var n2 := FirstChunk(s, q, x);
    var es := set f: nat, d: nat | f in s.cfg.faulty && d < s.cfg.params.n :: Envelope(READY, f, d);
    net := ForgeAll(s, n2, es);
    forall r: nat | s.Correct(r) && r != s.initID
      ensures WaitsIn(s, net, r)
    {
      assert WaitsIn(s, n2, r);
    }
  }

  /** Server r hears F+1 Readys and sends its own, with or without a chunk. */
  lemma Convince(s: System, net: Net, q: nat, r: nat, fs: set<nat>) returns (next: Net)
    requires s.Valid() && s.cfg.params.n >= 2 && OneHolds(s, net, q) && s.Correct(r) && r != s.initID
    requires forall f :: f in fs ==> f < s.cfg.params.n && Announced(s, net.sent, f)
    requires net.nodes[r].core.Some? && |net.nodes[r].core.value.readys + fs| >= s.cfg.params.f + 1
    ensures OneHolds(s, next, q) && Announced(s, next.sent, r) && Ahead(net, next, r)
    ensures next.nodes[r].ourChunk == net.nodes[r].ourChunk
    ensures next.nodes[r].core.Some? && next.nodes[r].core.value.readys == net.nodes[r].core.value.readys + fs
    ensures forall f: nat :: Announced(s, net.sent, f) ==> Announced(s, next.sent, f)
  {
    hide Reachable;
    next := HearAll(s, net, r, fs);
    StillOneHolds(s, net, next, q, r);
  }

  /** One after the other, all servers of rs send Ready. */
  lemma {:induction false} Rally(s: System, net: Net, q: nat, rs: set<nat>) returns (next: Net)
    requires s.Valid() && s.cfg.params.n >= 2 && |s.cfg.faulty| == s.cfg.params.f && OneHolds(s, net, q)
    requires s.Correct(q) && Announced(s, net.sent, q)
    requires forall r :: r in rs ==> s.Correct(r) && r != s.initID && r != q
    ensures OneHolds(s, next, q) && next.nodes[q] == net.nodes[q]
    ensures forall f: nat :: f in rs || Announced(s, net.sent, f) ==> Announced(s, next.sent, f)
    decreases |rs|
  {
    hide Reachable, OneHolds;
    next := net;
    if rs != {} {
      var r :| r in rs;
      var fs := s.cfg.faulty + {q};
      WaitingReadys(s, net, q, r, fs);
      var mid := Convince(s, net, q, r, fs);
      next := Rally(s, mid, q, rs - {r});
      assert forall f :: f in rs ==> f == r || f in rs - {r};
    }
  }

  lemma WaitingReadys(s: System, net: Net, q: nat, r: nat, fs: set<nat>)
    requires OneHolds(s, net, q) && s.Correct(r) && r != s.initID && s.Valid()
    requires Announced(s, net.sent, q) && s.Correct(q) && fs == s.cfg.faulty + {q} && |s.cfg.faulty| == s.cfg.params.f
    ensures |net.nodes| == s.cfg.params.n && net.nodes[r].core.Some?
    ensures |net.nodes[r].core.value.readys + fs| >= s.cfg.params.f + 1
    ensures forall f :: f in fs ==> f < s.cfg.params.n && Announced(s, net.sent, f)
  {
    hide Reachable;
    assert WaitsIn(s, net, r);
    SubsetCount(fs, net.nodes[r].core.value.readys + fs);
  }

  lemma OnlyOneHolds(s: System, net: Net, q: nat, b: set<nat>)
    requires OneHolds(s, net, q) && s.cfg.faulty <= b
    ensures |Holders(s, net, b)| <= 1
  {
    hide Reachable, WaitsIn;
    SubsetCount(Holders(s, net, b), {q});
  }

  /** A second correct server. */
  lemma AnotherCorrect(s: System) returns (q: nat)
    requires s.Valid() && s.cfg.params.n >= 2
    ensures s.Correct(q) && q != s.initID
  {
    var few := s.cfg.faulty + {s.initID};
    if Nodes(s.cfg.params.n) <= few {
      SubsetCount(Nodes(s.cfg.params.n), few);
    }
    assert Nodes(s.cfg.params.n) - few != {};
    q :| q in Nodes(s.cfg.params.n) - few;
  }

  /**
   With F faulty servers and a correct initiator, a run leads to a state in which a server sees the payload dispersed
   while it alone holds a chunk.
   */
  lemma EarlyReady(s: System, x: Payload) returns (net: Net, q: nat)
    requires s.Valid() && s.cfg.params.n >= 2 && s.Correct(s.initID) && |s.cfg.faulty| == s.cfg.params.f
    requires |s.codec.encode(x)| == s.cfg.params.n
    ensures OneHolds(s, net, q) && s.Correct(q) && PayloadDispersed(s.At(q), net.nodes[q])
  {
    hide Reachable, OneHolds;
    q := AnotherCorrect(s);
    var n3 := Opening(s, q, x);
    AnnouncedFaulty(s, n3, q);
    var few := s.cfg.faulty + {s.initID};
    SubsetCount(few, n3.nodes[q].core.value.readys + s.cfg.faulty);
    var n4 := Convince(s, n3, q, q, s.cfg.faulty);
    var rs := Nodes(s.cfg.params.n) - few - {q};
    var n5 := Rally(s, n4, q, rs);
    AnnouncedFaulty(s, n5, q);
    var all := Nodes(s.cfg.params.n) - {s.initID};
    forall f | f in all
      ensures Announced(s, n5.sent, f)
    {
    }
    SubsetCount(Nodes(s.cfg.params.n), n5.nodes[q].core.value.readys + all);
    net := Convince(s, n5, q, q, all);
  }

  lemma AnnouncedFaulty(s: System, net: Net, q: nat)
    requires OneHolds(s, net, q) && s.Correct(q) && q != s.initID && s.Valid()
    ensures |net.nodes| == s.cfg.params.n && net.nodes[q].core.Some?
    ensures forall f :: f in s.cfg.faulty ==> f < s.cfg.params.n && Announced(s, net.sent, f)
  {
    assert WaitsIn(s, net, q);
  }

  /**
   Exactly when dispersed payloads are available outside b in every run: when b has the initiator, or fewer than F servers
   are faulty, or there is only one server.
   */
  lemma AvailableExactly(s: System, b: set<nat>)
    requires s.Valid() && s.cfg.faulty <= b && b <= Nodes(s.cfg.params.n) && |b| <= s.cfg.params.f
    requires forall x :: |s.codec.encode(x)| == s.cfg.params.n
    ensures AlwaysAvailable(s, b) <==> s.initID in b || |s.cfg.faulty| < s.cfg.params.f || s.cfg.params.n == 1
  {
    hide AlwaysAvailable, OneHolds, Holders, Shields;
    if s.initID in b || |s.cfg.faulty| < s.cfg.params.f {
      InitiatorShields(s, b);
      ShieldedIsAvailable(s, b);
    } else if s.cfg.params.n == 1 {
      AloneIsAvailable(s, b);
    } else {
      var net, q := EarlyReady(s, EmptyPayload);
      OnlyOneHolds(s, net, q, b);
      NotAlways(s, b, net, q);
    }
  }

  lemma NotAlways(s: System, b: set<nat>, net: Net, q: nat)
    requires s.Valid() && OneHolds(s, net, q) && s.Correct(q) && PayloadDispersed(s.At(q), net.nodes[q]) && s.cfg.params.n >= 2
    requires |Holders(s, net, b)| <= 1
    ensures !AlwaysAvailable(s, b)
  {
    hide Reachable, WaitsIn;
    assert !AvailableIn(s, net, b);
  }
}
