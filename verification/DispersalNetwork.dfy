/**
 The network of one VID instance: correct servers take exactly the steps of `DispersalStep`, faulty servers may put
 any well-formed message on the wire under their own name, and messages arrive in any order, repeatedly or never.
 */
module DispersalNetwork {
  import opened Common
  import opened Dispersal
  import opened DispersalInvariant
  import opened DispersalStep

  /** The cluster, the server that disperses, and the code. */
  datatype System = System(cfg: Config, initID: nat, codec: Codec) {
    function At(i: nat): Ctx {
      Ctx(cfg.params, i, initID, codec)
    }

    ghost predicate Valid() {
      cfg.Valid() && initID < cfg.params.n
    }

    ghost predicate Correct(i: nat) {
      cfg.Correct(i)
    }
  }

  /** The states of the servers (those of faulty ones mean nothing), the messages sent and those handled so far. */
  datatype Net = Net(nodes: seq<VID>, sent: set<Env>, delivered: set<Env>)

  ghost function Start(s: System): Net {
    Net(seq(s.cfg.params.n, i requires 0 <= i < s.cfg.params.n => Initial(s.At(i))), {}, {})
  }

  ghost function Heard(q: nat, act: Act): set<Env> {
    if act.Hear? then {Envelope(act.m, act.from, q)} else {}
  }

  ghost function Posted(net: Net, q: nat, w: VID, out: seq<Env>, heard: set<Env>): Net
    requires q < |net.nodes|
  {
    Net(net.nodes[q := w], net.sent + (set e | e in out), net.delivered + heard)
  }

  /** Correct server q does act; it hears only what has been sent to it. */
  ghost predicate Acts(s: System, net: Net, next: Net, q: nat, act: Act) {
    && s.Valid() && |net.nodes| == s.cfg.params.n && s.Correct(q)
    && Heard(q, act) <= net.sent && Possible(s.At(q), act)
    && var (w, out) := Do(s.At(q), net.nodes[q], act);
       next == Posted(net, q, w, out, Heard(q, act))
  }

  /** A faulty server sends a message. */
  ghost predicate Forges(s: System, net: Net, next: Net, e: Env) {
    && e.from in s.cfg.faulty && e.dest < s.cfg.params.n && e.msg.Complete()
    && next == net.(sent := net.sent + {e})
  }

  ghost predicate Step(s: System, net: Net, next: Net) {
    || (exists q, act :: Acts(s, net, next, q, act))
    || (exists e :: Forges(s, net, next, e))
  }

  /** Server r has sent a Ready to server d. */
  ghost predicate ReadySentTo(sent: set<Env>, r: nat, d: nat) {
    exists e :: e in sent && e.from == r && e.dest == d && e.msg.ready
  }

  ghost predicate ReadySent(s: System, sent: set<Env>, r: nat) {
    forall d: nat :: d < s.cfg.params.n ==> ReadySentTo(sent, r, d)
  }

  /** F+1 correct servers have sent Ready. */
  ghost predicate Vouched(s: System, sent: set<Env>) {
    exists rs: set<nat> :: Vouches(s, sent, rs)
  }

  ghost predicate Vouches(s: System, sent: set<Env>, rs: set<nat>) {
    |rs| >= s.cfg.params.f + 1 && forall r :: r in rs ==> s.Correct(r) && ReadySent(s, sent, r)
  }

  /** Server q has not heard what correct servers did not do. */
  ghost predicate Founded(s: System, net: Net, core: CoreState)
    requires |net.nodes| == s.cfg.params.n
  {
    && (forall r: nat :: r in core.readys && s.Correct(r) ==> ReadySent(s, net.sent, r))
    && (forall r: nat :: r in core.echos && s.Correct(r) ==> net.nodes[r].ourChunk.Some?)
  }

  ghost predicate NodeOk(s: System, net: Net, q: nat)
    requires |net.nodes| == s.cfg.params.n
  {
    s.Correct(q) ==>
      var v := net.nodes[q];
      && Ok(s.At(q), v)
      && (Speaks(v) ==> ReadySent(s, net.sent, q))
      && (v.core.Some? ==> Founded(s, net, v.core.value))
      && (v.core.None? ==> Vouched(s, net.sent))
  }

  ghost predicate MessageOk(s: System, net: Net, e: Env)
    requires |net.nodes| == s.cfg.params.n
  {
    && e.from < s.cfg.params.n && e.dest < s.cfg.params.n && e.msg.Complete()
    && (s.Correct(e.from) ==>
          && Honest(s.At(e.from), net.nodes[e.from], e)
          && (e.msg.disperse ==> e.from == s.initID)
          && (e.msg.ready ==> ReadySent(s, net.sent, e.from)))
  }

  /** A Ready that was handled has been counted, a request is on record or answered. */
  ghost predicate HandledOk(s: System, net: Net, e: Env)
    requires |net.nodes| == s.cfg.params.n
  {
    && e in net.sent && e.dest < s.cfg.params.n
    && (s.Correct(e.dest) ==>
          var v := net.nodes[e.dest];
          && (e.msg.ready ==> v.core.None? || e.from in v.core.value.readys)
          && (e.msg.request ==> Served(net, e.dest, e.from)))
  }

  /** The request of server r to server d is on record, or the answer has been sent. */
  ghost predicate Served(net: Net, d: nat, r: nat)
    requires d < |net.nodes|
  {
    var v := net.nodes[d];
    || (v.unanswered.Some? && r in v.unanswered.value)
    || (v.ourChunk.Some? && Envelope(RespondMsg(v.ourChunk.value), d, r) in net.sent)
  }

  ghost predicate Invariant(s: System, net: Net) {
    && s.Valid()
    && |net.nodes| == s.cfg.params.n
    && (forall q: nat :: NodeOk(s, net, q))
    && (forall e :: e in net.sent ==> MessageOk(s, net, e))
    && (forall e :: e in net.delivered ==> HandledOk(s, net, e))
  }

  lemma StartOk(s: System)
    requires s.Valid()
    ensures Invariant(s, Start(s))
  {
    forall q: nat
      ensures NodeOk(s, Start(s), q)
    {
      if s.Correct(q) {
        InitialOk(s.At(q));
      }
    }
  }

  /** From net to next, more has been sent and every correct server has moved on. */
  ghost predicate Later(s: System, net: Net, next: Net) {
    && |net.nodes| == |next.nodes| == s.cfg.params.n
    && net.sent <= next.sent
    && forall q: nat :: q < s.cfg.params.n ==> Kept(net.nodes[q], next.nodes[q])
  }

  lemma ReadyStaysSent(s: System, sent: set<Env>, sent': set<Env>, r: nat)
    requires sent <= sent' && ReadySent(s, sent, r)
    ensures ReadySent(s, sent', r)
  {
    forall d: nat | d < s.cfg.params.n
      ensures ReadySentTo(sent', r, d)
    {
      assert ReadySentTo(sent, r, d);
    }
  }

  lemma VouchedStays(s: System, sent: set<Env>, sent': set<Env>)
    requires sent <= sent' && Vouched(s, sent)
    ensures Vouched(s, sent')
  {
    var rs :| Vouches(s, sent, rs);
    forall r | r in rs
      ensures ReadySent(s, sent', r)
    {
      ReadyStaysSent(s, sent, sent', r);
    }
    assert Vouches(s, sent', rs);
  }

  lemma FoundedStays(s: System, net: Net, next: Net, core: CoreState)
    requires Later(s, net, next) && Founded(s, net, core)
    ensures Founded(s, next, core)
  {
    hide Kept, ReadySent;
    forall r: nat | r in core.readys && s.Correct(r)
      ensures ReadySent(s, next.sent, r)
    {
      ReadyStaysSent(s, net.sent, next.sent, r);
    }
    forall r: nat | r in core.echos && s.Correct(r)
      ensures next.nodes[r].ourChunk.Some?
    {
      ChunkStays(net.nodes[r], next.nodes[r]);
    }
  }

  lemma ChunkStays(v: VID, w: VID)
    requires Kept(v, w) && v.ourChunk.Some?
    ensures w.ourChunk == v.ourChunk
  {
  }

  lemma MessageStays(s: System, net: Net, next: Net, e: Env)
    requires Later(s, net, next) && MessageOk(s, net, e)
    ensures MessageOk(s, next, e)
  {
    if s.Correct(e.from) {
      HonestStays(s.At(e.from), net.nodes[e.from], next.nodes[e.from], e);
      if e.msg.ready {
        ReadyStaysSent(s, net.sent, next.sent, e.from);
      }
    }
  }

  /** A server that does not move loses nothing by the moves of others. */
  lemma NodeStays(s: System, net: Net, next: Net, q: nat)
    requires Later(s, net, next) && NodeOk(s, net, q)
    requires q < s.cfg.params.n ==> next.nodes[q] == net.nodes[q]
    ensures NodeOk(s, next, q)
  {
    hide Ok, Kept, ReadySent, Vouched, Founded;
    if s.Correct(q) {
      var v := net.nodes[q];
      if Speaks(v) {
        ReadyStaysSent(s, net.sent, next.sent, q);
      }
      if v.core.Some? {
        FoundedStays(s, net, next, v.core.value);
      } else {
        VouchedStays(s, net.sent, next.sent);
      }
    }
  }

  /** What a correct server hears from itself it has sent. */
  lemma ActEnabled(s: System, net: Net, q: nat, act: Act)
    requires Invariant(s, net) && s.Correct(q) && Heard(q, act) <= net.sent && Possible(s.At(q), act)
    ensures Enabled(s.At(q), net.nodes[q], act) && Ok(s.At(q), net.nodes[q])
  {
    hide Do, Ok, ReadySent, Vouched, Founded;
    assert NodeOk(s, net, q);
    if act.Hear? {
      var e := Envelope(act.m, act.from, q);
      assert e in Heard(q, act);
      assert MessageOk(s, net, e);
    }
  }

  lemma ActLater(s: System, net: Net, next: Net, q: nat, act: Act)
    requires Acts(s, net, next, q, act)
    ensures Later(s, net, next)
  {
    hide Do;
    DoKept(s.At(q), net.nodes[q], act);
  }

  lemma ReadyPosted(s: System, net: Net, q: nat, w: VID, out: seq<Env>, heard: set<Env>)
    requires q < |net.nodes| && ReadyToAll(s.At(q), out)
    ensures ReadySent(s, Posted(net, q, w, out, heard).sent, q)
  {
    forall d: nat | d < s.cfg.params.n
      ensures ReadySentTo(Posted(net, q, w, out, heard).sent, q, d)
    {
      assert ReadyTo(s.At(q), out, d);
    }
  }

  /** What a message from a correct server says about it. */
  lemma MessageFounds(s: System, net: Net, next: Net, e: Env)
    requires Invariant(s, net) && Later(s, net, next) && e in net.sent && s.Correct(e.from)
    ensures e.msg.ready ==> ReadySent(s, next.sent, e.from)
    ensures e.msg.echo ==> next.nodes[e.from].ourChunk.Some?
  {
    hide Kept, ReadySent, Vouched, Founded;
    assert NodeOk(s, net, e.from) && MessageOk(s, net, e);
    if e.msg.ready {
      ReadyStaysSent(s, net.sent, next.sent, e.from);
    }
    if e.msg.echo {
      ChunkStays(net.nodes[e.from], next.nodes[e.from]);
    }
  }

  /** The core u has heard no more than core v and message e to server q. */
  lemma HeardFounded(s: System, next: Net, q: nat, e: Env, v: CoreState, u: CoreState)
    requires |next.nodes| == s.cfg.params.n && q < s.cfg.params.n && Founded(s, next, v)
    requires e.msg.ready && s.Correct(e.from) ==> ReadySent(s, next.sent, e.from)
    requires e.msg.echo && s.Correct(e.from) ==> next.nodes[e.from].ourChunk.Some?
    requires u.readys <= v.readys + if e.msg.ready then {e.from} else {}
    requires u.echos.Keys <= v.echos.Keys + (if e.msg.echo then {e.from} else {}) + (if next.nodes[q].ourChunk.Some? then {q} else {})
    ensures Founded(s, next, u)
  {
    hide ReadySent;
    forall r: nat | r in u.echos && s.Correct(r)
      ensures next.nodes[r].ourChunk.Some?
    {
      assert r in u.echos.Keys;
    }
  }

  /** What a correct server has heard once it has taken in a message is founded in what others did. */
  lemma MidFounded(s: System, net: Net, next: Net, q: nat, act: Act)
    requires Invariant(s, net) && Acts(s, net, next, q, act) && net.nodes[q].core.Some?
    ensures Mid(s.At(q), net.nodes[q], act).core.Some?
    ensures Founded(s, next, Mid(s.At(q), net.nodes[q], act).core.value)
  {
    hide Do, Intake, Kept, ReadySent, Vouched, Founded;
    var c, v := s.At(q), net.nodes[q];
    assert NodeOk(s, net, q);
    ActLater(s, net, next, q, act);
    if act.Hear? {
      IntakeAdds(c, v, act.from, act.m);
      var u := Intake(c, v, act.from, act.m).0;
      var e := Envelope(act.m, act.from, q);
      assert e in Heard(q, act);
      if s.Correct(act.from) {
        MessageFounds(s, net, next, e);
      }
      FoundedStays(s, net, next, v.core.value);
      OwnChunkFollows(s, net, next, q, act);
      HeardFounded(s, next, q, e, v.core.value, u.core.value);
    } else {
      FoundedStays(s, net, next, v.core.value);
    }
  }

  lemma OwnChunkFollows(s: System, net: Net, next: Net, q: nat, act: Act)
    requires Invariant(s, net) && Acts(s, net, next, q, act) && act.Hear?
    ensures Mid(s.At(q), net.nodes[q], act).ourEcho.Some? ==> next.nodes[q].ourChunk.Some?
  {
    hide Intake, React, NodeOk, MessageOk, HandledOk;
    ActEnabled(s, net, q, act);
    DoKeepsOk(s.At(q), net.nodes[q], act);
    ReactKept(s.At(q), Intake(s.At(q), net.nodes[q], act.from, act.m).0);
  }

  lemma NodeMoves(s: System, net: Net, next: Net, q: nat, act: Act)
    requires Invariant(s, net)
    ensures Acts(s, net, next, q, act) ==> NodeOk(s, next, q)
  {
    hide Do, Intake, React, Ok, Kept, ReadySent, Vouched, Founded, ReadyToAll;
    if !Acts(s, net, next, q, act) {
      return;
    }
    var c, v := s.At(q), net.nodes[q];
    ActEnabled(s, net, q, act);
    ActLater(s, net, next, q, act);
    DoKeepsOk(c, v, act);
    SpeakerIsHeard(s, net, next, q, act);
    CoreMoves(s, net, next, q, act);
  }

  lemma SpeakerIsHeard(s: System, net: Net, next: Net, q: nat, act: Act)
    requires Invariant(s, net)
    ensures Acts(s, net, next, q, act) && Speaks(next.nodes[q]) ==> ReadySent(s, next.sent, q)
  {
    if !(Acts(s, net, next, q, act) && Speaks(next.nodes[q])) {
      return;
    }
    var c, v := s.At(q), net.nodes[q];
    assert NodeOk(s, net, q);
    if Speaks(v) {
      ReadyStaysSent(s, net.sent, next.sent, q);
    } else {
      var u := Mid(c, v, act);
      IntakeAdds(c, v, act.from, act.m);
      SpeaksWhenRipe(c, u);
      ReadyAmongMore(c, Intake(c, v, act.from, act.m).1, React(c, u).1);
      ReadyPosted(s, net, q, next.nodes[q], Do(c, v, act).1, Heard(q, act));
    }
  }

  lemma CoreMoves(s: System, net: Net, next: Net, q: nat, act: Act)
    requires Invariant(s, net)
    ensures Acts(s, net, next, q, act) ==>
              var w := next.nodes[q];
              && (w.core.Some? ==> Founded(s, next, w.core.value))
              && (w.core.None? ==> Vouched(s, next.sent))
  {
    hide Intake, React, Ok, ReadySent, Vouched, Founded, Flush, MessageOk, HandledOk;
    if !Acts(s, net, next, q, act) {
      return;
    }
    var c, v := s.At(q), net.nodes[q];
    assert NodeOk(s, net, q);
    ActLater(s, net, next, q, act);
    if v.core.None? {
      VouchedStays(s, net.sent, next.sent);
    } else {
      var u := Mid(c, v, act);
      MidFounded(s, net, next, q, act);
      if act.Hear? {
        ReactLeaves(c, u);
        if next.nodes[q].core.None? {
          MidInRange(s, net, next, q, act);
          QuorumVouches(s, next, u.core.value);
        } else {
          FoundedSame(s, next, u.core.value, next.nodes[q].core.value);
        }
      } else {
        OthersLeaveCore(c, v, act);
      }
    }
  }

  lemma FoundedSame(s: System, net: Net, u: CoreState, w: CoreState)
    requires |net.nodes| == s.cfg.params.n && Founded(s, net, u) && u.readys == w.readys && u.echos == w.echos
    ensures Founded(s, net, w)
  {
  }

  lemma OthersLeaveCore(c: Ctx, v: VID, act: Act)
    requires c.p.Resilient() && Possible(c, act) && !act.Hear?
    ensures Do(c, v, act).0.core == v.core
  {
  }

  lemma MidInRange(s: System, net: Net, next: Net, q: nat, act: Act)
    requires Invariant(s, net) && Acts(s, net, next, q, act) && act.Hear?
    ensures Shape(s.At(q), Mid(s.At(q), net.nodes[q], act))
  {
    hide Intake, React, NodeOk, MessageOk, HandledOk, Shape;
    ActEnabled(s, net, q, act);
    IntakeKeeps(s.At(q), net.nodes[q], act.from, act.m);
  }

  /** 2F+1 Readys include F+1 of correct servers. */
  lemma QuorumVouches(s: System, net: Net, core: CoreState)
    requires s.Valid() && |net.nodes| == s.cfg.params.n && Founded(s, net, core)
    requires |core.readys| >= 2 * s.cfg.params.f + 1 && core.readys <= Nodes(s.cfg.params.n)
    ensures Vouched(s, net.sent)
  {
    CorrectCount(s.cfg, core.readys);
    assert Vouches(s, net.sent, core.readys - s.cfg.faulty);
  }

  /** Every new message is honest. */
  lemma MessageMoves(s: System, net: Net, next: Net, q: nat, act: Act, e: Env)
    requires Invariant(s, net)
    ensures Acts(s, net, next, q, act) && e in Do(s.At(q), net.nodes[q], act).1 ==> MessageOk(s, next, e)
  {
    hide Do, Ok, Speaks, ReadySent, ReadyToAll, NodeOk, HandledOk;
    if !Acts(s, net, next, q, act) {
      return;
    }
    var c, v := s.At(q), net.nodes[q];
    if e in Do(c, v, act).1 {
      ActEnabled(s, net, q, act);
      DoHonest(c, v, act, e);
      if e.msg.ready {
        ReadyIsBroadcast(c, v, act, e);
        ReadyPosted(s, net, q, next.nodes[q], Do(c, v, act).1, Heard(q, act));
      }
    }
  }

  lemma ServedStays(s: System, net: Net, next: Net, q: nat, act: Act, d: nat, r: nat)
    requires Invariant(s, net) && Acts(s, net, next, q, act) && d < s.cfg.params.n
    requires Served(net, d, r) || (d == q && act.Hear? && act.m.request && act.from == r)
    ensures Served(next, d, r)
  {
    hide Do, Ok, Kept, NodeOk, MessageOk, HandledOk;
    if d == q {
      ActEnabled(s, net, q, act);
      ActLater(s, net, next, q, act);
      var v := net.nodes[q];
      if v.ourChunk.Some? {
        ChunkStays(v, next.nodes[q]);
      }
      if (v.unanswered.Some? && r in v.unanswered.value) || (act.Hear? && act.m.request && act.from == r) {
        DoAnswers(s.At(q), v, act, r);
      }
    }
  }

  lemma HandledStays(s: System, net: Net, next: Net, q: nat, act: Act, e: Env)
    requires Invariant(s, net) && Acts(s, net, next, q, act) && e in net.delivered
    ensures HandledOk(s, next, e)
  {
    hide Do, Ok, NodeOk, MessageOk, Served;
    assert HandledOk(s, net, e);
    ActLater(s, net, next, q, act);
    if s.Correct(e.dest) && e.msg.request {
      ServedStays(s, net, next, q, act, e.dest, e.from);
    }
  }

  lemma HandledMoves(s: System, net: Net, next: Net, q: nat, act: Act)
    requires Invariant(s, net) && Acts(s, net, next, q, act) && act.Hear?
    ensures HandledOk(s, next, Envelope(act.m, act.from, q))
  {
    hide Intake, React, Ok, NodeOk, MessageOk, Served;
    var u := Mid(s.At(q), net.nodes[q], act);
    assert Envelope(act.m, act.from, q) in Heard(q, act);
    IntakeAdds(s.At(q), net.nodes[q], act.from, act.m);
    ReactLeaves(s.At(q), u);
    if act.m.request {
      ServedStays(s, net, next, q, act, q, act.from);
    }
  }

  lemma ActKeeps(s: System, net: Net, next: Net, q: nat, act: Act)
    requires Invariant(s, net)
    ensures Acts(s, net, next, q, act) ==> Invariant(s, next)
  {
    hide Do, Later, NodeOk, MessageOk, HandledOk;
    if !Acts(s, net, next, q, act) {
      return;
    }
    ActLater(s, net, next, q, act);
    forall r: nat
      ensures NodeOk(s, next, r)
    {
      if r == q {
        NodeMoves(s, net, next, q, act);
      } else {
        assert NodeOk(s, net, r);
        NodeStays(s, net, next, r);
      }
    }
    forall e | e in next.sent
      ensures MessageOk(s, next, e)
    {
      if e in net.sent {
        MessageStays(s, net, next, e);
      } else {
        MessageMoves(s, net, next, q, act, e);
      }
    }
    forall e | e in next.delivered
      ensures HandledOk(s, next, e)
    {
      if e in net.delivered {
        HandledStays(s, net, next, q, act, e);
      } else {
        HandledMoves(s, net, next, q, act);
      }
    }
  }

  lemma ForgeKeeps(s: System, net: Net, next: Net, e: Env)
    requires Invariant(s, net) && Forges(s, net, next, e)
    ensures Invariant(s, next)
  {
    hide Ok, NodeOk, MessageOk, Served;
    assert Later(s, net, next);
    forall r: nat
      ensures NodeOk(s, next, r)
    {
      assert NodeOk(s, net, r);
      NodeStays(s, net, next, r);
    }
    forall f | f in next.sent
      ensures MessageOk(s, next, f)
    {
      if f in net.sent {
        MessageStays(s, net, next, f);
      } else {
        ForgedOk(s, net, next, f);
      }
    }
    forall f | f in next.delivered
      ensures HandledOk(s, next, f)
    {
      HandledSame(s, net, next, f);
    }
  }

  lemma ForgedOk(s: System, net: Net, next: Net, e: Env)
    requires Invariant(s, net) && Forges(s, net, next, e)
    ensures MessageOk(s, next, e)
  {
  }

  lemma HandledSame(s: System, net: Net, next: Net, e: Env)
    requires Invariant(s, net) && e in net.delivered
    requires next.nodes == net.nodes && net.sent <= next.sent
    ensures HandledOk(s, next, e)
  {
    hide NodeOk, MessageOk;
    assert HandledOk(s, net, e);
  }

  lemma StepKeeps(s: System, net: Net, next: Net)
    requires Invariant(s, net) && Step(s, net, next)
    ensures Invariant(s, next)
  {
    hide Acts, Forges, Invariant;
    if q, act :| Acts(s, net, next, q, act) {
      ActKeeps(s, net, next, q, act);
    } else {
      var e :| Forges(s, net, next, e);
      ForgeKeeps(s, net, next, e);
    }
  }

  /** A run: it starts with the initial state and moves by steps. */
  ghost predicate Run(s: System, run: seq<Net>) {
    && s.Valid() && |run| > 0 && run[0] == Start(s)
    && forall i: nat, j: nat :: j == i + 1 < |run| ==> Step(s, run[i], run[j])
  }

  lemma {:induction false} RunKeepsInvariant(s: System, run: seq<Net>, i: nat)
    requires Run(s, run) && i < |run|
    ensures Invariant(s, run[i])
  {
    hide Step, Invariant;
    if i == 0 {
      StartOk(s);
    } else {
      RunKeepsInvariant(s, run, i - 1);
      assert Step(s, run[i - 1], run[i]);
      StepKeeps(s, run[i - 1], run[i]);
    }
  }

  /** The state occurs in some run. */
  ghost predicate Reachable(s: System, net: Net) {
    exists run :: Run(s, run) && run[|run| - 1] == net
  }

  lemma StartReachable(s: System)
    requires s.Valid()
    ensures Reachable(s, Start(s))
  {
    assert Run(s, [Start(s)]);
  }

  lemma StepReachable(s: System, net: Net, next: Net)
    requires Reachable(s, net)
    ensures Step(s, net, next) ==> Reachable(s, next)
  {
    hide Step;
    if !Step(s, net, next) {
      return;
    }
    var run :| Run(s, run) && run[|run| - 1] == net;
    var more := run + [next];
    forall i: nat, j: nat | j == i + 1 < |more|
      ensures Step(s, more[i], more[j])
    {
      if j < |run| {
        assert Step(s, run[i], run[j]);
      }
    }
    assert Run(s, more) && more[|more| - 1] == next;
  }

  lemma ReachableOk(s: System, net: Net)
    requires Reachable(s, net)
    ensures Invariant(s, net)
  {
    var run :| Run(s, run) && run[|run| - 1] == net;
    RunKeepsInvariant(s, run, |run| - 1);
  }
}
