/**
 A dispersal that its correct initiator has not begun: whatever the faulty servers send, no correct server stores a
 chunk, speaks up or decodes anything, because F servers alone reach no threshold.
 */
module DispersalSilence {
  import opened Common
  import opened Dispersal
  import opened DispersalInvariant
  import opened DispersalStep
  import opened DispersalNetwork

  /** The messages by which server i disperses. */
  ghost function Disperses(sent: set<Env>, i: nat): set<Env> {
    set e | e in sent && e.from == i && e.msg.disperse
  }

  /** The server has heard nothing but what faulty servers say. */
  ghost predicate Silent(c: Ctx, v: VID, faulty: set<nat>) {
    && v.ourChunk.None? && v.ourEcho.None?
    && v.payload == (if c.id == c.initID then Some(EmptyPayload) else None)
    && (v.retrieval.Some? ==> v.retrieval.value.chunks.Keys <= faulty)
    && v.core.Some? && !v.core.value.sentReady
    && v.core.value.readys <= faulty && v.core.value.echos.Keys <= faulty
  }

  /** The message adds nothing to what faulty servers say. */
  predicate Harmless(c: Ctx, from: nat, m: Msg, faulty: set<nat>) {
    && m.Complete()
    && (from in faulty || !(m.echo || m.ready || m.respond))
    && (m.disperse ==> from != c.initID)
  }

  lemma IntakeStaysSilent(c: Ctx, v: VID, from: nat, m: Msg, faulty: set<nat>)
    requires Silent(c, v, faulty) && Harmless(c, from, m, faulty)
    ensures Silent(c, Intake(c, v, from, m).0, faulty)
  {
  }

  lemma TooFew(p: Params, slots: map<nat, Bytes>, faulty: set<nat>)
    requires p.Resilient() && |faulty| <= p.f && slots.Keys <= faulty
    ensures |slots| < Enough(p) && |slots| + p.f < p.n
  {
    SubsetCount(slots.Keys, faulty);
    assert |slots.Keys| == |slots|;
  }

  lemma ReactStaysSilent(c: Ctx, v: VID, faulty: set<nat>)
    requires c.p.Resilient() && |faulty| <= c.p.f && Silent(c, v, faulty)
    ensures Silent(c, React(c, v).0, faulty)
  {
    hide Gather, Answers;
    TooFew(c.p, v.core.value.echos, faulty);
    if v.retrieval.Some? {
      TooFew(c.p, v.retrieval.value.chunks, faulty);
    }
    SubsetCount(v.core.value.readys, faulty);
  }

  ghost predicate AllSilent(s: System, net: Net)
    requires |net.nodes| == s.cfg.params.n
  {
    forall q: nat :: s.Correct(q) ==> Silent(s.At(q), net.nodes[q], s.cfg.faulty)
  }

  /** Without anything stored or said, a correct server has sent nothing of interest. */
  lemma HeardIsHarmless(s: System, net: Net, q: nat, from: nat, m: Msg)
    requires Invariant(s, net) && AllSilent(s, net) && s.Correct(s.initID) && Disperses(net.sent, s.initID) == {}
    requires Envelope(m, from, q) in net.sent
    ensures Harmless(s.At(q), from, m, s.cfg.faulty)
  {
    hide NodeOk, HandledOk, ReadySent;
    var e := Envelope(m, from, q);
    assert MessageOk(s, net, e);
    assert e !in Disperses(net.sent, s.initID);
    if s.Correct(from) {
      assert Silent(s.At(from), net.nodes[from], s.cfg.faulty);
    }
  }

  lemma BeginDisperses(s: System, net: Net, next: Net, q: nat, act: Act)
    requires Acts(s, net, next, q, act) && act.Begin?
    ensures Disperses(next.sent, s.initID) != {}
  {
    var out := Disperse(s.At(q), net.nodes[q], act.x, act.y).1;
    assert out[0] in out;
    assert out[0] in Disperses(next.sent, s.initID);
  }

  lemma ActStaysSilent(s: System, net: Net, next: Net, q: nat, act: Act)
    requires Invariant(s, net) && AllSilent(s, net) && s.Correct(s.initID)
    requires Disperses(next.sent, s.initID) == {} && Acts(s, net, next, q, act)
    ensures Silent(s.At(q), next.nodes[q], s.cfg.faulty)
  {
    hide Intake, React, NodeOk, MessageOk, HandledOk, Harmless;
    var c, v := s.At(q), net.nodes[q];
    assert Silent(c, v, s.cfg.faulty);
    match act
    case Hear(from, m) =>
      assert Envelope(m, from, q) in Heard(q, act);
      assert Disperses(net.sent, s.initID) <= Disperses(next.sent, s.initID);
      HeardIsHarmless(s, net, q, from, m);
      IntakeStaysSilent(c, v, from, m, s.cfg.faulty);
      ReactStaysSilent(c, Intake(c, v, from, m).0, s.cfg.faulty);
    case Begin(_, _) => BeginDisperses(s, net, next, q, act);
    case _ =>
  }

  lemma StepStaysSilent(s: System, net: Net, next: Net)
    requires Invariant(s, net) && AllSilent(s, net) && s.Correct(s.initID)
    requires Disperses(next.sent, s.initID) == {} && Step(s, net, next)
    ensures |next.nodes| == s.cfg.params.n && AllSilent(s, next)
  {
    hide Do, Silent, NodeOk, MessageOk, HandledOk;
    if q, act :| Acts(s, net, next, q, act) {
      ActStaysSilent(s, net, next, q, act);
    }
  }

  lemma StepDisperses(s: System, net: Net, next: Net)
    requires Step(s, net, next)
    ensures Disperses(net.sent, s.initID) <= Disperses(next.sent, s.initID)
  {
    hide Do;
  }

  lemma StartSilent(s: System)
    requires s.Valid()
    ensures |Start(s).nodes| == s.cfg.params.n && AllSilent(s, Start(s))
  {
  }

  lemma {:induction false} RunIsSilent(s: System, run: seq<Net>, i: nat)
    requires Run(s, run) && i < |run| && s.Correct(s.initID) && Disperses(run[i].sent, s.initID) == {}
    ensures Invariant(s, run[i]) && AllSilent(s, run[i])
  {
    hide Step, Invariant, Silent, Disperses;
    RunKeepsInvariant(s, run, i);
    if i == 0 {
      StartSilent(s);
    } else {
      assert Step(s, run[i - 1], run[i]);
      StepDisperses(s, run[i - 1], run[i]);
      RunIsSilent(s, run, i - 1);
      StepStaysSilent(s, run[i - 1], run[i]);
    }
  }

  /** As long as a correct initiator has not begun, no correct server holds a chunk, or a payload but its placeholder. */
  lemma UnbegunIsSilent(s: System, net: Net, q: nat)
    requires Reachable(s, net) && s.Correct(s.initID) && Disperses(net.sent, s.initID) == {} && s.Correct(q)
    ensures |net.nodes| == s.cfg.params.n && Silent(s.At(q), net.nodes[q], s.cfg.faulty)
    ensures !PayloadDispersed(s.At(q), net.nodes[q])
  {
    hide NodeOk, MessageOk, HandledOk;
    var run :| Run(s, run) && run[|run| - 1] == net;
    RunIsSilent(s, run, |run| - 1);
    SubsetCount(net.nodes[q].core.value.readys, s.cfg.faulty);
  }
}
