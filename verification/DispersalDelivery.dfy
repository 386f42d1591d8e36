/**
 Whole runs of the dispersal that have come to rest: what a correct initiator has dispersed is seen dispersed by all, and
 whoever has asked for a payload of which N-2F correct servers hold their chunk has it.
 */
module DispersalDelivery {
  import opened Common
  import opened Dispersal
  import opened DispersalInvariant
  import opened DispersalStep
  import opened DispersalNetwork
  import opened DispersalRuns
  import opened DispersalProgress

  /** If N-2F correct servers hold their chunk, all are done with what one of them sees dispersed. */
  lemma SeenTerminates(s: System, net: Net, p: nat, q: nat)
    requires Invariant(s, net) && Owed(s, net) && Quiet(s, net) && s.Correct(p) && s.Correct(q)
    requires PayloadDispersed(s.At(p), net.nodes[p]) && Available(s, net, s.cfg.faulty)
    ensures Terminated(s.At(q), net.nodes[q])
  {
    hide ReadySent, Founded, Vouched, MessageOk, HandledOk, WireOk, TakenOk, Quiet;
    SeenEverywhere(s, net, p, q);
    assert NodeOk(s, net, q);
    if net.nodes[q].core.Some? {
      EchosArrive(s, net, q);
    }
  }

  /** Every correct server that holds its chunk may release it. */
  ghost predicate AllRelease(s: System, net: Net)
    requires |net.nodes| == s.cfg.params.n
  {
    forall h :: h in Keepers(s, net) ==> net.nodes[h].canRelease
  }

  /** Who wants the payload has asked every holder, and has its answer. */
  lemma ChunkArrives(s: System, net: Net, h: nat, q: nat)
    requires Invariant(s, net) && Owed(s, net) && Quiet(s, net) && AllRelease(s, net)
    requires s.Correct(q) && Wants(net.nodes[q]) && h in Keepers(s, net)
    ensures net.nodes[h].ourChunk.Some? && Envelope(RespondMsg(net.nodes[h].ourChunk.value), h, q) in net.delivered
  {
    hide ReadySent, Founded, Vouched, Shape, Recorded, WireOk;
    EchoArrives(s, net, h, q);
    var echo := Envelope(EchoMsg(net.nodes[h].ourEcho.value), h, q);
    assert TakenOk(s, net, echo);
    var request := Envelope(REQUEST, q, h);
    assert request in net.delivered && HandledOk(s, net, request);
    assert NodeOk(s, net, h);
    assert Served(net, h, q);
  }

  /** Whoever has asked for the payload has it. */
  lemma AskedHasPayload(s: System, net: Net, q: nat)
    requires Invariant(s, net) && Owed(s, net) && Quiet(s, net) && AllRelease(s, net) && Available(s, net, s.cfg.faulty)
    requires s.Correct(q) && (net.nodes[q].retrieval.Some? ==> net.nodes[q].retrieval.value.scheduled)
    ensures net.nodes[q].payload.Some?
  {
    hide ReadySent, Founded, Vouched, MessageOk, HandledOk, WireOk, TakenOk, Quiet, AllRelease, Settled;
    assert NodeOk(s, net, q);
    if net.nodes[q].payload.None? {
      forall h | h in Keepers(s, net)
        ensures exists m: Msg :: m.respond && Envelope(m, h, q) in net.delivered
      {
        ChunkArrives(s, net, h, q);
        assert RespondMsg(net.nodes[h].ourChunk.value).respond;
      }
      HeardSuffices(s, net, q, Keepers(s, net));
    }
  }

  ghost predicate DispersedTo(sent: set<Env>, i: nat, d: nat) {
    exists e :: e in sent && e.from == i && e.dest == d && e.msg.disperse
  }

  /** The initiator has dispersed. */
  ghost predicate Begun(s: System, net: Net) {
    exists d: nat :: DispersedTo(net.sent, s.initID, d)
  }

  /** A correct initiator disperses to all or to none. */
  ghost predicate Whole(s: System, net: Net) {
    s.Correct(s.initID) && Begun(s, net) ==> forall d: nat :: d < s.cfg.params.n ==> DispersedTo(net.sent, s.initID, d)
  }

  lemma BeginIsWhole(s: System, net: Net, next: Net, q: nat, act: Act)
    requires Acts(s, net, next, q, act) && act.Begin?
    ensures Whole(s, next)
  {
    var out := Do(s.At(q), net.nodes[q], act).1;
    forall d: nat | d < s.cfg.params.n
      ensures DispersedTo(next.sent, s.initID, d)
    {
      assert out[d] in out && out[d] in next.sent;
    }
  }

  lemma WholeStays(s: System, net: Net, next: Net)
    requires Whole(s, net) && net.sent <= next.sent
    requires forall e :: e in next.sent && e !in net.sent && e.msg.disperse && s.Correct(s.initID) ==> e.from != s.initID
    ensures Whole(s, next)
  {
    if s.Correct(s.initID) && Begun(s, next) {
      var d: nat :| DispersedTo(next.sent, s.initID, d);
      assert DispersedTo(net.sent, s.initID, d);
      forall d: nat | d < s.cfg.params.n
        ensures DispersedTo(next.sent, s.initID, d)
      {
        assert DispersedTo(net.sent, s.initID, d);
      }
    }
  }

  lemma ActKeepsWhole(s: System, net: Net, next: Net, q: nat, act: Act)
    requires Invariant(s, net) && Whole(s, net) && Acts(s, net, next, q, act)
    ensures Whole(s, next)
  {
    hide Do, NodeOk, MessageOk, HandledOk, Whole, Ok;
    if act.Begin? {
      BeginIsWhole(s, net, next, q, act);
    } else {
      ActEnabled(s, net, q, act);
      forall e | e in next.sent && e !in net.sent
        ensures !e.msg.disperse
      {
        DoHonest(s.At(q), net.nodes[q], act, e);
      }
      WholeStays(s, net, next);
    }
  }

  lemma StepKeepsWhole(s: System, net: Net, next: Net)
    requires Invariant(s, net) && Whole(s, net) && Step(s, net, next)
    ensures Whole(s, next)
  {
    hide Acts, Whole, Invariant;
    if q: nat, act :| Acts(s, net, next, q, act) {
      ActKeepsWhole(s, net, next, q, act);
    } else {
      WholeStays(s, net, next);
    }
  }

  lemma {:induction false} RunIsWhole(s: System, run: seq<Net>, i: nat)
    requires Run(s, run) && i < |run|
    ensures Whole(s, run[i])
  {
    hide Step, Invariant;
    if i > 0 {
      RunIsWhole(s, run, i - 1);
      RunKeepsInvariant(s, run, i - 1);
      assert Step(s, run[i - 1], run[i]);
      StepKeepsWhole(s, run[i - 1], run[i]);
    }
  }

  /** In a quiet state every server that keeps its core has taken its chunks from a correct initiator that has begun. */
  lemma DisperseArrives(s: System, net: Net, q: nat)
    requires Invariant(s, net) && Owed(s, net) && Quiet(s, net) && Whole(s, net)
    requires s.Correct(s.initID) && Begun(s, net) && s.Correct(q)
    ensures net.nodes[q].core.None? || q in Keepers(s, net)
  {
    hide NodeOk, MessageOk, HandledOk, WireOk;
    assert DispersedTo(net.sent, s.initID, q);
    var e :| e in net.sent && e.from == s.initID && e.dest == q && e.msg.disperse;
    assert TakenOk(s, net, e);
  }

  lemma AllKeepersSpeak(s: System, net: Net, q: nat)
    requires Invariant(s, net) && Owed(s, net) && Quiet(s, net) && s.Correct(q)
    requires forall r :: s.Correct(r) ==> r in Keepers(s, net)
    ensures ReadySent(s, net.sent, q)
  {
    hide ReadySent, Founded, Vouched, MessageOk, HandledOk, WireOk, TakenOk, Quiet;
    assert NodeOk(s, net, q);
    if net.nodes[q].core.Some? {
      CorrectCount(s.cfg, Nodes(s.cfg.params.n));
      SubsetCount(Nodes(s.cfg.params.n) - s.cfg.faulty, Keepers(s, net));
      EchosArrive(s, net, q);
    }
  }

  /** What a correct initiator has dispersed is seen dispersed by all. */
  lemma BegunIsSeen(s: System, net: Net, q: nat)
    requires Invariant(s, net) && Owed(s, net) && Quiet(s, net) && Whole(s, net)
    requires s.Correct(s.initID) && Begun(s, net) && s.Correct(q)
    ensures PayloadDispersed(s.At(q), net.nodes[q])
  {
    hide Invariant, Owed, Quiet, Whole, Begun, Keepers;
    assert |net.nodes| == s.cfg.params.n by {
      InRange(s, net);
    }
    if p: nat :| s.Correct(p) && net.nodes[p].core.None? {
      SeenEverywhere(s, net, p, q);
    } else {
      forall r: nat | s.Correct(r)
        ensures r in Keepers(s, net)
      {
        DisperseArrives(s, net, r);
      }
      forall r: nat | s.Correct(r)
        ensures ReadySent(s, net.sent, r)
      {
        AllKeepersSpeak(s, net, r);
      }
      AllReadysCount(s, net, q);
    }
  }

  lemma InRange(s: System, net: Net)
    requires Invariant(s, net)
    ensures |net.nodes| == s.cfg.params.n
  {
  }

  /** N-2F correct servers hold their chunk: sure if the initiator is faulty or fewer than F servers are. */
  lemma SeenIsAvailable(s: System, run: seq<Net>, i: nat, p: nat)
    requires Run(s, run) && i < |run| && |run[i].nodes| == s.cfg.params.n
    requires s.Correct(p) && PayloadDispersed(s.At(p), run[i].nodes[p])
    ensures s.initID in s.cfg.faulty || |s.cfg.faulty| < s.cfg.params.f ==> Available(s, run[i], s.cfg.faulty)
  {
    if s.initID in s.cfg.faulty || |s.cfg.faulty| < s.cfg.params.f {
      InitiatorShields(s, s.cfg.faulty);
      DispersedIsAvailable(s, run, i, s.cfg.faulty, p);
    }
  }

  /**
   Delivery: when all messages between correct servers have been handled, all correct servers see dispersed what a correct
   initiator has dispersed or one of them sees dispersed; and they are done with it if N-2F correct servers hold their chunk.
   */
  lemma EveryoneIsDone(s: System, run: seq<Net>, i: nat, p: nat, q: nat)
    requires Run(s, run) && i < |run| && |run[i].nodes| == s.cfg.params.n && Quiet(s, run[i]) && s.Correct(p) && s.Correct(q)
    requires (s.Correct(s.initID) && Begun(s, run[i])) || PayloadDispersed(s.At(p), run[i].nodes[p])
    ensures PayloadDispersed(s.At(q), run[i].nodes[q])
    ensures Available(s, run[i], s.cfg.faulty) ==> Terminated(s.At(q), run[i].nodes[q])
    ensures s.initID in s.cfg.faulty || |s.cfg.faulty| < s.cfg.params.f ==> Available(s, run[i], s.cfg.faulty)
  {
    hide NodeOk, MessageOk, HandledOk, WireOk, TakenOk, Quiet, Whole, Begun, Holders;
    RunIsOwed(s, run, i);
    RunIsWhole(s, run, i);
    if s.Correct(s.initID) && Begun(s, run[i]) {
      BegunIsSeen(s, run[i], q);
    } else {
      SeenEverywhere(s, run[i], p, q);
    }
    SeenIsAvailable(s, run, i, q);
    if Available(s, run[i], s.cfg.faulty) {
      SeenTerminates(s, run[i], q, q);
    }
  }

  /** Retrieval: if moreover the holders release their chunks, whoever has asked for the payload has it. */
  lemma AskersHavePayload(s: System, run: seq<Net>, i: nat, q: nat)
    requires Run(s, run) && i < |run| && |run[i].nodes| == s.cfg.params.n && Quiet(s, run[i]) && s.Correct(q)
    requires Available(s, run[i], s.cfg.faulty) && AllRelease(s, run[i])
    requires run[i].nodes[q].retrieval.Some? ==> run[i].nodes[q].retrieval.value.scheduled
    ensures run[i].nodes[q].payload.Some?
  {
    hide Invariant, Owed;
    RunIsOwed(s, run, i);
    AskedHasPayload(s, run[i], q);
  }
}
