/** Whole runs of Binary Agreement: the invariant holds in every state, and with it agreement and validity. */
module AgreementRuns {
  import opened Common
  import opened AgreementEpoch
  import opened Agreement
  import opened AgreementSafety
  import opened AgreementNetwork
  import opened AgreementTermination
  import AC = AgreementCore
  import AO = AgreementOpposed

  /** The Terms a server has recorded dissent from one value on at most F servers, the faulty ones. */
  lemma TermsMostlyAgree(c: Config, h: History, terms: seq<Option<TermStatus>>) returns (v: bool)
    requires c.Valid() && Justified(c, h) && TermsKnown(c, h, terms)
    ensures |Dissenters(terms, v)| <= c.params.f
  {
    v := true;
    if j: nat :| j < |terms| && terms[j].Some? && c.Correct(j) {
      v := terms[j].value.value;
      var d := terms[j].value.epoch;
      assert CorrectTerm(c, h, d, v);
      forall i: nat | i in Dissenters(terms, v)
        ensures i in c.faulty
      {
        if c.Correct(i) {
          assert CorrectTerm(c, h, terms[i].value.epoch, terms[i].value.value);
          TermsAgree(c, h, d, v, terms[i].value.epoch, terms[i].value.value);
        }
      }
    }
    assert Dissenters(terms, v) <= c.faulty;
    SubsetCount(Dissenters(terms, v), c.faulty);
  }

  /** Every message that can reach a correct server is handled to the end: no panic and no endless loop. */
  lemma DeliveryEnds(c: Config, h: History, q: nat, core: Core, from: nat, m: BAMsg)
    requires c.Valid() && Justified(c, h) && c.Correct(q) && CoreKnows(c, h, q, core) && PointersOk(core)
    requires Deliverable(c, h, from, m)
    ensures Ended(Recv(c.params, Running(core), from, m).0)
  {
    RecordStep(c, h, q, core, from, m);
    var (core1, out) := Record(c.params, core, from, m);
    var k := Post(h, q, out);
    forall e: nat | e < |core1.epochs|
      ensures WellFormed(c.params, core1.epochs[e])
    {
      assert KnownAt(c, k, q, core1, e);
    }
    var v := TermsMostlyAgree(c, k, core1.terms);
    RecvEnds(c.params, core, from, m, v);
  }

  lemma DeliverKeeps(c: Config, net: Net, next: Net, q: nat, from: nat, m: BAMsg)
    requires Shaped(c, net) && Invariant(c, net) && Deliver(c, net, next, q, from, m)
    ensures Invariant(c, next)
  {
    var h := net.history;
    var (s, out) := Recv(c.params, net.servers[q], from, m);
    if net.servers[q].Running? {
      DeliveryEnds(c, h, q, net.servers[q].core, from, m);
      RecvStep(c, h, q, net.servers[q].core, from, m);
    } else {
      PostNothing(h, q);
    }
    ServerMoves(c, net, q, s, Post(h, q, out));
  }

  lemma GiveInputKeeps(c: Config, net: Net, next: Net, q: nat, v: bool)
    requires Shaped(c, net) && Invariant(c, net) && GiveInput(c, net, next, q, v)
    ensures Invariant(c, next)
  {
    var h := WithInput(net.history, q, v);
    InputKeepsJustified(c, net.history, q, v);
    InputKeepsKnowing(c, net.history, q, net.servers[q], v);
    var (s, out) := Input(net.servers[q], v);
    if net.servers[q].Running? {
      InputStep(c, h, q, net.servers[q].core, v);
    } else {
      PostNothing(h, q);
    }
    ServerMoves(c, net, q, s, Post(h, q, out));
  }

  lemma InputKeepsKnowing(c: Config, h: History, q: nat, s: State, v: bool)
    requires ServerKnows(c, h, q, s)
    ensures ServerKnows(c, WithInput(h, q, v), q, s)
  {
    if s.Running? {
      var k := WithInput(h, q, v);
      forall i: nat
        ensures KnownAt(c, k, q, s.core, i)
      {
        assert KnownAt(c, h, q, s.core, i);
        if i < |s.core.epochs| {
          EpochKnowsGrows(c, h, k, q, i, s.core.epochs[i]);
        }
      }
    }
  }

  lemma StepKeeps(c: Config, net: Net, next: Net)
    requires Shaped(c, net) && Invariant(c, net) && Step(c, net, next)
    ensures Invariant(c, next)
  {
    if q, from, m :| Deliver(c, net, next, q, from, m) {
      DeliverKeeps(c, net, next, q, from, m);
    } else {
      var q, v :| GiveInput(c, net, next, q, v);
      GiveInputKeeps(c, net, next, q, v);
    }
  }

  /** A run: it starts with the initial state and moves by steps. */
  ghost predicate Run(c: Config, run: seq<Net>) {
    && c.Valid() && |run| > 0 && run[0] == Start(c)
    && forall i: nat, j: nat :: j == i + 1 < |run| ==> Moves(c, run[i], run[j])
  }

  ghost predicate Moves(c: Config, net: Net, next: Net) {
    Shaped(c, net) && Step(c, net, next)
  }

  lemma {:induction false} RunKeepsInvariant(c: Config, run: seq<Net>, i: nat)
    requires Run(c, run) && i < |run|
    ensures Invariant(c, run[i])
  {
    if i == 0 {
      StartKnows(c);
    } else {
      RunKeepsInvariant(c, run, i - 1);
      assert Moves(c, run[i - 1], run[i]);
      StepKeeps(c, run[i - 1], run[i]);
    }
  }

  lemma InvariantGivesAgreement(c: Config, net: Net, q: nat, r: nat)
    requires Invariant(c, net) && c.Correct(q) && c.Correct(r)
    requires net.servers[q].Decided? && net.servers[r].Decided?
    ensures net.servers[q].output == net.servers[r].output
  {
    var d: nat :| (q, TermMsg(d, net.servers[q].output)) in net.history.sent;
    var e: nat :| (r, TermMsg(e, net.servers[r].output)) in net.history.sent;
    assert CorrectTerm(c, net.history, d, net.servers[q].output);
    assert CorrectTerm(c, net.history, e, net.servers[r].output);
    TermsAgree(c, net.history, d, net.servers[q].output, e, net.servers[r].output);
  }

  lemma InvariantGivesValidity(c: Config, net: Net, q: nat)
    requires Invariant(c, net) && c.Correct(q) && net.servers[q].Decided?
    ensures CorrectInput(c, net.history, net.servers[q].output)
  {
    var d: nat :| (q, TermMsg(d, net.servers[q].output)) in net.history.sent;
    assert CorrectTerm(c, net.history, d, net.servers[q].output);
    TermIsInput(c, net.history, d, net.servers[q].output);
  }

  lemma StepKeepsDecision(c: Config, net: Net, next: Net, q: nat)
    requires Shaped(c, net) && Step(c, net, next) && c.Correct(q) && net.servers[q].Decided?
    ensures |next.servers| == c.params.n && next.servers[q] == net.servers[q]
  {
    if r, from, m :| Deliver(c, net, next, r, from, m) {
    } else {
      var r, v :| GiveInput(c, net, next, r, v);
    }
  }

  /** A decision is kept by every later step. */
  lemma {:induction false} DecisionIsKept(c: Config, run: seq<Net>, i: nat, j: nat, q: nat)
    requires Run(c, run) && i <= j < |run| && c.Correct(q)
    requires |run[i].servers| == c.params.n && run[i].servers[q].Decided?
    ensures |run[j].servers| == c.params.n && run[j].servers[q] == run[i].servers[q]
    decreases j
  {
    hide Start, Step, Shaped;
    if i < j {
      DecisionIsKept(c, run, i, j - 1, q);
      assert Moves(c, run[j - 1], run[j]);
      StepKeepsDecision(c, run[j - 1], run[j], q);
    }
  }

  /**
   Agreement over whole runs: correct servers that terminate, at whatever points of the run and in whatever epochs,
   output one value.
   */
  lemma RunsAgree(c: Config, run: seq<Net>, i: nat, q: nat, j: nat, r: nat)
    requires Run(c, run) && i < |run| && j < |run| && c.Correct(q) && c.Correct(r)
    requires |run[i].servers| == c.params.n && run[i].servers[q].Decided?
    requires |run[j].servers| == c.params.n && run[j].servers[r].Decided?
    ensures run[i].servers[q].output == run[j].servers[r].output
  {
    var k := if i <= j then j else i;
    DecisionIsKept(c, run, i, k, q);
    DecisionIsKept(c, run, j, k, r);
    RunKeepsInvariant(c, run, k);
    InvariantGivesAgreement(c, run[k], q, r);
  }

  /** Validity over whole runs: an output was the input of some correct server. */
  lemma RunsAreValid(c: Config, run: seq<Net>, i: nat, q: nat)
    requires Run(c, run) && i < |run| && c.Correct(q)
    requires |run[i].servers| == c.params.n && run[i].servers[q].Decided?
    ensures CorrectInput(c, run[i].history, run[i].servers[q].output)
  {
    RunKeepsInvariant(c, run, i);
    InvariantGivesValidity(c, run[i], q);
  }

  /** No correct server of a run has panicked or is stuck in its catch-up loop. */
  lemma RunsDoNotGetStuck(c: Config, run: seq<Net>, i: nat, q: nat)
    requires Run(c, run) && i < |run| && c.Correct(q)
    ensures |run[i].servers| == c.params.n && Ended(run[i].servers[q])
  {
    RunKeepsInvariant(c, run, i);
  }

  lemma DeliveryUnopposed(c: Config, h: History, q: nat, core: Core, from: nat, m: BAMsg)
    requires c.Valid() && Justified(c, h) && c.Correct(q) && CoreKnows(c, h, q, core) && PointersOk(core)
    requires Deliverable(c, h, from, m)
    ensures from < |core.terms| && !AO.Opposed(c.params, AC.TermsAfter(core.terms, from, m))
    ensures !AO.Trapped(c.params, Record(c.params, core, from, m).0)
  {
    RecordStep(c, h, q, core, from, m);
    var (core1, out) := Record(c.params, core, from, m);
    AC.RecordsTerm(c.params, core, from, m);
    var v := TermsMostlyAgree(c, Post(h, q, out), core1.terms);
    AO.FewAreNotOpposed(c.params, core1.terms, v);
  }

  /** Every message that can reach a running BA of a correct server in a run leaves the Terms on record unopposed. */
  lemma RunsAreUnopposed(c: Config, run: seq<Net>, i: nat, q: nat, from: nat, m: BAMsg)
    requires Run(c, run) && i < |run| && c.Correct(q) && Deliverable(c, run[i].history, from, m)
    ensures |run[i].servers| == c.params.n
    ensures var s := run[i].servers[q];
            s.Running? ==>
              && from < |s.core.terms| && !AO.Opposed(c.params, AC.TermsAfter(s.core.terms, from, m))
              && !AO.Trapped(c.params, Record(c.params, s.core, from, m).0)
  {
    hide CoreKnows, Justified, Deliverable, AO.Opposed, AO.Trapped, Record;
    RunKeepsInvariant(c, run, i);
    var s := run[i].servers[q];
    assert ServerKnows(c, run[i].history, q, s);
    if s.Running? {
      DeliveryUnopposed(c, run[i].history, q, s.core, from, m);
    }
  }

  /** The state occurs in some run. */
  ghost predicate Reachable(c: Config, net: Net) {
    exists run :: Run(c, run) && run[|run| - 1] == net
  }

  lemma StartReachable(c: Config)
    requires c.Valid()
    ensures Reachable(c, Start(c))
  {
    assert Run(c, [Start(c)]);
  }

  lemma MoveReachable(c: Config, net: Net, next: Net)
    requires Reachable(c, net)
    ensures Moves(c, net, next) ==> Reachable(c, next)
  {
    hide Moves;
    if !Moves(c, net, next) {
      return;
    }
    var run :| Run(c, run) && run[|run| - 1] == net;
    var more := run + [next];
    forall i: nat, j: nat | j == i + 1 < |more|
      ensures Moves(c, more[i], more[j])
    {
      if j < |run| {
        assert Moves(c, run[i], run[j]);
      }
    }
    assert Run(c, more) && more[|more| - 1] == next;
  }

  lemma ReachableOk(c: Config, net: Net)
    requires Reachable(c, net)
    ensures Invariant(c, net)
  {
    var run :| Run(c, run) && run[|run| - 1] == net;
    RunKeepsInvariant(c, run, |run| - 1);
  }

  lemma InvariantShapes(c: Config, net: Net)
    requires Invariant(c, net)
    ensures Shaped(c, net)
  {
    forall q: nat | c.Correct(q) && net.servers[q].Running?
      ensures |net.servers[q].core.terms| == c.params.n && PointersOk(net.servers[q].core)
    {
      assert ServerKnows(c, net.history, q, net.servers[q]);
    }
  }
}
