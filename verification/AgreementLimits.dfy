/**
 Which clusters the bound on dissenting Terms protects: in one of at most 4F+1 servers no sequence of messages makes a BA
 loop forever, in any larger one some sequence does.
 */
module AgreementLimits {
  import opened Common
  import opened AgreementEpoch
  import opened Agreement
  import opened AgreementCore
  import opened AgreementOpposed

  /** The messages, each with its sender, take a BA from state s to state t. */
  ghost predicate Leads(p: Params, s: State, msgs: seq<(nat, BAMsg)>, t: State)
    decreases |msgs|
  {
    if msgs == [] then s == t
    else
      var (from, m) := msgs[0];
      && from < p.n && (s.Running? ==> |s.core.terms| == p.n && s.core.epochNum < |s.core.epochs|)
      && Leads(p, Recv(p, s, from, m).0, msgs[1..], t)
  }

  lemma {:induction false} SmallEnds(p: Params, s: State, msgs: seq<(nat, BAMsg)>, t: State)
    requires p.Resilient() && p.n <= 4 * p.f + 1 && Leads(p, s, msgs, t)
    requires !s.Diverged? && (s.Running? ==> CoreOk(p, s.core))
    ensures !t.Diverged?
    decreases |msgs|
  {
    hide Recv, WellFormed;
    if msgs != [] {
      var (from, m) := msgs[0];
      if s.Running? {
        FewAreNotOpposed(p, TermsAfter(s.core.terms, from, m), true);
        UnopposedEnds(p, s.core, from, m);
        RecvKeepsCore(p, s.core, from, m);
      } else {
        NotRunningStays(p, s, from, m);
      }
      SmallEnds(p, Recv(p, s, from, m).0, msgs[1..], t);
    }
  }

  lemma NotRunningStays(p: Params, s: State, from: nat, m: BAMsg)
    requires !s.Running?
    ensures Recv(p, s, from, m).0 == s
  {
  }

  lemma InitialCoreOk(p: Params)
    requires p.Resilient()
    ensures CoreOk(p, Initial(p).core)
  {
    FreshWellFormed(p);
  }

  /** A message of epoch 0 to a BA that has no other epoch yet. */
  lemma RecvFirst(p: Params, core: Core, from: nat, s: Signal)
    requires |core.epochs| == 1 && core.epochNum == 0 && from < |core.terms|
    ensures var ep := RecvSignal(p, core.epochs[0], from, s).0;
            var core1 := core.(epochs := [ep]);
            && Record(p, core, from, EpochMsg(0, s)).0 == core1
            && (!ep.termed ==> Recv(p, Running(core), from, EpochMsg(0, s)).0 == Running(core1))
  {
    hide RecvSignal;
    var ep := RecvSignal(p, core.epochs[0], from, s).0;
    assert core.epochs[0 := ep] == [ep];
  }

  /** A Term of epoch 0 is only recorded by such a BA. */
  lemma TermFirst(p: Params, core: Core, from: nat, v: bool)
    requires |core.epochs| == 1 && core.epochNum == 0 && from < |core.terms| && core.terms[from].None? && !core.epochs[0].termed
    ensures Recv(p, Running(core), from, TermMsg(0, v)).0
            == Running(core.(terms := core.terms[from := Some(TermStatus(0, v))]))
  {
  }

  /** The BA has recorded these Terms, and epoch 0 has heard Viable(false) from k servers and Agreement(false) from a. */
  ghost predicate Prepared(p: Params, core: Core, terms: seq<Option<TermStatus>>, k: nat, a: nat) {
    && |core.epochs| == 1 && core.epochNum == 0 && core.terms == terms && |terms| == p.n
    && (forall j :: 0 <= j < p.n && terms[j].Some? ==> terms[j].value.epoch == 0)
    && Deaf(p, core.epochs[0], k, a)
  }

  ghost predicate Deaf(p: Params, ep: Epoch, k: nat, a: nat) {
    && WellFormed(p, ep) && ep.yes.heard == {} && ep.no.heard == Nodes(k)
    && ep.agreed.Keys == Nodes(a) && forall j :: j in ep.agreed ==> !ep.agreed[j]
  }

  /** Such an epoch ends when 2F+1 Viables and N-F Agreements are there, with the value false. */
  lemma DeafEnds(p: Params, ep: Epoch, k: nat, a: nat)
    requires p.Resilient() && Deaf(p, ep, k, a)
    ensures WellFormed(p, ep)
    ensures a + p.f < p.n ==> !ep.termed
    ensures a + p.f >= p.n && k >= 2 * p.f + 1 ==> ep.termed
    ensures ep.termed ==> ep.Candidates() == {false}
  {
    assert SideOk(p, ep, true) && SideOk(p, ep, false);
    BackedOf(ep, {}, Nodes(k), {}, Nodes(a)) by {
      assert Fed(ep, {}, Nodes(k), {}, Nodes(a));
    }
    if ep.termed {
      TerminatedHasCandidate(p, ep);
      assert true !in ep.Candidates();
      BoolSets(ep.Candidates());
    }
  }

  lemma DeafViable(p: Params, ep: Epoch, k: nat)
    requires p.Resilient() && Deaf(p, ep, k, 0) && k < p.n
    ensures Deaf(p, RecvSignal(p, ep, k, Signal(Viable, false)).0, k + 1, 0)
  {
    DeafEnds(p, ep, k, 0);
    RecvKeeps(p, ep, k, Signal(Viable, false));
  }

  lemma DeafAgreement(p: Params, ep: Epoch, k: nat, a: nat)
    requires p.Resilient() && Deaf(p, ep, k, a) && a + p.f < p.n
    ensures Deaf(p, RecvSignal(p, ep, a, Signal(AgreementEpoch.Agreement, false)).0, k, a + 1)
  {
    hide Settle, OnAgreement;
    DeafEnds(p, ep, k, a);
    RecvKeeps(p, ep, a, Signal(AgreementEpoch.Agreement, false));
    AgreementFed(ep, a, false, {}, Nodes(k), {}, Nodes(a));
    SettleFed(p, OnAgreement(ep, a, false), {}, Nodes(k), {}, Nodes(a) + {a});
    assert Nodes(a + 1) == Nodes(a) + {a};
    NobodyAgrees(RecvSignal(p, ep, a, Signal(AgreementEpoch.Agreement, false)).0, Nodes(k), Nodes(a + 1));
  }

  lemma NobodyAgrees(ep: Epoch, heard: set<nat>, agreed: set<nat>)
    requires Fed(ep, {}, heard, {}, agreed)
    ensures ep.yes.heard == {} && ep.no.heard == heard && ep.agreed.Keys == agreed
    ensures forall j :: j in ep.agreed ==> !ep.agreed[j]
  {
    forall j | j in ep.agreed
      ensures !ep.agreed[j]
    {
      assert j in ep.agreed.Keys;
    }
  }

  /** The Agreements on false end epoch 0 without a decision, and the loop starts. */
  lemma {:induction false} Agreements(p: Params, core: Core, terms: seq<Option<TermStatus>>, a: nat) returns (msgs: seq<(nat, BAMsg)>)
    requires p.Resilient() && Prepared(p, core, terms, p.n, a) && Opposed(p, terms) && a + p.f < p.n
    ensures Leads(p, Running(core), msgs, Diverged)
    decreases p.n - a
  {
    hide Opposed, RecvSignal, Deaf, Recv;
    var s := Signal(AgreementEpoch.Agreement, false);
    var m := EpochMsg(0, s);
    var ep := RecvSignal(p, core.epochs[0], a, s).0;
    var core1 := core.(epochs := [ep]);
    RecvFirst(p, core, a, s);
    DeafAgreement(p, core.epochs[0], p.n, a);
    DeafEnds(p, ep, p.n, a + 1);
    var rest: seq<(nat, BAMsg)> := [];
    if a + 1 + p.f < p.n {
      rest := Agreements(p, core1, terms, a + 1);
    } else {
      LastAgreement(p, core, a, m, core1);
      assert Leads(p, Diverged, [], Diverged);
    }
    msgs := [(a, m)] + rest;
    assert msgs[1..] == rest;
  }

  lemma LastAgreement(p: Params, core: Core, a: nat, m: BAMsg, core1: Core)
    requires p.Resilient() && a < |core.terms| && core.epochNum < |core.epochs| && Record(p, core, a, m).0 == core1
    requires |core1.epochs| == 1 && core1.epochNum == 0 && WellFormed(p, core1.epochs[0]) && Opposed(p, core1.terms)
    requires |core1.terms| == p.n && forall j :: 0 <= j < p.n && core1.terms[j].Some? ==> core1.terms[j].value.epoch == 0
    requires core1.epochs[0].termed && core1.epochs[0].Candidates() == {false}
    ensures Recv(p, Running(core), a, m).0 == Diverged
  {
    hide Opposed, Record, CatchUp, WellFormed;
    assert false in core1.epochs[0].Candidates() && true !in core1.epochs[0].Candidates();
    assert Passable(core1, 0);
    EndlessExactly(p, core1, 0);
  }

  lemma {:induction false} Viables(p: Params, core: Core, terms: seq<Option<TermStatus>>, k: nat) returns (msgs: seq<(nat, BAMsg)>)
    requires p.Resilient() && k <= p.n && Prepared(p, core, terms, k, 0) && Opposed(p, terms)
    ensures Leads(p, Running(core), msgs, Diverged)
    decreases p.n - k
  {
    hide Opposed, RecvSignal, Deaf, Recv;
    if k == p.n {
      msgs := Agreements(p, core, terms, 0);
    } else {
      var s := Signal(Viable, false);
      var ep := RecvSignal(p, core.epochs[0], k, s).0;
      RecvFirst(p, core, k, s);
      DeafViable(p, core.epochs[0], k);
      DeafEnds(p, ep, k + 1, 0);
      var rest := Viables(p, core.(epochs := [ep]), terms, k + 1);
      msgs := [(k, EpochMsg(0, s))] + rest;
      assert msgs[1..] == rest;
    }
  }

  /** The first j servers have sent Terms, 2F+1 of them for true and the others for false. */
  function SomeTerms(p: Params, j: nat): seq<Option<TermStatus>> {
    seq(p.n, i requires 0 <= i < p.n => if i < j then Some(TermStatus(0, i <= 2 * p.f)) else None)
  }

  lemma AllTermsOppose(p: Params)
    requires p.n >= 4 * p.f + 2
    ensures Opposed(p, SomeTerms(p, p.n))
  {
    var terms := SomeTerms(p, p.n);
    assert Voters(terms, true) == Nodes(2 * p.f + 1);
    assert Voters(terms, false) == Nodes(p.n) - Nodes(2 * p.f + 1);
    assert Nodes(p.n) * Nodes(2 * p.f + 1) == Nodes(2 * p.f + 1);
    assert |Nodes(p.n) - Nodes(2 * p.f + 1)| == |Nodes(p.n)| - |Nodes(p.n) * Nodes(2 * p.f + 1)|;
  }

  lemma {:induction false} Terms(p: Params, core: Core, j: nat) returns (msgs: seq<(nat, BAMsg)>)
    requires p.Resilient() && p.n >= 4 * p.f + 2 && j <= p.n && Prepared(p, core, SomeTerms(p, j), 0, 0)
    ensures Leads(p, Running(core), msgs, Diverged)
    decreases p.n - j
  {
    hide Opposed, Recv, Deaf;
    if j == p.n {
      AllTermsOppose(p);
      msgs := Viables(p, core, SomeTerms(p, j), 0);
    } else {
      var v := j <= 2 * p.f;
      DeafEnds(p, core.epochs[0], 0, 0);
      TermFirst(p, core, j, v);
      var core1 := core.(terms := core.terms[j := Some(TermStatus(0, v))]);
      assert core1.terms == SomeTerms(p, j + 1);
      var rest := Terms(p, core1, j + 1);
      msgs := [(j, TermMsg(0, v))] + rest;
      assert msgs[1..] == rest;
    }
  }

  /** Some messages drive a new BA into an endless loop exactly if there are at least 4F+2 servers. */
  lemma DivergesExactly(p: Params)
    requires p.Resilient()
    ensures (exists msgs :: Leads(p, Initial(p), msgs, Diverged)) <==> p.n >= 4 * p.f + 2
  {
    hide Leads, CoreOk;
    InitialCoreOk(p);
    if p.n >= 4 * p.f + 2 {
      InitialPrepared(p);
      var msgs := Terms(p, Initial(p).core, 0);
    } else {
      forall msgs | Leads(p, Initial(p), msgs, Diverged)
        ensures false
      {
        SmallEnds(p, Initial(p), msgs, Diverged);
      }
    }
  }

  lemma InitialPrepared(p: Params)
    requires p.Resilient()
    ensures Prepared(p, Initial(p).core, SomeTerms(p, 0), 0, 0)
  {
    FreshWellFormed(p);
  }
}
