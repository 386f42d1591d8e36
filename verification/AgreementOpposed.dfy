/**
 Exactly when the catch-up loop of BA.Recv is endless: when the recorded Terms alone let a fresh epoch end with both
 values, which is a matter of counting them, and no allocated epoch stops the loop on its way.
 */
module AgreementOpposed {
  import opened Common
  import opened AgreementEpoch
  import opened Agreement
  import opened AgreementCore
  import opened AgreementTermination

  /** The servers whose recorded Term is for v. */
  ghost function Voters(terms: seq<Option<TermStatus>>, v: bool): set<nat> {
    set j: nat | j < |terms| && terms[j].Some? && terms[j].value.value == v
  }

  /** Enough Terms for either value to believe it, and enough in all to end an epoch. */
  ghost predicate Opposed(p: Params, terms: seq<Option<TermStatus>>) {
    && |Voters(terms, true)| >= 2 * p.f + 1 && |Voters(terms, false)| >= 2 * p.f + 1
    && |Voters(terms, true)| + |Voters(terms, false)| + p.f >= p.n
  }

  /** Those of hy and hn have been heard for the two values, those of ay and an agree with them. */
  ghost predicate Fed(ep: Epoch, hy: set<nat>, hn: set<nat>, ay: set<nat>, an: set<nat>) {
    && ep.yes.heard == hy && ep.no.heard == hn && ep.agreed.Keys == ay + an
    && (forall j :: j in ay ==> j in ep.agreed && ep.agreed[j]) && (forall j :: j in an ==> j in ep.agreed && !ep.agreed[j])
  }

  /** How an epoch that has heard of the two values from hy and hn has ended: with both values, or with one that N-F have
      sent. */
  ghost predicate EndedBy(p: Params, ep: Epoch, hy: set<nat>, hn: set<nat>) {
    if ep.Candidates() == {true, false} then
      |hy| >= 2 * p.f + 1 && |hn| >= 2 * p.f + 1 && |hy| + |hn| + p.f >= p.n
    else |hy| + p.f >= p.n || |hn| + p.f >= p.n
  }

  /** Which Agreements back a believed value. */
  lemma BackedOf(ep: Epoch, hy: set<nat>, hn: set<nat>, ay: set<nat>, an: set<nat>)
    requires Fed(ep, hy, hn, ay, an)
    ensures ep.Backed() == (if ep.yes.believed then ay else {}) + (if ep.no.believed then an else {})
  {
    forall j
      ensures j in ep.Backed() <==> j in (if ep.yes.believed then ay else {}) + (if ep.no.believed then an else {})
    {
      if j in ep.agreed {
        assert j in ep.agreed.Keys;
      }
    }
  }

  lemma FedEnds(p: Params, ep: Epoch, hy: set<nat>, hn: set<nat>, ay: set<nat>, an: set<nat>)
    requires WellFormed(p, ep) && Fed(ep, hy, hn, ay, an) && ay <= hy && an <= hn && ep.termed
    requires ep.yes.believed && ep.no.believed ==> ay != {} && an != {}
    ensures EndedBy(p, ep, hy, hn)
  {
    BackedOf(ep, hy, hn, ay, an);
    assert SideOk(p, ep, true) && SideOk(p, ep, false);
    SubsetCount(ay, hy);
    SubsetCount(an, hn);
    if ep.yes.believed && ep.no.believed {
      var a, b :| a in ay && b in an;
      assert a in ep.Backed() && b in ep.Backed();
      assert ep.At(ep.agreed[a]).candidate && ep.At(ep.agreed[b]).candidate;
      UnionCount(ay, an);
    } else {
      assert ep.Candidates() != {true, false} by {
        assert !(ep.yes.candidate && ep.no.candidate);
        assert !(true in ep.Candidates() && false in ep.Candidates());
      }
    }
  }

  lemma UnionCount(a: set<nat>, b: set<nat>)
    ensures |a + b| <= |a| + |b|
  {
    assert |a + b| == |a| + |b| - |a * b|;
  }

  /** Taking in the Viable of server j. */
  lemma FeedViable(p: Params, ep: Epoch, j: nat, v: bool, hy: set<nat>, hn: set<nat>)
    requires p.Resilient() && WellFormed(p, ep) && !ep.termed && Fed(ep, hy, hn, hy, hn) && j < p.n && j !in hy + hn
    ensures var ep1 := RecvSignal(p, ep, j, Signal(Viable, v)).0;
            var hy1, hn1 := if v then hy + {j} else hy, if v then hn else hn + {j};
            && WellFormed(p, ep1) && Fed(ep1, hy1, hn1, hy, hn) && (ep1.termed ==> EndedBy(p, ep1, hy1, hn1))
  {
    var ep1 := RecvSignal(p, ep, j, Signal(Viable, v)).0;
    var hy1, hn1 := if v then hy + {j} else hy, if v then hn else hn + {j};
    RecvKeeps(p, ep, j, Signal(Viable, v));
    assert Fed(ep1, hy1, hn1, hy, hn);
    assert SideOk(p, ep, true) && SideOk(p, ep, false) && SideOk(p, ep1, true) && SideOk(p, ep1, false);
    if ep1.termed {
      BackedOf(ep, hy, hn, hy, hn);
      BackedOf(ep1, hy1, hn1, hy, hn);
      FedEnds(p, ep1, hy1, hn1, hy, hn);
    }
  }

  lemma SettleFed(p: Params, ep: Epoch, hy: set<nat>, hn: set<nat>, ay: set<nat>, an: set<nat>)
    requires Fed(ep, hy, hn, ay, an)
    ensures Fed(Settle(p, ep), hy, hn, ay, an)
  {
  }

  lemma AgreementFed(ep: Epoch, j: nat, v: bool, hy: set<nat>, hn: set<nat>, ay: set<nat>, an: set<nat>)
    requires Fed(ep, hy, hn, ay, an) && j !in ay + an
    ensures Fed(OnAgreement(ep, j, v), hy, hn, if v then ay + {j} else ay, if v then an else an + {j})
  {
    assert j !in ep.agreed by {
      assert j !in ep.agreed.Keys;
    }
    assert ep.agreed[j := v].Keys == ep.agreed.Keys + {j};
  }

  /** Taking in the Agreement of server j after its Viable. */
  lemma FeedAgreement(p: Params, ep: Epoch, j: nat, v: bool, hy: set<nat>, hn: set<nat>, hy1: set<nat>, hn1: set<nat>)
    requires p.Resilient() && WellFormed(p, ep) && !ep.termed && Fed(ep, hy1, hn1, hy, hn) && j < p.n && j !in hy + hn
    requires hy1 == (if v then hy + {j} else hy) && hn1 == (if v then hn else hn + {j})
    ensures var ep1 := RecvSignal(p, ep, j, Signal(AgreementEpoch.Agreement, v)).0;
            && WellFormed(p, ep1) && Fed(ep1, hy1, hn1, hy1, hn1) && (ep1.termed ==> EndedBy(p, ep1, hy1, hn1))
  {
    hide Fed, Settle, OnAgreement, EndedBy;
    var ep1 := RecvSignal(p, ep, j, Signal(AgreementEpoch.Agreement, v)).0;
    RecvKeeps(p, ep, j, Signal(AgreementEpoch.Agreement, v));
    AgreementFed(ep, j, v, hy1, hn1, hy, hn);
    SettleFed(p, OnAgreement(ep, j, v), hy1, hn1, hy1, hn1);
    if ep1.termed {
      BelievedHeard(p, ep1, hy1, hn1);
      FedEnds(p, ep1, hy1, hn1, hy1, hn1);
    }
  }

  lemma BelievedHeard(p: Params, ep: Epoch, hy: set<nat>, hn: set<nat>)
    requires WellFormed(p, ep) && Fed(ep, hy, hn, hy, hn)
    ensures ep.yes.believed && ep.no.believed ==> hy != {} && hn != {}
  {
    assert SideOk(p, ep, true) && SideOk(p, ep, false);
  }

  /** The epoch has been fed the Terms before j, or has ended on them. */
  ghost predicate FedUntil(p: Params, terms: seq<Option<TermStatus>>, ep: Epoch, j: nat)
    requires j <= |terms|
  {
    var hy, hn := Voters(terms[..j], true), Voters(terms[..j], false);
    WellFormed(p, ep) && if ep.termed then EndedBy(p, ep, hy, hn) else Fed(ep, hy, hn, hy, hn)
  }

  lemma VotersStep(terms: seq<Option<TermStatus>>, j: nat, v: bool)
    requires j < |terms|
    ensures Voters(terms[..j + 1], v) == Voters(terms[..j], v) + (if terms[j].Some? && terms[j].value.value == v then {j} else {})
    ensures j !in Voters(terms[..j], v)
  {
  }

  lemma EndedStays(p: Params, ep: Epoch, hy: set<nat>, hn: set<nat>, hy1: set<nat>, hn1: set<nat>)
    requires EndedBy(p, ep, hy, hn) && hy <= hy1 && hn <= hn1
    ensures EndedBy(p, ep, hy1, hn1)
  {
    SubsetCount(hy, hy1);
    SubsetCount(hn, hn1);
  }

  lemma FeedOne(p: Params, terms: seq<Option<TermStatus>>, e: nat, ep: Epoch, j: nat)
    requires p.Resilient() && |terms| == p.n && j < |terms| && TermsBelow(terms, e) && FedUntil(p, terms, ep, j)
    ensures FedUntil(p, terms, ReplayOne(p, terms, e, ep, j).0, j + 1)
  {
    hide WellFormed, Fed, EndedBy, RecvSignal, Voters;
    var hy, hn := Voters(terms[..j], true), Voters(terms[..j], false);
    var hy1, hn1 := Voters(terms[..j + 1], true), Voters(terms[..j + 1], false);
    VotersStep(terms, j, true);
    VotersStep(terms, j, false);
    if terms[j].Some? {
      var v := terms[j].value.value;
      if ep.termed {
        EndedIgnores(p, ep, j, Signal(Viable, v));
        EndedIgnores(p, ep, j, Signal(AgreementEpoch.Agreement, v));
        EndedStays(p, ep, hy, hn, hy1, hn1);
      } else {
        assert hy1 == (if v then hy + {j} else hy) && hn1 == (if v then hn else hn + {j});
        FeedViable(p, ep, j, v, hy, hn);
        var ep1 := RecvSignal(p, ep, j, Signal(Viable, v)).0;
        if ep1.termed {
          EndedIgnores(p, ep1, j, Signal(AgreementEpoch.Agreement, v));
        } else {
          FeedAgreement(p, ep1, j, v, hy, hn, hy1, hn1);
        }
      }
    } else {
      assert hy1 == hy && hn1 == hn;
    }
  }

  lemma EndedIgnores(p: Params, ep: Epoch, from: nat, s: Signal)
    requires ep.termed
    ensures RecvSignal(p, ep, from, s) == (ep, [])
  {
  }

  lemma {:induction false} FeedAll(p: Params, terms: seq<Option<TermStatus>>, e: nat, ep: Epoch, j: nat)
    requires p.Resilient() && |terms| == p.n && j <= |terms| && TermsBelow(terms, e) && FedUntil(p, terms, ep, j)
    ensures FedUntil(p, terms, Replay(p, terms, e, ep, j).0, |terms|)
    decreases |terms| - j
  {
    hide FedUntil, ReplayOne;
    if j < |terms| {
      FeedOne(p, terms, e, ep, j);
      FeedAll(p, terms, e, ReplayOne(p, terms, e, ep, j).0, j + 1);
    }
  }

  lemma NothingFed(p: Params, terms: seq<Option<TermStatus>>)
    requires p.Resilient()
    ensures FedUntil(p, terms, FRESH_EPOCH, 0)
  {
    FreshWellFormed(p);
    assert Voters(terms[..0], true) == {} && Voters(terms[..0], false) == {};
  }

  /** The recorded Terms alone end a fresh epoch with both values exactly if they are opposed. */
  lemma SplitExactly(p: Params, terms: seq<Option<TermStatus>>, bound: nat)
    requires p.Resilient() && |terms| == p.n && TermsBelow(terms, bound)
    ensures SplitFresh(p, terms, bound) <==> Opposed(p, terms)
  {
    hide Replay, Voters;
    NothingFed(p, terms);
    FeedAll(p, terms, bound, FRESH_EPOCH, 0);
    var ep, hy, hn := FreshEpoch(p, terms, bound), Voters(terms, true), Voters(terms, false);
    assert terms[..|terms|] == terms;
    VotersDisjoint(p, terms);
    if ep.termed {
      assert EndedBy(p, ep, hy, hn);
    } else {
      BackedOf(ep, hy, hn, hy, hn);
      assert SideOk(p, ep, true) && SideOk(p, ep, false);
    }
  }

  lemma VotersDisjoint(p: Params, terms: seq<Option<TermStatus>>)
    requires |terms| == p.n
    ensures Voters(terms, true) * Voters(terms, false) == {}
    ensures |Voters(terms, true) + Voters(terms, false)| == |Voters(terms, true)| + |Voters(terms, false)| <= p.n
  {
    var hy, hn := Voters(terms, true), Voters(terms, false);
    assert hy * hn == {};
    SubsetCount(hy + hn, Nodes(p.n));
    assert |hy + hn| == |hy| + |hn| - |hy * hn|;
  }

  /** No allocated epoch from i on stops the loop. */
  ghost predicate Passable(core: Core, i: nat) {
    forall e: nat :: i <= e < |core.epochs| ==> core.epochs[e].termed && !IsFinal(e, core.epochs[e].Candidates())
  }

  lemma AdvancePassable(p: Params, core: Core, i: nat)
    requires i + 1 < |core.epochs|
    ensures Passable(Advance(p, core, i).0, i + 1) <==> Passable(core, i + 1)
    ensures Advance(p, core, i).0.terms == core.terms && |Advance(p, core, i).0.epochs| == |core.epochs|
  {
    hide NextEstimate;
    var core1 := Advance(p, core, i).0;
    forall e: nat | e < |core.epochs|
      ensures core1.epochs[e].termed == core.epochs[e].termed
      ensures core1.epochs[e].Candidates() == core.epochs[e].Candidates()
    {
    }
  }

  lemma {:induction false} OpposedIsEndless(p: Params, core: Core, i: nat, limit: nat)
    requires p.Resilient() && EpochsOk(p, core) && i < |core.epochs| && Opposed(p, core.terms) && Passable(core, i)
    ensures CatchUp(p, core, i, limit).0.Diverged?
    decreases limit - i
  {
    hide Opposed, WellFormed, Advance, CatchUp;
    CatchUpCases(p, core, i, limit);
    if i < limit {
      TerminatedHasCandidate(p, core.epochs[i]);
      CatchUpContinues(p, core, i, limit);
      var core1 := Advance(p, core, i).0;
      AdvanceKeeps(p, core, i);
      if i + 1 < |core.epochs| {
        AdvancePassable(p, core, i);
        OpposedIsEndless(p, core1, i + 1, limit);
      } else {
        AdvanceToFresh(p, core, i, |core.epochs|);
        SplitExactly(p, core.terms, |core.epochs|);
        SplitNeverEnds(p, core1, i + 1, |core.epochs|, limit);
      }
    }
  }

  lemma {:induction false} EndlessIsOpposed(p: Params, core: Core, i: nat)
    requires p.Resilient() && EpochsOk(p, core) && i < |core.epochs|
    requires CatchUp(p, core, i, |core.epochs| + 2).0.Diverged?
    ensures Opposed(p, core.terms) && Passable(core, i)
    decreases |core.epochs| - i
  {
    hide Opposed, WellFormed, Advance;
    var bound := |core.epochs|;
    TurnPasses(p, core, i, bound + 2);
    CatchUpContinues(p, core, i, bound + 2);
    var core1 := Advance(p, core, i).0;
    AdvanceKeeps(p, core, i);
    if i + 1 < bound {
      AdvancePassable(p, core, i);
      EndlessIsOpposed(p, core1, i + 1);
    } else {
      AdvanceToFresh(p, core, i, bound);
      TwoFreshAreSplit(p, core1, bound, bound);
      SplitExactly(p, core.terms, bound);
    }
  }

  lemma TurnPasses(p: Params, core: Core, i: nat, limit: nat)
    requires i < |core.epochs| && i < limit && CatchUp(p, core, i, limit).0.Diverged?
    ensures core.epochs[i].termed && core.epochs[i].Candidates() != {} && !IsFinal(i, core.epochs[i].Candidates())
  {
  }

  /** The loop runs past every bound. */
  ghost predicate Endless(p: Params, core: Core, i: nat)
    requires i < |core.epochs|
  {
    forall limit: nat :: CatchUp(p, core, i, limit).0.Diverged?
  }

  lemma OpposedGivesEndless(p: Params, core: Core, i: nat)
    requires p.Resilient() && EpochsOk(p, core) && i < |core.epochs| && Opposed(p, core.terms) && Passable(core, i)
    ensures Endless(p, core, i)
  {
    forall limit: nat
      ensures CatchUp(p, core, i, limit).0.Diverged?
    {
      OpposedIsEndless(p, core, i, limit);
    }
  }

  /**
   Exactly when the catch-up loop is endless: when the recorded Terms are opposed, and no allocated epoch on its way
   stops it. The loop that is still running two epochs beyond the allocated ones is endless.
   */
  lemma EndlessExactly(p: Params, core: Core, i: nat)
    requires p.Resilient() && EpochsOk(p, core) && i < |core.epochs|
    ensures Endless(p, core, i) <==> Opposed(p, core.terms) && Passable(core, i)
    ensures CatchUp(p, core, i, |core.epochs| + 2).0.Diverged? <==> Endless(p, core, i)
  {
    hide Opposed, Passable, EpochsOk;
    if Opposed(p, core.terms) && Passable(core, i) {
      OpposedGivesEndless(p, core, i);
    }
    if CatchUp(p, core, i, |core.epochs| + 2).0.Diverged? {
      EndlessIsOpposed(p, core, i);
    }
  }

  /** At most F dissenting Terms are not opposed, nor are any if N is at most 4F+1. */
  lemma FewAreNotOpposed(p: Params, terms: seq<Option<TermStatus>>, v: bool)
    requires |terms| == p.n
    ensures |Dissenters(terms, v)| <= p.f || p.n <= 4 * p.f + 1 ==> !Opposed(p, terms)
  {
    VotersDisjoint(p, terms);
    assert Dissenters(terms, v) == Voters(terms, !v);
  }

  /** The Terms on record are opposed, and no allocated epoch will stop the loop. */
  ghost predicate Trapped(p: Params, core: Core) {
    Opposed(p, core.terms) && Passable(core, core.epochNum)
  }

  /** A message is handled to the end exactly if it does not leave the BA trapped. */
  lemma ReturnsExactly(p: Params, core: Core, from: nat, m: BAMsg)
    requires p.Resilient() && CoreOk(p, core) && from < p.n
    ensures Recv(p, Running(core), from, m).0.Diverged? <==> Trapped(p, Record(p, core, from, m).0)
  {
    hide Opposed, Passable, CatchUp, Record, WellFormed;
    var core1 := Record(p, core, from, m).0;
    RecordKeeps(p, core, from, m);
    EndlessExactly(p, core1, core1.epochNum);
  }

  /** In particular if the Terms on record are then not opposed. */
  lemma UnopposedEnds(p: Params, core: Core, from: nat, m: BAMsg)
    requires p.Resilient() && CoreOk(p, core) && from < p.n && !Opposed(p, TermsAfter(core.terms, from, m))
    ensures !Trapped(p, Record(p, core, from, m).0)
    ensures !Recv(p, Running(core), from, m).0.Diverged?
  {
    hide Opposed, Recv, Record;
    RecordsTerm(p, core, from, m);
    ReturnsExactly(p, core, from, m);
  }
}
