/**
 When the catch-up loop of BA.Recv ends. It allocates epochs while it runs, and a fresh epoch is filled by the
 recorded Terms alone, so it either stops within two fresh epochs or never.
 */
module AgreementTermination {
  import opened Common
  import opened AgreementEpoch
  import opened Agreement

  /** The servers whose recorded Term dissents from v. */
  ghost function Dissenters(terms: seq<Option<TermStatus>>, v: bool): set<nat> {
    set j: nat | j < |terms| && terms[j].Some? && terms[j].value.value != v
  }

  /** The epoch has heard of the value other than v from dissenters only. */
  ghost predicate HearsOnly(p: Params, ep: Epoch, v: bool, d: set<nat>) {
    WellFormed(p, ep) && ep.At(!v).heard <= d
  }

  lemma RecvAdds(p: Params, ep: Epoch, from: nat, s: Signal, v: bool)
    ensures RecvSignal(p, ep, from, s).0.At(!v).heard
            <= ep.At(!v).heard + (if s.value != v then {from} else {})
  {
  }

  lemma RecvHears(p: Params, ep: Epoch, from: nat, s: Signal, v: bool, d: set<nat>)
    requires p.Resilient() && from < p.n && HearsOnly(p, ep, v, d) && (s.value != v ==> from in d)
    ensures HearsOnly(p, RecvSignal(p, ep, from, s).0, v, d)
  {
    RecvAdds(p, ep, from, s, v);
    RecvKeeps(p, ep, from, s);
  }

  lemma InsertTermHears(p: Params, ep: Epoch, from: nat, w: bool, v: bool, d: set<nat>)
    requires p.Resilient() && from < p.n && HearsOnly(p, ep, v, d) && (w != v ==> from in d)
    ensures HearsOnly(p, InsertTerm(p, ep, from, w).0, v, d)
  {
    RecvHears(p, ep, from, Signal(Viable, w), v, d);
    RecvHears(p, RecvSignal(p, ep, from, Signal(Viable, w)).0, from, Signal(AgreementEpoch.Agreement, w), v, d);
  }

  lemma {:induction false} ReplayHears(p: Params, terms: seq<Option<TermStatus>>, e: nat, ep: Epoch, j: nat, v: bool)
    requires p.Resilient() && |terms| == p.n && j <= |terms| && HearsOnly(p, ep, v, Dissenters(terms, v))
    ensures HearsOnly(p, Replay(p, terms, e, ep, j).0, v, Dissenters(terms, v))
    decreases |terms| - j
  {
    if j < |terms| {
      if terms[j].Some? && terms[j].value.epoch < e {
        InsertTermHears(p, ep, j, terms[j].value.value, v, Dissenters(terms, v));
      }
      ReplayHears(p, terms, e, ReplayOne(p, terms, e, ep, j).0, j + 1, v);
    }
  }

  /** A terminated epoch that too few have heard of the other value in ends with v alone. */
  lemma EndsWithOne(p: Params, ep: Epoch, v: bool, d: set<nat>)
    requires p.Resilient() && HearsOnly(p, ep, v, d) && |d| <= p.f && ep.termed
    ensures ep.Candidates() == {v}
  {
    TerminatedHasCandidate(p, ep);
    SubsetCount(ep.At(!v).heard, d);
    assert SideOk(p, ep, !v);
    assert !ep.At(!v).candidate;
    assert !v !in ep.Candidates();
    var x :| x in ep.Candidates();
    assert forall y :: y in ep.Candidates() ==> y == v;
  }

  /** From epoch `bound` on, the allocated epochs have heard of the value other than v from dissenters only. */
  ghost predicate FreshHear(p: Params, core: Core, bound: nat, v: bool) {
    && (forall e: nat :: e < |core.epochs| ==> WellFormed(p, core.epochs[e]))
    && (forall e: nat :: bound <= e < |core.epochs| ==> core.epochs[e].At(!v).heard <= Dissenters(core.terms, v))
  }

  ghost function FreshEpoch(p: Params, terms: seq<Option<TermStatus>>, e: nat): Epoch {
    Replay(p, terms, e, FRESH_EPOCH, 0).0
  }

  lemma AllocateOne(p: Params, core: Core)
    ensures Allocate(p, core, |core.epochs|).0
            == core.(epochs := core.epochs + [FreshEpoch(p, core.terms, |core.epochs|)])
  {
  }

  lemma AllocateHears(p: Params, core: Core, i: nat, bound: nat, v: bool)
    requires p.Resilient() && |core.terms| == p.n && i < |core.epochs| && FreshHear(p, core, bound, v)
    ensures FreshHear(p, Allocate(p, core, i + 1).0, bound, v)
  {
    if |core.epochs| == i + 1 {
      FreshWellFormed(p);
      ReplayHears(p, core.terms, i + 1, FRESH_EPOCH, 0, v);
      AllocateOne(p, core);
    }
  }

  lemma AdvanceHears(p: Params, core: Core, i: nat, bound: nat, v: bool)
    requires p.Resilient() && |core.terms| == p.n && i < |core.epochs| && FreshHear(p, core, bound, v)
    ensures FreshHear(p, Advance(p, core, i).0, bound, v)
  {
    AllocateHears(p, core, i, bound, v);
    EstimateKeeps(p, Allocate(p, core, i + 1).0.epochs[i + 1], NextEstimate(i, core.epochs[i].Candidates()));
  }

  lemma CatchUpContinues(p: Params, core: Core, i: nat, limit: nat)
    requires i < |core.epochs| && i < limit && core.epochs[i].termed
    requires core.epochs[i].Candidates() != {} && !IsFinal(i, core.epochs[i].Candidates())
    ensures CatchUp(p, core, i, limit).0 == CatchUp(p, Advance(p, core, i).0, i + 1, limit).0
  {
  }

  lemma CatchUpStops(p: Params, core: Core, i: nat, limit: nat)
    requires i < |core.epochs| && i < limit
    requires core.epochs[i].termed ==> IsFinal(i, core.epochs[i].Candidates())
    ensures Ended(CatchUp(p, core, i, limit).0)
  {
  }

  predicate Ended(s: State) {
    s.Running? || s.Decided?
  }

  /** What the loop keeps on its way through the fresh epochs when few Terms dissent from v. */
  ghost predicate NearlyDone(p: Params, core: Core, i: nat, bound: nat, v: bool) {
    && |core.terms| == p.n && FreshHear(p, core, bound, v) && |Dissenters(core.terms, v)| <= p.f
    && i < |core.epochs| && i <= bound + 1 && (|core.epochs| <= bound || |core.epochs| <= i + 1)
    && (i == bound + 1 ==> Coin(bound) != v)
  }

  lemma NearlyDoneAdvances(p: Params, core: Core, i: nat, bound: nat, v: bool)
    requires p.Resilient() && NearlyDone(p, core, i, bound, v)
    requires core.epochs[i].termed && !IsFinal(i, core.epochs[i].Candidates())
    ensures NearlyDone(p, Advance(p, core, i).0, i + 1, bound, v) && i <= bound
  {
    hide Advance, WellFormed, Dissenters;
    if i >= bound {
      EndsWithOne(p, core.epochs[i], v, Dissenters(core.terms, v));
      assert i == bound + 1 ==> Coin(i) == v;
    }
    AdvanceHears(p, core, i, bound, v);
  }

  /** With at most F dissenters the loop ends by the second fresh epoch, and without a panic. */
  lemma {:induction false} CatchUpEnds(p: Params, core: Core, i: nat, bound: nat, v: bool)
    requires p.Resilient() && NearlyDone(p, core, i, bound, v)
    ensures Ended(CatchUp(p, core, i, bound + 2).0)
    decreases bound + 2 - i
  {
    hide WellFormed, Advance, CatchUp, Ended, Dissenters;
    if core.epochs[i].termed && !IsFinal(i, core.epochs[i].Candidates()) {
      TerminatedHasCandidate(p, core.epochs[i]);
      NearlyDoneAdvances(p, core, i, bound, v);
      CatchUpContinues(p, core, i, bound + 2);
      CatchUpEnds(p, Advance(p, core, i).0, i + 1, bound, v);
    } else {
      CatchUpStops(p, core, i, bound + 2);
    }
  }

  /** BA.Recv ends and does not panic whenever at most F of the Terms it then holds dissent from one value. */
  lemma RecvEnds(p: Params, core: Core, from: nat, m: BAMsg, v: bool)
    requires p.Resilient() && |core.terms| == p.n && from < p.n && core.epochNum < |core.epochs|
    requires forall e: nat :: e < |Record(p, core, from, m).0.epochs| ==> WellFormed(p, Record(p, core, from, m).0.epochs[e])
    requires |Dissenters(Record(p, core, from, m).0.terms, v)| <= p.f
    ensures Ended(Recv(p, Running(core), from, m).0)
  {
    hide Record, CatchUp;
    var core1 := Record(p, core, from, m).0;
    CatchUpEnds(p, core1, core1.epochNum, |core1.epochs|, v);
  }

  /** The Terms recorded before epoch `bound` fill every epoch from there on in the same way. */
  lemma {:induction false} ReplaySame(p: Params, terms: seq<Option<TermStatus>>, d: nat, e: nat, ep: Epoch, j: nat)
    requires j <= |terms|
    requires forall i: nat :: i < |terms| && terms[i].Some? ==> terms[i].value.epoch < d && terms[i].value.epoch < e
    ensures Replay(p, terms, d, ep, j) == Replay(p, terms, e, ep, j)
    decreases |terms| - j
  {
    if j < |terms| {
      ReplaySame(p, terms, d, e, ReplayOne(p, terms, d, ep, j).0, j + 1);
    }
  }

  /** The Terms alone end a fresh epoch with both candidates. */
  ghost predicate SplitFresh(p: Params, terms: seq<Option<TermStatus>>, bound: nat) {
    FreshEpoch(p, terms, bound).termed && FreshEpoch(p, terms, bound).Candidates() == {true, false}
  }

  ghost predicate TermsBelow(terms: seq<Option<TermStatus>>, bound: nat) {
    forall j: nat :: j < |terms| && terms[j].Some? ==> terms[j].value.epoch < bound
  }

  /** The loop has reached the last allocated epoch i, a fresh one. */
  ghost predicate AtFresh(p: Params, core: Core, i: nat, bound: nat) {
    && |core.epochs| == i + 1 && bound <= i && TermsBelow(core.terms, bound)
    && core.epochs[i] == FreshEpoch(p, core.terms, bound).(estimate := core.epochs[i].estimate)
  }

  lemma AdvanceToFresh(p: Params, core: Core, i: nat, bound: nat)
    requires |core.epochs| == i + 1 && bound <= i + 1 && TermsBelow(core.terms, bound)
    ensures AtFresh(p, Advance(p, core, i).0, i + 1, bound) && Advance(p, core, i).0.terms == core.terms
  {
    AllocateOne(p, core);
    ReplaySame(p, core.terms, bound, i + 1, FRESH_EPOCH, 0);
  }

  /** Once a fresh epoch is split, the loop never ends. */
  lemma {:induction false} SplitNeverEnds(p: Params, core: Core, i: nat, bound: nat, limit: nat)
    requires AtFresh(p, core, i, bound) && SplitFresh(p, core.terms, bound)
    ensures CatchUp(p, core, i, limit).0.Diverged?
    decreases limit - i
  {
    if i < limit {
      assert core.epochs[i].Candidates() == {true, false};
      assert Coin(i) in core.epochs[i].Candidates() && !Coin(i) in core.epochs[i].Candidates();
      assert !IsFinal(i, core.epochs[i].Candidates());
      CatchUpContinues(p, core, i, limit);
      AdvanceToFresh(p, core, i, bound);
      SplitNeverEnds(p, Advance(p, core, i).0, i + 1, bound, limit);
    }
  }

  /** Two fresh epochs in a row that do not decide are split. */
  lemma TwoFreshAreSplit(p: Params, core: Core, i: nat, bound: nat)
    requires AtFresh(p, core, i, bound)
    requires CatchUp(p, core, i, i + 2).0.Diverged?
    ensures SplitFresh(p, core.terms, bound)
  {
    hide Replay, Allocate, InitEpoch;
    var cs := core.epochs[i].Candidates();
    assert core.epochs[i].termed && cs != {} && !IsFinal(i, cs);
    var core1 := Advance(p, core, i).0;
    AdvanceToFresh(p, core, i, bound);
    assert CatchUp(p, core1, i + 1, i + 2).0.Diverged?;
    assert core1.epochs[i + 1].Candidates() == cs && !IsFinal(i + 1, cs);
    assert Coin(i + 1) == !Coin(i);
    BoolSets(cs);
  }
}
