/** What a running BA keeps between calls, as a matter of its specification: every epoch is well formed. */
module AgreementCore {
  import opened Common
  import opened AgreementEpoch
  import opened Agreement

  /** The part of the invariant that does not speak about the position of the BA. */
  ghost predicate EpochsOk(p: Params, core: Core) {
    && |core.terms| == p.n
    && (forall e :: 0 <= e < |core.epochs| ==> WellFormed(p, core.epochs[e]))
    && (forall j :: 0 <= j < |core.terms| && core.terms[j].Some? ==> core.terms[j].value.epoch < |core.epochs|)
  }

  lemma InsertTermKeeps(p: Params, ep: Epoch, from: nat, v: bool)
    requires p.Resilient() && WellFormed(p, ep) && from < p.n
    ensures WellFormed(p, InsertTerm(p, ep, from, v).0)
  {
    hide RecvSignal, WellFormed;
    RecvKeeps(p, ep, from, Signal(Viable, v));
    RecvKeeps(p, RecvSignal(p, ep, from, Signal(Viable, v)).0, from, Signal(AgreementEpoch.Agreement, v));
  }

  lemma {:induction false} ReplayKeeps(p: Params, terms: seq<Option<TermStatus>>, e: nat, ep: Epoch, j: nat)
    requires p.Resilient() && |terms| == p.n && j <= |terms| && WellFormed(p, ep)
    ensures WellFormed(p, Replay(p, terms, e, ep, j).0)
    decreases |terms| - j
  {
    hide InsertTerm, WellFormed;
    if j < |terms| {
      if terms[j].Some? {
        InsertTermKeeps(p, ep, j, terms[j].value.value);
      }
      ReplayKeeps(p, terms, e, ReplayOne(p, terms, e, ep, j).0, j + 1);
    }
  }

  lemma {:induction false} AllocateKeeps(p: Params, core: Core, until: nat)
    requires p.Resilient() && EpochsOk(p, core)
    ensures EpochsOk(p, Allocate(p, core, until).0)
    decreases until + 1 - |core.epochs|
  {
    hide Replay, WellFormed;
    if until >= |core.epochs| {
      FreshWellFormed(p);
      ReplayKeeps(p, core.terms, |core.epochs|, FRESH_EPOCH, 0);
      AllocateKeeps(p, core.(epochs := core.epochs + [Replay(p, core.terms, |core.epochs|, FRESH_EPOCH, 0).0]), until);
    }
  }

  lemma {:induction false} ApplyTermKeeps(p: Params, core: Core, from: nat, v: bool, e: nat)
    requires p.Resilient() && EpochsOk(p, core) && from < p.n
    ensures EpochsOk(p, ApplyTerm(p, core, from, v, e).0)
    decreases |core.epochs| - e
  {
    hide InsertTerm, WellFormed;
    if e < |core.epochs| {
      InsertTermKeeps(p, core.epochs[e], from, v);
      ApplyTermKeeps(p, ApplyOne(p, core, from, v, e).0, from, v, e + 1);
    }
  }

  lemma RecordKeeps(p: Params, core: Core, from: nat, m: BAMsg)
    requires p.Resilient() && EpochsOk(p, core) && from < p.n
    ensures EpochsOk(p, Record(p, core, from, m).0)
  {
    hide RecvSignal, WellFormed, Allocate, ApplyTerm;
    AllocateKeeps(p, core, m.epoch);
    var core1 := Allocate(p, core, m.epoch).0;
    match m
    case EpochMsg(e, s) => RecvKeeps(p, core1.epochs[e], from, s);
    case TermMsg(e, v) =>
      if core1.terms[from].None? {
        ApplyTermKeeps(p, core1.(terms := core1.terms[from := Some(TermStatus(e, v))]), from, v, e + 1);
      }
  }

  lemma AdvanceKeeps(p: Params, core: Core, i: nat)
    requires p.Resilient() && EpochsOk(p, core) && i < |core.epochs|
    ensures EpochsOk(p, Advance(p, core, i).0)
  {
    hide WellFormed, Allocate, NextEstimate;
    AllocateKeeps(p, core, i + 1);
    EstimateKeeps(p, Allocate(p, core, i + 1).0.epochs[i + 1], NextEstimate(i, core.epochs[i].Candidates()));
  }

  lemma PauseKeeps(p: Params, core: Core, i: nat)
    requires p.Resilient() && EpochsOk(p, core) && core.epochNum <= i < |core.epochs| && core.firstUninited <= i + 1
    ensures CoreOk(p, Pause(core, i).0)
  {
    hide WellFormed, InitEpoch;
    InitKeeps(p, core.epochs[i]);
  }

  lemma {:induction false} CatchUpKeeps(p: Params, core: Core, i: nat, limit: nat)
    requires p.Resilient() && EpochsOk(p, core) && core.epochNum <= i < |core.epochs| && core.firstUninited <= i + 1
    ensures var s := CatchUp(p, core, i, limit).0;
            s.Running? ==> CoreOk(p, s.core) && s.core.terms == core.terms
    decreases limit - i
  {
    hide EpochsOk, CoreOk, Advance, InitEpoch, IsFinal;
    if i < limit {
      var cs := core.epochs[i].Candidates();
      if !core.epochs[i].termed {
        PauseKeeps(p, core, i);
      } else if cs != {} && !IsFinal(i, cs) {
        AdvanceKeeps(p, core, i);
        CatchUpKeeps(p, Advance(p, core, i).0, i + 1, limit);
      }
    }
  }

  /** Handling a message keeps a running BA in order; only its sender can be new among the recorded Terms. */
  lemma RecvKeepsCore(p: Params, core: Core, from: nat, m: BAMsg)
    requires p.Resilient() && CoreOk(p, core) && from < p.n
    ensures var s := Recv(p, Running(core), from, m).0;
            s.Running? ==> CoreOk(p, s.core) && s.core.terms == TermsAfter(core.terms, from, m)
  {
    hide WellFormed, CatchUp;
    RecordKeeps(p, core, from, m);
    var core1 := Record(p, core, from, m).0;
    RecordsTerm(p, core, from, m);
    CatchUpKeeps(p, core1, core1.epochNum, |core1.epochs| + 2);
  }

  /** The Terms on record once a message has been handled: that of its sender may be new. */
  function TermsAfter(terms: seq<Option<TermStatus>>, from: nat, m: BAMsg): seq<Option<TermStatus>>
    requires from < |terms|
  {
    if m.TermMsg? && terms[from].None? then terms[from := Some(TermStatus(m.epoch, m.value))] else terms
  }

  lemma RecordsTerm(p: Params, core: Core, from: nat, m: BAMsg)
    requires from < |core.terms|
    ensures Record(p, core, from, m).0.terms == TermsAfter(core.terms, from, m)
  {
    hide RecvSignal, Allocate, ApplyTerm;
  }
}
