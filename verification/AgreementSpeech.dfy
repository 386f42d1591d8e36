/**
 What a BA says: in every step exactly the broadcasts that its flags announce, neither fewer nor more. What it has heard
 stays on record, and the Terms on record count in all later epochs.
 */
module AgreementSpeech {
  import opened Common
  import opened AgreementEpoch
  import opened Agreement

  /** From ep to ep1, the broadcasts of epoch e in out are those that are newly marked as sent. */
  ghost predicate Said(ep: Epoch, ep1: Epoch, e: nat, out: seq<BAMsg>) {
    && (forall v :: (ep.At(v).sent ==> ep1.At(v).sent)
                    && (EpochMsg(e, Signal(Viable, v)) in out <==> !ep.At(v).sent && ep1.At(v).sent))
    && (ep.sentAgreement ==> ep1.sentAgreement)
    && (Agrees(e, out) <==> !ep.sentAgreement && ep1.sentAgreement)
  }

  ghost predicate Agrees(e: nat, out: seq<BAMsg>) {
    exists v :: EpochMsg(e, Signal(AgreementEpoch.Agreement, v)) in out
  }

  /** From ep to ep1, nothing that was heard has been lost. */
  ghost predicate Rises(ep: Epoch, ep1: Epoch) {
    && ep1.estimate == ep.estimate && (ep.termed ==> ep1 == ep)
    && (forall v, j :: j in ep.At(v).heard ==> j in ep1.At(v).heard)
    && (forall j :: j in ep.agreed ==> j in ep1.agreed && ep1.agreed[j] == ep.agreed[j])
  }

  lemma SaidMore(ep: Epoch, ep1: Epoch, ep2: Epoch, e: nat, a: seq<BAMsg>, b: seq<BAMsg>)
    requires Said(ep, ep1, e, a) && Said(ep1, ep2, e, b)
    ensures Said(ep, ep2, e, a + b)
  {
    assert Agrees(e, a + b) <==> Agrees(e, a) || Agrees(e, b) by {
      AgreesMore(e, a, b);
    }
  }

  lemma AgreesMore(e: nat, a: seq<BAMsg>, b: seq<BAMsg>)
    ensures Agrees(e, a + b) <==> Agrees(e, a) || Agrees(e, b)
  {
    if Agrees(e, a) {
      var v :| EpochMsg(e, Signal(AgreementEpoch.Agreement, v)) in a;
      assert EpochMsg(e, Signal(AgreementEpoch.Agreement, v)) in a + b;
    }
    if Agrees(e, b) {
      var v :| EpochMsg(e, Signal(AgreementEpoch.Agreement, v)) in b;
      assert EpochMsg(e, Signal(AgreementEpoch.Agreement, v)) in a + b;
    }
  }

  lemma InLift(e: nat, out: seq<Signal>, s: Signal)
    ensures EpochMsg(e, s) in Lift(e, out) <==> s in out
  {
    if s in out {
      var i :| 0 <= i < |out| && out[i] == s;
      assert Lift(e, out)[i] == EpochMsg(e, s);
    }
  }

  /** The broadcasts of an epoch about v, and about Agreements. */
  lemma LiftSaid(ep: Epoch, ep1: Epoch, e: nat, out: seq<Signal>)
    requires forall v :: (ep.At(v).sent ==> ep1.At(v).sent) && (Signal(Viable, v) in out <==> !ep.At(v).sent && ep1.At(v).sent)
    requires ep.sentAgreement ==> ep1.sentAgreement
    requires (exists v :: Signal(AgreementEpoch.Agreement, v) in out) <==> !ep.sentAgreement && ep1.sentAgreement
    ensures Said(ep, ep1, e, Lift(e, out))
  {
    forall s
      ensures EpochMsg(e, s) in Lift(e, out) <==> s in out
    {
      InLift(e, out, s);
    }
    if v :| Signal(AgreementEpoch.Agreement, v) in out {
      assert EpochMsg(e, Signal(AgreementEpoch.Agreement, v)) in Lift(e, out);
    }
  }

  /**
   An epoch that handles a signal broadcasts Viable(v) exactly if it marks this as sent, and an Agreement exactly if it
   marks one as sent; the Agreement is on a value that it believes.
   */
  lemma SignalSaid(p: Params, ep: Epoch, from: nat, s: Signal)
    ensures var (ep1, out) := RecvSignal(p, ep, from, s);
            && (forall v :: (ep.At(v).sent ==> ep1.At(v).sent)
                            && (Signal(Viable, v) in out <==> !ep.At(v).sent && ep1.At(v).sent))
            && (ep.sentAgreement ==> ep1.sentAgreement)
            && ((exists v :: Signal(AgreementEpoch.Agreement, v) in out) <==> !ep.sentAgreement && ep1.sentAgreement)
            && (forall v :: Signal(AgreementEpoch.Agreement, v) in out ==> ep1.At(v).believed)
  {
    hide Settle, OnViable;
    if !ep.termed && s.kind == Viable {
      ViableSaid(p, ep, from, s.value);
      SettleSaysNothing(p, OnViable(p, ep, from, s.value).0);
    } else if !ep.termed {
      SettleSaysNothing(p, OnAgreement(ep, from, s.value));
    }
  }

  lemma SettleSaysNothing(p: Params, ep: Epoch)
    ensures var ep1 := Settle(p, ep);
            && (forall v :: ep1.At(v).sent == ep.At(v).sent && ep1.At(v).believed == ep.At(v).believed)
            && ep1.sentAgreement == ep.sentAgreement
  {
    hide Supported;
  }

  lemma ViableSaid(p: Params, ep: Epoch, from: nat, v: bool)
    ensures var (ep1, out) := OnViable(p, ep, from, v);
            && (forall w :: (ep.At(w).sent ==> ep1.At(w).sent)
                            && (Signal(Viable, w) in out <==> !ep.At(w).sent && ep1.At(w).sent))
            && (ep.sentAgreement ==> ep1.sentAgreement)
            && ((exists w :: Signal(AgreementEpoch.Agreement, w) in out) <==> !ep.sentAgreement && ep1.sentAgreement)
            && (forall w :: Signal(AgreementEpoch.Agreement, w) in out ==> ep1.At(w).believed)
  {
    var (ep1, out) := OnViable(p, ep, from, v);
    if !ep.sentAgreement && ep1.sentAgreement {
      assert Signal(AgreementEpoch.Agreement, v) in out;
    }
  }

  lemma RecvSaid(p: Params, ep: Epoch, from: nat, s: Signal, e: nat)
    ensures var (ep1, out) := RecvSignal(p, ep, from, s);
            Said(ep, ep1, e, Lift(e, out)) && Rises(ep, ep1)
  {
    hide RecvSignal, Said;
    SignalSaid(p, ep, from, s);
    LiftSaid(ep, RecvSignal(p, ep, from, s).0, e, RecvSignal(p, ep, from, s).1);
    RecvRises(p, ep, from, s);
  }

  lemma RecvRises(p: Params, ep: Epoch, from: nat, s: Signal)
    ensures Rises(ep, RecvSignal(p, ep, from, s).0)
  {
  }

  /** A signal that is handled before the epoch ends is on record. */
  lemma SignalCounts(p: Params, ep: Epoch, from: nat, s: Signal)
    requires !ep.termed
    ensures var ep1 := RecvSignal(p, ep, from, s).0;
            if s.kind == Viable then from in ep1.At(s.value).heard else from in ep1.agreed
  {
  }

  lemma InitSaid(ep: Epoch, e: nat)
    ensures Said(ep, InitEpoch(ep).0, e, Lift(e, InitEpoch(ep).1)) && Rises(ep, InitEpoch(ep).0)
    ensures !ep.termed ==> InitEpoch(ep).0.At(ep.estimate).sent
  {
    hide Lift, Said;
    LiftSaid(ep, InitEpoch(ep).0, e, InitEpoch(ep).1);
  }

  lemma RisesMore(ep: Epoch, ep1: Epoch, ep2: Epoch)
    requires Rises(ep, ep1) && Rises(ep1, ep2)
    ensures Rises(ep, ep2)
  {
  }

  /** A Term counts as a Viable and an Agreement. */
  lemma InsertTermSaid(p: Params, ep: Epoch, from: nat, v: bool, e: nat)
    ensures var (ep1, out) := InsertTerm(p, ep, from, v);
            && Said(ep, ep1, e, Lift(e, out)) && Rises(ep, ep1)
            && (ep1.termed || (from in ep1.At(v).heard && from in ep1.agreed))
  {
    hide RecvSignal, Said, Lift, Rises;
    var (ep1, out1) := RecvSignal(p, ep, from, Signal(Viable, v));
    var (ep2, out2) := RecvSignal(p, ep1, from, Signal(AgreementEpoch.Agreement, v));
    RecvSaid(p, ep, from, Signal(Viable, v), e);
    RecvSaid(p, ep1, from, Signal(AgreementEpoch.Agreement, v), e);
    SaidMore(ep, ep1, ep2, e, Lift(e, out1), Lift(e, out2));
    LiftAppend(e, out1, out2);
    RisesMore(ep, ep1, ep2);
    TermCounts(p, ep, from, v);
  }

  lemma TermCounts(p: Params, ep: Epoch, from: nat, v: bool)
    ensures var ep1 := InsertTerm(p, ep, from, v).0;
            ep1.termed || (from in ep1.At(v).heard && from in ep1.agreed)
  {
    hide RecvSignal, Rises;
    var ep1 := RecvSignal(p, ep, from, Signal(Viable, v)).0;
    var ep2 := RecvSignal(p, ep1, from, Signal(AgreementEpoch.Agreement, v)).0;
    RecvRises(p, ep, from, Signal(Viable, v));
    RecvRises(p, ep1, from, Signal(AgreementEpoch.Agreement, v));
    if !ep2.termed {
      RisesBack(ep, ep1);
      RisesBack(ep1, ep2);
      SignalCounts(p, ep, from, Signal(Viable, v));
      SignalCounts(p, ep1, from, Signal(AgreementEpoch.Agreement, v));
      HeardStays(ep1, ep2, v, from);
    }
  }

  lemma RisesBack(ep: Epoch, ep1: Epoch)
    requires Rises(ep, ep1)
    ensures ep.termed ==> ep1.termed
  {
  }

  lemma HeardStays(ep: Epoch, ep1: Epoch, v: bool, j: nat)
    requires Rises(ep, ep1)
    ensures j in ep.At(v).heard ==> j in ep1.At(v).heard
    ensures j in ep.agreed ==> j in ep1.agreed
  {
  }

  /** The Term of server j, if it is earlier than epoch e, has been applied to the epoch. */
  ghost predicate Applied(terms: seq<Option<TermStatus>>, e: nat, ep: Epoch, j: nat)
    requires j < |terms|
  {
    terms[j].Some? && terms[j].value.epoch < e ==> ep.termed || (j in ep.At(terms[j].value.value).heard && j in ep.agreed)
  }

  lemma AppliedStays(terms: seq<Option<TermStatus>>, e: nat, ep: Epoch, ep1: Epoch, j: nat)
    requires j < |terms| && Applied(terms, e, ep, j) && Rises(ep, ep1)
    ensures Applied(terms, e, ep1, j)
  {
  }

  lemma {:induction false} ReplaySaid(p: Params, terms: seq<Option<TermStatus>>, e: nat, ep: Epoch, j: nat)
    requires j <= |terms|
    requires forall i: nat :: i < j ==> Applied(terms, e, ep, i)
    ensures var (ep1, out) := Replay(p, terms, e, ep, j);
            Said(ep, ep1, e, Lift(e, out)) && Rises(ep, ep1) && forall i: nat :: i < |terms| ==> Applied(terms, e, ep1, i)
    decreases |terms| - j
  {
    hide InsertTerm, Said, Lift, Rises, Applied;
    if j < |terms| {
      var (ep1, out1) := ReplayOne(p, terms, e, ep, j);
      var (ep2, out2) := Replay(p, terms, e, ep1, j + 1);
      ReplayOneSaid(p, terms, e, ep, j);
      forall i: nat | i < j
        ensures Applied(terms, e, ep1, i)
      {
        AppliedStays(terms, e, ep, ep1, i);
      }
      ReplaySaid(p, terms, e, ep1, j + 1);
      SaidMore(ep, ep1, ep2, e, Lift(e, out1), Lift(e, out2));
      LiftAppend(e, out1, out2);
      RisesMore(ep, ep1, ep2);
    } else {
      NothingSaid(ep, e);
    }
  }

  lemma ReplayOneSaid(p: Params, terms: seq<Option<TermStatus>>, e: nat, ep: Epoch, j: nat)
    requires j < |terms|
    ensures var (ep1, out) := ReplayOne(p, terms, e, ep, j);
            Said(ep, ep1, e, Lift(e, out)) && Rises(ep, ep1) && Applied(terms, e, ep1, j)
  {
    hide InsertTerm, Said, Lift, Rises;
    NothingSaid(ep, e);
    if terms[j].Some? {
      InsertTermSaid(p, ep, j, terms[j].value.value, e);
    }
  }

  lemma NothingSaid(ep: Epoch, e: nat)
    ensures Said(ep, ep, e, Lift(e, [])) && Said(ep, ep, e, []) && Rises(ep, ep)
  {
    assert Lift(e, []) == [];
  }

  function EpochAt(epochs: seq<Epoch>, e: nat): Epoch {
    if e < |epochs| then epochs[e] else FRESH_EPOCH
  }

  /** From epochs to more, the broadcasts are exactly those that are newly marked as sent, in whichever epoch. */
  ghost predicate Says(epochs: seq<Epoch>, more: seq<Epoch>, out: seq<BAMsg>) {
    && |epochs| <= |more|
    && (forall e: nat :: e < |more| ==> Said(EpochAt(epochs, e), more[e], e, out))
    && forall m :: m in out ==> m.EpochMsg? && m.epoch < |more|
  }

  lemma SilentElsewhere(ep: Epoch, e: nat, out: seq<BAMsg>)
    requires forall m :: m in out ==> m.epoch != e
    ensures Said(ep, ep, e, out)
  {
  }

  lemma SaysMore(a: seq<Epoch>, b: seq<Epoch>, c: seq<Epoch>, x: seq<BAMsg>, y: seq<BAMsg>)
    requires Says(a, b, x) && Says(b, c, y)
    ensures Says(a, c, x + y)
  {
    hide Said;
    forall e: nat | e < |c|
      ensures Said(EpochAt(a, e), c[e], e, x + y)
    {
      if e >= |b| {
        SilentElsewhere(FRESH_EPOCH, e, x);
      }
      SaidMore(EpochAt(a, e), EpochAt(b, e), c[e], e, x, y);
    }
  }

  lemma NoneSays(epochs: seq<Epoch>)
    ensures Says(epochs, epochs, [])
  {
  }

  lemma LiftIsOf(e: nat, out: seq<Signal>)
    ensures forall m :: m in Lift(e, out) ==> m.EpochMsg? && m.epoch == e
  {
  }

  lemma SetSays(epochs: seq<Epoch>, e: nat, ep: Epoch, out: seq<Signal>)
    requires e < |epochs| && Said(epochs[e], ep, e, Lift(e, out))
    ensures Says(epochs, epochs[e := ep], Lift(e, out))
  {
    hide Said, Lift;
    LiftIsOf(e, out);
    forall f: nat | f < |epochs| && f != e
      ensures Said(epochs[f], epochs[f], f, Lift(e, out))
    {
      SilentElsewhere(epochs[f], f, Lift(e, out));
    }
  }

  lemma PushSays(epochs: seq<Epoch>, ep: Epoch, out: seq<Signal>)
    requires Said(FRESH_EPOCH, ep, |epochs|, Lift(|epochs|, out))
    ensures Says(epochs, epochs + [ep], Lift(|epochs|, out))
  {
    hide Said, Lift;
    LiftIsOf(|epochs|, out);
    forall f: nat | f < |epochs|
      ensures Said(epochs[f], epochs[f], f, Lift(|epochs|, out))
    {
      SilentElsewhere(epochs[f], f, Lift(|epochs|, out));
    }
  }

  ghost predicate AllRise(epochs: seq<Epoch>, more: seq<Epoch>) {
    |epochs| <= |more| && forall e: nat :: e < |epochs| ==> Rises(epochs[e], more[e])
  }

  /** Every Term on record has been applied to every later epoch that there is. */
  ghost predicate TermsApplied(core: Core) {
    forall e: nat, j: nat :: e < |core.epochs| && j < |core.terms| ==> Applied(core.terms, e, core.epochs[e], j)
  }

  lemma AllRiseMore(a: seq<Epoch>, b: seq<Epoch>, c: seq<Epoch>)
    requires AllRise(a, b) && AllRise(b, c)
    ensures AllRise(a, c)
  {
    hide Rises;
    forall e: nat | e < |a|
      ensures Rises(a[e], c[e])
    {
      RisesMore(a[e], b[e], c[e]);
    }
  }

  lemma NoneRises(epochs: seq<Epoch>)
    ensures AllRise(epochs, epochs)
  {
  }

  lemma {:induction false} AllocateSays(p: Params, core: Core, until: nat)
    requires TermsApplied(core)
    ensures var (core1, out) := Allocate(p, core, until);
            Says(core.epochs, core1.epochs, out) && AllRise(core.epochs, core1.epochs) && TermsApplied(core1)
    decreases until + 1 - |core.epochs|
  {
    hide Replay, Said, Says, Rises, AllRise, Lift, Applied;
    var e := |core.epochs|;
    NoneSays(core.epochs);
    NoneRises(core.epochs);
    if until >= e {
      var (ep, out1) := Replay(p, core.terms, e, FRESH_EPOCH, 0);
      var core1 := core.(epochs := core.epochs + [ep]);
      ReplaySaid(p, core.terms, e, FRESH_EPOCH, 0);
      PushSays(core.epochs, ep, out1);
      AllRisePushed(core.epochs, ep);
      AllocateSays(p, core1, until);
      var (core2, out2) := Allocate(p, core1, until);
      SaysMore(core.epochs, core1.epochs, core2.epochs, Lift(e, out1), out2);
      AllRiseMore(core.epochs, core1.epochs, core2.epochs);
    }
  }

  lemma AllRisePushed(epochs: seq<Epoch>, ep: Epoch)
    ensures AllRise(epochs, epochs + [ep])
  {
  }

  lemma AllRiseSet(epochs: seq<Epoch>, e: nat, ep: Epoch)
    requires e < |epochs| && Rises(epochs[e], ep)
    ensures AllRise(epochs, epochs[e := ep])
  {
  }

  /** Terms stay applied when one epoch moves on. */
  lemma AppliedSet(core: Core, e: nat, ep: Epoch)
    requires e < |core.epochs| && Rises(core.epochs[e], ep) && TermsApplied(core)
    ensures TermsApplied(core.(epochs := core.epochs[e := ep]))
  {
    hide Rises, Applied;
    forall j: nat | j < |core.terms|
      ensures Applied(core.terms, e, ep, j)
    {
      AppliedStays(core.terms, e, core.epochs[e], ep, j);
    }
  }

  lemma {:induction false} ApplyTermSays(p: Params, core: Core, from: nat, v: bool, e: nat)
    requires from < |core.terms| && core.terms[from].Some? && core.terms[from].value.value == v
    requires forall f: nat, j: nat :: f < |core.epochs| && j < |core.terms| && (j != from || f < e)
                                      ==> Applied(core.terms, f, core.epochs[f], j)
    ensures var (core1, out) := ApplyTerm(p, core, from, v, e);
            Says(core.epochs, core1.epochs, out) && AllRise(core.epochs, core1.epochs) && TermsApplied(core1)
    decreases |core.epochs| - e
  {
    hide InsertTerm, Said, Says, Rises, AllRise, Lift, Applied;
    NoneSays(core.epochs);
    NoneRises(core.epochs);
    if e < |core.epochs| {
      var (ep, out1) := InsertTerm(p, core.epochs[e], from, v);
      var core1 := core.(epochs := core.epochs[e := ep]);
      InsertTermSaid(p, core.epochs[e], from, v, e);
      SetSays(core.epochs, e, ep, out1);
      AllRiseSet(core.epochs, e, ep);
      forall j: nat | j < |core.terms|
        ensures Applied(core.terms, e, ep, j)
      {
        if j != from {
          AppliedStays(core.terms, e, core.epochs[e], ep, j);
        } else {
          AppliedNow(core.terms, e, ep, j);
        }
      }
      ApplyTermSays(p, core1, from, v, e + 1);
      var (core2, out2) := ApplyTerm(p, core1, from, v, e + 1);
      SaysMore(core.epochs, core1.epochs, core2.epochs, Lift(e, out1), out2);
      AllRiseMore(core.epochs, core1.epochs, core2.epochs);
    }
  }

  lemma AppliedNow(terms: seq<Option<TermStatus>>, e: nat, ep: Epoch, j: nat)
    requires j < |terms| && terms[j].Some?
    requires ep.termed || (j in ep.At(terms[j].value.value).heard && j in ep.agreed)
    ensures Applied(terms, e, ep, j)
  {
  }

  lemma HandleSays(p: Params, core: Core, from: nat, m: BAMsg)
    requires m.epoch < |core.epochs| && from < |core.terms| && TermsApplied(core)
    ensures var (core1, out) := Handle(p, core, from, m);
            Says(core.epochs, core1.epochs, out) && AllRise(core.epochs, core1.epochs) && TermsApplied(core1)
  {
    hide RecvSignal, ApplyTerm, Said, Says, Rises, AllRise, Lift;
    NoneSays(core.epochs);
    NoneRises(core.epochs);
    match m
    case EpochMsg(e, s) =>
      var (ep, out) := RecvSignal(p, core.epochs[e], from, s);
      RecvSaid(p, core.epochs[e], from, s, e);
      SetSays(core.epochs, e, ep, out);
      AllRiseSet(core.epochs, e, ep);
      AppliedSet(core, e, ep);
    case TermMsg(e, v) =>
      if core.terms[from].None? {
        var terms := core.terms[from := Some(TermStatus(e, v))];
        forall f: nat, j: nat | f < |core.epochs| && j < |terms| && (j != from || f < e + 1)
          ensures Applied(terms, f, core.epochs[f], j)
        {
          assert Applied(core.terms, f, core.epochs[f], j);
        }
        ApplyTermSays(p, core.(terms := terms), from, v, e + 1);
      }
  }

  lemma RecordSays(p: Params, core: Core, from: nat, m: BAMsg)
    requires from < |core.terms| && TermsApplied(core)
    ensures var (core1, out) := Record(p, core, from, m);
            Says(core.epochs, core1.epochs, out) && AllRise(core.epochs, core1.epochs) && TermsApplied(core1)
  {
    hide Allocate, Handle, Says, AllRise, TermsApplied;
    AllocateSays(p, core, m.epoch);
    var (core1, out1) := Allocate(p, core, m.epoch);
    HandleSays(p, core1, from, m);
    var (core2, out2) := Handle(p, core1, from, m);
    SaysMore(core.epochs, core1.epochs, core2.epochs, out1, out2);
    AllRiseMore(core.epochs, core1.epochs, core2.epochs);
  }

  lemma EstimateSays(core: Core, e: nat, v: bool)
    requires e < |core.epochs| && TermsApplied(core)
    ensures Says(core.epochs, Estimated(core, e, v).epochs, []) && TermsApplied(Estimated(core, e, v))
  {
    forall f: nat, j: nat | f < |core.epochs| && j < |core.terms|
      ensures Applied(core.terms, f, Estimated(core, e, v).epochs[f], j)
    {
      assert Applied(core.terms, f, core.epochs[f], j);
    }
  }

  lemma AdvanceSays(p: Params, core: Core, i: nat)
    requires i < |core.epochs| && TermsApplied(core)
    ensures var (core1, out) := Advance(p, core, i);
            Says(core.epochs, core1.epochs, out) && TermsApplied(core1)
  {
    hide Allocate, Says, AllRise, TermsApplied, Estimated;
    var (core1, out) := Allocate(p, core, i + 1);
    var est := NextEstimate(i, core.epochs[i].Candidates());
    AllocateSays(p, core, i + 1);
    EstimateSays(core1, i + 1, est);
    SaysMore(core.epochs, core1.epochs, Estimated(core1, i + 1, est).epochs, out, []);
    assert out + [] == out;
  }

  /** The current epoch has not ended, and once it is begun its estimate has been sent. */
  ghost predicate Opened(core: Core) {
    && core.epochNum < |core.epochs|
    && var ep := core.epochs[core.epochNum];
       !ep.termed && (core.firstUninited == core.epochNum + 1 ==> ep.At(ep.estimate).sent)
  }

  lemma PauseSays(core: Core, i: nat)
    requires i < |core.epochs| && TermsApplied(core) && !core.epochs[i].termed
    requires i < core.firstUninited ==> core.epochs[i].At(core.epochs[i].estimate).sent
    ensures var (core1, out) := Pause(core, i);
            Says(core.epochs, core1.epochs, out) && TermsApplied(core1) && Opened(core1)
  {
    hide Says, Said, Lift, Rises, Applied;
    NoneSays(core.epochs);
    if i >= core.firstUninited && i != 0 {
      InitSaid(core.epochs[i], i);
      SetSays(core.epochs, i, InitEpoch(core.epochs[i]).0, InitEpoch(core.epochs[i]).1);
      AppliedSet(core, i, InitEpoch(core.epochs[i]).0);
      InitKeepsEstimate(core.epochs[i]);
    }
  }

  lemma InitKeepsEstimate(ep: Epoch)
    ensures InitEpoch(ep).0.estimate == ep.estimate && InitEpoch(ep).0.termed == ep.termed
  {
  }

  lemma {:induction false} CatchUpSays(p: Params, core: Core, i: nat, limit: nat)
    requires i < |core.epochs| && core.firstUninited <= i + 1 && TermsApplied(core)
    requires i < core.firstUninited && !core.epochs[i].termed ==> core.epochs[i].At(core.epochs[i].estimate).sent
    ensures var (s, out) := CatchUp(p, core, i, limit);
            s.Running? ==> Says(core.epochs, s.core.epochs, out) && TermsApplied(s.core) && Opened(s.core)
    decreases limit - i
  {
    hide Says, TermsApplied, Advance, Pause, Opened;
    if i < limit {
      if !core.epochs[i].termed {
        PauseSays(core, i);
      } else if core.epochs[i].Candidates() != {} && !IsFinal(i, core.epochs[i].Candidates()) {
        var (core1, out1) := Advance(p, core, i);
        var (s, out2) := CatchUp(p, core1, i + 1, limit);
        AdvanceSays(p, core, i);
        CatchUpSays(p, core1, i + 1, limit);
        if s.Running? {
          SaysMore(core.epochs, core1.epochs, s.core.epochs, out1, out2);
        }
      }
    }
  }

  /** An epoch whose estimate has been sent keeps it, and it stays sent. */
  lemma CurrentStays(epochs: seq<Epoch>, more: seq<Epoch>, out: seq<BAMsg>, e: nat)
    requires Says(epochs, more, out) && AllRise(epochs, more) && e < |epochs| && epochs[e].At(epochs[e].estimate).sent
    ensures more[e].At(more[e].estimate).sent
  {
    assert Said(EpochAt(epochs, e), more[e], e, out) && Rises(epochs[e], more[e]);
  }

  /**
   A BA that goes on running after a message has broadcast in each epoch exactly what it has newly marked as sent; the
   Terms on record count in every later epoch; its current epoch has not ended, and the estimate there has been sent.
   */
  lemma RecvSays(p: Params, core: Core, from: nat, m: BAMsg)
    requires from < |core.terms| && PointersOk(core) && TermsApplied(core) && Opened(core)
    ensures var (s, out) := Recv(p, Running(core), from, m);
            s.Running? ==> Says(core.epochs, s.core.epochs, out) && TermsApplied(s.core) && Opened(s.core)
  {
    hide Record, CatchUp, Says, TermsApplied, AllRise;
    var (core1, out1) := Record(p, core, from, m);
    RecordSays(p, core, from, m);
    if core.epochNum < core.firstUninited {
      CurrentStays(core.epochs, core1.epochs, out1, core.epochNum);
    }
    var (s, out2) := CatchUp(p, core1, core1.epochNum, |core1.epochs| + 2);
    CatchUpSays(p, core1, core1.epochNum, |core1.epochs| + 2);
    if s.Running? {
      SaysMore(core.epochs, core1.epochs, s.core.epochs, out1, out2);
    }
  }

  /** So has a BA that is given its input. */
  lemma InputSays(core: Core, v: bool)
    requires PointersOk(core) && TermsApplied(core) && Opened(core)
    ensures var (s, out) := Input(Running(core), v);
            s.Running? && Says(core.epochs, s.core.epochs, out) && TermsApplied(s.core) && Opened(s.core)
  {
    hide Says, Said, Lift, Rises, Applied, TermsApplied;
    NoneSays(core.epochs);
    if core.firstUninited == 0 {
      var core1 := Estimated(core, 0, v);
      var (ep, out) := InitEpoch(core1.epochs[0]);
      EstimateSays(core, 0, v);
      InitSaid(core1.epochs[0], 0);
      InitKeepsEstimate(core1.epochs[0]);
      SetSays(core1.epochs, 0, ep, out);
      AppliedSet(core1, 0, ep);
      SaysMore(core.epochs, core1.epochs, core1.epochs[0 := ep], [], Lift(0, out));
      assert [] + Lift(0, out) == Lift(0, out);
      assert core.epochs[0 := ep] == core1.epochs[0 := ep];
      SameApplied(core1.(epochs := core1.epochs[0 := ep]), Input(Running(core), v).0.core);
    } else {
      SameApplied(core, core.(input := v));
    }
  }

  lemma SameApplied(core: Core, core1: Core)
    requires TermsApplied(core) && core1.epochs == core.epochs && core1.terms == core.terms
    ensures TermsApplied(core1)
  {
  }

  lemma InitialSays(p: Params)
    ensures TermsApplied(Initial(p).core) && Opened(Initial(p).core)
  {
  }
}
