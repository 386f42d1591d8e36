/**
 The network of Binary Agreement: correct servers take exactly the steps of `Agreement`, faulty servers may
 put anything on the wire under their own name. Every reachable state satisfies `Invariant`, which links the
 state of each server to the broadcasts and thereby gives agreement and validity of the outputs.
 */
module AgreementNetwork {
  import opened Common
  import opened AgreementEpoch
  import opened Agreement
  import opened AgreementSafety

  /** The history after server q has broadcast `out`. */
  ghost function Post(h: History, q: nat, out: seq<BAMsg>): History {
    h.(sent := h.sent + set m | m in out :: (q, m))
  }

  lemma PostAppend(h: History, q: nat, a: seq<BAMsg>, b: seq<BAMsg>)
    ensures Post(h, q, a + b) == Post(Post(h, q, a), q, b)
  {
    assert Post(h, q, a + b).sent == Post(Post(h, q, a), q, b).sent;
  }

  lemma PostNothing(h: History, q: nat)
    ensures Post(h, q, []) == h
  {
    assert Post(h, q, []).sent == h.sent;
  }

  ghost predicate Grows(h: History, k: History) {
    h.sent <= k.sent && h.inputs <= k.inputs
  }

  lemma SupportGrows(c: Config, h: History, k: History)
    requires Grows(h, k)
    ensures forall j: nat, kind, e: nat, v :: MaySupport(c, h, j, kind, e, v) ==> MaySupport(c, k, j, kind, e, v)
  {
    forall j: nat, kind, e: nat, v | MaySupport(c, h, j, kind, e, v)
      ensures MaySupport(c, k, j, kind, e, v)
    {
      if TermedBefore(h, j, e, v) {
        var d: nat :| d < e && (j, TermMsg(d, v)) in h.sent;
        assert (j, TermMsg(d, v)) in k.sent;
      }
    }
  }

  lemma BelievableGrows(c: Config, h: History, k: History)
    requires Grows(h, k)
    ensures forall e: nat, v :: Believable(c, h, e, v) ==> Believable(c, k, e, v)
  {
    SupportGrows(c, h, k);
    forall e: nat, v | Believable(c, h, e, v)
      ensures Believable(c, k, e, v)
    {
      var q :| ViableQuorum(c, h, e, v, q);
      assert ViableQuorum(c, k, e, v, q);
    }
  }

  lemma ClosableGrows(c: Config, h: History, k: History)
    requires Grows(h, k)
    ensures forall e: nat, cs :: Closable(c, h, e, cs) ==> Closable(c, k, e, cs)
  {
    SupportGrows(c, h, k);
    BelievableGrows(c, h, k);
    forall e: nat, cs | Closable(c, h, e, cs)
      ensures Closable(c, k, e, cs)
    {
      var q :| AgreementQuorum(c, h, e, cs, q);
      forall j | j in q
        ensures AgreesWithin(c, k, j, e, cs)
      {
        assert AgreesWithin(c, h, j, e, cs);
      }
      assert AgreementQuorum(c, k, e, cs, q);
    }
  }

  lemma OriginGrows(c: Config, h: History, k: History)
    requires Grows(h, k)
    ensures forall e: nat, v :: Origin(c, h, e, v) ==> Origin(c, k, e, v)
  {
    ClosableGrows(c, h, k);
    forall e: nat, v | Origin(c, h, e, v)
      ensures Origin(c, k, e, v)
    {
      if e == 0 && CorrectInput(c, h, v) {
        var r: nat :| c.Correct(r) && (r, v) in h.inputs;
        assert (r, v) in k.inputs;
      } else if e > 0 && Carried(c, h, e - 1, v) {
        assert Carried(c, k, e - 1, v);
      } else {
        var r: nat :| c.Correct(r) && TermedBefore(h, r, e, v);
        var d: nat :| d < e && (r, TermMsg(d, v)) in h.sent;
        assert (r, TermMsg(d, v)) in k.sent;
        assert TermedBefore(k, r, e, v);
      }
    }
  }

  ghost predicate Undeclared(h: History, q: nat, e: nat) {
    forall v :: (q, EpochMsg(e, Signal(AgreementEpoch.Agreement, v))) !in h.sent
  }

  ghost predicate Unterminated(h: History, q: nat) {
    forall e: nat, v :: (q, TermMsg(e, v)) !in h.sent
  }

  /** What was justified stays justified for every message that is not new. */
  lemma OldStaysJustified(c: Config, h: History, k: History)
    requires Justified(c, h) && Grows(h, k)
    ensures forall q: nat, e: nat, v :: c.Correct(q) && (q, EpochMsg(e, Signal(Viable, v))) in h.sent ==> Origin(c, k, e, v)
    ensures forall q: nat, e: nat, v :: c.Correct(q) && (q, EpochMsg(e, Signal(AgreementEpoch.Agreement, v))) in h.sent
                                        ==> Believable(c, k, e, v)
    ensures forall q: nat, e: nat, v :: c.Correct(q) && (q, TermMsg(e, v)) in h.sent
                                        ==> v == Coin(e) && Closable(c, k, e, {v})
  {
    OriginGrows(c, h, k);
    BelievableGrows(c, h, k);
    ClosableGrows(c, h, k);
  }

  lemma ViableKeepsJustified(c: Config, h: History, q: nat, e: nat, v: bool)
    requires Justified(c, h) && c.Correct(q) && Origin(c, h, e, v)
    ensures Justified(c, Post(h, q, [EpochMsg(e, Signal(Viable, v))]))
  {
    hide Origin, Believable, Closable;
    var k := Post(h, q, [EpochMsg(e, Signal(Viable, v))]);
    assert k.sent == h.sent + {(q, EpochMsg(e, Signal(Viable, v)))};
    OldStaysJustified(c, h, k);
    OriginGrows(c, h, k);
  }

  lemma AgreementKeepsJustified(c: Config, h: History, q: nat, e: nat, v: bool)
    requires Justified(c, h) && c.Correct(q) && Believable(c, h, e, v) && Undeclared(h, q, e)
    ensures Justified(c, Post(h, q, [EpochMsg(e, Signal(AgreementEpoch.Agreement, v))]))
  {
    hide Origin, Believable, Closable;
    var k := Post(h, q, [EpochMsg(e, Signal(AgreementEpoch.Agreement, v))]);
    assert k.sent == h.sent + {(q, EpochMsg(e, Signal(AgreementEpoch.Agreement, v)))};
    OldStaysJustified(c, h, k);
    BelievableGrows(c, h, k);
  }

  lemma TermKeepsJustified(c: Config, h: History, q: nat, e: nat)
    requires Justified(c, h) && c.Correct(q) && Closable(c, h, e, {Coin(e)}) && Unterminated(h, q)
    ensures Justified(c, Post(h, q, [TermMsg(e, Coin(e))]))
  {
    hide Origin, Believable, Closable;
    var k := Post(h, q, [TermMsg(e, Coin(e))]);
    assert k.sent == h.sent + {(q, TermMsg(e, Coin(e)))};
    OldStaysJustified(c, h, k);
    ClosableGrows(c, h, k);
    assert ViablesJustified(c, k) && AgreementsJustified(c, k) && OneAgreementPerEpoch(c, k);
    assert TermsJustified(c, k);
  }

  lemma InputKeepsJustified(c: Config, h: History, q: nat, v: bool)
    requires Justified(c, h)
    ensures Justified(c, h.(inputs := h.inputs + {(q, v)}))
  {
    OldStaysJustified(c, h, h.(inputs := h.inputs + {(q, v)}));
  }

  /** Epoch e of server q has recorded only what was sent, and remembers its own Agreement. */
  ghost predicate EpochKnows(c: Config, h: History, q: nat, e: nat, ep: Epoch) {
    && WellFormed(c.params, ep)
    && (forall v, j :: j in ep.At(v).heard ==> MaySupport(c, h, j, Viable, e, v))
    && (forall j :: j in ep.agreed ==> MaySupport(c, h, j, AgreementEpoch.Agreement, e, ep.agreed[j]))
    && (!ep.sentAgreement ==> Undeclared(h, q, e))
  }

  lemma EpochKnowsGrows(c: Config, h: History, k: History, q: nat, e: nat, ep: Epoch)
    requires EpochKnows(c, h, q, e, ep) && Grows(h, k)
    requires Undeclared(h, q, e) ==> Undeclared(k, q, e)
    ensures EpochKnows(c, k, q, e, ep)
  {
    SupportGrows(c, h, k);
  }

  lemma HeardIsBelievable(c: Config, h: History, e: nat, ep: Epoch, v: bool)
    requires c.Valid()
    requires forall j :: j in ep.At(v).heard ==> j < c.params.n && MaySupport(c, h, j, Viable, e, v)
    requires |ep.At(v).heard| >= 2 * c.params.f + 1
    ensures Believable(c, h, e, v)
  {
    assert ViableQuorum(c, h, e, v, ep.At(v).heard);
  }

  /** F+1 Viables include one of a correct server, and that one has an origin. */
  lemma HeardHasOrigin(c: Config, h: History, e: nat, ep: Epoch, v: bool)
    requires c.Valid() && Justified(c, h)
    requires forall j :: j in ep.At(v).heard ==> j < c.params.n && MaySupport(c, h, j, Viable, e, v)
    requires |ep.At(v).heard| >= c.params.f + 1
    ensures Origin(c, h, e, v)
  {
    assert ep.At(v).heard <= Nodes(c.params.n);
    var j := CorrectMember(c, ep.At(v).heard);
    assert Supports(h, j, Viable, e, v);
    VoicedHasOrigin(c, h, e, v);
  }

  /** A terminated epoch closes with its candidates. */
  lemma TerminatedIsClosable(c: Config, h: History, q: nat, e: nat, ep: Epoch)
    requires c.Valid() && EpochKnows(c, h, q, e, ep) && ep.termed
    ensures Closable(c, h, e, ep.Candidates())
  {
    TerminatedHasCandidate(c.params, ep);
    var cs := ep.Candidates();
    forall v | v in cs
      ensures Believable(c, h, e, v)
    {
      assert SideOk(c.params, ep, v);
      HeardIsBelievable(c, h, e, ep, v);
    }
    forall j | j in ep.Backed()
      ensures AgreesWithin(c, h, j, e, cs)
    {
      assert ep.agreed[j] in cs;
    }
    assert AgreementQuorum(c, h, e, cs, ep.Backed());
  }

  /** A Viable handled by a correct server. */
  lemma OnViableStep(c: Config, h: History, q: nat, e: nat, ep: Epoch, from: nat, v: bool)
    requires c.Valid() && Justified(c, h) && c.Correct(q) && EpochKnows(c, h, q, e, ep) && !ep.termed
    requires from < c.params.n && MaySupport(c, h, from, Viable, e, v)
    ensures var (ep1, out) := OnViable(c.params, ep, from, v);
            var k := Post(h, q, Lift(e, out));
            Justified(c, k) && EpochKnows(c, k, q, e, Settle(c.params, ep1))
  {
    var p := c.params;
    var (ep1, out) := OnViable(p, ep, from, v);
    var side := ep.At(v);
    var relay := !side.sent && |side.heard + {from}| >= p.f + 1;
    var agree := |side.heard + {from}| >= 2 * p.f + 1 && !ep.sentAgreement;
    assert SideOk(p, ep, v) && ep1.At(v).heard == side.heard + {from} && ep1.At(!v) == ep.At(!v);
    forall j | j in ep1.At(v).heard
      ensures j < p.n && MaySupport(c, h, j, Viable, e, v)
    {
    }
    var viable, agreement := EpochMsg(e, Signal(Viable, v)), EpochMsg(e, Signal(AgreementEpoch.Agreement, v));
    var first := if relay then [viable] else [];
    var second := if agree then [agreement] else [];
    assert Lift(e, out) == first + second;
    PostAppend(h, q, first, second);
    PostNothing(h, q);
    var h1 := Post(h, q, first);
    if relay {
      HeardHasOrigin(c, h, e, ep1, v);
      ViableKeepsJustified(c, h, q, e, v);
    }
    SupportGrows(c, h, h1);
    PostNothing(h1, q);
    if agree {
      HeardIsBelievable(c, h1, e, ep1, v);
      AgreementKeepsJustified(c, h1, q, e, v);
    }
    var k := Post(h, q, Lift(e, out));
    SupportGrows(c, h, k);
    OnViableKeeps(p, ep, from, v);
    forall w, j | j in Settle(p, ep1).At(w).heard
      ensures MaySupport(c, k, j, Viable, e, w)
    {
      assert w == v || w == !v;
    }
  }

  lemma OnAgreementStep(c: Config, h: History, q: nat, e: nat, ep: Epoch, from: nat, v: bool)
    requires c.Valid() && EpochKnows(c, h, q, e, ep) && !ep.termed
    requires from < c.params.n && MaySupport(c, h, from, AgreementEpoch.Agreement, e, v)
    ensures EpochKnows(c, h, q, e, Settle(c.params, OnAgreement(ep, from, v)))
  {
    OnAgreementKeeps(c.params, ep, from, v);
  }

  lemma RecvSignalStep(c: Config, h: History, q: nat, e: nat, ep: Epoch, from: nat, s: Signal)
    requires c.Valid() && Justified(c, h) && c.Correct(q) && EpochKnows(c, h, q, e, ep)
    requires from < c.params.n && MaySupport(c, h, from, s.kind, e, s.value)
    ensures var (ep1, out) := RecvSignal(c.params, ep, from, s);
            var k := Post(h, q, Lift(e, out));
            Justified(c, k) && EpochKnows(c, k, q, e, ep1)
  {
    PostNothing(h, q);
    assert Lift(e, []) == [];
    if !ep.termed {
      match s.kind
      case Viable => OnViableStep(c, h, q, e, ep, from, s.value);
      case Agreement => OnAgreementStep(c, h, q, e, ep, from, s.value);
    }
  }

  lemma InitEpochStep(c: Config, h: History, q: nat, e: nat, ep: Epoch)
    requires c.Valid() && Justified(c, h) && c.Correct(q) && EpochKnows(c, h, q, e, ep)
    requires Origin(c, h, e, ep.estimate)
    ensures var (ep1, out) := InitEpoch(ep);
            var k := Post(h, q, Lift(e, out));
            Justified(c, k) && EpochKnows(c, k, q, e, ep1)
  {
    var (ep1, out) := InitEpoch(ep);
    PostNothing(h, q);
    assert Lift(e, []) == [];
    if out != [] {
      var m := EpochMsg(e, Signal(Viable, ep.estimate));
      assert Lift(e, out) == [m];
      ViableKeepsJustified(c, h, q, e, ep.estimate);
      SupportGrows(c, h, Post(h, q, [m]));
    }
    InitKeeps(c.params, ep);
  }

  lemma InsertTermStep(c: Config, h: History, q: nat, e: nat, ep: Epoch, from: nat, v: bool)
    requires c.Valid() && Justified(c, h) && c.Correct(q) && EpochKnows(c, h, q, e, ep)
    requires from < c.params.n && (from in c.faulty || TermedBefore(h, from, e, v))
    ensures var (ep1, out) := InsertTerm(c.params, ep, from, v);
            var k := Post(h, q, Lift(e, out));
            Justified(c, k) && EpochKnows(c, k, q, e, ep1)
  {
    var (ep1, out1) := RecvSignal(c.params, ep, from, Signal(Viable, v));
    RecvSignalStep(c, h, q, e, ep, from, Signal(Viable, v));
    var h1 := Post(h, q, Lift(e, out1));
    SupportGrows(c, h, h1);
    assert MaySupport(c, h, from, AgreementEpoch.Agreement, e, v);
    var (ep2, out2) := RecvSignal(c.params, ep1, from, Signal(AgreementEpoch.Agreement, v));
    RecvSignalStep(c, h1, q, e, ep1, from, Signal(AgreementEpoch.Agreement, v));
    LiftAppend(e, out1, out2);
    PostAppend(h, q, Lift(e, out1), Lift(e, out2));
  }

  ghost predicate TermsKnown(c: Config, h: History, terms: seq<Option<TermStatus>>) {
    && |terms| == c.params.n
    && forall j: nat :: j < |terms| && terms[j].Some?
         ==> j in c.faulty || (j, TermMsg(terms[j].value.epoch, terms[j].value.value)) in h.sent
  }

  /** Epoch e of the core has recorded only what was sent; q has said nothing in an epoch not yet allocated. */
  ghost predicate KnownAt(c: Config, h: History, q: nat, core: Core, e: nat) {
    if e < |core.epochs| then EpochKnows(c, h, q, e, core.epochs[e]) else Undeclared(h, q, e)
  }

  /** The core of server q has recorded only what was sent, and q has said nothing in later epochs. */
  ghost predicate CoreKnows(c: Config, h: History, q: nat, core: Core) {
    && TermsKnown(c, h, core.terms)
    && (forall j: nat :: j < |core.terms| && core.terms[j].Some? ==> core.terms[j].value.epoch < |core.epochs|)
    && (forall e: nat :: KnownAt(c, h, q, core, e))
    && Unterminated(h, q)
  }

  /** Broadcasts of epoch e leave the other epochs alone. */
  lemma LiftIsQuiet(h: History, q: nat, e: nat, out: seq<Signal>)
    ensures var k := Post(h, q, Lift(e, out));
            && Grows(h, k)
            && (Unterminated(h, q) ==> Unterminated(k, q))
            && forall i: nat :: i != e && Undeclared(h, q, i) ==> Undeclared(k, q, i)
  {
  }

  lemma SetEpochStep(c: Config, h: History, q: nat, core: Core, e: nat, ep: Epoch, out: seq<Signal>)
    requires CoreKnows(c, h, q, core) && e < |core.epochs|
    requires EpochKnows(c, Post(h, q, Lift(e, out)), q, e, ep)
    ensures CoreKnows(c, Post(h, q, Lift(e, out)), q, core.(epochs := core.epochs[e := ep]))
  {
    var k := Post(h, q, Lift(e, out));
    var core1 := core.(epochs := core.epochs[e := ep]);
    LiftIsQuiet(h, q, e, out);
    forall i: nat
      ensures KnownAt(c, k, q, core1, i)
    {
      assert KnownAt(c, h, q, core, i);
      if i < |core.epochs| && i != e {
        EpochKnowsGrows(c, h, k, q, i, core.epochs[i]);
      }
    }
  }

  lemma PushEpochStep(c: Config, h: History, q: nat, core: Core, ep: Epoch, out: seq<Signal>)
    requires CoreKnows(c, h, q, core)
    requires EpochKnows(c, Post(h, q, Lift(|core.epochs|, out)), q, |core.epochs|, ep)
    ensures CoreKnows(c, Post(h, q, Lift(|core.epochs|, out)), q, core.(epochs := core.epochs + [ep]))
  {
    var e := |core.epochs|;
    var k := Post(h, q, Lift(e, out));
    var core1 := core.(epochs := core.epochs + [ep]);
    LiftIsQuiet(h, q, e, out);
    forall i: nat
      ensures KnownAt(c, k, q, core1, i)
    {
      assert KnownAt(c, h, q, core, i);
      if i < e {
        EpochKnowsGrows(c, h, k, q, i, core.epochs[i]);
      }
    }
  }

  lemma ReplayOneStep(c: Config, h: History, q: nat, terms: seq<Option<TermStatus>>, e: nat, ep: Epoch, j: nat)
    requires c.Valid() && Justified(c, h) && c.Correct(q) && EpochKnows(c, h, q, e, ep)
    requires TermsKnown(c, h, terms) && j < |terms|
    ensures var (ep1, out) := ReplayOne(c.params, terms, e, ep, j);
            var k := Post(h, q, Lift(e, out));
            Justified(c, k) && EpochKnows(c, k, q, e, ep1) && TermsKnown(c, k, terms)
  {
    PostNothing(h, q);
    assert Lift(e, []) == [];
    if terms[j].Some? && terms[j].value.epoch < e {
      InsertTermStep(c, h, q, e, ep, j, terms[j].value.value);
    }
  }

  lemma {:induction false} ReplayStep(c: Config, h: History, q: nat, terms: seq<Option<TermStatus>>, e: nat, ep: Epoch, j: nat)
    requires c.Valid() && Justified(c, h) && c.Correct(q) && EpochKnows(c, h, q, e, ep)
    requires TermsKnown(c, h, terms) && j <= |terms|
    ensures var (ep1, out) := Replay(c.params, terms, e, ep, j);
            var k := Post(h, q, Lift(e, out));
            Justified(c, k) && EpochKnows(c, k, q, e, ep1)
    decreases |terms| - j
  {
    if j == |terms| {
      PostNothing(h, q);
      assert Lift(e, []) == [];
    } else {
      ReplayOneStep(c, h, q, terms, e, ep, j);
      var (ep1, out1) := ReplayOne(c.params, terms, e, ep, j);
      ReplayStep(c, Post(h, q, Lift(e, out1)), q, terms, e, ep1, j + 1);
      var (ep2, out2) := Replay(c.params, terms, e, ep1, j + 1);
      LiftAppend(e, out1, out2);
      PostAppend(h, q, Lift(e, out1), Lift(e, out2));
    }
  }

  lemma {:induction false} AllocateStep(c: Config, h: History, q: nat, core: Core, until: nat)
    requires c.Valid() && Justified(c, h) && c.Correct(q) && CoreKnows(c, h, q, core)
    ensures var (core1, out) := Allocate(c.params, core, until);
            var k := Post(h, q, out);
            Justified(c, k) && CoreKnows(c, k, q, core1)
    decreases until + 1 - |core.epochs|
  {
    PostNothing(h, q);
    var e := |core.epochs|;
    if e <= until {
      FreshWellFormed(c.params);
      assert KnownAt(c, h, q, core, e);
      var (ep, out1) := Replay(c.params, core.terms, e, FRESH_EPOCH, 0);
      ReplayStep(c, h, q, core.terms, e, FRESH_EPOCH, 0);
      PushEpochStep(c, h, q, core, ep, out1);
      var core1 := core.(epochs := core.epochs + [ep]);
      var h1 := Post(h, q, Lift(e, out1));
      AllocateStep(c, h1, q, core1, until);
      PostAppend(h, q, Lift(e, out1), Allocate(c.params, core1, until).1);
    }
  }

  ghost predicate Announced(c: Config, h: History, from: nat, d: nat, v: bool) {
    from in c.faulty || (from, TermMsg(d, v)) in h.sent
  }

  lemma ApplyOneStep(c: Config, h: History, q: nat, core: Core, from: nat, d: nat, v: bool, e: nat)
    requires c.Valid() && Justified(c, h) && c.Correct(q) && CoreKnows(c, h, q, core)
    requires from < c.params.n && d < e < |core.epochs| && Announced(c, h, from, d, v)
    ensures var (core1, out) := ApplyOne(c.params, core, from, v, e);
            var k := Post(h, q, out);
            Justified(c, k) && CoreKnows(c, k, q, core1) && Announced(c, k, from, d, v)
  {
    assert KnownAt(c, h, q, core, e);
    var (ep, out) := InsertTerm(c.params, core.epochs[e], from, v);
    InsertTermStep(c, h, q, e, core.epochs[e], from, v);
    SetEpochStep(c, h, q, core, e, ep, out);
  }

  /** The history after `out` is justified and covers what q knows once it has moved to `core`. */
  ghost predicate After(c: Config, h: History, q: nat, core: Core, out: seq<BAMsg>) {
    Justified(c, Post(h, q, out)) && CoreKnows(c, Post(h, q, out), q, core)
  }

  lemma ApplyTermUnfolds(c: Config, h: History, q: nat, core: Core, from: nat, v: bool, e: nat)
    requires e < |core.epochs|
    requires var (core1, out1) := ApplyOne(c.params, core, from, v, e);
             var (core2, out2) := ApplyTerm(c.params, core1, from, v, e + 1);
             After(c, Post(h, q, out1), q, core2, out2)
    ensures var (core2, out) := ApplyTerm(c.params, core, from, v, e);
            After(c, h, q, core2, out)
  {
    hide ApplyOne, CoreKnows, Justified;
    var (core1, out1) := ApplyOne(c.params, core, from, v, e);
    PostAppend(h, q, out1, ApplyTerm(c.params, core1, from, v, e + 1).1);
  }

  lemma {:induction false} ApplyTermStep(c: Config, h: History, q: nat, core: Core, from: nat, d: nat, v: bool, e: nat)
    requires c.Valid() && Justified(c, h) && c.Correct(q) && CoreKnows(c, h, q, core)
    requires from < c.params.n && d < e && Announced(c, h, from, d, v)
    ensures var (core1, out) := ApplyTerm(c.params, core, from, v, e);
            After(c, h, q, core1, out)
    decreases |core.epochs| - e
  {
    hide ApplyOne, EpochKnows, Justified;
    if e >= |core.epochs| {
      PostNothing(h, q);
    } else {
      ApplyOneStep(c, h, q, core, from, d, v, e);
      var (core1, out1) := ApplyOne(c.params, core, from, v, e);
      ApplyTermStep(c, Post(h, q, out1), q, core1, from, d, v, e + 1);
      ApplyTermUnfolds(c, h, q, core, from, v, e);
    }
  }

  /** A message is deliverable from a server that broadcast it, and from a faulty one always. */
  ghost predicate Deliverable(c: Config, h: History, from: nat, m: BAMsg) {
    from < c.params.n && (from in c.faulty || (from, m) in h.sent)
  }

  lemma HandleStep(c: Config, h: History, q: nat, core: Core, from: nat, m: BAMsg)
    requires c.Valid() && Justified(c, h) && c.Correct(q) && CoreKnows(c, h, q, core)
    requires Deliverable(c, h, from, m) && m.epoch < |core.epochs|
    ensures var (core1, out) := Handle(c.params, core, from, m);
            var k := Post(h, q, out);
            Justified(c, k) && CoreKnows(c, k, q, core1)
  {
    hide RecvSignal, ApplyTerm, Justified, EpochKnows;
    PostNothing(h, q);
    match m
    case EpochMsg(e, s) =>
      assert MaySupport(c, h, from, s.kind, e, s.value) && KnownAt(c, h, q, core, e);
      var (ep, out) := RecvSignal(c.params, core.epochs[e], from, s);
      RecvSignalStep(c, h, q, e, core.epochs[e], from, s);
      SetEpochStep(c, h, q, core, e, ep, out);
    case TermMsg(e, v) =>
      if core.terms[from].None? {
        var core1 := core.(terms := core.terms[from := Some(TermStatus(e, v))]);
        assert forall i: nat :: KnownAt(c, h, q, core, i) ==> KnownAt(c, h, q, core1, i);
        ApplyTermStep(c, h, q, core1, from, e, v, e + 1);
      }
  }

  lemma EstimateStep(c: Config, h: History, q: nat, core: Core, e: nat, v: bool)
    requires CoreKnows(c, h, q, core) && e < |core.epochs|
    ensures CoreKnows(c, h, q, Estimated(core, e, v))
  {
    var core1 := Estimated(core, e, v);
    assert KnownAt(c, h, q, core, e);
    EstimateKeeps(c.params, core.epochs[e], v);
    forall i: nat
      ensures KnownAt(c, h, q, core1, i)
    {
      assert KnownAt(c, h, q, core, i);
    }
  }

  /** What the catch-up loop keeps when it reaches epoch i. */
  ghost predicate LoopKnows(c: Config, h: History, core: Core, i: nat) {
    && core.epochNum <= i < |core.epochs|
    && core.firstUninited <= i + 1
    && (i > 0 && core.firstUninited <= i ==> Origin(c, h, i, core.epochs[i].estimate))
  }

  lemma NextHasOrigin(c: Config, h: History, q: nat, core: Core, i: nat)
    requires c.Valid() && CoreKnows(c, h, q, core) && i < |core.epochs| && core.epochs[i].termed
    ensures Origin(c, h, i + 1, NextEstimate(i, core.epochs[i].Candidates()))
  {
    assert KnownAt(c, h, q, core, i);
    TerminatedIsClosable(c, h, q, i, core.epochs[i]);
    assert Carried(c, h, i, NextEstimate(i, core.epochs[i].Candidates()));
  }

  lemma AdvanceStep(c: Config, h: History, q: nat, core: Core, i: nat)
    requires c.Valid() && Justified(c, h) && c.Correct(q) && CoreKnows(c, h, q, core) && LoopKnows(c, h, core, i)
    requires core.epochs[i].termed
    ensures var (core1, out) := Advance(c.params, core, i);
            var k := Post(h, q, out);
            Justified(c, k) && CoreKnows(c, k, q, core1) && LoopKnows(c, k, core1, i + 1)
  {
    var est := NextEstimate(i, core.epochs[i].Candidates());
    NextHasOrigin(c, h, q, core, i);
    var (core1, out) := Allocate(c.params, core, i + 1);
    AllocateStep(c, h, q, core, i + 1);
    OriginGrows(c, h, Post(h, q, out));
    EstimateStep(c, Post(h, q, out), q, core1, i + 1, est);
  }

  lemma PauseStep(c: Config, h: History, q: nat, core: Core, i: nat)
    requires c.Valid() && Justified(c, h) && c.Correct(q) && CoreKnows(c, h, q, core) && LoopKnows(c, h, core, i)
    ensures var (core1, out) := Pause(core, i);
            var k := Post(h, q, out);
            Justified(c, k) && CoreKnows(c, k, q, core1) && PointersOk(core1)
  {
    PostNothing(h, q);
    var core1 := Pause(core, i).0;
    if i >= core.firstUninited && i != 0 {
      assert KnownAt(c, h, q, core, i);
      var (ep, out) := InitEpoch(core.epochs[i]);
      InitEpochStep(c, h, q, i, core.epochs[i]);
      SetEpochStep(c, h, q, core, i, ep, out);
      SameEpochsSameKnowledge(c, Post(h, q, Lift(i, out)), q, core.(epochs := core.epochs[i := ep]), core1);
    } else {
      SameEpochsSameKnowledge(c, h, q, core, core1);
    }
  }

  lemma SameEpochsSameKnowledge(c: Config, h: History, q: nat, core: Core, core1: Core)
    requires CoreKnows(c, h, q, core) && core1.epochs == core.epochs && core1.terms == core.terms
    ensures CoreKnows(c, h, q, core1)
  {
    forall i: nat
      ensures KnownAt(c, h, q, core1, i)
    {
      assert KnownAt(c, h, q, core, i);
    }
  }

  /** What the invariant says of a correct server. */
  ghost predicate ServerKnows(c: Config, h: History, q: nat, s: State) {
    match s
    case Running(core) => CoreKnows(c, h, q, core) && PointersOk(core)
    case Decided(v) => exists e: nat :: (q, TermMsg(e, v)) in h.sent
    case Panicked => false
    case Diverged => false
  }

  lemma CatchUpUnfolds(c: Config, h: History, q: nat, core: Core, i: nat, limit: nat)
    requires i < |core.epochs| && i < limit && core.epochs[i].termed
    requires core.epochs[i].Candidates() != {} && !IsFinal(i, core.epochs[i].Candidates())
    requires var (core1, out1) := Advance(c.params, core, i);
             var (s, out2) := CatchUp(c.params, core1, i + 1, limit);
             var k := Post(Post(h, q, out1), q, out2);
             s.Diverged? || (Justified(c, k) && ServerKnows(c, k, q, s))
    ensures var (s, out) := CatchUp(c.params, core, i, limit);
            var k := Post(h, q, out);
            s.Diverged? || (Justified(c, k) && ServerKnows(c, k, q, s))
  {
    hide Advance, ServerKnows, Justified;
    var (core1, out1) := Advance(c.params, core, i);
    PostAppend(h, q, out1, CatchUp(c.params, core1, i + 1, limit).1);
  }

  lemma DecideStep(c: Config, h: History, q: nat, core: Core, i: nat)
    requires c.Valid() && Justified(c, h) && c.Correct(q) && CoreKnows(c, h, q, core)
    requires i < |core.epochs| && core.epochs[i].termed && IsFinal(i, core.epochs[i].Candidates())
    ensures var k := Post(h, q, [TermMsg(i, Coin(i))]);
            Justified(c, k) && ServerKnows(c, k, q, Decided(Coin(i)))
  {
    assert KnownAt(c, h, q, core, i);
    TerminatedIsClosable(c, h, q, i, core.epochs[i]);
    TermKeepsJustified(c, h, q, i);
    assert (q, TermMsg(i, Coin(i))) in Post(h, q, [TermMsg(i, Coin(i))]).sent;
  }

  lemma {:induction false} CatchUpStep(c: Config, h: History, q: nat, core: Core, i: nat, limit: nat)
    requires c.Valid() && Justified(c, h) && c.Correct(q) && CoreKnows(c, h, q, core) && LoopKnows(c, h, core, i)
    ensures var (s, out) := CatchUp(c.params, core, i, limit);
            var k := Post(h, q, out);
            s.Diverged? || (Justified(c, k) && ServerKnows(c, k, q, s))
    decreases limit - i
  {
    if i < limit {
      if !core.epochs[i].termed {
        PauseStep(c, h, q, core, i);
      } else {
        assert KnownAt(c, h, q, core, i);
        TerminatedHasCandidate(c.params, core.epochs[i]);
        if IsFinal(i, core.epochs[i].Candidates()) {
          DecideStep(c, h, q, core, i);
        } else {
          AdvanceStep(c, h, q, core, i);
          var (core1, out1) := Advance(c.params, core, i);
          CatchUpStep(c, Post(h, q, out1), q, core1, i + 1, limit);
          CatchUpUnfolds(c, h, q, core, i, limit);
        }
      }
    }
  }

  /** The whole cluster: a state for each server (those of faulty ones mean nothing) and the broadcasts so far. */
  datatype Net = Net(servers: seq<State>, history: History)

  ghost function Start(c: Config): Net {
    Net(seq(c.params.n, i => Initial(c.params)), History({}, {}))
  }

  /** There is one state per server, and it has one slot per server. */
  ghost predicate Shaped(c: Config, net: Net) {
    && |net.servers| == c.params.n
    && forall q: nat :: c.Correct(q) && net.servers[q].Running?
         ==> |net.servers[q].core.terms| == c.params.n && PointersOk(net.servers[q].core)
  }

  /** Correct server q handles message m of server `from`. */
  ghost predicate Deliver(c: Config, net: Net, next: Net, q: nat, from: nat, m: BAMsg)
    requires Shaped(c, net)
  {
    && c.Correct(q) && Deliverable(c, net.history, from, m)
    && var (s, out) := Recv(c.params, net.servers[q], from, m);
       next == Net(net.servers[q := s], Post(net.history, q, out))
  }

  /** Correct server q is given its input v. */
  ghost predicate GiveInput(c: Config, net: Net, next: Net, q: nat, v: bool)
    requires Shaped(c, net)
  {
    && c.Correct(q)
    && var (s, out) := Input(net.servers[q], v);
       next == Net(net.servers[q := s], Post(WithInput(net.history, q, v), q, out))
  }

  ghost function WithInput(h: History, q: nat, v: bool): History {
    h.(inputs := h.inputs + {(q, v)})
  }

  ghost predicate Invariant(c: Config, net: Net) {
    && c.Valid()
    && |net.servers| == c.params.n
    && Justified(c, net.history)
    && forall q: nat :: c.Correct(q) ==> ServerKnows(c, net.history, q, net.servers[q])
  }

  ghost predicate Step(c: Config, net: Net, next: Net)
    requires Shaped(c, net)
  {
    || (exists q, from, m :: Deliver(c, net, next, q, from, m))
    || (exists q, v :: GiveInput(c, net, next, q, v))
  }

  /** The broadcasts and inputs of q do not disturb what another server knows. */
  lemma OthersKeepKnowing(c: Config, h: History, k: History, q: nat, r: nat, s: State)
    requires ServerKnows(c, h, r, s) && Grows(h, k) && r != q
    requires forall m :: (r, m) in k.sent ==> (r, m) in h.sent
    ensures ServerKnows(c, k, r, s)
  {
    if s.Running? {
      forall i: nat
        ensures KnownAt(c, k, r, s.core, i)
      {
        assert KnownAt(c, h, r, s.core, i);
        if i < |s.core.epochs| {
          EpochKnowsGrows(c, h, k, r, i, s.core.epochs[i]);
        }
      }
    }
  }

  lemma ServerMoves(c: Config, net: Net, q: nat, s: State, k: History)
    requires Invariant(c, net) && c.Correct(q) && Grows(net.history, k)
    requires forall r: nat, m :: r != q && (r, m) in k.sent ==> (r, m) in net.history.sent
    requires Justified(c, k) && ServerKnows(c, k, q, s)
    ensures Invariant(c, Net(net.servers[q := s], k))
  {
    forall r: nat | c.Correct(r)
      ensures ServerKnows(c, k, r, net.servers[q := s][r])
    {
      if r != q {
        OthersKeepKnowing(c, net.history, k, q, r, net.servers[r]);
      }
    }
  }

  lemma StartKnows(c: Config)
    requires c.Valid()
    ensures Invariant(c, Start(c))
  {
    var h := History({}, {});
    FreshWellFormed(c.params);
    var core := Initial(c.params).core;
    forall q: nat | c.Correct(q)
      ensures ServerKnows(c, h, q, Initial(c.params))
    {
      forall i: nat
        ensures KnownAt(c, h, q, core, i)
      {
      }
    }
  }

  lemma InputStep(c: Config, h: History, q: nat, core: Core, v: bool)
    requires c.Valid() && Justified(c, h) && c.Correct(q) && CoreKnows(c, h, q, core) && PointersOk(core)
    requires (q, v) in h.inputs
    ensures var (s, out) := Input(Running(core), v);
            var k := Post(h, q, out);
            Justified(c, k) && ServerKnows(c, k, q, s)
  {
    PostNothing(h, q);
    if core.firstUninited == 0 {
      var ep := core.epochs[0].(estimate := v);
      EstimateStep(c, h, q, core, 0, v);
      assert KnownAt(c, h, q, Estimated(core, 0, v), 0);
      assert CorrectInput(c, h, v);
      var (ep1, out) := InitEpoch(ep);
      InitEpochStep(c, h, q, 0, ep);
      SetEpochStep(c, h, q, core, 0, ep1, out);
      SameEpochsSameKnowledge(c, Post(h, q, Lift(0, out)), q, core.(epochs := core.epochs[0 := ep1]),
                              Input(Running(core), v).0.core);
    } else {
      SameEpochsSameKnowledge(c, h, q, core, core.(input := v));
    }
  }

  lemma RecordStep(c: Config, h: History, q: nat, core: Core, from: nat, m: BAMsg)
    requires c.Valid() && Justified(c, h) && c.Correct(q) && CoreKnows(c, h, q, core)
    requires Deliverable(c, h, from, m)
    ensures var (core1, out) := Record(c.params, core, from, m);
            var k := Post(h, q, out);
            Justified(c, k) && CoreKnows(c, k, q, core1)
  {
    var (core1, out1) := Allocate(c.params, core, m.epoch);
    AllocateStep(c, h, q, core, m.epoch);
    HandleStep(c, Post(h, q, out1), q, core1, from, m);
    var (core2, out2) := Handle(c.params, core1, from, m);
    PostAppend(h, q, out1, out2);
  }

  lemma RecvUnfolds(c: Config, h: History, q: nat, core: Core, from: nat, m: BAMsg)
    requires from < |core.terms| && PointersOk(core)
    requires var (core1, out1) := Record(c.params, core, from, m);
             var (s, out2) := CatchUp(c.params, core1, core1.epochNum, |core1.epochs| + 2);
             var k := Post(Post(h, q, out1), q, out2);
             s.Diverged? || (Justified(c, k) && ServerKnows(c, k, q, s))
    ensures var (s, out) := Recv(c.params, Running(core), from, m);
            var k := Post(h, q, out);
            s.Diverged? || (Justified(c, k) && ServerKnows(c, k, q, s))
  {
    hide Record, CatchUp, Justified, ServerKnows;
    var (core1, out1) := Record(c.params, core, from, m);
    PostAppend(h, q, out1, CatchUp(c.params, core1, core1.epochNum, |core1.epochs| + 2).1);
  }

  /** A message handled by a running correct server, unless its catch-up loop would not end. */
  lemma RecvStep(c: Config, h: History, q: nat, core: Core, from: nat, m: BAMsg)
    requires c.Valid() && Justified(c, h) && c.Correct(q) && CoreKnows(c, h, q, core) && PointersOk(core)
    requires Deliverable(c, h, from, m)
    ensures var (s, out) := Recv(c.params, Running(core), from, m);
            var k := Post(h, q, out);
            s.Diverged? || (Justified(c, k) && ServerKnows(c, k, q, s))
  {
    hide Record, CatchUp, Recv, Justified;
    var (core1, out1) := Record(c.params, core, from, m);
    RecordStep(c, h, q, core, from, m);
    CatchUpStep(c, Post(h, q, out1), q, core1, core1.epochNum, |core1.epochs| + 2);
    RecvUnfolds(c, h, q, core, from, m);
  }
}
