/**
 Whole runs of Binary Agreement: what the flags of a correct server announce is on the wire, and nothing else; the
 estimate of its current epoch is. So the agreement cannot come to rest with all correct servers in one epoch.
 */
module AgreementProgress {
  import opened Common
  import opened AgreementEpoch
  import opened Agreement
  import opened AgreementSafety
  import opened AgreementNetwork
  import opened AgreementSpeech
  import AR = AgreementRuns

  /** Server q has sent Viable(v) of epoch e. */
  ghost predicate HasSaid(h: History, q: nat, e: nat, v: bool) {
    (q, EpochMsg(e, Signal(Viable, v))) in h.sent
  }

  /** Server q has sent an Agreement of epoch e. */
  ghost predicate HasAgreed(h: History, q: nat, e: nat) {
    exists v :: (q, EpochMsg(e, Signal(AgreementEpoch.Agreement, v))) in h.sent
  }

  /** In each epoch server q has broadcast exactly what is marked as sent. */
  ghost predicate Announces(h: History, q: nat, epochs: seq<Epoch>) {
    && (forall e: nat, v :: HasSaid(h, q, e, v) <==> e < |epochs| && epochs[e].At(v).sent)
    && (forall e: nat :: HasAgreed(h, q, e) <==> e < |epochs| && epochs[e].sentAgreement)
  }

  /** What a correct server has said; a server that has decided has sent its Term. */
  ghost predicate Spoken(h: History, q: nat, s: State) {
    s.Running? ==> Announces(h, q, s.core.epochs) && TermsApplied(s.core) && Opened(s.core)
  }

  lemma ViableMore(h: History, q: nat, epochs: seq<Epoch>, more: seq<Epoch>, out: seq<BAMsg>, e: nat, v: bool)
    requires Announces(h, q, epochs) && Says(epochs, more, out)
    ensures HasSaid(Post(h, q, out), q, e, v) <==> e < |more| && more[e].At(v).sent
  {
    var m := EpochMsg(e, Signal(Viable, v));
    SentMore(h, q, out, m);
    if e < |more| {
      assert Said(EpochAt(epochs, e), more[e], e, out);
      assert m in out <==> !EpochAt(epochs, e).At(v).sent && more[e].At(v).sent;
      assert HasSaid(h, q, e, v) <==> EpochAt(epochs, e).At(v).sent;
    } else {
      assert m !in out && !HasSaid(h, q, e, v);
    }
  }

  lemma AnnouncesMore(h: History, q: nat, epochs: seq<Epoch>, more: seq<Epoch>, out: seq<BAMsg>)
    requires Announces(h, q, epochs) && Says(epochs, more, out)
    ensures Announces(Post(h, q, out), q, more)
  {
    var k := Post(h, q, out);
    forall e: nat, v
      ensures HasSaid(k, q, e, v) <==> e < |more| && more[e].At(v).sent
    {
      ViableMore(h, q, epochs, more, out, e, v);
    }
    forall e: nat
      ensures HasAgreed(k, q, e) <==> e < |more| && more[e].sentAgreement
    {
      AgreedMore(h, q, out, e);
      if e < |more| {
        assert Said(EpochAt(epochs, e), more[e], e, out);
      } else {
        assert !Agrees(e, out);
      }
    }
  }

  lemma SentMore(h: History, q: nat, out: seq<BAMsg>, m: BAMsg)
    ensures (q, m) in Post(h, q, out).sent <==> (q, m) in h.sent || m in out
  {
  }

  lemma AgreedMore(h: History, q: nat, out: seq<BAMsg>, e: nat)
    ensures HasAgreed(Post(h, q, out), q, e) <==> HasAgreed(h, q, e) || Agrees(e, out)
  {
    var k := Post(h, q, out);
    if HasAgreed(h, q, e) {
      var v :| (q, EpochMsg(e, Signal(AgreementEpoch.Agreement, v))) in h.sent;
      assert (q, EpochMsg(e, Signal(AgreementEpoch.Agreement, v))) in k.sent;
    }
    if Agrees(e, out) {
      var v :| EpochMsg(e, Signal(AgreementEpoch.Agreement, v)) in out;
      assert (q, EpochMsg(e, Signal(AgreementEpoch.Agreement, v))) in k.sent;
    }
  }

  /** Broadcasts of others do not matter. */
  lemma OthersAnnounce(h: History, k: History, r: nat, epochs: seq<Epoch>)
    requires Announces(h, r, epochs) && forall m :: (r, m) in k.sent <==> (r, m) in h.sent
    ensures Announces(k, r, epochs)
  {
    forall e: nat, v
      ensures HasSaid(k, r, e, v) <==> HasSaid(h, r, e, v)
    {
    }
    forall e: nat
      ensures HasAgreed(k, r, e) <==> HasAgreed(h, r, e)
    {
      assert forall v :: (r, EpochMsg(e, Signal(AgreementEpoch.Agreement, v))) in k.sent
                    <==> (r, EpochMsg(e, Signal(AgreementEpoch.Agreement, v))) in h.sent;
    }
  }

  lemma OthersSpeak(h: History, k: History, r: nat, s: State)
    requires Spoken(h, r, s) && forall m :: (r, m) in k.sent <==> (r, m) in h.sent
    ensures Spoken(k, r, s)
  {
    hide TermsApplied, Opened, Announces;
    if s.Running? {
      OthersAnnounce(h, k, r, s.core.epochs);
    }
  }

  ghost predicate AllSpoken(c: Config, net: Net) {
    && Shaped(c, net)
    && forall q: nat :: c.Correct(q) ==> Spoken(net.history, q, net.servers[q])
  }

  lemma ServerSpeaks(c: Config, net: Net, q: nat, s: State, inputs: set<(nat, bool)>, out: seq<BAMsg>)
    requires AllSpoken(c, net) && c.Correct(q) && Spoken(Post(net.history.(inputs := inputs), q, out), q, s)
    requires Shaped(c, Net(net.servers[q := s], Post(net.history.(inputs := inputs), q, out)))
    ensures AllSpoken(c, Net(net.servers[q := s], Post(net.history.(inputs := inputs), q, out)))
  {
    hide Spoken, Shaped;
    assert Shaped(c, net);
    ShapedInRange(c, net);
    var k := Post(net.history.(inputs := inputs), q, out);
    forall r: nat | c.Correct(r)
      ensures Spoken(k, r, net.servers[q := s][r])
    {
      if r != q {
        OthersSpeak(net.history, k, r, net.servers[r]);
      }
    }
  }

  lemma ShapedInRange(c: Config, net: Net)
    requires Shaped(c, net)
    ensures |net.servers| == c.params.n
  {
  }

  lemma DeliverSpeaks(c: Config, net: Net, next: Net, q: nat, from: nat, m: BAMsg)
    requires AllSpoken(c, net) && Deliver(c, net, next, q, from, m) && Shaped(c, next)
    ensures AllSpoken(c, next)
  {
    hide Recv, Announces, Says, TermsApplied, Opened;
    var h := net.history;
    var (s, out) := Recv(c.params, net.servers[q], from, m);
    assert Spoken(h, q, net.servers[q]);
    if net.servers[q].Running? && s.Running? {
      var core := net.servers[q].core;
      assert net.servers[q] == Running(core);
      RecvSays(c.params, core, from, m);
      AnnouncesMore(h, q, core.epochs, s.core.epochs, out);
    } else if !net.servers[q].Running? {
      assert s == net.servers[q] by {
        StoppedStays(c.params, net.servers[q], from, m);
      }
    }
    assert h.(inputs := h.inputs) == h;
    ServerSpeaks(c, net, q, s, h.inputs, out);
  }

  lemma StoppedStays(p: Params, s: State, from: nat, m: BAMsg)
    requires !s.Running?
    ensures Recv(p, s, from, m) == (s, [])
  {
  }

  lemma GiveInputSpeaks(c: Config, net: Net, next: Net, q: nat, v: bool)
    requires AllSpoken(c, net) && GiveInput(c, net, next, q, v) && Shaped(c, next)
    ensures AllSpoken(c, next)
  {
    hide Announces, Says, TermsApplied, Opened;
    var h := WithInput(net.history, q, v);
    var (s, out) := Input(net.servers[q], v);
    assert Spoken(net.history, q, net.servers[q]);
    OthersSpeak(net.history, h, q, net.servers[q]);
    if net.servers[q].Running? {
      var core := net.servers[q].core;
      InputSays(core, v);
      AnnouncesMore(h, q, core.epochs, s.core.epochs, out);
    }
    ServerSpeaks(c, net, q, s, h.inputs, out);
  }

  lemma StartSpoken(c: Config)
    requires c.Valid()
    ensures AllSpoken(c, Start(c))
  {
    InitialSays(c.params);
    forall q: nat, e: nat
      ensures !HasAgreed(Start(c).history, q, e)
    {
    }
  }

  /** In every state of every run, correct servers have said exactly what their flags say. */
  lemma {:induction false} RunIsSpoken(c: Config, run: seq<Net>, i: nat)
    requires AR.Run(c, run) && i < |run|
    ensures Invariant(c, run[i]) && AllSpoken(c, run[i])
  {
    hide Invariant, AllSpoken, Shaped, Step;
    AR.RunKeepsInvariant(c, run, i);
    AR.InvariantShapes(c, run[i]);
    if i == 0 {
      StartSpoken(c);
    } else {
      RunIsSpoken(c, run, i - 1);
      assert AR.Moves(c, run[i - 1], run[i]);
      StepSpeaks(c, run[i - 1], run[i]);
    }
  }

  lemma StepSpeaks(c: Config, net: Net, next: Net)
    requires Shaped(c, net) && AllSpoken(c, net) && Step(c, net, next) && Shaped(c, next)
    ensures AllSpoken(c, next)
  {
    hide AllSpoken, Shaped, Deliver, GiveInput;
    if q: nat, from: nat, m :| Deliver(c, net, next, q, from, m) {
      DeliverSpeaks(c, net, next, q, from, m);
    } else {
      var q: nat, v :| GiveInput(c, net, next, q, v);
      GiveInputSpeaks(c, net, next, q, v);
    }
  }

  /**
   The estimate of the current epoch has been sent, if the epoch has been begun: the first epoch is begun with the input,
   a later one as soon as it is reached.
   */
  lemma EstimateIsSent(c: Config, run: seq<Net>, i: nat, q: nat)
    requires AR.Run(c, run) && i < |run| && c.Correct(q)
    ensures |run[i].servers| == c.params.n
    ensures run[i].servers[q].Running? ==>
              var core := run[i].servers[q].core;
              && core.epochNum < |core.epochs| && !core.epochs[core.epochNum].termed
              && (core.epochNum > 0 ==> core.firstUninited == core.epochNum + 1)
              && (core.firstUninited == core.epochNum + 1 ==>
                    HasSaid(run[i].history, q, core.epochNum, core.epochs[core.epochNum].estimate))
  {
    hide Invariant, TermsApplied;
    RunIsSpoken(c, run, i);
    assert Spoken(run[i].history, q, run[i].servers[q]);
  }

  /** Hearing again what correct servers have said changes no correct server. */
  ghost predicate Resting(c: Config, net: Net)
    requires Shaped(c, net)
  {
    forall q: nat, j: nat, m :: c.Correct(q) && c.Correct(j) && (j, m) in net.history.sent
                                ==> Recv(c.params, net.servers[q], j, m).0 == net.servers[q]
  }

  /** Server q has begun epoch e and is in it. */
  ghost predicate InEpoch(s: State, e: nat) {
    s.Running? && s.core.epochNum == e && s.core.firstUninited == e + 1
  }

  lemma {:induction false} LoopMovesOn(p: Params, core: Core, i: nat, limit: nat)
    requires i < |core.epochs|
    ensures var s := CatchUp(p, core, i, limit).0;
            s.Running? ==> s.core.epochNum >= i && (core.epochs[i].termed ==> s.core.epochNum > i)
    decreases limit - i
  {
    hide Advance, InitEpoch;
    if i < limit && core.epochs[i].termed && core.epochs[i].Candidates() != {} && !IsFinal(i, core.epochs[i].Candidates()) {
      LoopMovesOn(p, Advance(p, core, i).0, i + 1, limit);
    }
  }

  /** A signal of the current epoch that changes nothing is on record. */
  lemma UnchangedIsRecorded(p: Params, core: Core, from: nat, s: Signal)
    requires from < |core.terms| && PointersOk(core) && Opened(core) && core.firstUninited == core.epochNum + 1
    requires Recv(p, Running(core), from, EpochMsg(core.epochNum, s)).0 == Running(core)
    ensures var ep := core.epochs[core.epochNum];
            if s.kind == Viable then from in ep.At(s.value).heard else from in ep.agreed
  {
    hide RecvSignal, Opened, Advance;
    var e := core.epochNum;
    var ep := RecvSignal(p, core.epochs[e], from, s).0;
    var core1 := core.(epochs := core.epochs[e := ep]);
    assert Record(p, core, from, EpochMsg(e, s)).0 == core1;
    LoopMovesOn(p, core1, e, |core1.epochs| + 2);
    assert !ep.termed;
    assert CatchUp(p, core1, e, |core1.epochs| + 2).0 == Running(core1);
    assert core1.epochs[e] == core.epochs[e];
    assert !core.epochs[e].termed by {
      IsOpen(core);
    }
    SignalCounts(p, core.epochs[e], from, s);
  }

  lemma IsOpen(core: Core)
    requires Opened(core)
    ensures core.epochNum < |core.epochs| && !core.epochs[core.epochNum].termed
  {
  }

  /** All correct servers are in epoch e, and hearing more from each other changes none of them. */
  ghost predicate Standstill(c: Config, net: Net, e: nat) {
    && Invariant(c, net) && AllSpoken(c, net) && Resting(c, net)
    && forall q: nat :: c.Correct(q) ==> InEpoch(net.servers[q], e)
  }

  /** What server q has heard in epoch e. */
  ghost function Here(net: Net, q: nat, e: nat): Epoch {
    if q < |net.servers| && net.servers[q].Running? then EpochAt(net.servers[q].core.epochs, e) else FRESH_EPOCH
  }

  /** What is known of each server then. */
  lemma HereIsSound(c: Config, net: Net, e: nat, q: nat)
    requires Standstill(c, net, e) && c.Correct(q)
    ensures EpochKnows(c, net.history, q, e, Here(net, q, e)) && Unterminated(net.history, q)
    ensures forall v :: HasSaid(net.history, q, e, v) <==> Here(net, q, e).At(v).sent
    ensures HasAgreed(net.history, q, e) <==> Here(net, q, e).sentAgreement
    ensures HasSaid(net.history, q, e, Here(net, q, e).estimate)
  {
    hide EpochKnows, Resting, TermsApplied, Justified;
    assert ServerKnows(c, net.history, q, net.servers[q]) && Spoken(net.history, q, net.servers[q]);
    assert InEpoch(net.servers[q], e);
    assert KnownAt(c, net.history, q, net.servers[q].core, e);
  }

  lemma HereIsOpen(c: Config, net: Net, e: nat, q: nat)
    requires Standstill(c, net, e) && c.Correct(q)
    ensures !Here(net, q, e).termed
  {
    hide EpochKnows, Resting, TermsApplied, Justified;
    assert Spoken(net.history, q, net.servers[q]) && InEpoch(net.servers[q], e);
  }

  /** Everybody has heard whatever a correct server has said. */
  lemma SignalIsHeard(c: Config, net: Net, e: nat, q: nat, j: nat, s: Signal)
    requires Standstill(c, net, e) && c.Correct(q) && c.Correct(j) && (j, EpochMsg(e, s)) in net.history.sent
    ensures if s.kind == Viable then j in Here(net, q, e).At(s.value).heard else j in Here(net, q, e).agreed
  {
    hide Announces, Recv, TermsApplied, Justified, Invariant, Opened;
    HereIsSound(c, net, e, q);
    assert Spoken(net.history, q, net.servers[q]);
    UnchangedIsRecorded(c.params, net.servers[q].core, j, s);
  }

  /** What F+1 correct servers have said all have said, and believe. */
  lemma Amplified(c: Config, net: Net, e: nat, v: bool, js: set<nat>, q: nat)
    requires Standstill(c, net, e) && c.Correct(q) && |js| >= c.params.f + 1
    requires forall j :: j in js ==> c.Correct(j) && HasSaid(net.history, j, e, v)
    ensures HasSaid(net.history, q, e, v)
  {
    hide Standstill;
    HereIsSound(c, net, e, q);
    forall j | j in js
      ensures j in Here(net, q, e).At(v).heard
    {
      SignalIsHeard(c, net, e, q, j, Signal(Viable, v));
    }
    SubsetCount(js, Here(net, q, e).At(v).heard);
    assert SideOk(c.params, Here(net, q, e), v);
  }

  lemma Believed(c: Config, net: Net, e: nat, v: bool, js: set<nat>, q: nat)
    requires Standstill(c, net, e) && c.Correct(q) && |js| >= c.params.f + 1
    requires forall j :: j in js ==> c.Correct(j) && HasSaid(net.history, j, e, v)
    ensures Here(net, q, e).At(v).believed
  {
    hide Invariant, AllSpoken, Resting, InEpoch;
    HereIsSound(c, net, e, q);
    var all := Nodes(c.params.n) - c.faulty;
    forall j | j in all
      ensures j in Here(net, q, e).At(v).heard
    {
      Amplified(c, net, e, v, js, j);
      SignalIsHeard(c, net, e, q, j, Signal(Viable, v));
    }
    StandstillIsValid(c, net, e);
    CorrectCount(c, Nodes(c.params.n));
    SubsetCount(all, Here(net, q, e).At(v).heard);
    assert SideOk(c.params, Here(net, q, e), v);
  }

  lemma StandstillIsValid(c: Config, net: Net, e: nat)
    requires Standstill(c, net, e)
    ensures c.Valid() && Justified(c, net.history)
  {
  }

  /** The correct servers whose estimate is v. */
  ghost function Estimators(c: Config, net: Net, e: nat, v: bool): set<nat>
  {
    set q: nat | q in Nodes(c.params.n) - c.faulty && Here(net, q, e).estimate == v
  }

  /** One of the values is the estimate of F+1 correct servers. */
  lemma SomeIsCommon(c: Config, net: Net, e: nat) returns (v: bool)
    requires Standstill(c, net, e)
    ensures |Estimators(c, net, e, v)| >= c.params.f + 1
    ensures forall j :: j in Estimators(c, net, e, v) ==> c.Correct(j) && HasSaid(net.history, j, e, v)
  {
    hide Standstill;
    var all := Nodes(c.params.n) - c.faulty;
    var yes, no := Estimators(c, net, e, true), Estimators(c, net, e, false);
    StandstillIsValid(c, net, e);
    CorrectCount(c, Nodes(c.params.n));
    forall q | q in all
      ensures q in yes + no
      ensures HasSaid(net.history, q, e, Here(net, q, e).estimate)
    {
      HereIsSound(c, net, e, q);
    }
    SubsetCount(all, yes + no);
    assert |yes + no| <= |yes| + |no|;
    v := |yes| >= c.params.f + 1;
  }

  /** An Agreement of a correct server is on a value that all believe. */
  lemma AgreedIsBelieved(c: Config, net: Net, e: nat, q: nat, j: nat)
    requires Standstill(c, net, e) && c.Correct(q) && c.Correct(j)
    requires j in Here(net, q, e).agreed
    ensures Here(net, q, e).At(Here(net, q, e).agreed[j]).believed
  {
    hide Standstill;
    var h, w := net.history, Here(net, q, e).agreed[j];
    StandstillIsValid(c, net, e);
    HereIsSound(c, net, e, q);
    HereIsSound(c, net, e, j);
    assert (j, EpochMsg(e, Signal(AgreementEpoch.Agreement, w))) in h.sent;
    assert Believable(c, h, e, w);
    var quorum :| ViableQuorum(c, h, e, w, quorum);
    var js := quorum - c.faulty;
    CorrectCount(c, quorum);
    forall r | r in js
      ensures c.Correct(r) && HasSaid(h, r, e, w)
    {
      HereIsSound(c, net, e, r);
    }
    Believed(c, net, e, w, js, q);
  }

  /**
   The agreement does not come to rest in an epoch: if hearing more from each other changes no correct server, then they
   are not all in one epoch that they have begun.
   */
  lemma NoStandstill(c: Config, run: seq<Net>, i: nat, e: nat)
    requires AR.Run(c, run) && i < |run| && Shaped(c, run[i]) && Resting(c, run[i])
    ensures exists q: nat :: c.Correct(q) && !InEpoch(run[i].servers[q], e)
  {
    hide Invariant, AllSpoken, Resting, InEpoch;
    var net := run[i];
    RunIsSpoken(c, run, i);
    if forall q: nat :: c.Correct(q) ==> InEpoch(net.servers[q], e) {
      var q := StandstillEnds(c, net, e);
      HereIsOpen(c, net, e, q);
      assert false;
    }
  }

  /** With the Agreements of all correct servers on values believed, the epoch ends. */
  lemma StandstillEnds(c: Config, net: Net, e: nat) returns (q: nat)
    requires Standstill(c, net, e)
    ensures c.Correct(q) && Here(net, q, e).termed
  {
    hide Standstill;
    var all := Nodes(c.params.n) - c.faulty;
    StandstillIsValid(c, net, e);
    CorrectCount(c, Nodes(c.params.n));
    assert all != {};
    q :| q in all;
    HereIsSound(c, net, e, q);
    forall j | j in all
      ensures j in Here(net, q, e).Backed()
    {
      AllAgree(c, net, e, j);
      var w :| (j, EpochMsg(e, Signal(AgreementEpoch.Agreement, w))) in net.history.sent;
      SignalIsHeard(c, net, e, q, j, Signal(AgreementEpoch.Agreement, w));
      AgreedIsBelieved(c, net, e, q, j);
    }
    SubsetCount(all, Here(net, q, e).Backed());
  }

  lemma AllAgree(c: Config, net: Net, e: nat, j: nat)
    requires Standstill(c, net, e) && c.Correct(j)
    ensures HasAgreed(net.history, j, e)
  {
    hide Standstill;
    var v := SomeIsCommon(c, net, e);
    Believed(c, net, e, v, Estimators(c, net, e, v), j);
    HereIsSound(c, net, e, j);
    assert SideOk(c.params, Here(net, j, e), v);
  }
}
