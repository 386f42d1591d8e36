/** Binary Agreement (BA in pika/ba.go): a chain of epochs, with one Term message standing for all later epochs. */
module Agreement {
  import opened Common
  import opened AgreementEpoch

  /** What one BAMessage says; the sender travels in the envelope. */
  datatype BAMsg = EpochMsg(epoch: nat, signal: Signal) | TermMsg(epoch: nat, value: bool)

  /** The epoch in which a server terminated and its output. */
  datatype TermStatus = TermStatus(epoch: nat, value: bool)

  datatype Core = Core(input: bool, epochNum: nat, firstUninited: nat,
                       terms: seq<Option<TermStatus>>, epochs: seq<Epoch>)

  /**
   A BA runs until it decides. Panicked stands for the panic of checkOutput on an epoch without candidates,
   Diverged for a catch-up loop that is still running after two epochs beyond those allocated when it started.
   */
  datatype State = Running(core: Core) | Decided(output: bool) | Panicked | Diverged

  function Initial(p: Params): State {
    Running(Core(false, 0, 0, seq(p.n, i => None), [FRESH_EPOCH]))
  }

  function Lift(e: nat, out: seq<Signal>): seq<BAMsg> {
    seq(|out|, i requires 0 <= i < |out| => EpochMsg(e, out[i]))
  }

  lemma LiftAppend(e: nat, a: seq<Signal>, b: seq<Signal>)
    ensures Lift(e, a + b) == Lift(e, a) + Lift(e, b)
  {
  }

  predicate Coin(e: nat) {
    e % 2 == 0
  }

  /** The estimate carried out of an epoch that ends with candidates cs: the coin on a tie. */
  function NextEstimate(e: nat, cs: set<bool>): bool {
    if cs == {true, false} then Coin(e) else true in cs
  }

  /** An epoch decides the whole BA when its only candidate is the coin. */
  predicate IsFinal(e: nat, cs: set<bool>) {
    cs == {Coin(e)}
  }

  /** A Term counts as a Viable and an Agreement in every later epoch. */
  function InsertTerm(p: Params, ep: Epoch, from: nat, v: bool): (Epoch, seq<Signal>) {
    var (ep1, out1) := RecvSignal(p, ep, from, Signal(Viable, v));
    var (ep2, out2) := RecvSignal(p, ep1, from, Signal(Agreement, v));
    (ep2, out1 + out2)
  }

  /** Applies the Term of server j, if it is earlier than epoch e. */
  function ReplayOne(p: Params, terms: seq<Option<TermStatus>>, e: nat, ep: Epoch, j: nat): (Epoch, seq<Signal>)
    requires j < |terms|
  {
    if terms[j].Some? && terms[j].value.epoch < e then InsertTerm(p, ep, j, terms[j].value.value) else (ep, [])
  }

  /** Applies the Terms of servers j, j+1, ... that are earlier than epoch e. */
  function Replay(p: Params, terms: seq<Option<TermStatus>>, e: nat, ep: Epoch, j: nat): (Epoch, seq<Signal>)
    requires j <= |terms|
    decreases |terms| - j
  {
    if j == |terms| then (ep, [])
    else
      var (ep1, out1) := ReplayOne(p, terms, e, ep, j);
      var (ep2, out2) := Replay(p, terms, e, ep1, j + 1);
      (ep2, out1 + out2)
  }

  /** Constructs epochs until and including `until`. */
  function Allocate(p: Params, core: Core, until: nat): (r: (Core, seq<BAMsg>))
    ensures |r.0.epochs| == if until < |core.epochs| then |core.epochs| else until + 1
    ensures r.0 == core.(epochs := r.0.epochs)
    ensures core.epochs <= r.0.epochs
    decreases until + 1 - |core.epochs|
  {
    var e := |core.epochs|;
    if until < e then (core, [])
    else
      var (ep, out1) := Replay(p, core.terms, e, FRESH_EPOCH, 0);
      var (core2, out2) := Allocate(p, core.(epochs := core.epochs + [ep]), until);
      (core2, Lift(e, out1) + out2)
  }

  function ApplyOne(p: Params, core: Core, from: nat, v: bool, e: nat): (r: (Core, seq<BAMsg>))
    requires e < |core.epochs|
    ensures |r.0.epochs| == |core.epochs| && r.0 == core.(epochs := r.0.epochs)
  {
    var (ep, out) := InsertTerm(p, core.epochs[e], from, v);
    (core.(epochs := core.epochs[e := ep]), Lift(e, out))
  }

  /** Applies a newly recorded Term to the allocated epochs from e on. */
  function ApplyTerm(p: Params, core: Core, from: nat, v: bool, e: nat): (r: (Core, seq<BAMsg>))
    ensures |r.0.epochs| == |core.epochs| && r.0 == core.(epochs := r.0.epochs)
    decreases |core.epochs| - e
  {
    if e >= |core.epochs| then (core, [])
    else
      var (core1, out1) := ApplyOne(p, core, from, v, e);
      var (core2, out2) := ApplyTerm(p, core1, from, v, e + 1);
      (core2, out1 + out2)
  }

  function Handle(p: Params, core: Core, from: nat, m: BAMsg): (r: (Core, seq<BAMsg>))
    requires m.epoch < |core.epochs| && from < |core.terms|
    ensures |r.0.epochs| == |core.epochs| && |r.0.terms| == |core.terms|
    ensures r.0 == core.(terms := r.0.terms, epochs := r.0.epochs)
  {
    match m
    case EpochMsg(e, s) =>
      var (ep, out) := RecvSignal(p, core.epochs[e], from, s);
      (core.(epochs := core.epochs[e := ep]), Lift(e, out))
    case TermMsg(e, v) =>
      if core.terms[from].Some? then (core, [])
      else ApplyTerm(p, core.(terms := core.terms[from := Some(TermStatus(e, v))]), from, v, e + 1)
  }

  function Estimated(core: Core, e: nat, v: bool): Core
    requires e < |core.epochs|
  {
    core.(epochs := core.epochs[e := core.epochs[e].(estimate := v)])
  }

  /** Carries a non-deciding epoch i over to epoch i+1, allocating it if need be. */
  function Advance(p: Params, core: Core, i: nat): (r: (Core, seq<BAMsg>))
    requires i < |core.epochs|
    ensures |r.0.epochs| == if i + 1 < |core.epochs| then |core.epochs| else i + 2
    ensures r.0 == core.(epochs := r.0.epochs)
  {
    var (core1, out) := Allocate(p, core, i + 1);
    (Estimated(core1, i + 1, NextEstimate(i, core.epochs[i].Candidates())), out)
  }

  /** Stops at the unterminated epoch i, and sends out its estimate on the first visit. */
  function Pause(core: Core, i: nat): (Core, seq<BAMsg>)
    requires i < |core.epochs|
  {
    var core1 := core.(epochNum := i);
    if i >= core.firstUninited && i != 0 then
      var (ep, out) := InitEpoch(core.epochs[i]);
      (core1.(firstUninited := i + 1, epochs := core.epochs[i := ep]), Lift(i, out))
    else (core1, [])
  }

  /** The catch-up loop of BA.Recv from epoch i, given up at epoch `limit`. */
  function CatchUp(p: Params, core: Core, i: nat, limit: nat): (State, seq<BAMsg>)
    requires i < |core.epochs|
    decreases limit - i
  {
    if i >= limit then (Diverged, [])
    else if !core.epochs[i].termed then
      var (core1, out) := Pause(core, i);
      (Running(core1), out)
    else
      var cs := core.epochs[i].Candidates();
      if cs == {} then (Panicked, [])
      else if IsFinal(i, cs) then (Decided(Coin(i)), [TermMsg(i, Coin(i))])
      else
        var (core1, out1) := Advance(p, core, i);
        var (s, out2) := CatchUp(p, core1, i + 1, limit);
        (s, out1 + out2)
  }

  /** One turn of the catch-up loop. */
  lemma CatchUpCases(p: Params, core: Core, i: nat, limit: nat)
    requires i < |core.epochs|
    ensures i >= limit ==> CatchUp(p, core, i, limit).0.Diverged?
    ensures i < limit && !core.epochs[i].termed
            ==> CatchUp(p, core, i, limit) == (Running(Pause(core, i).0), Pause(core, i).1)
    ensures var cs := core.epochs[i].Candidates();
            i < limit && core.epochs[i].termed && cs != {} ==>
              if IsFinal(i, cs) then CatchUp(p, core, i, limit) == (Decided(Coin(i)), [TermMsg(i, Coin(i))])
              else var (core1, out1) := Advance(p, core, i);
                   var (s, out2) := CatchUp(p, core1, i + 1, limit);
                   CatchUp(p, core, i, limit) == (s, out1 + out2)
  {
  }

  /** The first half of BA.Recv: make room for the message and process it. */
  function Record(p: Params, core: Core, from: nat, m: BAMsg): (r: (Core, seq<BAMsg>))
    requires from < |core.terms|
    ensures |r.0.epochs| >= |core.epochs| && |r.0.epochs| > m.epoch
    ensures r.0 == core.(terms := r.0.terms, epochs := r.0.epochs) && |r.0.terms| == |core.terms|
  {
    var (core1, out1) := Allocate(p, core, m.epoch);
    var (core2, out2) := Handle(p, core1, from, m);
    (core2, out1 + out2)
  }

  function Recv(p: Params, s: State, from: nat, m: BAMsg): (State, seq<BAMsg>)
    requires s.Running? ==> from < |s.core.terms| && s.core.epochNum < |s.core.epochs|
  {
    if !s.Running? then (s, [])
    else
      var (core1, out1) := Record(p, s.core, from, m);
      var (s2, out2) := CatchUp(p, core1, core1.epochNum, |core1.epochs| + 2);
      (s2, out1 + out2)
  }

  /** SetInput followed by Init, which is how a BA is given its input. */
  function Input(s: State, v: bool): (State, seq<BAMsg>)
    requires s.Running? ==> |s.core.epochs| > 0
  {
    if !s.Running? then (s, [])
    else
      var core := s.core.(input := v);
      if core.firstUninited == 0 then
        var (ep, out) := InitEpoch(core.epochs[0].(estimate := v));
        (Running(core.(firstUninited := 1, epochs := core.epochs[0 := ep])), Lift(0, out))
      else (Running(core), [])
  }

  /** Epochs before epochNum are done, and no epoch after it has been given our estimate. */
  predicate PointersOk(core: Core) {
    && core.epochNum < |core.epochs|
    && core.firstUninited <= core.epochNum + 1
    && (core.epochNum > 0 ==> core.firstUninited == core.epochNum + 1)
  }

  /** What a running BA keeps between calls. */
  ghost predicate CoreOk(p: Params, core: Core) {
    && |core.terms| == p.n
    && PointersOk(core)
    && (forall e :: 0 <= e < |core.epochs| ==> WellFormed(p, core.epochs[e]))
    && (forall j :: 0 <= j < |core.terms| && core.terms[j].Some? ==> core.terms[j].value.epoch < |core.epochs|)
  }
}
