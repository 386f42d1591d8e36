/** The objects of pika/ba.go that hold a BA on one server, refining the functions of `Agreement`. */
module AgreementNode {
  import opened Common
  import opened AgreementEpoch
  import opened Agreement
  import opened AgreementCore
  import opened AgreementOpposed

  lemma NothingLifted(e: nat)
    ensures Lift(e, []) == []
  {
  }

  lemma Regroup<T>(a: seq<T>, b: seq<T>, c: seq<T>)
    ensures a + (b + c) == a + b + c
  {
  }

  class BACoreState {
    const p: Params
    const id: nat
    var input: bool
    var epochNum: nat
    var firstUninited: nat
    const termStatus: array<Option<TermStatus>>
    var epochs: seq<BAEpoch>
    /** The specification state this object stands for. */
    ghost var model: Core

    ghost function Footprint(): set<object>
      reads this
    {
      {this, termStatus} + set e, o | e in epochs && o in e.Repr() :: o
    }

    /** Epoch object i is in order, apart from this object and stands for epoch i of the model. */
    ghost predicate EpochOk(i: nat)
      requires i < |epochs|
      reads this, epochs[i].Repr()
    {
      && epochs[i].p == p && epochs[i].Valid()
      && this !in epochs[i].Repr() && termStatus !in epochs[i].Repr()
      && i < |model.epochs| && epochs[i].Model() == model.epochs[i]
    }

    ghost predicate Apart()
      reads this
    {
      forall i: nat, j: nat :: i < j < |epochs| ==> epochs[i].Repr() !! epochs[j].Repr()
    }

    ghost predicate Valid()
      reads this, Footprint()
    {
      && p.Resilient() && CoreOk(p, model)
      && model == Core(input, epochNum, firstUninited, termStatus[..], model.epochs)
      && |epochs| == |model.epochs|
      && (forall i: nat :: i < |epochs| ==> EpochOk(i))
      && Apart()
    }

    constructor (p: Params, id: nat)
      requires p.Resilient()
      ensures Valid() && fresh(Footprint()) && this.p == p && this.id == id
      ensures Running(model) == Initial(p)
    {
      var e := new BAEpoch(p, id);
      this.p := p;
      this.id := id;
      termStatus := new Option<TermStatus>[p.n](i => None);
      input, epochNum, firstUninited := false, 0, 0;
      epochs := [e];
      model := Initial(p).core;
      new;
      assert termStatus[..] == Initial(p).core.terms;
    }

    lemma InStep()
      requires Valid()
      ensures |epochs| == |model.epochs| && epochNum == model.epochNum < |epochs|
      ensures model.firstUninited <= model.epochNum + 1 && |model.terms| == p.n
    {
    }

    method EpochRecv(e: nat, from: nat, s: Signal) returns (out: seq<BAMsg>)
      requires Valid() && from < p.n && e < |epochs|
      modifies this`model, epochs[e].Repr()
      ensures Valid()
      ensures var (ep, signals) := RecvSignal(p, old(model).epochs[e], from, s);
              model == old(model).(epochs := old(model).epochs[e := ep]) && out == Lift(e, signals)
    {
      hide RecvSignal, InitEpoch, WellFormed, BAEpoch.Shaped, BAEpoch.Model;
      assert EpochOk(e);
      var signals, _ := epochs[e].Recv(from, s);
      out := Lift(e, signals);
      model := model.(epochs := model.epochs[e := epochs[e].Model()]);
      forall i: nat | i < |epochs| && i != e
        ensures EpochOk(i)
      {
        assert old(EpochOk(i)) && epochs[i].Repr() !! epochs[e].Repr();
      }
    }

    method EpochInit(e: nat) returns (out: seq<BAMsg>)
      requires Valid() && e < |epochs|
      modifies this`model, epochs[e].Repr()
      ensures Valid()
      ensures var (ep, signals) := InitEpoch(old(model).epochs[e]);
              model == old(model).(epochs := old(model).epochs[e := ep]) && out == Lift(e, signals)
    {
      hide RecvSignal, InitEpoch, WellFormed, BAEpoch.Shaped, BAEpoch.Model;
      assert EpochOk(e);
      var signals := epochs[e].Init();
      out := Lift(e, signals);
      model := model.(epochs := model.epochs[e := epochs[e].Model()]);
      forall i: nat | i < |epochs| && i != e
        ensures EpochOk(i)
      {
        assert old(EpochOk(i)) && epochs[i].Repr() !! epochs[e].Repr();
      }
    }

    method EpochEstimate(e: nat, v: bool)
      requires Valid() && e < |epochs|
      modifies this`model, epochs[e].Repr()
      ensures Valid()
      ensures model == Estimated(old(model), e, v)
    {
      hide WellFormed, BAEpoch.Shaped, BAEpoch.Model;
      assert EpochOk(e);
      epochs[e].SetEstimation(v);
      model := Estimated(model, e, v);
      forall i: nat | i < |epochs| && i != e
        ensures EpochOk(i)
      {
        assert old(EpochOk(i)) && epochs[i].Repr() !! epochs[e].Repr();
      }
    }

    /** Simulates the Viable and the Agreement that a Term of epoch d stands for in the later epoch e. */
    method InsertTermMessage(from: nat, v: bool, d: nat, e: nat) returns (out: seq<BAMsg>)
      requires Valid() && from < p.n && e < |epochs| && d < e
      modifies this`model, epochs[e].Repr()
      ensures Valid()
      ensures (model, out) == ApplyOne(p, old(model), from, v, e)
    {
      if d >= e {
        assert false;
      }
      var viable := EpochRecv(e, from, Signal(Viable, v));
      var agreement := EpochRecv(e, from, Signal(AgreementEpoch.Agreement, v));
      out := viable + agreement;
      ghost var (ep1, out1) := RecvSignal(p, old(model).epochs[e], from, Signal(Viable, v));
      ghost var (ep2, out2) := RecvSignal(p, ep1, from, Signal(AgreementEpoch.Agreement, v));
      LiftAppend(e, out1, out2);
      assert old(model).epochs[e := ep1][e := ep2] == old(model).epochs[e := ep2];
    }
  
    /** Appends the object of the next epoch. */
    method PushEpoch()
      requires Valid()
      modifies this`epochs, this`model
      ensures Valid() && fresh(Footprint() - old(Footprint()))
      ensures model == old(model).(epochs := old(model).epochs + [FRESH_EPOCH])
      ensures epochs == old(epochs) + [epochs[|old(epochs)|]]
      ensures |epochs| == |old(epochs)| + 1 && fresh(epochs[|old(epochs)|].Repr())
    {
      hide WellFormed;
      var e := new BAEpoch(p, id);
      assert WellFormed(p, FRESH_EPOCH) by {
        FreshWellFormed(p);
      }
      label before:
      epochs := epochs + [e];
      model := model.(epochs := model.epochs + [FRESH_EPOCH]);
      forall i: nat | i < |epochs|
        ensures EpochOk(i)
      {
        if i < |old(epochs)| {
          assert old(EpochOk(i)) && old@before(EpochOk(i));
        }
      }
    }

    /** Applies the Term of server j, if it is of an epoch before e. */
    method ReplayTerm(j: nat, e: nat) returns (out: seq<BAMsg>)
      requires Valid() && e < |epochs| && j < p.n
      modifies this`model, epochs[e].Repr()
      ensures Valid()
      ensures var (ep, signals) := ReplayOne(p, old(model).terms, e, old(model).epochs[e], j);
              model == old(model).(epochs := old(model).epochs[e := ep]) && out == Lift(e, signals)
    {
      out := [];
      if termStatus[j].Some? && termStatus[j].value.epoch < e {
        out := InsertTermMessage(j, termStatus[j].value.value, termStatus[j].value.epoch, e);
      }
    }

    /** Applies the Terms of earlier epochs to the newly allocated epoch e. */
    method ReplayTerms(e: nat) returns (out: seq<BAMsg>)
      requires Valid() && e < |epochs|
      modifies this`model, epochs[e].Repr()
      ensures Valid()
      ensures var (ep, signals) := Replay(p, old(model).terms, e, old(model).epochs[e], 0);
              model == old(model).(epochs := old(model).epochs[e := ep]) && out == Lift(e, signals)
    {
      hide Valid, ReplayOne, Lift;
      InStep();
      NothingLifted(e);
      out := [];
      ghost var said: seq<Signal> := [];
      ghost var terms := model.terms;
      ghost var goal := Replay(p, terms, e, model.epochs[e], 0);
      assert [] + goal.1 == goal.1;
      for j := 0 to p.n
        invariant Valid() && unchanged(this`epochs) && model.terms == terms
        invariant |model.epochs| == |old(model).epochs|
        invariant model == old(model).(epochs := old(model).epochs[e := model.epochs[e]])
        invariant out == Lift(e, said)
        invariant goal.0 == Replay(p, terms, e, model.epochs[e], j).0
        invariant goal.1 == said + Replay(p, terms, e, model.epochs[e], j).1
      {
        ghost var (ep, signals) := ReplayOne(p, terms, e, model.epochs[e], j);
        var more := ReplayTerm(j, e);
        LiftAppend(e, said, signals);
        Regroup(said, signals, Replay(p, terms, e, ep, j + 1).1);
        out := out + more;
        said := said + signals;
      }
      assert said + [] == said;
    }

    /** Constructs the epochs until and including `until`. */
    method AllocateEpochs(until: nat) returns (msgs: seq<BAMsg>)
      requires Valid()
      modifies Footprint()
      ensures Valid() && fresh(Footprint() - old(Footprint()))
      ensures (model, msgs) == Allocate(p, old(model), until)
    {
      hide Replay, WellFormed;
      msgs := [];
      ghost var goal := Allocate(p, model, until);
      assert [] + goal.1 == goal.1;
      var i := |epochs|;
      while i <= until
        invariant Valid() && fresh(Footprint() - old(Footprint())) && i == |epochs|
        invariant goal.0 == Allocate(p, model, until).0
        invariant goal.1 == msgs + Allocate(p, model, until).1
      {
        ghost var (ep, signals) := Replay(p, model.terms, i, FRESH_EPOCH, 0);
        ghost var rest := Allocate(p, model.(epochs := model.epochs + [ep]), until).1;
        assert msgs + (Lift(i, signals) + rest) == msgs + Lift(i, signals) + rest;
        ghost var before := model;
        PushEpoch();
        var more := ReplayTerms(i);
        assert model == before.(epochs := before.epochs + [ep]);
        msgs := msgs + more;
        i := i + 1;
      }
      assert msgs + [] == msgs;
    }

    /** Records the first Term of server `from` and applies it to the later epochs that exist. */
    method HandleTerm(from: nat, e: nat, v: bool) returns (msgs: seq<BAMsg>)
      requires Valid() && from < p.n && e < |epochs|
      modifies Footprint()
      ensures Valid() && Footprint() == old(Footprint())
      ensures (model, msgs) == Handle(p, old(model), from, TermMsg(e, v))
    {
      hide EpochOk, Apart, WellFormed, ApplyOne;
      msgs := [];
      if termStatus[from].None? {
        RecordTerm(from, e, v);
        ghost var goal := ApplyTerm(p, model, from, v, e + 1);
        assert [] + goal.1 == goal.1;
        for i := e + 1 to |epochs|
          invariant Valid() && unchanged(this`epochs)
          invariant goal.0 == ApplyTerm(p, model, from, v, i).0
          invariant goal.1 == msgs + ApplyTerm(p, model, from, v, i).1
        {
          ghost var (core1, out1) := ApplyOne(p, model, from, v, i);
          ghost var rest := ApplyTerm(p, core1, from, v, i + 1).1;
          assert msgs + (out1 + rest) == msgs + out1 + rest;
          var more := InsertTermMessage(from, v, e, i);
          msgs := msgs + more;
        }
        assert msgs + [] == msgs;
      }
    }

    method RecordTerm(from: nat, e: nat, v: bool)
      requires Valid() && from < p.n && e < |epochs|
      modifies termStatus, this`model
      ensures Valid()
      ensures model == old(model).(terms := old(model).terms[from := Some(TermStatus(e, v))])
    {
      hide WellFormed;
      termStatus[from] := Some(TermStatus(e, v));
      model := model.(terms := model.terms[from := Some(TermStatus(e, v))]);
      assert termStatus[..] == model.terms;
      forall i: nat | i < |epochs|
        ensures EpochOk(i)
      {
        assert old(EpochOk(i));
      }
    }

    /** Makes room for a message and processes it. */
    method Process(from: nat, m: BAMsg) returns (msgs: seq<BAMsg>)
      requires Valid() && from < p.n
      modifies Footprint()
      ensures Valid() && fresh(Footprint() - old(Footprint()))
      ensures (model, msgs) == Record(p, old(model), from, m)
    {
      hide WellFormed, ApplyTerm, Allocate, RecvSignal;
      msgs := AllocateEpochs(m.epoch);
      var more;
      match m {
        case EpochMsg(e, s) => more := EpochRecv(e, from, s);
        case TermMsg(e, v) => more := HandleTerm(from, e, v);
      }
      msgs := msgs + more;
    }

    /** Whether epoch e decides the BA, with the output or the next estimate. */
    method CheckOutput(e: nat) returns (est: bool, final: bool)
      requires Valid() && e < |epochs| && model.epochs[e].termed
      ensures var cs := model.epochs[e].Candidates();
              && cs != {}
              && est == NextEstimate(e, cs)
              && (final <==> IsFinal(e, cs))
              && (final ==> est == Coin(e))
    {
      assert EpochOk(e);
      TerminatedHasCandidate(p, model.epochs[e]);
      BoolSets(model.epochs[e].Candidates());
      var coin := e % 2 == 0;
      var numC := 0;
      if epochs[e].candidateTrue {
        numC := numC + 1;
      }
      if epochs[e].candidateFalse {
        numC := numC + 1;
      }
      if numC == 2 {
        return coin, false;
      } else if numC == 1 {
        var candidate := epochs[e].candidateTrue;
        if candidate == coin {
          return candidate, true;
        } else {
          return candidate, false;
        }
      } else {
        assert false;
        return coin, false;
      }
    }

    method PauseAt(i: nat) returns (msgs: seq<BAMsg>)
      requires Valid() && i < |epochs| && model.epochNum <= i
      requires model.firstUninited <= i + 1
      modifies Footprint()
      ensures Valid() && Footprint() == old(Footprint())
      ensures (model, msgs) == Pause(old(model), i)
    {
      hide WellFormed, InitEpoch;
      msgs := [];
      if i >= firstUninited && i != 0 {
        msgs := EpochInit(i);
        SetPointers(i, i + 1);
      } else {
        SetPointers(i, firstUninited);
      }
    }

    method SetPointers(i: nat, f: nat)
      requires Valid() && i < |epochs| && f <= i + 1 && (i > 0 ==> f == i + 1)
      modifies this`epochNum, this`firstUninited, this`model
      ensures Valid()
      ensures model == old(model).(epochNum := i, firstUninited := f)
    {
      epochNum, firstUninited := i, f;
      model := model.(epochNum := i, firstUninited := f);
      forall k: nat | k < |epochs|
        ensures EpochOk(k)
      {
        assert old(EpochOk(k));
      }
    }

    method TakeInput(v: bool) returns (out: seq<BAMsg>)
      requires Valid()
      modifies Footprint()
      ensures Valid() && Footprint() == old(Footprint())
      ensures (Running(model), out) == Input(Running(old(model)), v)
    {
      hide WellFormed, InitEpoch;
      out := [];
      SetInput(v);
      if firstUninited == 0 {
        EpochEstimate(0, input);
        out := EpochInit(0);
        assert model.epochs == old(model).epochs[0 := model.epochs[0]];
        SetPointers(0, 1);
      }
    }

    method SetInput(v: bool)
      requires Valid()
      modifies this`input, this`model
      ensures Valid() && model == old(model).(input := v)
    {
      input := v;
      model := model.(input := v);
      forall k: nat | k < |epochs|
        ensures EpochOk(k)
      {
        assert old(EpochOk(k));
      }
    }

    /** Carries the estimate of the terminated epoch i over to epoch i+1. */
    method AdvanceFrom(i: nat, est: bool) returns (msgs: seq<BAMsg>)
      requires Valid() && i < |epochs| && est == NextEstimate(i, model.epochs[i].Candidates())
      modifies Footprint()
      ensures Valid() && fresh(Footprint() - old(Footprint()))
      ensures (model, msgs) == Advance(p, old(model), i)
    {
      hide EpochOk, Apart, WellFormed, Allocate;
      msgs := AllocateEpochs(i + 1);
      EpochEstimate(i + 1, est);
    }

    /** The catch-up loop: it stops at an unterminated epoch, or with the output. */
    method RunEpochs() returns (decided: bool, output: bool, msgs: seq<BAMsg>)
      requires Valid() && !Trapped(p, model)
      modifies Footprint()
      ensures Valid() && fresh(Footprint() - old(Footprint()))
      ensures var (s, out) := CatchUp(p, old(model), old(model).epochNum, |old(model).epochs| + 2);
              s == (if decided then Decided(output) else Running(model)) && msgs == out
    {
      hide EpochOk, Apart, WellFormed, CatchUp, Opposed, Passable;
      EndlessExactly(p, model, model.epochNum);
      decided, output, msgs := Loop(|epochs| + 2);
    }

    /** One turn of the loop, at epoch i: there is a further one, or the loop stops, decided or not. */
    method Turn(i: nat, ghost limit: nat) returns (more: bool, decided: bool, output: bool, msgs: seq<BAMsg>)
      requires Valid() && model.epochNum <= i < |epochs| && model.firstUninited <= i + 1 && i < limit
      modifies Footprint()
      ensures Valid() && fresh(Footprint() - old(Footprint()))
      ensures more ==> model.epochNum <= i + 1 < |epochs| && model.firstUninited <= i + 2
      ensures CatchUp(p, old(model), i, limit)
              == if more then (CatchUp(p, model, i + 1, limit).0, msgs + CatchUp(p, model, i + 1, limit).1)
                 else (if decided then Decided(output) else Running(model), msgs)
    {
      hide Valid, Advance, NextEstimate, CatchUp;
      InStep();
      more, decided, output, msgs := false, false, false, [];
      CatchUpCases(p, model, i, limit);
      var terminated := EpochTerminated(i);
      if terminated {
        var est, final := CheckOutput(i);
        if final {
          decided, output, msgs := true, est, [TermMsg(i, est)];
        } else {
          msgs := AdvanceFrom(i, est);
          InStep();
          more := true;
        }
      } else {
        msgs := PauseAt(i);
      }
    }

    /** The loop, which is given up at epoch `limit` in the specification. */
    method Loop(ghost limit: nat) returns (decided: bool, output: bool, msgs: seq<BAMsg>)
      requires Valid() && !CatchUp(p, model, model.epochNum, limit).0.Diverged?
      modifies Footprint()
      ensures Valid() && fresh(Footprint() - old(Footprint()))
      ensures var (s, out) := CatchUp(p, old(model), old(model).epochNum, limit);
              s == (if decided then Decided(output) else Running(model)) && msgs == out
    {
      hide Valid, Opposed, CatchUp;
      InStep();
      msgs := [];
      ghost var goal := CatchUp(p, model, model.epochNum, limit);
      assert [] + goal.1 == goal.1;
      var i := epochNum;
      while i < |epochs|
        invariant Valid() && fresh(Footprint() - old(Footprint()))
        invariant model.epochNum <= i < |epochs| == |model.epochs| && model.firstUninited <= i + 1
        invariant goal.0 == CatchUp(p, model, i, limit).0 && goal.1 == msgs + CatchUp(p, model, i, limit).1
        decreases limit - i
      {
        CatchUpCases(p, model, i, limit);
        var more, said;
        more, decided, output, said := Turn(i, limit);
        if !more {
          msgs := msgs + said;
          return;
        }
        InStep();
        Regroup(msgs, said, CatchUp(p, model, i + 1, limit).1);
        msgs := msgs + said;
        i := i + 1;
      }
      assert false;
      decided, output := false, false;
    }

    /** Once message m has been processed, the BA is not trapped in the loop. */
    ghost predicate Escapes(from: nat, m: BAMsg)
      reads this
    {
      from < |model.terms| ==> !Trapped(p, Record(p, model, from, m).0)
    }

    /** Handles a message, up to the output of the BA. */
    method Take(from: nat, m: BAMsg) returns (decided: bool, output: bool, msgs: seq<BAMsg>)
      requires Valid() && from < p.n && Escapes(from, m)
      modifies Footprint()
      ensures Valid() && fresh(Footprint() - old(Footprint()))
      ensures (if decided then Decided(output) else Running(model), msgs) == Recv(p, Running(old(model)), from, m)
    {
      hide EpochOk, Apart, WellFormed, Record, CatchUp, Trapped;
      var first := Process(from, m);
      var more;
      decided, output, more := RunEpochs();
      msgs := first + more;
    }

    method EpochTerminated(i: nat) returns (r: bool)
      requires Valid() && i < |epochs|
      ensures r == model.epochs[i].termed
    {
      assert EpochOk(i);
      r := epochs[i].termed;
    }
  }

  /** Makes the copies of each broadcast, one for every server. */
  method Broadcast(n: nat, id: nat, out: seq<BAMsg>) returns (msgs: seq<Envelope<BAMsg>>)
    ensures msgs == Fan(n, id, out)
  {
    msgs := [];
    for k := 0 to |out|
      invariant msgs == Fan(n, id, out[..k])
    {
      var before := msgs;
      for i := 0 to n
        invariant msgs == before + Copies(n, id, out[k])[..i]
      {
        msgs := msgs + [Envelope(out[k], id, i)];
      }
      assert out[..k + 1][..k] == out[..k];
    }
    assert out[..|out|] == out;
  }

  class BA {
    const p: Params
    const id: nat
    var core: BACoreState?
    var output: bool
    var termed: bool

    ghost predicate Valid()
      reads this, if core == null then {} else {core} + core.Footprint()
    {
      && p.Resilient()
      && (termed <==> core == null)
      && (core != null ==> core.p == p && core.id == id && core.Valid() && this !in core.Footprint())
    }

    /** The specification state this object stands for. */
    ghost function Model(): State
      reads this, core
    {
      if core == null then Decided(output) else Running(core.model)
    }

    ghost function Footprint(): set<object>
      reads this, core
    {
      {this} + if core == null then {} else core.Footprint()
    }

    constructor (p: Params, id: nat)
      requires p.Resilient()
      ensures Valid() && fresh(Footprint()) && this.p == p && this.id == id
      ensures Model() == Initial(p)
    {
      hide BACoreState.EpochOk, BACoreState.Apart, CoreOk, Initial;
      this.p := p;
      this.id := id;
      core := new BACoreState(p, id);
      output, termed := false, false;
    }

    /** Gives the BA its input: SetInput followed by Init. */
    method GiveInput(v: bool) returns (msgs: seq<Envelope<BAMsg>>)
      requires Valid()
      modifies Footprint()
      ensures Valid() && Footprint() == old(Footprint())
      ensures Model() == Input(old(Model()), v).0
      ensures msgs == Fan(p.n, id, Input(old(Model()), v).1)
    {
      if termed || core == null {
        return [];
      }
      msgs := InputCore(v);
    }

    method InputCore(v: bool) returns (msgs: seq<Envelope<BAMsg>>)
      requires Valid() && core != null
      modifies core.Footprint()
      ensures Valid() && Footprint() == old(Footprint())
      ensures Model() == Input(old(Model()), v).0
      ensures msgs == Fan(p.n, id, Input(old(Model()), v).1)
    {
      hide BACoreState.EpochOk, BACoreState.Apart, Input, Fan;
      var out := core.TakeInput(v);
      msgs := Broadcast(p.n, id, out);
    }

    /** What the specification makes of a message. */
    ghost function Response(from: nat, m: BAMsg): (State, seq<BAMsg>)
      requires Valid() && from < p.n
      reads this, if core == null then {} else {core} + core.Footprint()
    {
      Recv(p, Model(), from, m)
    }

    /** Handles every message on which the catch-up loop ends: one that does not leave the BA trapped. */
    method Receive(from: nat, m: BAMsg) returns (msgs: seq<Envelope<BAMsg>>, terminated: bool)
      requires Valid() && from < p.n
      requires core != null ==> core.Escapes(from, m)
      modifies Footprint()
      ensures Valid() && fresh(Footprint() - old(Footprint()))
      ensures var (s, out) := old(Response(from, m));
              Model() == s && msgs == Fan(p.n, id, out)
      ensures terminated <==> old(Model()).Running? && Model().Decided?
    {
      hide Record, CatchUp, BACoreState.EpochOk, BACoreState.Apart, CoreOk, BACoreState.Escapes;
      if termed || core == null {
        return [], false;
      }
      msgs, terminated := ReceiveCore(from, m);
    }

    method ReceiveCore(from: nat, m: BAMsg) returns (msgs: seq<Envelope<BAMsg>>, terminated: bool)
      requires Valid() && core != null && from < p.n
      requires core.Escapes(from, m)
      modifies Footprint()
      ensures Valid() && fresh(Footprint() - old(Footprint()))
      ensures var (s, out) := old(Response(from, m));
              Model() == s && msgs == Fan(p.n, id, out) && (terminated <==> s.Decided?)
    {
      hide Fan, Record, CatchUp, BACoreState.EpochOk, BACoreState.Apart, CoreOk, BACoreState.Escapes;
      var decided, est, out := core.Take(from, m);
      terminated := decided;
      if decided {
        output := est;
        termed := true;
        core := null;
      }
      msgs := Broadcast(p.n, id, out);
    }
  }
}
