/**
 One epoch of Binary Agreement (BAEpoch in pika/ba.go).

 The specification keeps sets of senders; the class keeps the arrays, counters and flags of the
 original and is proved to refine the specification step by step.
 */
module AgreementEpoch {
  import opened Common

  datatype Kind = Viable | Agreement

  /** The content of one BAEpochMessage. */
  datatype Signal = Signal(kind: Kind, value: bool)

  /** What an epoch knows about one of the two values. */
  datatype Side = Side(heard: set<nat>, sent: bool, believed: bool, candidate: bool)

  datatype Epoch = Epoch(yes: Side, no: Side, agreed: map<nat, bool>, sentAgreement: bool,
                         estimate: bool, termed: bool)
  {
    function At(v: bool): Side {
      if v then yes else no
    }

    function With(v: bool, side: Side): Epoch {
      if v then this.(yes := side) else this.(no := side)
    }

    /** The servers whose Agreement carries a value believed here. */
    function Backed(): set<nat> {
      set j | j in agreed && At(agreed[j]).believed
    }

    /** The values that are candidates of this epoch. */
    function Candidates(): set<bool> {
      (if yes.candidate then {true} else {}) + (if no.candidate then {false} else {})
    }
  }

  const FRESH_SIDE := Side({}, false, false, false)
  const FRESH_EPOCH := Epoch(FRESH_SIDE, FRESH_SIDE, map[], false, false, false)

  /** The broadcasts of one step about v: a Viable, an Agreement, both in this order, or nothing. */
  function Say(viable: bool, agreement: bool, v: bool): seq<Signal> {
    if viable && agreement then [Signal(Viable, v), Signal(Agreement, v)]
    else if viable then [Signal(Viable, v)]
    else if agreement then [Signal(Agreement, v)]
    else []
  }

  function OnViable(p: Params, ep: Epoch, from: nat, v: bool): (Epoch, seq<Signal>) {
    var side := ep.At(v);
    var heard := side.heard + {from};
    var relay := !side.sent && |heard| >= p.f + 1;
    var believe := |heard| >= 2 * p.f + 1;
    var agree := believe && !ep.sentAgreement;
    var side' := side.(heard := heard, sent := side.sent || relay, believed := side.believed || believe);
    (ep.With(v, side').(sentAgreement := ep.sentAgreement || agree),
     Say(relay, agree, v))
  }

  /** Recording the sender of a Viable beforehand makes no difference. */
  lemma HearAgain(p: Params, ep: Epoch, from: nat, v: bool)
    ensures OnViable(p, ep.With(v, ep.At(v).(heard := ep.At(v).heard + {from})), from, v) == OnViable(p, ep, from, v)
  {
    assert ep.At(v).heard + {from} + {from} == ep.At(v).heard + {from};
  }

  function OnAgreement(ep: Epoch, from: nat, v: bool): Epoch {
    if from in ep.agreed then ep else ep.(agreed := ep.agreed[from := v])
  }

  /** Whether an Agreement on v backs v here. */
  predicate Supported(ep: Epoch, v: bool) {
    ep.At(v).believed && exists j :: j in ep.agreed && ep.agreed[j] == v
  }

  /** The scan at the end of BAEpoch.Recv: collect candidates, and terminate on N-F backed Agreements. */
  function Settle(p: Params, ep: Epoch): Epoch {
    ep.(yes := ep.yes.(candidate := ep.yes.candidate || Supported(ep, true)),
        no := ep.no.(candidate := ep.no.candidate || Supported(ep, false)),
        termed := ep.termed || |ep.Backed()| + p.f >= p.n)
  }

  function RecvSignal(p: Params, ep: Epoch, from: nat, s: Signal): (Epoch, seq<Signal>) {
    if ep.termed then (ep, [])
    else
      match s.kind
      case Viable =>
        var (ep', out) := OnViable(p, ep, from, s.value);
        (Settle(p, ep'), out)
      case Agreement =>
        (Settle(p, OnAgreement(ep, from, s.value)), [])
  }

  function InitEpoch(ep: Epoch): (Epoch, seq<Signal>) {
    if ep.termed || ep.At(ep.estimate).sent then (ep, [])
    else (ep.With(ep.estimate, ep.At(ep.estimate).(sent := true)), [Signal(Viable, ep.estimate)])
  }

  /** What every epoch keeps between calls. */
  ghost predicate WellFormed(p: Params, ep: Epoch) {
    && (forall v :: SideOk(p, ep, v))
    && (forall j :: j in ep.agreed ==> j < p.n)
    && (ep.termed <==> |ep.Backed()| + p.f >= p.n)
    && (forall j :: j in ep.Backed() ==> ep.At(ep.agreed[j]).candidate)
  }

  ghost predicate SideOk(p: Params, ep: Epoch, v: bool) {
    var side := ep.At(v);
    && (forall j :: j in side.heard ==> j < p.n)
    && (|side.heard| >= p.f + 1 ==> side.sent)
    && (side.believed <==> |side.heard| >= 2 * p.f + 1)
    && (side.believed ==> ep.sentAgreement)
    && (side.candidate ==> Supported(ep, v))
  }

  lemma FreshWellFormed(p: Params)
    requires p.Resilient()
    ensures WellFormed(p, FRESH_EPOCH)
  {
    assert FRESH_EPOCH.Backed() == {};
  }

  /** The scan restores what it is responsible for. */
  lemma SettleKeeps(p: Params, ep: Epoch)
    requires forall v :: SideOk(p, ep, v)
    requires forall j :: j in ep.agreed ==> j < p.n
    requires ep.termed ==> |ep.Backed()| + p.f >= p.n
    ensures WellFormed(p, Settle(p, ep))
  {
    var ep1 := Settle(p, ep);
    assert ep1.Backed() == ep.Backed();
    forall w
      ensures SideOk(p, ep1, w)
    {
      assert SideOk(p, ep, w);
      assert Supported(ep, w) ==> Supported(ep1, w);
    }
    forall j | j in ep1.Backed()
      ensures ep1.At(ep1.agreed[j]).candidate
    {
      assert Supported(ep, ep.agreed[j]);
    }
  }

  lemma OnViableKeeps(p: Params, ep: Epoch, from: nat, v: bool)
    requires p.Resilient() && WellFormed(p, ep) && from < p.n && !ep.termed
    ensures WellFormed(p, Settle(p, OnViable(p, ep, from, v).0))
  {
    var ep1 := OnViable(p, ep, from, v).0;
    SubsetCount(ep.At(v).heard, ep1.At(v).heard);
    forall w
      ensures SideOk(p, ep1, w)
    {
      assert SideOk(p, ep, w);
      assert Supported(ep, w) ==> Supported(ep1, w);
    }
    SettleKeeps(p, ep1);
  }

  lemma OnAgreementKeeps(p: Params, ep: Epoch, from: nat, v: bool)
    requires p.Resilient() && WellFormed(p, ep) && from < p.n && !ep.termed
    ensures WellFormed(p, Settle(p, OnAgreement(ep, from, v)))
  {
    var ep1 := OnAgreement(ep, from, v);
    forall w
      ensures SideOk(p, ep1, w)
    {
      assert SideOk(p, ep, w);
      if Supported(ep, w) {
        var j :| j in ep.agreed && ep.agreed[j] == w;
        assert j in ep1.agreed && ep1.agreed[j] == w;
      }
    }
    SettleKeeps(p, ep1);
  }

  /** Every step of an epoch keeps the invariant. */
  lemma RecvKeeps(p: Params, ep: Epoch, from: nat, s: Signal)
    requires p.Resilient() && WellFormed(p, ep) && from < p.n
    ensures WellFormed(p, RecvSignal(p, ep, from, s).0)
  {
    if !ep.termed {
      match s.kind
      case Viable => OnViableKeeps(p, ep, from, s.value);
      case Agreement => OnAgreementKeeps(p, ep, from, s.value);
    }
  }

  lemma InitKeeps(p: Params, ep: Epoch)
    requires WellFormed(p, ep)
    ensures WellFormed(p, InitEpoch(ep).0)
  {
    var ep1 := InitEpoch(ep).0;
    assert ep1.Backed() == ep.Backed();
    forall w
      ensures SideOk(p, ep1, w)
    {
      assert SideOk(p, ep, w);
      assert Supported(ep, w) ==> Supported(ep1, w);
    }
  }

  lemma EstimateKeeps(p: Params, ep: Epoch, v: bool)
    requires WellFormed(p, ep)
    ensures WellFormed(p, ep.(estimate := v))
  {
    var ep1 := ep.(estimate := v);
    assert ep1.Backed() == ep.Backed();
    forall w
      ensures SideOk(p, ep1, w)
    {
      assert SideOk(p, ep, w);
      assert Supported(ep, w) ==> Supported(ep1, w);
    }
  }

  /** An epoch that has terminated has a candidate: the "no candidate" panic of checkOutput cannot happen. */
  lemma TerminatedHasCandidate(p: Params, ep: Epoch)
    requires p.Resilient() && WellFormed(p, ep) && ep.termed
    ensures ep.Candidates() != {}
  {
    assert |ep.Backed()| > 0;
    var j :| j in ep.Backed();
    assert ep.At(ep.agreed[j]).candidate;
    assert ep.agreed[j] in ep.Candidates();
  }

  /** The Agreements recorded by a pair of vectors. */
  function Recorded(got: seq<bool>, value: seq<bool>): map<nat, bool>
    requires |got| == |value|
  {
    map i: nat | i < |got| && got[i] :: value[i]
  }

  lemma RecordedUpdate(got: seq<bool>, value: seq<bool>, i: nat, v: bool)
    requires |got| == |value| && i < |got|
    ensures Recorded(got[i := true], value[i := v]) == Recorded(got, value)[i := v]
  {
  }

  /** The servers below k whose Agreement is backed. */
  ghost function BackedBelow(ep: Epoch, k: nat): set<nat> {
    set j | j in ep.Backed() && j < k
  }

  ghost predicate SupportedBelow(ep: Epoch, v: bool, k: nat) {
    ep.At(v).believed && exists j :: j in ep.agreed && j < k && ep.agreed[j] == v
  }

  lemma BelowNext(ep: Epoch, k: nat, v: bool)
    ensures k !in BackedBelow(ep, k)
    ensures BackedBelow(ep, k + 1) == BackedBelow(ep, k) + (if k in ep.Backed() then {k} else {})
    ensures SupportedBelow(ep, v, k + 1)
            == (SupportedBelow(ep, v, k) || (k in ep.agreed && ep.agreed[k] == v && ep.At(v).believed))
  {
    if k in ep.agreed && ep.agreed[k] == v && ep.At(v).believed {
      assert SupportedBelow(ep, v, k + 1);
    }
  }

  lemma BelowAll(p: Params, ep: Epoch)
    requires forall j :: j in ep.agreed ==> j < p.n
    ensures BackedBelow(ep, p.n) == ep.Backed()
    ensures forall v :: SupportedBelow(ep, v, p.n) == Supported(ep, v)
  {
  }

  class BAEpoch {
    const p: Params
    const id: nat
    const rcvdVTrue: array<bool>
    const rcvdVFalse: array<bool>
    const rcvdA: array<bool>
    const valueA: array<bool>
    var nVTrue: nat
    var nVFalse: nat
    var sentVTrue: bool
    var sentVFalse: bool
    var sentA: bool
    var believeTrue: bool
    var believeFalse: bool
    var e: bool
    var candidateTrue: bool
    var candidateFalse: bool
    var termed: bool

    ghost function Repr(): set<object> {
      {this, rcvdVTrue, rcvdVFalse, rcvdA, valueA}
    }

    /** The arrays have one slot per server and the counters count the set slots. */
    ghost predicate Shaped()
      reads Repr()
    {
      && rcvdVTrue.Length == rcvdVFalse.Length == rcvdA.Length == valueA.Length == p.n
      && rcvdVTrue != rcvdVFalse && rcvdVTrue != rcvdA && rcvdVTrue != valueA
      && rcvdVFalse != rcvdA && rcvdVFalse != valueA && rcvdA != valueA
      && nVTrue == |Marked(rcvdVTrue[..])|
      && nVFalse == |Marked(rcvdVFalse[..])|
    }

    /** The specification state this object stands for. */
    ghost function Model(): Epoch
      requires Shaped()
      reads Repr()
    {
      Epoch(Side(Marked(rcvdVTrue[..]), sentVTrue, believeTrue, candidateTrue),
            Side(Marked(rcvdVFalse[..]), sentVFalse, believeFalse, candidateFalse),
            Recorded(rcvdA[..], valueA[..]), sentA, e, termed)
    }

    ghost predicate Valid()
      reads Repr()
    {
      p.Resilient() && Shaped() && WellFormed(p, Model())
    }

    constructor (p: Params, id: nat)
      requires p.Resilient()
      ensures Valid() && fresh(Repr()) && this.p == p && this.id == id
      ensures Model() == FRESH_EPOCH
    {
      this.p := p;
      this.id := id;
      rcvdVTrue := new bool[p.n](i => false);
      rcvdVFalse := new bool[p.n](i => false);
      rcvdA := new bool[p.n](i => false);
      valueA := new bool[p.n](i => false);
      nVTrue, nVFalse := 0, 0;
      sentVTrue, sentVFalse, sentA := false, false, false;
      believeTrue, believeFalse, e := false, false, false;
      candidateTrue, candidateFalse, termed := false, false, false;
      new;
      assert Marked(rcvdVTrue[..]) == {} && Marked(rcvdVFalse[..]) == {};
      assert Recorded(rcvdA[..], valueA[..]) == map[];
      FreshWellFormed(p);
    }

    /** Records a Viable(true), counting each sender once. */
    method HearTrue(from: nat)
      requires Shaped() && from < p.n
      modifies rcvdVTrue, this`nVTrue
      ensures Shaped()
      ensures Model() == old(Model()).(yes := old(Model()).yes.(heard := old(Model()).yes.heard + {from}))
    {
      MarkedUpdate(rcvdVTrue[..], from);
      if !rcvdVTrue[from] {
        rcvdVTrue[from] := true;
        nVTrue := nVTrue + 1;
      }
      assert rcvdVTrue[..] == old(rcvdVTrue[..])[from := true];
    }

    /** What follows once server `from` has been recorded. */
    method AnswerTrue(ghost from: nat) returns (out: seq<Signal>)
      requires Shaped() && from in Model().yes.heard
      modifies this`sentVTrue, this`believeTrue, this`sentA
      ensures Shaped()
      ensures (Model(), out) == OnViable(p, old(Model()), from, true)
    {
      hide Recorded, Marked, Say;
      assert Model().yes.heard + {from} == Model().yes.heard;
      var relay, agree := false, false;
      if !sentVTrue && nVTrue >= p.f + 1 {
        sentVTrue := true;
        relay := true;
      }
      if nVTrue >= p.f * 2 + 1 {
        believeTrue := true;
        if !sentA {
          sentA := true;
          agree := true;
        }
      }
      out := Say(relay, agree, true);
    }

    method HandleViableTrue(from: nat) returns (out: seq<Signal>)
      requires Shaped() && from < p.n
      modifies rcvdVTrue, this`nVTrue, this`sentVTrue, this`believeTrue, this`sentA
      ensures Shaped()
      ensures (Model(), out) == OnViable(p, old(Model()), from, true)
    {
      hide Recorded, Marked, Say;
      HearAgain(p, Model(), from, true);
      HearTrue(from);
      out := AnswerTrue(from);
    }

    /** Records a Viable(false), counting each sender once. */
    method HearFalse(from: nat)
      requires Shaped() && from < p.n
      modifies rcvdVFalse, this`nVFalse
      ensures Shaped()
      ensures Model() == old(Model()).(no := old(Model()).no.(heard := old(Model()).no.heard + {from}))
    {
      MarkedUpdate(rcvdVFalse[..], from);
      if !rcvdVFalse[from] {
        rcvdVFalse[from] := true;
        nVFalse := nVFalse + 1;
      }
      assert rcvdVFalse[..] == old(rcvdVFalse[..])[from := true];
    }

    /** What follows once server `from` has been recorded. */
    method AnswerFalse(ghost from: nat) returns (out: seq<Signal>)
      requires Shaped() && from in Model().no.heard
      modifies this`sentVFalse, this`believeFalse, this`sentA
      ensures Shaped()
      ensures (Model(), out) == OnViable(p, old(Model()), from, false)
    {
      hide Recorded, Marked, Say;
      assert Model().no.heard + {from} == Model().no.heard;
      var relay, agree := false, false;
      if !sentVFalse && nVFalse >= p.f + 1 {
        sentVFalse := true;
        relay := true;
      }
      if nVFalse >= p.f * 2 + 1 {
        believeFalse := true;
        if !sentA {
          sentA := true;
          agree := true;
        }
      }
      out := Say(relay, agree, false);
    }

    method HandleViableFalse(from: nat) returns (out: seq<Signal>)
      requires Shaped() && from < p.n
      modifies rcvdVFalse, this`nVFalse, this`sentVFalse, this`believeFalse, this`sentA
      ensures Shaped()
      ensures (Model(), out) == OnViable(p, old(Model()), from, false)
    {
      hide Recorded, Marked, Say;
      HearAgain(p, Model(), from, false);
      HearFalse(from);
      out := AnswerFalse(from);
    }

    method HandleViable(from: nat, value: bool) returns (out: seq<Signal>)
      requires Shaped() && from < p.n
      modifies Repr()
      ensures Shaped()
      ensures (Model(), out) == OnViable(p, old(Model()), from, value)
    {
      if value {
        out := HandleViableTrue(from);
      } else {
        out := HandleViableFalse(from);
      }
    }

    method HandleAgreement(from: nat, value: bool)
      requires Shaped() && from < p.n
      modifies Repr()
      ensures Shaped()
      ensures Model() == OnAgreement(old(Model()), from, value)
    {
      if !rcvdA[from] {
        RecordedUpdate(rcvdA[..], valueA[..], from, value);
        rcvdA[from] := true;
        valueA[from] := value;
        assert rcvdA[..] == old(rcvdA[..])[from := true];
        assert valueA[..] == old(valueA[..])[from := value];
      }
    }

    /** Scans the received Agreements: how many are backed, and whether one backs each value. */
    method Tally() returns (na: nat, sawTrue: bool, sawFalse: bool)
      requires Shaped()
      ensures na == |Model().Backed()|
      ensures sawTrue == Supported(Model(), true) && sawFalse == Supported(Model(), false)
    {
      ghost var ep := Model();
      na, sawTrue, sawFalse := 0, false, false;
      for from := 0 to p.n
        invariant na == |BackedBelow(ep, from)|
        invariant sawTrue == SupportedBelow(ep, true, from)
        invariant sawFalse == SupportedBelow(ep, false, from)
      {
        BelowNext(ep, from, true);
        BelowNext(ep, from, false);
        if rcvdA[from] {
          var v := valueA[from];
          if v && believeTrue {
            sawTrue := true;
            na := na + 1;
          }
          if !v && believeFalse {
            sawFalse := true;
            na := na + 1;
          }
        }
      }
      BelowAll(p, ep);
    }

    /** Collects the candidates and terminates the epoch if N-F Agreements are backed. */
    method Scan()
      requires Shaped() && p.Resilient() && !termed
      modifies this`candidateTrue, this`candidateFalse, this`termed
      ensures Shaped()
      ensures Model() == Settle(p, old(Model()))
    {
      hide Recorded, Marked;
      var na, sawTrue, sawFalse := Tally();
      candidateTrue := candidateTrue || sawTrue;
      candidateFalse := candidateFalse || sawFalse;
      if na >= p.n - p.f && !termed {
        termed := true;
      }
    }

    method Recv(from: nat, s: Signal) returns (out: seq<Signal>, terminated: bool)
      requires Valid() && from < p.n
      modifies Repr()
      ensures Valid()
      ensures (Model(), out) == RecvSignal(p, old(Model()), from, s)
      ensures terminated == (!old(termed) && termed)
    {
      out, terminated := [], false;
      if termed {
        return;
      }
      RecvKeeps(p, Model(), from, s);
      match s.kind {
        case Viable => out := HandleViable(from, s.value);
        case Agreement => HandleAgreement(from, s.value);
      }
      Scan();
      terminated := termed;
    }

    method SetEstimation(v: bool)
      requires Valid()
      modifies this`e
      ensures Valid() && Model() == old(Model()).(estimate := v)
    {
      EstimateKeeps(p, Model(), v);
      e := v;
    }

    method Init() returns (out: seq<Signal>)
      requires Valid()
      modifies this`sentVTrue, this`sentVFalse
      ensures Valid()
      ensures (Model(), out) == InitEpoch(old(Model()))
    {
      if termed {
        return [];
      }
      if (e && sentVTrue) || (!e && sentVFalse) {
        return [];
      }
      InitKeeps(p, Model());
      out := [Signal(Viable, e)];
      if e {
        sentVTrue := true;
      } else {
        sentVFalse := true;
      }
    }
  }
}
