/**
 One epoch of Pika on one server (PikaEpoch in pika/pika.go): N dispersals and N binary agreements. A server votes for
 a block once its dispersal has terminated, and against all others once N-F blocks are accepted.
 */
module PikaEpoch {
  import opened Common
  import opened Dispersal
  import A = Agreement

  datatype Server = Server(p: Params, id: nat, codec: Codec) {
    /** The context of the dispersal by server i. */
    function VID(i: nat): Ctx {
      Ctx(p, id, i, codec)
    }
  }

  /** A PikaEpochMessage: what instance idx of one of the two protocols sends. */
  datatype Out = BAOut(idx: nat, msg: A.BAMsg) | VIDOut(idx: nat, env: Env)

  /** input[i] is the vote in agreement i, if it has been cast (bInit). */
  datatype EpochState = EpochState(b: seq<A.State>, v: seq<VID>, input: seq<Option<bool>>,
                                   requested: seq<bool>, released: seq<bool>, retrieved: seq<bool>,
                                   requestStarted: bool, termed: bool, hptermed: bool)

  predicate Sized(g: Server, s: EpochState) {
    |s.b| == |s.v| == |s.input| == |s.requested| == |s.released| == |s.retrieved| == g.p.n
  }

  predicate BARunnable(g: Server, t: A.State) {
    t.Running? ==> |t.core.terms| == g.p.n && A.PointersOk(t.core)
  }

  lemma {:induction false} CatchUpKeepsRunnable(g: Server, core: A.Core, i: nat, limit: nat)
    requires i < |core.epochs| && |core.terms| == g.p.n && core.firstUninited <= i + 1
    ensures BARunnable(g, A.CatchUp(g.p, core, i, limit).0)
    decreases limit - i
  {
    if i < limit && core.epochs[i].termed && core.epochs[i].Candidates() != {} && !A.IsFinal(i, core.epochs[i].Candidates()) {
      var core1 := A.Advance(g.p, core, i).0;
      CatchUpKeepsRunnable(g, core1, i + 1, limit);
    }
  }

  lemma RecvKeepsRunnable(g: Server, t: A.State, from: nat, m: A.BAMsg)
    requires BARunnable(g, t) && from < g.p.n
    ensures BARunnable(g, A.Recv(g.p, t, from, m).0)
  {
    if t.Running? {
      var core1 := A.Record(g.p, t.core, from, m).0;
      CatchUpKeepsRunnable(g, core1, core1.epochNum, |core1.epochs| + 2);
    }
  }

  /** Every agreement can be run. */
  predicate Runnable(g: Server, s: EpochState)
    requires Sized(g, s)
  {
    forall i :: 0 <= i < g.p.n ==> BARunnable(g, s.b[i])
  }

  function Fresh(g: Server): EpochState {
    EpochState(seq(g.p.n, i => A.Initial(g.p)), seq(g.p.n, i requires 0 <= i < g.p.n => Initial(g.VID(i))),
               seq(g.p.n, i => None), seq(g.p.n, i => false), seq(g.p.n, i => false), seq(g.p.n, i => false),
               false, false, false)
  }

  function BAOuts(i: nat, out: seq<A.BAMsg>): seq<Out> {
    seq(|out|, k requires 0 <= k < |out| => BAOut(i, out[k]))
  }

  function VIDOuts(i: nat, out: seq<Env>): seq<Out> {
    seq(|out|, k requires 0 <= k < |out| => VIDOut(i, out[k]))
  }

  /** Casts the vote x in agreement i, unless one has been cast. */
  function InputBA(g: Server, s: EpochState, i: nat, x: bool): (r: (EpochState, seq<Out>))
    requires Sized(g, s) && i < g.p.n && BARunnable(g, s.b[i])
    ensures Sized(g, r.0)
  {
    if s.input[i].Some? then (s, [])
    else
      var (t, out) := A.Input(s.b[i], x);
      (s.(b := s.b[i := t], input := s.input[i := Some(x)]), BAOuts(i, out))
  }

  function Release(g: Server, s: EpochState, i: nat): (r: (EpochState, seq<Out>))
    requires Sized(g, s) && i < g.p.n
    ensures Sized(g, r.0)
  {
    if s.released[i] then (s, [])
    else
      var (v, out) := ReleaseChunk(g.VID(i), s.v[i]);
      (s.(v := s.v[i := v], released := s.released[i := true]), VIDOuts(i, out))
  }

  function Request(g: Server, s: EpochState, i: nat): (r: (EpochState, seq<Out>))
    requires Sized(g, s) && i < g.p.n
    ensures Sized(g, r.0)
  {
    if s.requested[i] then (s, [])
    else
      var (v, out) := RequestPayload(g.VID(i), s.v[i]);
      (s.(v := s.v[i := v], requested := s.requested[i := true]), VIDOuts(i, out))
  }

  /** Makes block i available to others, and asks for it once requesting has started. */
  function Fetch(g: Server, s: EpochState, i: nat): (r: (EpochState, seq<Out>))
    requires Sized(g, s) && i < g.p.n
    ensures Sized(g, r.0)
  {
    var (s1, out1) := Release(g, s, i);
    if s1.requestStarted then
      var (s2, out2) := Request(g, s1, i);
      (s2, out1 + out2)
    else (s1, out1)
  }

  predicate Accepted(t: A.State) {
    t.Decided? && t.output
  }

  function Accepts(b: seq<A.State>): set<nat> {
    set i: nat | i < |b| && Accepted(b[i])
  }

  /** Votes against every block from i on that has no vote yet. */
  function InputFalse(g: Server, s: EpochState, i: nat): (r: (EpochState, seq<Out>))
    requires Sized(g, s) && Runnable(g, s)
    ensures Sized(g, r.0)
    decreases g.p.n - i
  {
    if i >= g.p.n then (s, [])
    else
      var (s1, out1) := InputBA(g, s, i, false);
      InputKeepsRunnable(g, s, i, false);
      var (s2, out2) := InputFalse(g, s1, i + 1);
      (s2, out1 + out2)
  }

  lemma InputKeepsRunnable(g: Server, s: EpochState, i: nat, x: bool)
    requires Sized(g, s) && Runnable(g, s) && i < g.p.n
    ensures Runnable(g, InputBA(g, s, i, x).0)
  {
  }

  /** A message of dispersal i. */
  function OnVID(g: Server, s: EpochState, i: nat, from: nat, m: Msg): (r: (EpochState, seq<Out>))
    requires g.p.Resilient() && Sized(g, s) && Runnable(g, s) && i < g.p.n && m.Complete()
    ensures Sized(g, r.0)
  {
    var (v, out) := Recv(g.VID(i), s.v[i], from, m);
    var s1 := s.(v := s.v[i := v]);
    if Terminated(g.VID(i), v) then
      var (s2, out2) := InputBA(g, s1, i, true);
      var (s3, out3) := Fetch(g, s2, i);
      (s3, VIDOuts(i, out) + out2 + out3)
    else (s1, VIDOuts(i, out))
  }

  /** Agreement i has just decided. */
  function Decide(g: Server, s: EpochState, i: nat): (r: (EpochState, seq<Out>))
    requires Sized(g, s) && Runnable(g, s) && i < g.p.n
    ensures Sized(g, r.0)
  {
    var (s1, out1) := if Accepted(s.b[i]) then Fetch(g, s, i) else (s, []);
    if |Accepts(s1.b)| + g.p.f >= g.p.n then
      var (s2, out2) := InputFalse(g, s1, 0);
      (s2, out1 + out2)
    else (s1, out1)
  }

  /** A message of agreement i. */
  function OnBA(g: Server, s: EpochState, i: nat, from: nat, m: A.BAMsg): (r: (EpochState, seq<Out>))
    requires Sized(g, s) && Runnable(g, s) && i < g.p.n && from < g.p.n
    ensures Sized(g, r.0)
  {
    RecvKeepsRunnable(g, s.b[i], from, m);
    var (t, out) := A.Recv(g.p, s.b[i], from, m);
    var s1 := s.(b := s.b[i := t]);
    if s.b[i].Running? && t.Decided? then
      var (s2, out2) := Decide(g, s1, i);
      (s2, BAOuts(i, out) + out2)
    else (s1, BAOuts(i, out))
  }

  predicate AllDecided(s: EpochState) {
    forall i :: 0 <= i < |s.b| ==> s.b[i].Decided?
  }

  /** The block of server i has been decoded; the placeholder of the initiator is not a block. */
  predicate HasBlock(v: VID) {
    v.payload.Some? && v.payload.value.Block?
  }

  /** Marks which of the accepted blocks have been decoded. */
  function Retrieved(s: EpochState): seq<bool>
    requires |s.retrieved| == |s.b| == |s.v|
  {
    seq(|s.b|, i requires 0 <= i < |s.b| => s.retrieved[i] || (Accepted(s.b[i]) && HasBlock(s.v[i])))
  }

  /** The end of PikaEpoch.Recv: the epoch is dispersed when all agreements have decided, and terminated when all
      accepted blocks have been decoded as well. */
  function Conclude(s: EpochState): EpochState
    requires |s.retrieved| == |s.b| == |s.v|
  {
    if !AllDecided(s) then s
    else
      var r := Retrieved(s);
      s.(retrieved := r, hptermed := true,
         termed := s.termed || forall i :: 0 <= i < |s.b| && Accepted(s.b[i]) ==> r[i])
  }

  /** Starts the dispersal of the own block x and votes for it. */
  function Init(g: Server, s: EpochState, x: Payload): (EpochState, seq<Out>)
    requires Sized(g, s) && Runnable(g, s) && g.id < g.p.n
    requires |g.codec.encode(x)| == g.p.n && |g.codec.encode(EmptyPayload)| == g.p.n
  {
    var (v, out1) := Disperse(g.VID(g.id), s.v[g.id], x, EmptyPayload);
    var (s2, out2) := ReleaseAll(g, s.(v := s.v[g.id := v]), 0);
    var (s3, out3) := InputBA(g, s2, g.id, true);
    (s3, VIDOuts(g.id, out1) + out2 + out3)
  }

  function ReleaseAll(g: Server, s: EpochState, i: nat): (r: (EpochState, seq<Out>))
    requires Sized(g, s)
    ensures Sized(g, r.0) && r.0.b == s.b && r.0.input == s.input
    decreases g.p.n - i
  {
    if i >= g.p.n then (s, [])
    else
      var (s1, out1) := Release(g, s, i);
      var (s2, out2) := ReleaseAll(g, s1, i + 1);
      (s2, out1 + out2)
  }

  /** Asks for every block that has been released, from i on. */
  function RequestAll(g: Server, s: EpochState, i: nat): (r: (EpochState, seq<Out>))
    requires Sized(g, s)
    ensures Sized(g, r.0) && r.0.b == s.b && r.0.input == s.input
    decreases g.p.n - i
  {
    if i >= g.p.n then (s, [])
    else
      var (s1, out1) := if s.released[i] then Request(g, s, i) else (s, []);
      var (s2, out2) := RequestAll(g, s1, i + 1);
      (s2, out1 + out2)
  }

  function StartRequesting(g: Server, s: EpochState): (EpochState, seq<Out>)
    requires Sized(g, s)
  {
    RequestAll(g, s.(requestStarted := true), 0)
  }
}
