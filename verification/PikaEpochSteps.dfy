/**
 One step of an epoch on one server: decisions, completed dispersals and decoded blocks stay, and a terminated epoch has
 decided all agreements and decoded all accepted blocks.
 */
module PikaEpochSteps {
  import opened Common
  import opened Dispersal
  import opened PikaEpoch
  import A = Agreement
  import DS = DispersalStep

  lemma DispersedStays(c: Ctx, v: VID, w: VID)
    requires DS.Kept(v, w) && PayloadDispersed(c, v)
    ensures PayloadDispersed(c, w)
  {
    if w.core.Some? {
      SubsetCount(v.core.value.readys, w.core.value.readys);
    }
  }

  lemma InputAccepts(g: Server, s: EpochState, i: nat, x: bool)
    requires Sized(g, s) && Runnable(g, s) && i < g.p.n
    ensures Accepts(InputBA(g, s, i, x).0.b) == Accepts(s.b)
  {
    var b' := InputBA(g, s, i, x).0.b;
    forall j: nat
      ensures j in Accepts(b') <==> j in Accepts(s.b)
    {
    }
  }

  lemma FetchLeaves(g: Server, s: EpochState, i: nat)
    requires Sized(g, s) && i < g.p.n
    ensures Fetch(g, s, i).0.b == s.b && Release(g, s, i).0.b == s.b
    ensures Sized(g, Release(g, s, i).0)
  {
  }

  /** What the flags of an epoch promise. */
  ghost predicate FlagsOk(g: Server, s: EpochState)
    requires Sized(g, s)
  {
    && (forall i: nat :: i < g.p.n && s.retrieved[i] ==> HasBlock(s.v[i]))
    && (s.hptermed ==> AllDecided(s))
    && (s.termed ==> AllDecided(s) && forall i: nat :: i < g.p.n && Accepted(s.b[i]) ==> s.retrieved[i])
  }

  /** Decisions, completed dispersals and decoded blocks stay, and the flags have not been touched. */
  ghost predicate Onward(g: Server, s: EpochState, t: EpochState)
    requires Sized(g, s)
  {
    && Sized(g, t) && t.retrieved == s.retrieved && t.termed == s.termed && t.hptermed == s.hptermed
    && forall i: nat :: i < g.p.n ==> StaysAt(g, s, t, i)
  }

  ghost predicate StaysAt(g: Server, s: EpochState, t: EpochState, i: nat)
    requires i < |s.b| && i < |s.v| && i < |t.b| && i < |t.v|
  {
    && (s.b[i].Decided? ==> t.b[i] == s.b[i])
    && (PayloadDispersed(g.VID(i), s.v[i]) ==> PayloadDispersed(g.VID(i), t.v[i]))
    && (HasBlock(s.v[i]) ==> t.v[i].payload == s.v[i].payload)
  }

  lemma OnwardTogether(g: Server, s: EpochState, t: EpochState, u: EpochState)
    requires Sized(g, s) && Onward(g, s, t) && Onward(g, t, u)
    ensures Onward(g, s, u)
  {
    forall i: nat | i < g.p.n
      ensures StaysAt(g, s, u, i)
    {
      assert StaysAt(g, s, t, i) && StaysAt(g, t, u, i);
    }
  }

  lemma OnwardKeepsFlags(g: Server, s: EpochState, t: EpochState)
    requires Sized(g, s) && FlagsOk(g, s) && Onward(g, s, t)
    ensures FlagsOk(g, t)
  {
    forall i: nat | i < g.p.n
      ensures t.retrieved[i] ==> HasBlock(t.v[i])
      ensures s.hptermed ==> t.b[i].Decided?
      ensures s.termed ==> t.b[i].Decided? && (Accepted(t.b[i]) ==> t.retrieved[i])
    {
      assert StaysAt(g, s, t, i);
    }
  }

  lemma ConcludeKeepsFlags(g: Server, s: EpochState)
    requires Sized(g, s) && FlagsOk(g, s)
    ensures FlagsOk(g, Conclude(s))
  {
  }

  lemma InputOnward(g: Server, s: EpochState, i: nat, x: bool)
    requires Sized(g, s) && i < g.p.n && BARunnable(g, s.b[i])
    ensures Onward(g, s, InputBA(g, s, i, x).0)
  {
  }

  lemma ReleaseOnward(g: Server, s: EpochState, i: nat)
    requires Sized(g, s) && i < g.p.n
    ensures Onward(g, s, Release(g, s, i).0)
  {
  }

  lemma RequestOnward(g: Server, s: EpochState, i: nat)
    requires Sized(g, s) && i < g.p.n
    ensures Onward(g, s, Request(g, s, i).0)
  {
  }

  lemma FetchOnward(g: Server, s: EpochState, i: nat)
    requires Sized(g, s) && i < g.p.n
    ensures Onward(g, s, Fetch(g, s, i).0)
  {
    hide Release, Request, Onward;
    var s1 := Release(g, s, i).0;
    ReleaseOnward(g, s, i);
    RequestOnward(g, s1, i);
    OnwardTogether(g, s, s1, Request(g, s1, i).0);
  }

  lemma OnwardSelf(g: Server, s: EpochState)
    requires Sized(g, s)
    ensures Onward(g, s, s)
  {
  }

  lemma {:induction false} InputFalseOnward(g: Server, s: EpochState, i: nat)
    requires Sized(g, s) && Runnable(g, s)
    ensures Onward(g, s, InputFalse(g, s, i).0)
    decreases g.p.n - i
  {
    hide InputBA, Onward;
    if i >= g.p.n {
      OnwardSelf(g, s);
    } else {
      InputOnward(g, s, i, false);
      InputKeepsRunnable(g, s, i, false);
      var s1 := InputBA(g, s, i, false).0;
      InputFalseOnward(g, s1, i + 1);
      OnwardTogether(g, s, s1, InputFalse(g, s1, i + 1).0);
    }
  }

  lemma DecideOnward(g: Server, s: EpochState, i: nat)
    requires Sized(g, s) && Runnable(g, s) && i < g.p.n
    ensures Onward(g, s, Decide(g, s, i).0)
  {
    hide Fetch, InputFalse, Onward, Accepts;
    FetchOnward(g, s, i);
    FetchLeaves(g, s, i);
    OnwardSelf(g, s);
    var s1 := if Accepted(s.b[i]) then Fetch(g, s, i).0 else s;
    if |Accepts(s1.b)| + g.p.f >= g.p.n {
      InputFalseOnward(g, s1, 0);
      OnwardTogether(g, s, s1, InputFalse(g, s1, 0).0);
    }
  }

  /** Hearing a message leaves a decoded payload alone. */
  lemma RecvKeepsBlock(c: Ctx, v: VID, from: nat, m: Msg)
    requires c.p.Resilient() && m.Complete() && v.payload.Some?
    ensures Recv(c, v, from, m).0.payload == v.payload
  {
    hide Gather, Answers;
    assert Intake(c, v, from, m).0.payload == v.payload;
    ReactKeepsPayload(c, Intake(c, v, from, m).0);
  }

  lemma ReactKeepsPayload(c: Ctx, v: VID)
    requires c.p.Resilient() && v.payload.Some?
    ensures React(c, v).0.payload == v.payload
  {
    hide Gather, Answers;
  }

  lemma RecvKept(c: Ctx, v: VID, from: nat, m: Msg)
    requires c.p.Resilient() && m.Complete()
    ensures DS.Kept(v, Recv(c, v, from, m).0)
  {
    hide Intake, React;
    DS.IntakeKept(c, v, from, m);
    DS.ReactKept(c, Intake(c, v, from, m).0);
  }

  lemma OnVIDOnward(g: Server, s: EpochState, i: nat, from: nat, m: Msg)
    requires g.p.Resilient() && Sized(g, s) && Runnable(g, s) && i < g.p.n && m.Complete()
    ensures Onward(g, s, OnVID(g, s, i, from, m).0)
  {
    hide Recv, InputBA, Fetch, DS.Kept, PayloadDispersed;
    var v := Recv(g.VID(i), s.v[i], from, m).0;
    if s.v[i].payload.Some? {
      RecvKeepsBlock(g.VID(i), s.v[i], from, m);
    }
    RecvKept(g.VID(i), s.v[i], from, m);
    if PayloadDispersed(g.VID(i), s.v[i]) {
      DispersedStays(g.VID(i), s.v[i], v);
    }
    var s1 := s.(v := s.v[i := v]);
    assert Onward(g, s, s1);
    if Terminated(g.VID(i), v) {
      var s2 := InputBA(g, s1, i, true).0;
      InputOnward(g, s1, i, true);
      FetchOnward(g, s2, i);
      OnwardTogether(g, s, s1, s2);
      OnwardTogether(g, s, s2, Fetch(g, s2, i).0);
    }
  }

  lemma OnBAOnward(g: Server, s: EpochState, i: nat, from: nat, m: A.BAMsg)
    requires Sized(g, s) && Runnable(g, s) && i < g.p.n && from < g.p.n
    ensures Onward(g, s, OnBA(g, s, i, from, m).0)
  {
    hide A.Record, A.CatchUp, Decide;
    RecvKeepsRunnable(g, s.b[i], from, m);
    var s1 := s.(b := s.b[i := A.Recv(g.p, s.b[i], from, m).0]);
    assert Onward(g, s, s1);
    if s.b[i].Running? && s1.b[i].Decided? {
      DecideOnward(g, s1, i);
      OnwardTogether(g, s, s1, Decide(g, s1, i).0);
    }
  }

  lemma {:induction false} ReleaseAllOnward(g: Server, s: EpochState, i: nat)
    requires Sized(g, s)
    ensures Onward(g, s, ReleaseAll(g, s, i).0)
    decreases g.p.n - i
  {
    hide Release, Onward;
    if i >= g.p.n {
      OnwardSelf(g, s);
    } else {
      var s1 := Release(g, s, i).0;
      ReleaseOnward(g, s, i);
      ReleaseAllOnward(g, s1, i + 1);
      OnwardTogether(g, s, s1, ReleaseAll(g, s1, i + 1).0);
    }
  }

  lemma {:induction false} RequestAllOnward(g: Server, s: EpochState, i: nat)
    requires Sized(g, s)
    ensures Onward(g, s, RequestAll(g, s, i).0)
    decreases g.p.n - i
  {
    hide Request, Onward;
    OnwardSelf(g, s);
    if i < g.p.n {
      var s1 := if s.released[i] then Request(g, s, i).0 else s;
      RequestOnward(g, s, i);
      RequestAllOnward(g, s1, i + 1);
      OnwardTogether(g, s, s1, RequestAll(g, s1, i + 1).0);
    }
  }

  /** The own dispersal is begun while the payload is still the placeholder. */
  lemma InitOnward(g: Server, s: EpochState, x: Payload)
    requires Sized(g, s) && Runnable(g, s) && g.id < g.p.n && !HasBlock(s.v[g.id])
    requires |g.codec.encode(x)| == g.p.n && |g.codec.encode(EmptyPayload)| == g.p.n
    ensures Onward(g, s, Init(g, s, x).0)
  {
    hide ReleaseAll, InputBA;
    var s1 := s.(v := s.v[g.id := Disperse(g.VID(g.id), s.v[g.id], x, EmptyPayload).0]);
    assert Onward(g, s, s1);
    var s2 := ReleaseAll(g, s1, 0).0;
    ReleaseAllOnward(g, s1, 0);
    InputOnward(g, s2, g.id, true);
    OnwardTogether(g, s, s1, s2);
    OnwardTogether(g, s, s2, InputBA(g, s2, g.id, true).0);
  }

  lemma StartOnward(g: Server, s: EpochState)
    requires Sized(g, s)
    ensures Onward(g, s, StartRequesting(g, s).0)
  {
    var s1 := s.(requestStarted := true);
    assert Onward(g, s, s1);
    RequestAllOnward(g, s1, 0);
    OnwardTogether(g, s, s1, RequestAll(g, s1, 0).0);
  }

  /** What server q broadcasts in agreement i. */
  ghost function BASent(q: nat, out: seq<Out>, i: nat): set<(nat, A.BAMsg)> {
    set o | o in out && o.BAOut? && o.idx == i :: (q, o.msg)
  }

  /** The messages of dispersal i. */
  ghost function VIDSent(out: seq<Out>, i: nat): set<Env> {
    set o | o in out && o.VIDOut? && o.idx == i :: o.env
  }

  lemma SentAppend(q: nat, a: seq<Out>, b: seq<Out>, i: nat)
    ensures BASent(q, a + b, i) == BASent(q, a, i) + BASent(q, b, i)
    ensures VIDSent(a + b, i) == VIDSent(a, i) + VIDSent(b, i)
  {
  }

  lemma SentBy(q: nat, i: nat, out: seq<A.BAMsg>, vout: seq<Env>, j: nat)
    ensures BASent(q, BAOuts(i, out), j) == (if j == i then set m | m in out :: (q, m) else {})
    ensures VIDSent(BAOuts(i, out), j) == {}
    ensures VIDSent(VIDOuts(i, vout), j) == (if j == i then set e | e in vout else {})
    ensures BASent(q, VIDOuts(i, vout), j) == {}
  {
    forall m | m in out
      ensures BAOut(i, m) in BAOuts(i, out)
    {
      var a :| 0 <= a < |out| && out[a] == m;
      assert BAOuts(i, out)[a] == BAOut(i, m);
    }
    forall e | e in vout
      ensures VIDOut(i, e) in VIDOuts(i, vout)
    {
      var a :| 0 <= a < |vout| && vout[a] == e;
      assert VIDOuts(i, vout)[a] == VIDOut(i, e);
    }
    if j == i {
      forall m | m in out
        ensures (q, m) in BASent(q, BAOuts(i, out), j)
      {
        assert BAOut(i, m) in BAOuts(i, out);
      }
      forall e | e in vout
        ensures e in VIDSent(VIDOuts(i, vout), j)
      {
        assert VIDOut(i, e) in VIDOuts(i, vout);
      }
    }
  }
}
