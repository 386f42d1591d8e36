/**
 What is retrieved: when every chunk from server i is the one encoded for i, whatever a server decodes is what the
 initiator dispersed, whichever chunks it used and in whatever order they came.
 */
module DispersalRetrieval {
  import opened Common
  import opened Dispersal
  import opened DispersalInvariant
  import opened DispersalStep
  import opened DispersalNetwork

  /** Every slot that is filled holds the chunk of that index. */
  ghost predicate Matches(slots: map<nat, Bytes>, chunks: seq<Bytes>) {
    forall i :: i in slots ==> i < |chunks| && slots[i] == chunks[i]
  }

  /** The slots from i on that are filled. */
  ghost function From(slots: map<nat, Bytes>, i: nat): set<nat> {
    set j | j in slots && i <= j
  }

  lemma FromStep(slots: map<nat, Bytes>, i: nat)
    ensures From(slots, i) == From(slots, i + 1) + if i in slots then {i} else {}
    ensures |From(slots, i)| == |From(slots, i + 1)| + if i in slots then 1 else 0
  {
    assert From(slots, i) == From(slots, i + 1) + if i in slots then {i} else {};
  }

  lemma FromEnd(slots: map<nat, Bytes>, n: nat)
    requires slots.Keys <= Nodes(n)
    ensures From(slots, n) == {}
  {
    assert forall i :: i in slots ==> i in slots.Keys;
  }

  lemma PickCons(chunks: seq<Bytes>, i: nat, rest: seq<nat>)
    requires i < |chunks| && Increasing(rest, |chunks|) && forall a :: 0 <= a < |rest| ==> i < rest[a]
    ensures Increasing([i] + rest, |chunks|)
    ensures Pick(chunks, [i] + rest) == [chunks[i]] + Pick(chunks, rest)
  {
  }

  /** Gathering picks the chunks of increasing indices, and as many as asked for if there are that many. */
  lemma {:induction false} GatherPicks(slots: map<nat, Bytes>, chunks: seq<Bytes>, i: nat, k: nat)
      returns (idx: seq<nat>)
    requires Matches(slots, chunks) && slots.Keys <= Nodes(|chunks|) && |From(slots, i)| >= k && i <= |chunks|
    ensures Increasing(idx, |chunks|) && |idx| == k && (forall a :: 0 <= a < k ==> i <= idx[a])
    ensures Gather(slots, i, |chunks|, k) == Pick(chunks, idx)
    decreases |chunks| - i
  {
    hide From;
    idx := [];
    FromEnd(slots, |chunks|);
    if i < |chunks| && k > 0 {
      FromStep(slots, i);
      if i in slots {
        var rest := GatherPicks(slots, chunks, i + 1, k - 1);
        idx := [i] + rest;
        PickCons(chunks, i, rest);
      } else {
        idx := GatherPicks(slots, chunks, i + 1, k);
      }
    }
  }

  /** There are never too few shards: N-2F filled slots yield N-2F chunks. */
  lemma {:induction false} GatherSuffices(slots: map<nat, Bytes>, i: nat, n: nat, k: nat)
    requires slots.Keys <= Nodes(n) && |From(slots, i)| >= k && i <= n
    ensures |Gather(slots, i, n, k)| == k
    decreases n - i
  {
    hide From;
    FromEnd(slots, n);
    if i < n && k > 0 {
      FromStep(slots, i);
      GatherSuffices(slots, i + 1, n, if i in slots then k - 1 else k);
    }
  }

  /** Any N-2F matching chunks decode to the object. */
  lemma DecodesTo(c: Ctx, slots: map<nat, Bytes>, x: Payload)
    requires c.p.Resilient() && Restores(c.p, c.codec) && slots.Keys <= Nodes(c.p.n)
    requires Matches(slots, c.codec.encode(x)) && |slots| >= Enough(c.p)
    ensures c.codec.decode(Gather(slots, 0, c.p.n, Enough(c.p))) == x
  {
    assert From(slots, 0) == slots.Keys;
    var idx := GatherPicks(slots, c.codec.encode(x), 0, Enough(c.p));
  }

  /** The chunks a message carries are the ones encoded for its sender, or for its receiver when it disperses. */
  ghost predicate Authentic(s: System, x: Payload, y: Payload, e: Env)
    requires Restores(s.cfg.params, s.codec)
  {
    e.from < s.cfg.params.n && e.dest < s.cfg.params.n ==>
      && (e.msg.echo ==> e.msg.assoc == Some(s.codec.encode(y)[e.from]))
      && (e.msg.respond ==> e.msg.payload == Some(s.codec.encode(x)[e.from]))
      && (e.msg.disperse && e.from == s.initID ==>
            e.msg.payload == Some(s.codec.encode(x)[e.dest]) && e.msg.assoc == Some(s.codec.encode(y)[e.dest]))
  }

  /** What server q holds and has decoded is x for the payload and y for the associated object. */
  ghost predicate True(c: Ctx, x: Payload, y: Payload, v: VID)
    requires Restores(c.p, c.codec)
  {
    c.id < c.p.n ==>
      && (v.ourChunk.Some? ==> v.ourChunk.value == c.codec.encode(x)[c.id])
      && (v.ourEcho.Some? ==> v.ourEcho.value == c.codec.encode(y)[c.id])
      && (v.retrieval.Some? ==> Matches(v.retrieval.value.chunks, c.codec.encode(x)))
      && (v.core.Some? ==> Matches(v.core.value.echos, c.codec.encode(y)))
      && (v.payload.Some? ==> Held(c, v.payload.value, x))
      && (v.assoc.Some? ==> Held(c, v.assoc.value, y))
  }

  /** The object is x, or still the placeholder of the initiator. */
  predicate Held(c: Ctx, found: Payload, x: Payload) {
    found == x || (c.id == c.initID && found == EmptyPayload)
  }

  lemma DisperseTrue(c: Ctx, x: Payload, y: Payload, v: VID, from: nat, chunk: Bytes, ad: Bytes)
    requires Restores(c.p, c.codec) && True(c, x, y, v) && c.id < c.p.n
    requires from == c.initID ==> chunk == c.codec.encode(x)[c.id] && ad == c.codec.encode(y)[c.id]
    ensures True(c, x, y, OnDisperse(c, v, from, chunk, ad))
  {
    assert |c.codec.encode(x)| == c.p.n && |c.codec.encode(y)| == c.p.n;
  }

  lemma EchoTrue(c: Ctx, x: Payload, y: Payload, v: VID, from: nat, ad: Bytes)
    requires Restores(c.p, c.codec) && True(c, x, y, v) && from < c.p.n && ad == c.codec.encode(y)[from]
    ensures True(c, x, y, OnEcho(v, from, ad))
  {
    assert |c.codec.encode(y)| == c.p.n;
  }

  lemma RespondTrue(c: Ctx, x: Payload, y: Payload, v: VID, from: nat, chunk: Bytes)
    requires Restores(c.p, c.codec) && True(c, x, y, v) && from < c.p.n && chunk == c.codec.encode(x)[from]
    ensures True(c, x, y, OnRespond(v, from, chunk))
  {
    assert |c.codec.encode(x)| == c.p.n;
  }

  /** Only these fields matter. */
  lemma SameTrue(c: Ctx, x: Payload, y: Payload, v: VID, w: VID)
    requires Restores(c.p, c.codec) && True(c, x, y, v)
    requires w.ourChunk == v.ourChunk && w.ourEcho == v.ourEcho && w.payload == v.payload && w.assoc == v.assoc
    requires w.retrieval == v.retrieval
    requires w.core.Some? ==> v.core.Some? && w.core.value.echos == v.core.value.echos
    ensures True(c, x, y, w)
  {
  }

  lemma ReadyTrue(c: Ctx, x: Payload, y: Payload, v: VID, from: nat)
    requires Restores(c.p, c.codec) && True(c, x, y, v)
    ensures True(c, x, y, OnReady(v, from))
  {
    hide Restores, True;
    SameTrue(c, x, y, v, OnReady(v, from));
  }

  lemma RequestTrue(c: Ctx, x: Payload, y: Payload, v: VID, from: nat)
    requires Restores(c.p, c.codec) && True(c, x, y, v)
    ensures True(c, x, y, OnRequest(c, v, from).0)
  {
    hide Restores, True;
    SameTrue(c, x, y, v, OnRequest(c, v, from).0);
  }

  lemma IntakeTrue(s: System, x: Payload, y: Payload, v: VID, q: nat, from: nat, m: Msg)
    requires Restores(s.cfg.params, s.codec) && True(s.At(q), x, y, v) && m.Complete()
    requires q < s.cfg.params.n && from < s.cfg.params.n && Authentic(s, x, y, Envelope(m, from, q))
    ensures True(s.At(q), x, y, Intake(s.At(q), v, from, m).0)
  {
    hide Restores, True, OnEcho, OnReady, OnDisperse, OnRespond, OnRequest, Prompted;
    var c := s.At(q);
    var v1 := if m.echo then OnEcho(v, from, m.assoc.value) else v;
    if m.echo {
      EchoTrue(c, x, y, v, from, m.assoc.value);
    }
    var v2 := if m.ready then OnReady(v1, from) else v1;
    ReadyTrue(c, x, y, v1, from);
    var v3 := if m.disperse then OnDisperse(c, v2, from, m.payload.value, m.assoc.value) else v2;
    if m.disperse {
      DisperseTrue(c, x, y, v2, from, m.payload.value, m.assoc.value);
    }
    var v4 := if m.respond then OnRespond(v3, from, m.payload.value) else v3;
    if m.respond {
      RespondTrue(c, x, y, v3, from, m.payload.value);
    }
    RequestTrue(c, x, y, v4, from);
  }

  lemma DecodeTrue(c: Ctx, x: Payload, y: Payload, v: VID)
    requires c.p.Resilient() && Restores(c.p, c.codec) && True(c, x, y, v) && c.id < c.p.n
    requires v.core.Some? ==> v.core.value.echos.Keys <= Nodes(c.p.n)
    requires v.retrieval.Some? ==> v.retrieval.value.chunks.Keys <= Nodes(c.p.n)
    ensures True(c, x, y, DecodePayload(c, DecodeAssoc(c, v)))
  {
    hide Restores, Matches, Gather;
    if v.core.Some? && v.assoc.None? && |v.core.value.echos| >= Enough(c.p) {
      DecodesTo(c, v.core.value.echos, y);
    }
    if v.retrieval.Some? && v.payload.None? && |v.retrieval.value.chunks| >= Enough(c.p) {
      DecodesTo(c, v.retrieval.value.chunks, x);
    }
  }

  lemma SpokenTrue(c: Ctx, x: Payload, y: Payload, v: VID)
    requires Restores(c.p, c.codec) && True(c, x, y, v)
    ensures True(c, x, y, Spoken(c, v))
  {
    hide Restores, True, Answers;
    SameTrue(c, x, y, v, SendEcho(c, SendReady(c, v).0).0);
    SameTrue(c, x, y, SendEcho(c, SendReady(c, v).0).0, Spoken(c, v));
  }

  lemma DropTrue(c: Ctx, x: Payload, y: Payload, v: VID)
    requires Restores(c.p, c.codec) && True(c, x, y, v)
    ensures True(c, x, y, DropCore(c, DropRetrieval(c, v).0))
  {
    hide Restores, Matches;
  }

  lemma ReactTrue(c: Ctx, x: Payload, y: Payload, v: VID)
    requires c.p.Resilient() && Restores(c.p, c.codec) && True(c, x, y, v) && c.id < c.p.n && Shape(c, v)
    ensures True(c, x, y, React(c, v).0)
  {
    hide Restores, True, Shape, SendReady, SendEcho, Flush, DecodeAssoc, DecodePayload, DropRetrieval, DropCore;
    SpokenTrue(c, x, y, v);
    SpokenInRange(c, v);
    DecodeTrue(c, x, y, Spoken(c, v));
    DropTrue(c, x, y, DecodePayload(c, DecodeAssoc(c, Spoken(c, v))));
  }

  lemma SpokenInRange(c: Ctx, v: VID)
    requires Shape(c, v)
    ensures var u := Spoken(c, v);
            && (u.core.Some? ==> u.core.value.echos.Keys <= Nodes(c.p.n))
            && (u.retrieval.Some? ==> u.retrieval.value.chunks.Keys <= Nodes(c.p.n))
  {
    hide Answers;
  }

  /** What the environment grants: faulty servers, and whoever disperses, send the chunks of x and y. */
  ghost predicate Given(s: System, x: Payload, y: Payload, net: Net)
    requires Restores(s.cfg.params, s.codec)
  {
    forall e :: e in net.sent && (e.from in s.cfg.faulty || e.msg.disperse) ==> Authentic(s, x, y, e)
  }

  ghost predicate AllTrue(s: System, x: Payload, y: Payload, net: Net)
    requires Restores(s.cfg.params, s.codec) && |net.nodes| == s.cfg.params.n
  {
    forall q: nat :: s.Correct(q) ==> True(s.At(q), x, y, net.nodes[q])
  }

  /** Correct servers send authentic chunks. */
  lemma SentIsAuthentic(s: System, x: Payload, y: Payload, net: Net, e: Env)
    requires Restores(s.cfg.params, s.codec) && Invariant(s, net) && AllTrue(s, x, y, net) && Given(s, x, y, net)
    requires e in net.sent
    ensures Authentic(s, x, y, e)
  {
    hide Restores, NodeOk, HandledOk;
    assert MessageOk(s, net, e);
    if s.Correct(e.from) && !e.msg.disperse {
      assert True(s.At(e.from), x, y, net.nodes[e.from]);
    }
  }

  function Firsts(k: nat): (idx: seq<nat>)
    ensures |idx| == k && forall a :: 0 <= a < k ==> idx[a] == a
  {
    seq(k, i requires 0 <= i < k => i)
  }

  /** Distinct objects have distinct encodings. */
  lemma EncodingsDiffer(p: Params, codec: Codec, x: Payload, z: Payload)
    requires p.Resilient() && Restores(p, codec) && codec.encode(x) == codec.encode(z)
    ensures x == z
  {
    var idx := Firsts(Enough(p));
    assert Increasing(idx, p.n);
    assert codec.decode(Pick(codec.encode(x), idx)) == x;
    assert codec.decode(Pick(codec.encode(z), idx)) == z;
  }

  lemma BeginTrue(s: System, x: Payload, y: Payload, net: Net, next: Net, q: nat, act: Act)
    requires Restores(s.cfg.params, s.codec) && Invariant(s, net) && Acts(s, net, next, q, act) && act.Begin?
    requires Given(s, x, y, next)
    ensures act.x == x && act.y == y
  {
    hide Invariant;
    var out := Disperse(s.At(q), net.nodes[q], act.x, act.y).1;
    var n := s.cfg.params.n;
    assert |s.codec.encode(x)| == n && |s.codec.encode(y)| == n;
    forall d: nat | d < n
      ensures s.codec.encode(act.x)[d] == s.codec.encode(x)[d] && s.codec.encode(act.y)[d] == s.codec.encode(y)[d]
    {
      assert out[d] in out;
      assert Authentic(s, x, y, out[d]);
    }
    EncodingsDiffer(s.cfg.params, s.codec, act.x, x);
    EncodingsDiffer(s.cfg.params, s.codec, act.y, y);
  }

  lemma ActTrue(s: System, x: Payload, y: Payload, net: Net, next: Net, q: nat, act: Act)
    requires Restores(s.cfg.params, s.codec) && Invariant(s, net) && Acts(s, net, next, q, act)
    requires AllTrue(s, x, y, net) && Given(s, x, y, net) && Given(s, x, y, next)
    ensures True(s.At(q), x, y, next.nodes[q])
  {
    hide Restores, Intake, React, Flush, Authentic, Invariant, Shape, Given;
    var c, v := s.At(q), net.nodes[q];
    assert True(c, x, y, v);
    match act
    case Hear(from, m) =>
      var e := Envelope(m, from, q);
      assert e in Heard(q, act);
      SentIsAuthentic(s, x, y, net, e);
      IntakeTrue(s, x, y, v, q, from, m);
      MidInRange(s, net, next, q, act);
      ReactTrue(c, x, y, Intake(c, v, from, m).0);
    case Release =>
      FlushLeaves(c, v.(canRelease := true));
      SameTrue(c, x, y, v, next.nodes[q]);
    case Request =>
    case Begin(_, _) =>
      BeginTrue(s, x, y, net, next, q, act);
  }

  lemma StepTrue(s: System, x: Payload, y: Payload, net: Net, next: Net)
    requires Restores(s.cfg.params, s.codec) && Invariant(s, net)
    requires AllTrue(s, x, y, net) && Given(s, x, y, net) && Given(s, x, y, next)
    ensures Step(s, net, next) ==> |next.nodes| == s.cfg.params.n && AllTrue(s, x, y, next)
  {
    hide Restores, True, Do, Given, NodeOk, MessageOk, HandledOk;
    if q, act :| Acts(s, net, next, q, act) {
      ActTrue(s, x, y, net, next, q, act);
    }
  }

  lemma GivenBefore(s: System, x: Payload, y: Payload, net: Net, next: Net)
    requires Restores(s.cfg.params, s.codec) && Step(s, net, next) && Given(s, x, y, next)
    ensures Given(s, x, y, net)
  {
    hide Restores, Do, Authentic;
    assert net.sent <= next.sent;
  }

  lemma {:induction false} RunIsTrue(s: System, run: seq<Net>, i: nat, x: Payload, y: Payload)
    requires Run(s, run) && i < |run| && Restores(s.cfg.params, s.codec) && Given(s, x, y, run[i])
    ensures Invariant(s, run[i]) && AllTrue(s, x, y, run[i])
  {
    hide Restores, Step, Invariant, Given;
    RunKeepsInvariant(s, run, i);
    if i == 0 {
      StartTrue(s, x, y);
    } else {
      assert Step(s, run[i - 1], run[i]);
      GivenBefore(s, x, y, run[i - 1], run[i]);
      RunIsTrue(s, run, i - 1, x, y);
      StepTrue(s, x, y, run[i - 1], run[i]);
    }
  }

  lemma StartTrue(s: System, x: Payload, y: Payload)
    requires s.Valid() && Restores(s.cfg.params, s.codec)
    ensures |Start(s).nodes| == s.cfg.params.n && AllTrue(s, x, y, Start(s))
  {
    hide Restores;
  }

  /**
   Retrieval: whatever payload or associated object a server other than the initiator has decoded, at any point of
   any run, is the one that was dispersed. The initiator holds it too, or still its placeholder.
   */
  lemma RetrievedIsDispersed(s: System, run: seq<Net>, i: nat, q: nat, x: Payload, y: Payload)
    requires Run(s, run) && i < |run| && Restores(s.cfg.params, s.codec) && Given(s, x, y, run[i])
    requires s.Correct(q)
    ensures |run[i].nodes| == s.cfg.params.n
    ensures var v := run[i].nodes[q];
            && (v.payload.Some? ==> v.payload.value == x || (q == s.initID && v.payload.value == EmptyPayload))
            && (v.assoc.Some? ==> v.assoc.value == y || (q == s.initID && v.assoc.value == EmptyPayload))
  {
    hide Restores, NodeOk, MessageOk, HandledOk, Given;
    RunIsTrue(s, run, i, x, y);
    assert True(s.At(q), x, y, run[i].nodes[q]);
  }

  /** The object as a chunk. */
  function Whole(x: Payload): Bytes {
    match x
    case EmptyPayload => []
    case Block(refs, body) => [|refs|] + refs + body
  }

  function Unwhole(b: Bytes): Payload {
    if b == [] then EmptyPayload
    else if b[0] < |b| then Block(b[1..b[0] + 1], b[b[0] + 1..])
    else EmptyPayload
  }

  /** The code of the emulator: every chunk is the whole object. */
  function Replication(p: Params): Codec {
    Codec(x => seq(p.n, i => Whole(x)), chunks => if chunks == [] then EmptyPayload else Unwhole(chunks[0]))
  }

  /** The assumption on the code can be met: replication restores every object from any N-2F chunks. */
  lemma ReplicationRestores(p: Params)
    requires p.Resilient()
    ensures Restores(p, Replication(p))
  {
    var codec := Replication(p);
    forall x, idx: seq<nat> | Increasing(idx, p.n) && |idx| + 2 * p.f == p.n
      ensures codec.decode(Pick(codec.encode(x), idx)) == x
    {
      assert Pick(codec.encode(x), idx)[0] == Whole(x);
      WholeRoundTrip(x);
    }
  }

  lemma WholeRoundTrip(x: Payload)
    ensures Unwhole(Whole(x)) == x
  {
    if x.Block? {
      var b := Whole(x);
      assert b[1..b[0] + 1] == x.references && b[b[0] + 1..] == x.body;
    }
  }
}
