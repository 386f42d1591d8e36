/**
 What every step of a VID keeps on its own server: how the sub-states and the output fit together, which makes
 every panic of the VID unreachable, and what has been sent by the time a sub-state is dropped.
 */
module DispersalInvariant {
  import opened Common
  import opened Dispersal

  /** How the parts of a VID fit together, even in the middle of a step. */
  ghost predicate Shape(c: Ctx, v: VID) {
    && (v.core.Some? ==> v.core.value.echos.Keys + v.core.value.readys <= Nodes(c.p.n))
    && (v.retrieval.Some? ==> v.retrieval.value.chunks.Keys <= Nodes(c.p.n))
    && (v.unanswered.Some? ==> v.unanswered.value <= Nodes(c.p.n))
    && (v.core.None? ==> v.retrieval.None? && v.assoc.Some?)
    && (v.retrieval.None? ==> v.payload.Some?)
    && (v.canceled <==> v.retrieval.None?)
    && (v.ourChunk.Some? <==> v.ourEcho.Some?)
    && (v.retrieval.Some? ==> (c.id in v.retrieval.value.chunks <==> v.ourChunk.Some?))
    && (v.core.Some? ==> (c.id in v.core.value.echos <==> v.ourEcho.Some?))
    && (c.id == c.initID ==> v.payload.Some? && v.assoc.Some?)
    && (v.unanswered.None? ==> v.canRelease && v.ourChunk.Some?)
    && (v.core.Some? ==> (v.core.value.sentReady ==> Ripe(c, v.core.value)) && (v.core.value.sentEcho ==> v.ourEcho.Some?))
  }

  /** There is reason to send Ready. */
  predicate Ripe(c: Ctx, core: CoreState) {
    |core.echos| + c.p.f >= c.p.n || |core.readys| >= c.p.f + 1
  }

  /** Nothing is left to be done on the state of the Echo and Ready exchange. */
  ghost predicate CoreSettled(c: Ctx, v: VID, core: CoreState)
    requires c.p.Resilient()
  {
    && (Ripe(c, core) ==> core.sentReady)
    && (v.ourEcho.Some? ==> core.sentEcho)
    && (v.assoc.None? ==> |core.echos| < Enough(c.p))
    && !(v.retrieval.None? && Terminated(c, v))
  }

  /** Between steps: whatever can be sent, answered, decoded or dropped has been. */
  ghost predicate Settled(c: Ctx, v: VID)
    requires c.p.Resilient()
  {
    && (v.core.Some? ==> CoreSettled(c, v, v.core.value))
    && (v.unanswered.None? <==> v.canRelease && v.ourChunk.Some?)
    && (v.retrieval.Some? && v.payload.None? ==> |v.retrieval.value.chunks| < Enough(c.p))
    && (v.retrieval.Some? && v.payload.Some? ==> c.id == c.initID)
  }

  /** The invariant of a VID between steps. */
  ghost predicate Ok(c: Ctx, v: VID) {
    c.p.Resilient() && c.id < c.p.n && c.initID < c.p.n && Shape(c, v) && Settled(c, v)
  }

  /** A server hears from itself only what it has sent. */
  predicate Genuine(c: Ctx, v: VID, from: nat, m: Msg) {
    && m.Complete() && from < c.p.n
    && (from == c.id && m.echo ==> v.ourEcho.Some?)
    && (from == c.id && m.respond ==> v.ourChunk.Some?)
  }

  lemma InitialOk(c: Ctx)
    requires c.p.Resilient() && c.id < c.p.n && c.initID < c.p.n
    ensures Ok(c, Initial(c))
  {
  }

  lemma EchoKeeps(c: Ctx, v: VID, from: nat, ad: Bytes)
    requires Shape(c, v) && from < c.p.n && (from == c.id ==> v.ourEcho.Some?)
    ensures Shape(c, OnEcho(v, from, ad))
  {
  }

  lemma ReadyKeeps(c: Ctx, v: VID, from: nat)
    requires Shape(c, v) && from < c.p.n
    ensures Shape(c, OnReady(v, from))
  {
    if v.core.Some? {
      SubsetCount(v.core.value.readys, v.core.value.readys + {from});
    }
  }

  lemma DisperseKeeps(c: Ctx, v: VID, from: nat, chunk: Bytes, ad: Bytes)
    requires Shape(c, v) && c.id < c.p.n
    ensures Shape(c, OnDisperse(c, v, from, chunk, ad))
    ensures v.ourChunk.Some? ==> OnDisperse(c, v, from, chunk, ad) == v
  {
  }

  lemma RespondKeeps(c: Ctx, v: VID, from: nat, chunk: Bytes)
    requires Shape(c, v) && from < c.p.n && (from == c.id ==> v.ourChunk.Some?)
    ensures Shape(c, OnRespond(v, from, chunk))
  {
  }

  lemma RequestKeeps(c: Ctx, v: VID, from: nat)
    requires Shape(c, v) && from < c.p.n
    ensures Shape(c, OnRequest(c, v, from).0)
  {
  }

  lemma IntakeKeeps(c: Ctx, v: VID, from: nat, m: Msg)
    requires Shape(c, v) && c.id < c.p.n && Genuine(c, v, from, m)
    ensures Shape(c, Intake(c, v, from, m).0)
  {
    hide Shape, OnReady;
    var v1 := if m.echo then OnEcho(v, from, m.assoc.value) else v;
    if m.echo {
      EchoKeeps(c, v, from, m.assoc.value);
    }
    var v2 := if m.ready then OnReady(v1, from) else v1;
    ReadyKeeps(c, v1, from);
    var v3 := if m.disperse then OnDisperse(c, v2, from, m.payload.value, m.assoc.value) else v2;
    if m.disperse {
      DisperseKeeps(c, v2, from, m.payload.value, m.assoc.value);
    }
    var v4 := if m.respond then OnRespond(v3, from, m.payload.value) else v3;
    if m.respond {
      if from == c.id {
        OwnChunkStays(c, v, from, m);
      }
      RespondKeeps(c, v3, from, m.payload.value);
    }
    RequestKeeps(c, v4, from);
  }

  /** The handlers before the response keep the own chunk. */
  lemma OwnChunkStays(c: Ctx, v: VID, from: nat, m: Msg)
    requires m.Complete() && v.ourChunk.Some?
    ensures var v1 := if m.echo then OnEcho(v, from, m.assoc.value) else v;
            var v2 := if m.ready then OnReady(v1, from) else v1;
            (if m.disperse then OnDisperse(c, v2, from, m.payload.value, m.assoc.value) else v2).ourChunk == v.ourChunk
  {
  }

  /** The state after the first half of React: all that can be sent has been sent. */
  function Spoken(c: Ctx, v: VID): VID {
    Flush(c, SendEcho(c, SendReady(c, v).0).0).0
  }

  /** Ready and Echo have been sent if they should be. */
  ghost predicate AllSent(c: Ctx, s: VID) {
    s.core.Some? ==> (Ripe(c, s.core.value) ==> s.core.value.sentReady) && (s.ourEcho.Some? ==> s.core.value.sentEcho)
  }

  lemma SendingSettles(c: Ctx, v: VID)
    requires Shape(c, v)
    ensures Shape(c, SendEcho(c, SendReady(c, v).0).0) && AllSent(c, SendEcho(c, SendReady(c, v).0).0)
  {
    hide Shape, SendReady, SendEcho;
    ReadySettles(c, v);
    EchoSettles(c, SendReady(c, v).0);
  }

  lemma ReadySettles(c: Ctx, v: VID)
    requires Shape(c, v)
    ensures var s := SendReady(c, v).0;
            Shape(c, s) && (s.core.Some? && Ripe(c, s.core.value) ==> s.core.value.sentReady)
  {
    hide Copies;
  }

  lemma EchoSettles(c: Ctx, v: VID)
    requires Shape(c, v) && (v.core.Some? && Ripe(c, v.core.value) ==> v.core.value.sentReady)
    ensures Shape(c, SendEcho(c, v).0) && AllSent(c, SendEcho(c, v).0)
  {
    hide Copies;
  }

  lemma FlushSettles(c: Ctx, v: VID)
    requires Shape(c, v) && AllSent(c, v)
    ensures var s := Flush(c, v).0;
            Shape(c, s) && AllSent(c, s) && (s.unanswered.None? <==> s.canRelease && s.ourChunk.Some?)
  {
    hide Ripe;
  }

  /** The second half of React: decode, then drop what is no longer needed. */
  lemma DecodingSettles(c: Ctx, s: VID)
    requires c.p.Resilient() && c.id < c.p.n && c.initID < c.p.n && Shape(c, s)
    requires AllSent(c, s)
    requires s.unanswered.None? <==> s.canRelease && s.ourChunk.Some?
    ensures Ok(c, DropCore(c, DropRetrieval(c, DecodePayload(c, DecodeAssoc(c, s))).0))
  {
    hide Gather, Ripe;
  }

  /** React brings a VID in shape to rest. */
  lemma ReactSettles(c: Ctx, v: VID)
    requires c.p.Resilient() && c.id < c.p.n && c.initID < c.p.n && Shape(c, v)
    ensures Ok(c, React(c, v).0)
  {
    hide Gather, Shape, Settled, AllSent, SendReady, SendEcho, Flush, DecodePayload, DecodeAssoc, DropRetrieval, DropCore;
    SendingSettles(c, v);
    FlushSettles(c, SendEcho(c, SendReady(c, v).0).0);
    DecodingSettles(c, Spoken(c, v));
  }

  lemma RecvKeepsOk(c: Ctx, v: VID, from: nat, m: Msg)
    requires c.p.Resilient() && c.id < c.p.n && c.initID < c.p.n && Shape(c, v) && m.Complete()
    ensures Genuine(c, v, from, m) ==> Ok(c, Recv(c, v, from, m).0)
  {
    hide Shape, Settled, Intake, React;
    if Genuine(c, v, from, m) {
      IntakeKeeps(c, v, from, m);
      ReactSettles(c, Intake(c, v, from, m).0);
    }
  }

  lemma ReleaseKeepsOk(c: Ctx, v: VID)
    requires Ok(c, v)
    ensures Ok(c, ReleaseChunk(c, v).0)
  {
  }

  lemma RequestKeepsOk(c: Ctx, v: VID)
    requires Ok(c, v)
    ensures Ok(c, RequestPayload(c, v).0)
  {
  }

  lemma DisperseKeepsOk(c: Ctx, v: VID, x: Payload, y: Payload)
    requires Ok(c, v) && c.id == c.initID && |c.codec.encode(x)| == c.p.n && |c.codec.encode(y)| == c.p.n
    ensures Ok(c, Disperse(c, v, x, y).0)
  {
  }
}
