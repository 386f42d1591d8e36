/**
 Verifiable Information Dispersal on one server (VID in pika/avid.go). A VID disperses a payload in chunks, of
 which any N-2F restore it, and broadcasts an associated object in the same way. Its sub-states are dropped in
 stages: the chunks once the payload is known, the core once the VID has terminated.
 */
module Dispersal {
  import opened Common

  /** The object that is dispersed or broadcast; EmptyPayload is the placeholder of the initiator. */
  datatype Payload = EmptyPayload | Block(references: seq<nat>, body: Bytes)

  /** The erasure code. */
  datatype Codec = Codec(encode: Payload -> seq<Bytes>, decode: seq<Bytes> -> Payload)

  predicate Increasing(idx: seq<nat>, n: nat) {
    && (forall k :: 0 <= k < |idx| ==> idx[k] < n)
    && forall j, k :: 0 <= j < k < |idx| ==> idx[j] < idx[k]
  }

  function Pick(chunks: seq<Bytes>, idx: seq<nat>): seq<Bytes>
    requires forall k :: 0 <= k < |idx| ==> idx[k] < |chunks|
  {
    seq(|idx|, k requires 0 <= k < |idx| => chunks[idx[k]])
  }

  /** Every object has N chunks, and any N-2F of them restore it. */
  ghost predicate Restores(p: Params, codec: Codec) {
    && (forall x :: |codec.encode(x)| == p.n)
    && forall x, idx: seq<nat> :: Increasing(idx, p.n) && |idx| + 2 * p.f == p.n ==> codec.decode(Pick(codec.encode(x), idx)) == x
  }

  /** One VIDMessage; several flags may be set at once. */
  datatype Msg = Msg(echo: bool, ready: bool, disperse: bool, request: bool, respond: bool, cancel: bool,
                     payload: Option<Bytes>, assoc: Option<Bytes>)
  {
    /** The chunks that the flags announce are there; one field does not serve two kinds of chunk. */
    predicate Complete() {
      && !(disperse && (echo || respond))
      && (echo ==> assoc.Some?)
      && (disperse ==> payload.Some? && assoc.Some?)
      && (respond ==> payload.Some?)
    }
  }

  const NO_FLAGS := Msg(false, false, false, false, false, false, None, None)
  const READY := NO_FLAGS.(ready := true)
  const REQUEST := NO_FLAGS.(request := true)
  const CANCEL := NO_FLAGS.(cancel := true)

  function EchoMsg(ad: Bytes): Msg {
    NO_FLAGS.(echo := true, assoc := Some(ad))
  }

  function RespondMsg(chunk: Bytes): Msg {
    NO_FLAGS.(respond := true, payload := Some(chunk))
  }

  /** Disperse and Ready travel in one message. */
  function DisperseMsg(chunk: Bytes, ad: Bytes): Msg {
    NO_FLAGS.(disperse := true, ready := true, payload := Some(chunk), assoc := Some(ad))
  }

  type Env = Envelope<Msg>

  /** What does not change: the cluster, this server, the server that disperses, and the code. */
  datatype Ctx = Ctx(p: Params, id: nat, initID: nat, codec: Codec)

  /** VIDPayloadState: the chunks received so far. */
  datatype Retrieval = Retrieval(chunks: map<nat, Bytes>, scheduled: bool)

  /** VIDCoreState: the state of the Echo and Ready exchange. */
  datatype CoreState = CoreState(echos: map<nat, Bytes>, readys: set<nat>, sentEcho: bool, sentReady: bool)

  datatype VID = VID(retrieval: Option<Retrieval>, core: Option<CoreState>,
                     payload: Option<Payload>, assoc: Option<Payload>,
                     ourChunk: Option<Bytes>, ourEcho: Option<Bytes>,
                     unanswered: Option<set<nat>>, canRelease: bool, canceled: bool)

  function Initial(c: Ctx): VID {
    var known := if c.id == c.initID then Some(EmptyPayload) else None;
    VID(Some(Retrieval(map[], false)), Some(CoreState(map[], {}, false, false)), known, known,
        None, None, Some({}), false, false)
  }

  predicate PayloadDispersed(c: Ctx, v: VID) {
    v.core.None? || |v.core.value.readys| >= 2 * c.p.f + 1
  }

  predicate Terminated(c: Ctx, v: VID) {
    PayloadDispersed(c, v) && v.assoc.Some?
  }

  function OnEcho(v: VID, from: nat, ad: Bytes): VID {
    if v.core.None? || from in v.core.value.echos then v
    else v.(core := Some(v.core.value.(echos := v.core.value.echos[from := ad])))
  }

  /** An Echo prompts a chunk request when the payload is wanted and not yet known. */
  function Prompted(c: Ctx, v: VID, from: nat): seq<Env> {
    if v.payload.None? && v.retrieval.Some? && v.retrieval.value.scheduled then [Envelope(REQUEST, c.id, from)] else []
  }

  function OnReady(v: VID, from: nat): VID {
    if v.core.None? then v
    else v.(core := Some(v.core.value.(readys := v.core.value.readys + {from})))
  }

  /** Only the first Disperse of the initiator counts. */
  function OnDisperse(c: Ctx, v: VID, from: nat, chunk: Bytes, ad: Bytes): VID {
    if v.core.None? || from != c.initID then v
    else
      var v1 :=
        if v.ourChunk.Some? then v
        else v.(ourChunk := Some(chunk),
                retrieval := if v.retrieval.None? then None
                             else Some(v.retrieval.value.(chunks := v.retrieval.value.chunks[c.id := chunk])));
      if v1.ourEcho.Some? then v1
      else v1.(ourEcho := Some(ad), core := Some(v1.core.value.(echos := v1.core.value.echos[c.id := ad])))
  }

  function OnRespond(v: VID, from: nat, chunk: Bytes): VID {
    if v.retrieval.None? || from in v.retrieval.value.chunks then v
    else v.(retrieval := Some(v.retrieval.value.(chunks := v.retrieval.value.chunks[from := chunk])))
  }

  /** A chunk request is answered at once if possible, and recorded otherwise. */
  function OnRequest(c: Ctx, v: VID, from: nat): (VID, seq<Env>) {
    if v.canRelease && v.ourChunk.Some? then (v, [Envelope(RespondMsg(v.ourChunk.value), c.id, from)])
    else if v.unanswered.None? then (v, [])
    else (v.(unanswered := Some(v.unanswered.value + {from})), [])
  }

  /** The handlers of the flags, in the order of VID.Recv. */
  function Intake(c: Ctx, v: VID, from: nat, m: Msg): (VID, seq<Env>)
    requires m.Complete()
  {
    var v1 := if m.echo then OnEcho(v, from, m.assoc.value) else v;
    var out1 := if m.echo then Prompted(c, v1, from) else [];
    var v2 := if m.ready then OnReady(v1, from) else v1;
    var v3 := if m.disperse then OnDisperse(c, v2, from, m.payload.value, m.assoc.value) else v2;
    var v4 := if m.respond then OnRespond(v3, from, m.payload.value) else v3;
    var (v5, out2) := if m.request then OnRequest(c, v4, from) else (v4, []);
    (v5, out1 + out2)
  }

  /** Sends Ready on N-F Echos or F+1 Readys. */
  function SendReady(c: Ctx, v: VID): (VID, seq<Env>) {
    if v.core.None? || v.core.value.sentReady then (v, [])
    else if |v.core.value.echos| + c.p.f >= c.p.n || |v.core.value.readys| >= c.p.f + 1 then
      (v.(core := Some(v.core.value.(sentReady := true))), Copies(c.p.n, c.id, READY))
    else (v, [])
  }

  /** Sends Echo once both own chunks are there. */
  function SendEcho(c: Ctx, v: VID): (VID, seq<Env>) {
    if v.core.None? || v.core.value.sentEcho || v.ourChunk.None? || v.ourEcho.None? then (v, [])
    else (v.(core := Some(v.core.value.(sentEcho := true))), Copies(c.p.n, c.id, EchoMsg(v.ourEcho.value)))
  }

  /** One answer for each recorded request, by server number, from server j on. */
  function Answers(c: Ctx, waiting: set<nat>, chunk: Bytes, j: nat): seq<Env>
    decreases c.p.n - j
  {
    if j >= c.p.n then []
    else (if j in waiting then [Envelope(RespondMsg(chunk), c.id, j)] else []) + Answers(c, waiting, chunk, j + 1)
  }

  /** Answers the recorded requests as soon as that is possible, and forgets them. */
  function Flush(c: Ctx, v: VID): (VID, seq<Env>) {
    if v.unanswered.Some? && v.canRelease && v.ourChunk.Some? then
      (v.(unanswered := None), Answers(c, v.unanswered.value, v.ourChunk.value, 0))
    else (v, [])
  }

  /** The first k chunks present, by index from i on. */
  function Gather(slots: map<nat, Bytes>, i: nat, n: nat, k: nat): seq<Bytes>
    decreases n - i
  {
    if i >= n || k == 0 then []
    else if i in slots then [slots[i]] + Gather(slots, i + 1, n, k - 1)
    else Gather(slots, i + 1, n, k)
  }

  /** N-2F, the number of chunks that restore an object. */
  function Enough(p: Params): nat
    requires p.Resilient()
  {
    p.n - 2 * p.f
  }

  function DecodeAssoc(c: Ctx, v: VID): VID
    requires c.p.Resilient()
  {
    if v.core.Some? && v.assoc.None? && |v.core.value.echos| >= Enough(c.p) then
      v.(assoc := Some(c.codec.decode(Gather(v.core.value.echos, 0, c.p.n, Enough(c.p)))))
    else v
  }

  function DecodePayload(c: Ctx, v: VID): VID
    requires c.p.Resilient()
  {
    if v.retrieval.Some? && v.payload.None? && |v.retrieval.value.chunks| >= Enough(c.p) then
      v.(payload := Some(c.codec.decode(Gather(v.retrieval.value.chunks, 0, c.p.n, Enough(c.p)))))
    else v
  }

  /** Drops the chunks once the payload is known, and tells the others. */
  function DropRetrieval(c: Ctx, v: VID): (VID, seq<Env>) {
    if v.retrieval.Some? && v.payload.Some? then
      (v.(retrieval := None, canceled := true), if v.canceled then [] else Copies(c.p.n, c.id, CANCEL))
    else (v, [])
  }

  function DropCore(c: Ctx, v: VID): VID {
    if v.retrieval.None? && Terminated(c, v) then v.(core := None) else v
  }

  /** What VID.Recv does after the message has been handled. */
  function React(c: Ctx, v: VID): (VID, seq<Env>)
    requires c.p.Resilient()
  {
    var (v1, out1) := SendReady(c, v);
    var (v2, out2) := SendEcho(c, v1);
    var (v3, out3) := Flush(c, v2);
    var v4 := DecodePayload(c, DecodeAssoc(c, v3));
    var (v5, out5) := DropRetrieval(c, v4);
    (DropCore(c, v5), out1 + out2 + out3 + out5)
  }

  function Recv(c: Ctx, v: VID, from: nat, m: Msg): (VID, seq<Env>)
    requires c.p.Resilient() && m.Complete()
  {
    var (v1, out1) := Intake(c, v, from, m);
    var (v2, out2) := React(c, v1);
    (v2, out1 + out2)
  }

  function ReleaseChunk(c: Ctx, v: VID): (VID, seq<Env>) {
    if v.canRelease then (v, []) else Flush(c, v.(canRelease := true))
  }

  /** Requests to every server from j on that sent us an Echo. */
  function Requests(c: Ctx, echos: map<nat, Bytes>, j: nat): seq<Env>
    decreases c.p.n - j
  {
    if j >= c.p.n then []
    else (if j in echos then [Envelope(REQUEST, c.id, j)] else []) + Requests(c, echos, j + 1)
  }

  function RequestPayload(c: Ctx, v: VID): (VID, seq<Env>) {
    if v.retrieval.None? || v.retrieval.value.scheduled then (v, [])
    else (v.(retrieval := Some(v.retrieval.value.(scheduled := true))),
          if v.payload.None? && v.core.Some? then Requests(c, v.core.value.echos, 0) else [])
  }

  /** SetPayload and SetAssociatedData followed by Init: the initiator sends each server its two chunks. */
  function Disperse(c: Ctx, v: VID, x: Payload, y: Payload): (VID, seq<Env>)
    requires |c.codec.encode(x)| == c.p.n && |c.codec.encode(y)| == c.p.n
  {
    var chunks, ads := c.codec.encode(x), c.codec.encode(y);
    (v.(payload := Some(x), assoc := Some(y)),
     seq(c.p.n, i requires 0 <= i < c.p.n => Envelope(DisperseMsg(chunks[i], ads[i]), c.id, i)))
  }
}
