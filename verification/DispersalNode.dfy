/**
 The objects of pika/avid.go that hold a VID on one server, refining the functions of `Dispersal`. Chunks live in the
 key-value store of the server; the objects and the messages on their way out hold only keys.
 */
module DispersalNode {
  import opened Common
  import opened Dispersal
  import opened DispersalInvariant
  import opened DispersalRetrieval
  import opened DispersalStep
  import opened StoreKeys

  /** The database of a server. */
  class KVStore {
    var data: map<Bytes, Bytes>

    constructor ()
      ensures data == map[]
    {
      data := map[];
    }

    method Put(key: Bytes, value: Bytes)
      modifies this
      ensures data == old(data)[key := value]
    {
      data := data[key := value];
    }

    method Get(key: Bytes) returns (value: Bytes)
      requires key in data
      ensures value == data[key]
    {
      value := data[key];
    }

    /** Stores the chunk of a message, following its key if it has come without the bytes. */
    method StorePointer(key: Bytes, c: Chunk)
      requires Fetchable(data, c)
      modifies this
      ensures data == old(data)[key := Fetch(old(data), c)]
    {
      match c
      case Data(bytes) => Put(key, bytes);
      case Pointer(k) =>
        var d := Get(k);
        Put(key, d);
    }
  }

  /** StoredErasureCodeChunk: where a chunk is kept in the store, and whether it is there. */
  datatype StoredChunk = StoredChunk(key: Bytes, stored: bool)

  /** A chunk in a message: the bytes, or the key at which the sender keeps them. */
  datatype Chunk = Data(bytes: Bytes) | Pointer(key: Bytes)

  predicate Fetchable(data: map<Bytes, Bytes>, c: Chunk) {
    c.Pointer? ==> c.key in data
  }

  function Fetch(data: map<Bytes, Bytes>, c: Chunk): Bytes
    requires Fetchable(data, c)
  {
    match c
    case Data(bytes) => bytes
    case Pointer(key) => data[key]
  }

  /** A VIDMessage as the objects make it. */
  datatype Wire = Wire(echo: bool, ready: bool, disperse: bool, request: bool, respond: bool, cancel: bool,
                       payload: Option<Chunk>, assoc: Option<Chunk>)

  predicate Loadable(data: map<Bytes, Bytes>, w: Wire) {
    && (w.payload.Some? ==> Fetchable(data, w.payload.value))
    && (w.assoc.Some? ==> Fetchable(data, w.assoc.value))
  }

  /** The message that reaches the network once the keys have been followed. */
  function Load(data: map<Bytes, Bytes>, w: Wire): Msg
    requires Loadable(data, w)
  {
    Msg(w.echo, w.ready, w.disperse, w.request, w.respond, w.cancel,
        if w.payload.Some? then Some(Fetch(data, w.payload.value)) else None,
        if w.assoc.Some? then Some(Fetch(data, w.assoc.value)) else None)
  }

  /** VIDPayloadState. */
  datatype ChunksView = ChunksView(chunks: seq<StoredChunk>, nChunks: nat, scheduled: bool)

  class VIDPayloadState {
    var chunks: seq<StoredChunk>
    var nChunks: nat
    var payloadScheduled: bool

    ghost function View(): ChunksView
      reads this
    {
      ChunksView(chunks, nChunks, payloadScheduled)
    }

    constructor (chunks: seq<StoredChunk>)
      ensures View() == ChunksView(chunks, 0, false)
    {
      this.chunks := chunks;
      nChunks, payloadScheduled := 0, false;
    }
  }

  /** VIDCoreState. */
  datatype CoreView = CoreView(echos: seq<StoredChunk>, nEchos: nat, readys: seq<bool>, nReadys: nat,
                               sentEcho: bool, sentReady: bool)

  class VIDCoreState {
    const initID: nat
    var echos: seq<StoredChunk>
    var readys: seq<bool>
    var nEchos: nat
    var nReadys: nat
    var sentEcho: bool
    var sentReady: bool

    ghost function View(): CoreView
      reads this
    {
      CoreView(echos, nEchos, readys, nReadys, sentEcho, sentReady)
    }

    constructor (initID: nat, echos: seq<StoredChunk>, readys: seq<bool>)
      ensures this.initID == initID && View() == CoreView(echos, 0, readys, 0, false, false)
    {
      this.initID, this.echos, this.readys := initID, echos, readys;
      nEchos, nReadys, sentEcho, sentReady := 0, 0, false, false;
    }
  }

  /** The slots kept are in the store, each under its key. */
  ghost predicate Keeps(data: map<Bytes, Bytes>, root: Bytes, kept: map<Slot, Bytes>) {
    forall s :: s in kept ==> Fits(s) && Key(root, s) in data && data[Key(root, s)] == kept[s]
  }

  lemma PutKeeps(data: map<Bytes, Bytes>, root: Bytes, kept: map<Slot, Bytes>, s: Slot, value: Bytes)
    requires Keeps(data, root, kept) && Fits(s)
    ensures Keeps(data[Key(root, s) := value], root, kept[s := value])
  {
    hide Key;
    forall t | t in kept[s := value]
      ensures Fits(t) && Key(root, t) in data[Key(root, s) := value] && data[Key(root, s) := value][Key(root, t)] == kept[s := value][t]
    {
      KeysDisjoint(root, s, t);
    }
  }

  /** A slot of the VID instance idx of an epoch. */
  predicate OfVID(s: Slot, epoch: nat, idx: nat) {
    !s.PagedVID? && s.epoch == epoch && s.idx == idx
  }

  /** Only slots of one VID instance have been written. */
  ghost predicate OnlyWrites(before: map<Bytes, Bytes>, after: map<Bytes, Bytes>, root: Bytes, epoch: nat, idx: nat) {
    forall s :: Fits(s) && !OfVID(s, epoch, idx) ==> SameAt(before, after, Key(root, s))
  }

  ghost predicate SameAt(before: map<Bytes, Bytes>, after: map<Bytes, Bytes>, key: Bytes) {
    (key in before <==> key in after) && (key in before ==> before[key] == after[key])
  }

  lemma PutOnlyWrites(data: map<Bytes, Bytes>, root: Bytes, s: Slot, value: Bytes)
    requires Fits(s) && !s.PagedVID?
    ensures OnlyWrites(data, data[Key(root, s) := value], root, s.epoch, s.idx)
  {
    hide Key;
    forall t | Fits(t) && !OfVID(t, s.epoch, s.idx)
      ensures SameAt(data, data[Key(root, s) := value], Key(root, t))
    {
      KeysDisjoint(root, s, t);
    }
  }

  lemma WritesTogether(a: map<Bytes, Bytes>, b: map<Bytes, Bytes>, c: map<Bytes, Bytes>, root: Bytes, epoch: nat, idx: nat)
    requires OnlyWrites(a, b, root, epoch, idx) && OnlyWrites(b, c, root, epoch, idx)
    ensures OnlyWrites(a, c, root, epoch, idx)
  {
    hide Key;
    forall t | Fits(t) && !OfVID(t, epoch, idx)
      ensures SameAt(a, c, Key(root, t))
    {
      assert SameAt(a, b, Key(root, t)) && SameAt(b, c, Key(root, t));
    }
  }

  lemma WritesNothing(a: map<Bytes, Bytes>, root: Bytes, epoch: nat, idx: nat)
    ensures OnlyWrites(a, a, root, epoch, idx)
  {
  }

  /** What a VID instance keeps in the store: the contents of those of its slots that have been written. */
  datatype Vault = Vault(n: nat, root: Bytes, epoch: nat, idx: nat, kept: map<Slot, Bytes>) {
    /** The slot for what server j sends. */
    ghost function Got(echo: bool, j: nat): Slot {
      if echo then GotEcho(epoch, idx, j) else GotChunk(epoch, idx, j)
    }

    ghost function With(s: Slot, value: Bytes): Vault {
      this.(kept := kept[s := value])
    }
  }

  /** a has one slot for each server and tells which of them are written; `held` are their contents. */
  ghost predicate Tracks(t: Vault, a: seq<StoredChunk>, echo: bool, held: map<nat, Bytes>) {
    && |a| == t.n
    && (forall i: nat :: i < t.n ==> a[i] == StoredChunk(Key(t.root, t.Got(echo, i)), t.Got(echo, i) in t.kept))
    && (forall i: nat :: i in held <==> i < t.n && t.Got(echo, i) in t.kept)
    && (forall i: nat :: i in held ==> held[i] == t.kept[t.Got(echo, i)])
  }

  /** a is the slot s, whose content is `held`. */
  ghost predicate TracksOne(t: Vault, a: StoredChunk, s: Slot, held: Option<Bytes>) {
    && a == StoredChunk(Key(t.root, s), s in t.kept)
    && held == if s in t.kept then Some(t.kept[s]) else None
  }

  lemma TrackPut(t: Vault, a: seq<StoredChunk>, echo: bool, held: map<nat, Bytes>, j: nat, value: Bytes)
    requires Tracks(t, a, echo, held) && j < t.n
    ensures |a| == t.n && a[j] == StoredChunk(Key(t.root, t.Got(echo, j)), j in held)
    ensures Tracks(t.With(t.Got(echo, j), value), a[j := a[j].(stored := true)], echo, held[j := value])
  {
    hide Key;
  }

  lemma TrackOther(t: Vault, a: seq<StoredChunk>, echo: bool, held: map<nat, Bytes>, s: Slot, value: Bytes)
    requires Tracks(t, a, echo, held) && forall j :: s != t.Got(echo, j)
    ensures Tracks(t.With(s, value), a, echo, held)
  {
    hide Key;
  }

  /** The fields of a VID and of its two sub-states, if they are there. */
  datatype Fields = Fields(chunks: Option<ChunksView>, core: Option<CoreView>,
                           payload: Option<Payload>, assoc: Option<Payload>, ourChunk: StoredChunk, ourEcho: StoredChunk,
                           unanswered: Option<seq<bool>>, canRelease: bool, canceled: bool)

  ghost predicate ChunksOk(t: Vault, k: ChunksView, r: Retrieval) {
    k.scheduled == r.scheduled && k.nChunks == |r.chunks| && Tracks(t, k.chunks, false, r.chunks)
  }

  ghost predicate CoreOk(t: Vault, k: CoreView, core: CoreState) {
    && k.sentEcho == core.sentEcho && k.sentReady == core.sentReady
    && k.nEchos == |core.echos| && Tracks(t, k.echos, true, core.echos)
    && |k.readys| == t.n && Marked(k.readys) == core.readys && k.nReadys == |core.readys|
  }

  ghost predicate OutputOk(t: Vault, k: Fields, v: VID) {
    && k.payload == v.payload && k.assoc == v.assoc && k.canRelease == v.canRelease && k.canceled == v.canceled
    && TracksOne(t, k.ourChunk, OwnChunk(t.epoch, t.idx), v.ourChunk)
    && TracksOne(t, k.ourEcho, OwnEcho(t.epoch, t.idx), v.ourEcho)
    && (k.unanswered.None? ==> v.unanswered.None?)
    && (k.unanswered.Some? ==> RecordStands(t.n, k.unanswered.value, v.unanswered))
  }

  /** The record of requests; one that is gone may have come back from the database as an empty slice. */
  ghost predicate RecordStands(n: nat, record: seq<bool>, unanswered: Option<set<nat>>) {
    if unanswered.Some? then |record| == n && Marked(record) == unanswered.value else record == []
  }

  /** The fields stand for the specification state v. */
  ghost predicate Represents(t: Vault, k: Fields, v: VID) {
    && (k.chunks.Some? <==> v.retrieval.Some?)
    && (k.chunks.Some? ==> ChunksOk(t, k.chunks.value, v.retrieval.value))
    && (k.core.Some? <==> v.core.Some?)
    && (k.core.Some? ==> CoreOk(t, k.core.value, v.core.value))
    && OutputOk(t, k, v)
  }

  /** The slots of a new VID for what it receives from the n servers. */
  function NewSlots(n: nat, root: Bytes, epoch: nat, idx: nat, echo: bool): (a: seq<StoredChunk>)
    ensures Tracks(Vault(n, root, epoch, idx, map[]), a, echo, map[])
  {
    hide Key;
    seq(n, i requires 0 <= i < n =>
      StoredChunk(Key(root, if echo then GotEcho(epoch, idx, i) else GotChunk(epoch, idx, i)), false))
  }

  function NewMarks(n: nat): (a: seq<bool>)
    ensures |a| == n && Marked(a) == {}
  {
    seq(n, i requires 0 <= i < n => false)
  }

  lemma OutputOther(t: Vault, k: Fields, v: VID, s: Slot, value: Bytes)
    requires OutputOk(t, k, v) && s != OwnChunk(t.epoch, t.idx) && s != OwnEcho(t.epoch, t.idx)
    ensures OutputOk(t.With(s, value), k, v)
  {
    hide Key, Marked;
  }

  lemma SubStatesOther(t: Vault, k: Fields, v: VID, s: Slot, value: Bytes)
    requires Represents(t, k, v) && !s.GotChunk? && !s.GotEcho?
    ensures k.chunks.Some? ==> ChunksOk(t.With(s, value), k.chunks.value, v.retrieval.value)
    ensures k.core.Some? ==> CoreOk(t.With(s, value), k.core.value, v.core.value)
  {
    hide Key, Tracks, TracksOne, Marked;
    if k.chunks.Some? {
      TrackOther(t, k.chunks.value.chunks, false, v.retrieval.value.chunks, s, value);
    }
    if k.core.Some? {
      TrackOther(t, k.core.value.echos, true, v.core.value.echos, s, value);
    }
  }

  /** The slot for the chunk of server j is marked and counted. */
  function ChunkAt(k: ChunksView, j: nat): ChunksView
    requires j < |k.chunks|
  {
    k.(nChunks := k.nChunks + 1, chunks := k.chunks[j := k.chunks[j].(stored := true)])
  }

  function EchoAt(k: CoreView, j: nat): CoreView
    requires j < |k.echos|
  {
    k.(nEchos := k.nEchos + 1, echos := k.echos[j := k.echos[j].(stored := true)])
  }

  function GotEchoOf(v: VID, j: nat, value: Bytes): VID
    requires v.core.Some?
  {
    v.(core := Some(v.core.value.(echos := v.core.value.echos[j := value])))
  }

  function GotChunkOf(v: VID, j: nat, value: Bytes): VID
    requires v.retrieval.Some?
  {
    v.(retrieval := Some(v.retrieval.value.(chunks := v.retrieval.value.chunks[j := value])))
  }

  lemma EchoRepresents(t: Vault, k: Fields, v: VID, j: nat, value: Bytes)
    requires Represents(t, k, v) && k.core.Some? && j < t.n && j !in v.core.value.echos
    ensures v.core.Some? && |k.core.value.echos| == t.n
    ensures k.core.value.echos[j] == StoredChunk(Key(t.root, t.Got(true, j)), false)
    ensures Represents(t.With(t.Got(true, j), value), k.(core := Some(EchoAt(k.core.value, j))), GotEchoOf(v, j, value))
  {
    hide Key, Tracks, Marked, TracksOne;
    TrackPut(t, k.core.value.echos, true, v.core.value.echos, j, value);
    if k.chunks.Some? {
      TrackOther(t, k.chunks.value.chunks, false, v.retrieval.value.chunks, t.Got(true, j), value);
    }
    OutputOther(t, k, v, t.Got(true, j), value);
  }

  lemma ChunkRepresents(t: Vault, k: Fields, v: VID, j: nat, value: Bytes)
    requires Represents(t, k, v) && k.chunks.Some? && j < t.n && j !in v.retrieval.value.chunks
    ensures v.retrieval.Some? && |k.chunks.value.chunks| == t.n
    ensures k.chunks.value.chunks[j] == StoredChunk(Key(t.root, t.Got(false, j)), false)
    ensures Represents(t.With(t.Got(false, j), value), k.(chunks := Some(ChunkAt(k.chunks.value, j))), GotChunkOf(v, j, value))
  {
    hide Key, Tracks, Marked, TracksOne;
    TrackPut(t, k.chunks.value.chunks, false, v.retrieval.value.chunks, j, value);
    if k.core.Some? {
      TrackOther(t, k.core.value.echos, true, v.core.value.echos, t.Got(false, j), value);
    }
    OutputOther(t, k, v, t.Got(false, j), value);
  }

  lemma OwnChunkRepresents(t: Vault, k: Fields, v: VID, value: Bytes)
    requires Represents(t, k, v)
    ensures k.ourChunk.key == Key(t.root, OwnChunk(t.epoch, t.idx))
    ensures Represents(t.With(OwnChunk(t.epoch, t.idx), value), k.(ourChunk := k.ourChunk.(stored := true)),
                       v.(ourChunk := Some(value)))
  {
    hide Key, Marked, ChunksOk, CoreOk;
    SubStatesOther(t, k, v, OwnChunk(t.epoch, t.idx), value);
  }

  lemma OwnEchoRepresents(t: Vault, k: Fields, v: VID, value: Bytes)
    requires Represents(t, k, v)
    ensures k.ourEcho.key == Key(t.root, OwnEcho(t.epoch, t.idx))
    ensures Represents(t.With(OwnEcho(t.epoch, t.idx), value), k.(ourEcho := k.ourEcho.(stored := true)),
                       v.(ourEcho := Some(value)))
  {
    hide Key, Marked, ChunksOk, CoreOk;
    SubStatesOther(t, k, v, OwnEcho(t.epoch, t.idx), value);
  }

  lemma ReadyRepresents(t: Vault, k: Fields, v: VID, from: nat)
    requires Represents(t, k, v) && k.core.Some? && from < t.n
    ensures var core := k.core.value;
            && |core.readys| == t.n
            && (if core.readys[from] then OnReady(v, from) == v
                else Represents(t, k.(core := Some(core.(readys := core.readys[from := true], nReadys := core.nReadys + 1))), OnReady(v, from)))
  {
    hide Key, Tracks, TracksOne;
    var core := k.core.value;
    MarkedUpdate(core.readys, from);
    if core.readys[from] {
      assert v.core.value.readys + {from} == v.core.value.readys;
    }
  }

  lemma RequestRepresents(t: Vault, k: Fields, v: VID, from: nat)
    requires Represents(t, k, v) && v.unanswered.Some? && from < t.n
    ensures k.unanswered.Some? && |k.unanswered.value| == t.n
    ensures Represents(t, k.(unanswered := Some(k.unanswered.value[from := true])), v.(unanswered := Some(v.unanswered.value + {from})))
  {
    hide Key, Tracks, TracksOne;
    MarkedUpdate(k.unanswered.value, from);
  }

  lemma RepresentsCore(t: Vault, k: Fields, v: VID)
    requires Represents(t, k, v)
    ensures k.core.Some? <==> v.core.Some?
  {
  }

  lemma EchoStored(t: Vault, k: Fields, v: VID, j: nat)
    requires Represents(t, k, v) && k.core.Some? && j < t.n
    ensures |k.core.value.echos| == t.n && (k.core.value.echos[j].stored <==> j in v.core.value.echos)
  {
    hide Key;
  }

  lemma ChunkStored(t: Vault, k: Fields, v: VID, j: nat)
    requires Represents(t, k, v) && k.chunks.Some? && j < t.n
    ensures |k.chunks.value.chunks| == t.n && (k.chunks.value.chunks[j].stored <==> j in v.retrieval.value.chunks)
  {
    hide Key;
  }

  /** The own chunks are marked as stored exactly if they are there. */
  lemma OwnStored(t: Vault, k: Fields, v: VID)
    requires Represents(t, k, v)
    ensures k.ourChunk == StoredChunk(Key(t.root, OwnChunk(t.epoch, t.idx)), v.ourChunk.Some?)
    ensures k.ourEcho == StoredChunk(Key(t.root, OwnEcho(t.epoch, t.idx)), v.ourEcho.Some?)
    ensures v.ourChunk.Some? ==> OwnChunk(t.epoch, t.idx) in t.kept && t.kept[OwnChunk(t.epoch, t.idx)] == v.ourChunk.value
    ensures v.ourEcho.Some? ==> OwnEcho(t.epoch, t.idx) in t.kept && t.kept[OwnEcho(t.epoch, t.idx)] == v.ourEcho.value
  {
    hide Key;
  }

  /** A message as the objects make it: the sender's own chunks go by their keys. */
  function WireOf(chunkKey: Bytes, echoKey: Bytes, m: Msg): Wire {
    Wire(m.echo, m.ready, m.disperse, m.request, m.respond, m.cancel,
         if m.respond then Some(Pointer(chunkKey)) else if m.payload.Some? then Some(Data(m.payload.value)) else None,
         if m.echo then Some(Pointer(echoKey)) else if m.assoc.Some? then Some(Data(m.assoc.value)) else None)
  }

  function Wired(chunkKey: Bytes, echoKey: Bytes, out: seq<Env>): (w: seq<Envelope<Wire>>)
    ensures |w| == |out|
  {
    seq(|out|, i requires 0 <= i < |out| => Envelope(WireOf(chunkKey, echoKey, out[i].msg), out[i].from, out[i].dest))
  }

  lemma WiredAppend(chunkKey: Bytes, echoKey: Bytes, a: seq<Env>, b: seq<Env>)
    ensures Wired(chunkKey, echoKey, a + b) == Wired(chunkKey, echoKey, a) + Wired(chunkKey, echoKey, b)
  {
  }

  lemma WiredCopies(chunkKey: Bytes, echoKey: Bytes, n: nat, from: nat, m: Msg)
    ensures Wired(chunkKey, echoKey, Copies(n, from, m)) == Copies(n, from, WireOf(chunkKey, echoKey, m))
  {
  }

  /** The answers from server j on, as the objects make them. */
  lemma WiredAnswers(chunkKey: Bytes, echoKey: Bytes, c: Ctx, waiting: set<nat>, chunk: Bytes, j: nat)
    requires j < c.p.n
    ensures Wired(chunkKey, echoKey, Answers(c, waiting, chunk, j))
            == (if j in waiting then [Envelope(WireOf(chunkKey, echoKey, RespondMsg(chunk)), c.id, j)] else [])
               + Wired(chunkKey, echoKey, Answers(c, waiting, chunk, j + 1))
  {
    var first: seq<Env> := if j in waiting then [Envelope(RespondMsg(chunk), c.id, j)] else [];
    WiredAppend(chunkKey, echoKey, first, Answers(c, waiting, chunk, j + 1));
  }

  lemma AnswersEnd(c: Ctx, waiting: set<nat>, chunk: Bytes)
    ensures Answers(c, waiting, chunk, c.p.n) == []
  {
  }

  lemma WiredRequests(chunkKey: Bytes, echoKey: Bytes, c: Ctx, echos: map<nat, Bytes>, j: nat)
    requires j < c.p.n
    ensures Wired(chunkKey, echoKey, Requests(c, echos, j))
            == (if j in echos then [Envelope(WireOf(chunkKey, echoKey, REQUEST), c.id, j)] else [])
               + Wired(chunkKey, echoKey, Requests(c, echos, j + 1))
  {
    var first: seq<Env> := if j in echos then [Envelope(REQUEST, c.id, j)] else [];
    WiredAppend(chunkKey, echoKey, first, Requests(c, echos, j + 1));
  }

  lemma RequestsEnd(c: Ctx, echos: map<nat, Bytes>)
    ensures Requests(c, echos, c.p.n) == []
  {
  }

  /** A request that cannot be answered at once can be recorded. */
  lemma CanRecord(c: Ctx, v: VID, from: nat)
    requires Shape(c, v)
    ensures !(v.canRelease && v.ourChunk.Some?)
            ==> v.unanswered.Some? && OnRequest(c, v, from) == (v.(unanswered := Some(v.unanswered.value + {from})), [])
    ensures v.canRelease && v.ourChunk.Some?
            ==> OnRequest(c, v, from) == (v, [Envelope(RespondMsg(v.ourChunk.value), c.id, from)])
  {
  }

  /** A stored chunk can be loaded. */
  lemma ShardAt(data: map<Bytes, Bytes>, t: Vault, a: seq<StoredChunk>, echo: bool, held: map<nat, Bytes>, i: nat)
    requires Keeps(data, t.root, t.kept) && Tracks(t, a, echo, held) && i < t.n
    ensures |a| == t.n && (a[i].stored <==> i in held)
    ensures i in held ==> a[i].key in data && data[a[i].key] == held[i]
  {
    hide Key;
  }

  lemma TracksEnough(t: Vault, a: seq<StoredChunk>, echo: bool, held: map<nat, Bytes>, k: nat)
    requires Tracks(t, a, echo, held) && |held| >= k
    ensures |Gather(held, 0, t.n, k)| == k
  {
    hide Key;
    assert From(held, 0) == held.Keys;
    GatherSuffices(held, 0, t.n, k);
  }

  /** A chunk in a message to its own sender, `own` being what the sender keeps. */
  ghost predicate Resolvable(c: Option<Chunk>, key: Bytes, own: Option<Bytes>) {
    c.Some? && c.value.Pointer? ==> c.value.key == key && own.Some?
  }

  lemma FetchesOwn(data: map<Bytes, Bytes>, t: Vault, k: Fields, v: VID, w: Wire)
    requires Keeps(data, t.root, t.kept) && Represents(t, k, v)
    requires Resolvable(w.payload, Key(t.root, OwnChunk(t.epoch, t.idx)), v.ourChunk)
    requires Resolvable(w.assoc, Key(t.root, OwnEcho(t.epoch, t.idx)), v.ourEcho)
    ensures Loadable(data, w)
    ensures w.payload.Some? && w.payload.value.Pointer? ==> Fetch(data, w.payload.value) == v.ourChunk.value
    ensures w.assoc.Some? && w.assoc.value.Pointer? ==> Fetch(data, w.assoc.value) == v.ourEcho.value
  {
    hide Key, Tracks, Marked;
    OwnStored(t, k, v);
  }

  /** Once the keys are followed in the store of the sender, the messages are those of the specification. */
  ghost predicate Carries(data: map<Bytes, Bytes>, msgs: seq<Envelope<Wire>>, out: seq<Env>) {
    && |msgs| == |out|
    && forall i :: 0 <= i < |msgs| ==>
         && Loadable(data, msgs[i].msg)
         && out[i] == Envelope(Load(data, msgs[i].msg), msgs[i].from, msgs[i].dest)
  }

  lemma HonestCarries(data: map<Bytes, Bytes>, t: Vault, k: Fields, c: Ctx, v: VID, out: seq<Env>)
    requires Keeps(data, t.root, t.kept) && Represents(t, k, v)
    requires forall e :: e in out ==> Honest(c, v, e)
    ensures Carries(data, Wired(Key(t.root, OwnChunk(t.epoch, t.idx)), Key(t.root, OwnEcho(t.epoch, t.idx)), out), out)
  {
    hide Key, Represents, Marked;
    OwnStored(t, k, v);
    forall i | 0 <= i < |out|
      ensures Honest(c, v, out[i])
    {
      assert out[i] in out;
    }
  }

  lemma EarlyKeepsOwn(c: Ctx, v: VID, from: nat, m: Msg)
    requires m.Complete()
    ensures var v1 := if m.echo then OnEcho(v, from, m.assoc.value) else v;
            var v2 := if m.ready then OnReady(v1, from) else v1;
            var v3 := if m.disperse then OnDisperse(c, v2, from, m.payload.value, m.assoc.value) else v2;
            (v.ourChunk.Some? ==> v3.ourChunk == v.ourChunk) && (v.ourEcho.Some? ==> v3.ourEcho == v.ourEcho)
  {
  }

  lemma IntakeWired(chunkKey: Bytes, echoKey: Bytes, c: Ctx, v: VID, from: nat, m: Msg)
    requires m.Complete()
    ensures var v1 := if m.echo then OnEcho(v, from, m.assoc.value) else v;
            var v2 := if m.ready then OnReady(v1, from) else v1;
            var v3 := if m.disperse then OnDisperse(c, v2, from, m.payload.value, m.assoc.value) else v2;
            var v4 := if m.respond then OnRespond(v3, from, m.payload.value) else v3;
            && Intake(c, v, from, m).0 == (if m.request then OnRequest(c, v4, from).0 else v4)
            && Wired(chunkKey, echoKey, Intake(c, v, from, m).1)
               == (if m.echo then Wired(chunkKey, echoKey, Prompted(c, v1, from)) else [])
                  + (if m.request then Wired(chunkKey, echoKey, OnRequest(c, v4, from).1) else [])
  {
    hide OnEcho, OnReady, OnDisperse, OnRespond, OnRequest, Prompted;
    var v1 := if m.echo then OnEcho(v, from, m.assoc.value) else v;
    var v2 := if m.ready then OnReady(v1, from) else v1;
    var v3 := if m.disperse then OnDisperse(c, v2, from, m.payload.value, m.assoc.value) else v2;
    var v4 := if m.respond then OnRespond(v3, from, m.payload.value) else v3;
    WiredAppend(chunkKey, echoKey, if m.echo then Prompted(c, v1, from) else [], if m.request then OnRequest(c, v4, from).1 else []);
  }

  lemma ReactWired(chunkKey: Bytes, echoKey: Bytes, c: Ctx, v: VID)
    requires c.p.Resilient()
    ensures var (v1, out1) := SendReady(c, v);
            var (v2, out2) := SendEcho(c, v1);
            var (v3, out3) := Flush(c, v2);
            var (v5, out5) := DropRetrieval(c, DecodePayload(c, DecodeAssoc(c, v3)));
            Wired(chunkKey, echoKey, React(c, v).1)
            == Wired(chunkKey, echoKey, out1) + Wired(chunkKey, echoKey, out2) + Wired(chunkKey, echoKey, out3) + Wired(chunkKey, echoKey, out5)
  {
    hide SendReady, SendEcho, Flush, DecodeAssoc, DecodePayload, DropRetrieval, DropCore, Wired;
    var (v1, out1) := SendReady(c, v);
    var (v2, out2) := SendEcho(c, v1);
    var (v3, out3) := Flush(c, v2);
    var (v5, out5) := DropRetrieval(c, DecodePayload(c, DecodeAssoc(c, v3)));
    WiredAppend(chunkKey, echoKey, out1, out2);
    WiredAppend(chunkKey, echoKey, out1 + out2, out3);
    WiredAppend(chunkKey, echoKey, out1 + out2 + out3, out5);
  }

  lemma NothingMarked()
    ensures Marked([]) == {}
  {
  }

  lemma {:induction false} NoAnswers(c: Ctx, waiting: set<nat>, chunk: Bytes, j: nat)
    requires waiting == {}
    ensures Answers(c, waiting, chunk, j) == []
    decreases c.p.n - j
  {
    if j < c.p.n {
      NoAnswers(c, waiting, chunk, j + 1);
    }
  }

  /** VID. */
  class VIDServer {
    const p: Params
    const id: nat
    const initID: nat
    const codec: Codec
    const root: Bytes
    const epoch: nat
    const db: KVStore
    var payloadState: VIDPayloadState?
    var coreState: VIDCoreState?
    var payload: Option<Payload>
    var associatedData: Option<Payload>
    var ourChunk: StoredChunk
    var ourEcho: StoredChunk
    var requestUnanswered: Option<seq<bool>>
    var canReleaseChunk: bool
    var canceled: bool
    /** The specification state this object stands for. */
    ghost var model: VID
    /** The slots of this VID that have been written. */
    ghost var kept: map<Slot, Bytes>

    ghost function C(): Ctx {
      Ctx(p, id, initID, codec)
    }

    ghost function V(): Vault
      reads this
    {
      Vault(p.n, root, epoch, initID, kept)
    }

    ghost function K(): Fields
      reads this, payloadState, coreState
    {
      Fields(if payloadState == null then None else Some(payloadState.View()),
             if coreState == null then None else Some(coreState.View()),
             payload, associatedData, ourChunk, ourEcho, requestUnanswered, canReleaseChunk, canceled)
    }

    ghost predicate Sized() {
      p.Resilient() && id < p.n && initID < p.n && p.n < Pow256(WORD) && epoch < Pow256(WORD)
    }

    ghost predicate Valid()
      reads this, db, payloadState, coreState
    {
      && Sized() && Keeps(db.data, root, kept) && Represents(V(), K(), model)
      && (coreState != null ==> coreState.initID == initID)
    }

    /** NewVID: the slots get their keys, nothing is stored yet. */
    constructor (p: Params, id: nat, initID: nat, codec: Codec, root: Bytes, epoch: nat, db: KVStore)
      requires p.Resilient() && id < p.n && initID < p.n && p.n < Pow256(WORD) && epoch < Pow256(WORD)
      ensures Valid() && fresh(payloadState) && fresh(coreState)
      ensures C() == Ctx(p, id, initID, codec) && model == Initial(C())
      ensures this.root == root && this.epoch == epoch && this.db == db
    {
      hide Key, Tracks, Marked, Pow256;
      this.p, this.id, this.initID, this.codec := p, id, initID, codec;
      this.root, this.epoch, this.db := root, epoch, db;
      payloadState := new VIDPayloadState(NewSlots(p.n, root, epoch, initID, false));
      coreState := new VIDCoreState(initID, NewSlots(p.n, root, epoch, initID, true), NewMarks(p.n));
      requestUnanswered := Some(NewMarks(p.n));
      ourChunk := StoredChunk(Key(root, OwnChunk(epoch, initID)), false);
      ourEcho := StoredChunk(Key(root, OwnEcho(epoch, initID)), false);
      payload := if id == initID then Some(EmptyPayload) else None;
      associatedData := if id == initID then Some(EmptyPayload) else None;
      canReleaseChunk, canceled := false, false;
      model := Initial(Ctx(p, id, initID, codec));
      kept := map[];
    }

    ghost function W(out: seq<Env>): seq<Envelope<Wire>> {
      Wired(Key(root, OwnChunk(epoch, initID)), Key(root, OwnEcho(epoch, initID)), out)
    }

    /** Stores the chunk of a message at a slot. */
    method PutSlot(ghost s: Slot, key: Bytes, c: Chunk)
      requires Keeps(db.data, root, kept) && Fetchable(db.data, c)
      requires Fits(s) && OfVID(s, epoch, initID) && key == Key(root, s)
      modifies this`kept, db
      ensures Keeps(db.data, root, kept) && kept == old(kept)[s := Fetch(old(db.data), c)]
      ensures OnlyWrites(old(db.data), db.data, root, epoch, initID)
    {
      hide Key, OnlyWrites, Keeps, Pow256;
      PutKeeps(db.data, root, kept, s, Fetch(db.data, c));
      PutOnlyWrites(db.data, root, s, Fetch(db.data, c));
      kept := kept[s := Fetch(db.data, c)];
      db.StorePointer(key, c);
    }

    method StoreEcho(j: nat, c: Chunk)
      requires Valid() && j < p.n && Fetchable(db.data, c) && coreState != null && j !in model.core.value.echos
      modifies this`model, this`kept, db, coreState
      ensures Valid()
      ensures model == GotEchoOf(old(model), j, Fetch(old(db.data), c))
      ensures OnlyWrites(old(db.data), db.data, root, epoch, initID)
    {
      hide Key, OnlyWrites, Keeps, Represents, Pow256;
      EchoRepresents(V(), K(), model, j, Fetch(db.data, c));
      model := GotEchoOf(model, j, Fetch(db.data, c));
      PutSlot(V().Got(true, j), coreState.echos[j].key, c);
      coreState.nEchos, coreState.echos := coreState.nEchos + 1, coreState.echos[j := coreState.echos[j].(stored := true)];
    }

    method StoreChunk(j: nat, c: Chunk)
      requires Valid() && j < p.n && Fetchable(db.data, c) && payloadState != null && j !in model.retrieval.value.chunks
      modifies this`model, this`kept, db, payloadState
      ensures Valid()
      ensures model == GotChunkOf(old(model), j, Fetch(old(db.data), c))
      ensures OnlyWrites(old(db.data), db.data, root, epoch, initID)
    {
      hide Key, OnlyWrites, Keeps, Represents, Pow256;
      ChunkRepresents(V(), K(), model, j, Fetch(db.data, c));
      model := GotChunkOf(model, j, Fetch(db.data, c));
      PutSlot(V().Got(false, j), payloadState.chunks[j].key, c);
      payloadState.nChunks, payloadState.chunks :=
        payloadState.nChunks + 1, payloadState.chunks[j := payloadState.chunks[j].(stored := true)];
    }

    method StoreOwnChunk(c: Bytes)
      requires Valid()
      modifies this`model, this`kept, this`ourChunk, db
      ensures Valid()
      ensures model == old(model).(ourChunk := Some(c))
      ensures OnlyWrites(old(db.data), db.data, root, epoch, initID)
    {
      hide Key, OnlyWrites, Keeps, Represents, Pow256;
      OwnChunkRepresents(V(), K(), model, c);
      model := model.(ourChunk := Some(c));
      PutSlot(OwnChunk(epoch, initID), ourChunk.key, Data(c));
      ourChunk := ourChunk.(stored := true);
    }

    method StoreOwnEcho(c: Bytes)
      requires Valid()
      modifies this`model, this`kept, this`ourEcho, db
      ensures Valid()
      ensures model == old(model).(ourEcho := Some(c))
      ensures OnlyWrites(old(db.data), db.data, root, epoch, initID)
    {
      hide Key, OnlyWrites, Keeps, Represents, Pow256;
      OwnEchoRepresents(V(), K(), model, c);
      model := model.(ourEcho := Some(c));
      PutSlot(OwnEcho(epoch, initID), ourEcho.key, Data(c));
      ourEcho := ourEcho.(stored := true);
    }

    /** Records an Echo; only the first one of a server counts. */
    method HandleEcho(from: nat, ad: Chunk)
      requires Valid() && from < p.n && Fetchable(db.data, ad)
      modifies this`model, this`kept, db, coreState
      ensures Valid()
      ensures model == OnEcho(old(model), from, Fetch(old(db.data), ad))
      ensures OnlyWrites(old(db.data), db.data, root, epoch, initID)
    {
      hide Key, OnlyWrites, Keeps, Pow256, Marked, Tracks, TracksOne;
      WritesNothing(db.data, root, epoch, initID);
      if coreState == null {
        return;
      }
      EchoStored(V(), K(), model, from);
      if !coreState.echos[from].stored {
        StoreEcho(from, ad);
      }
    }

    method HandleReady(from: nat)
      requires Valid() && from < p.n
      modifies this`model, coreState
      ensures Valid()
      ensures model == OnReady(old(model), from)
    {
      hide Key, Keeps, Pow256, Marked, Tracks, TracksOne;
      if coreState == null {
        return;
      }
      ReadyRepresents(V(), K(), model, from);
      model := OnReady(model, from);
      if !coreState.readys[from] {
        coreState.readys, coreState.nReadys := coreState.readys[from := true], coreState.nReadys + 1;
      }
    }

    /** Takes the own chunks from the first Disperse of the initiator. */
    method HandleDisperse(from: nat, c: Bytes, ad: Bytes)
      requires Valid() && Shape(C(), model)
      modifies this`model, this`kept, this`ourChunk, this`ourEcho, db, payloadState, coreState
      ensures Valid()
      ensures model == OnDisperse(C(), old(model), from, c, ad)
      ensures OnlyWrites(old(db.data), db.data, root, epoch, initID)
    {
      hide Key, OnlyWrites, Keeps, Pow256, Marked, Tracks, TracksOne;
      WritesNothing(db.data, root, epoch, initID);
      if coreState == null {
        return;
      }
      if from != coreState.initID {
        return;
      }
      OwnStored(V(), K(), model);
      if !ourChunk.stored {
        StoreOwnCopies(c);
      }
      ghost var between := db.data;
      OwnStored(V(), K(), model);
      if !ourEcho.stored {
        StoreOwnEchos(ad);
        WritesTogether(old(db.data), between, db.data, root, epoch, initID);
      }
    }

    method StoreOwnCopies(c: Bytes)
      requires Valid() && model.ourChunk.None? && (model.retrieval.Some? ==> id !in model.retrieval.value.chunks)
      modifies this`model, this`kept, this`ourChunk, db, payloadState
      ensures Valid()
      ensures model == (if old(model).retrieval.None? then old(model) else GotChunkOf(old(model), id, c)).(ourChunk := Some(c))
      ensures OnlyWrites(old(db.data), db.data, root, epoch, initID)
    {
      hide Key, OnlyWrites, Keeps, Pow256, ChunksOk, CoreOk, OutputOk;
      ghost var before := db.data;
      WritesNothing(before, root, epoch, initID);
      if payloadState != null {
        StoreChunk(id, Data(c));
      }
      ghost var between := db.data;
      StoreOwnChunk(c);
      WritesTogether(before, between, db.data, root, epoch, initID);
    }

    method StoreOwnEchos(ad: Bytes)
      requires Valid() && model.ourEcho.None? && coreState != null && id !in model.core.value.echos
      modifies this`model, this`kept, this`ourEcho, db, coreState
      ensures Valid()
      ensures model == GotEchoOf(old(model), id, ad).(ourEcho := Some(ad))
      ensures OnlyWrites(old(db.data), db.data, root, epoch, initID)
    {
      hide Key, OnlyWrites, Keeps, Pow256, ChunksOk, CoreOk, OutputOk;
      ghost var before := db.data;
      StoreEcho(id, Data(ad));
      ghost var between := db.data;
      StoreOwnEcho(ad);
      WritesTogether(before, between, db.data, root, epoch, initID);
    }

    /** Records a chunk; only the first one of a server counts. */
    method HandleChunkResponse(from: nat, c: Chunk)
      requires Valid() && from < p.n && Fetchable(db.data, c)
      modifies this`model, this`kept, db, payloadState
      ensures Valid()
      ensures model == OnRespond(old(model), from, Fetch(old(db.data), c))
      ensures OnlyWrites(old(db.data), db.data, root, epoch, initID)
    {
      hide Key, OnlyWrites, Keeps, Pow256, Marked, Tracks, TracksOne;
      WritesNothing(db.data, root, epoch, initID);
      if payloadState == null {
        return;
      }
      ChunkStored(V(), K(), model, from);
      if !payloadState.chunks[from].stored {
        StoreChunk(from, c);
      }
    }

    /** A message that carries the own chunk by its key. */
    function Response(): Wire
      reads this`ourChunk
    {
      Wire(false, false, false, false, true, false, Some(Pointer(ourChunk.key)), None)
    }

    /** Answers a chunk request at once, or records it. */
    method RespondRequest(from: nat) returns (msgs: seq<Envelope<Wire>>)
      requires Valid() && Shape(C(), model) && from < p.n
      modifies this`model, this`requestUnanswered
      ensures Valid()
      ensures model == OnRequest(C(), old(model), from).0
      ensures msgs == W(OnRequest(C(), old(model), from).1)
    {
      hide Key, Keeps, Pow256, Marked, Tracks, TracksOne, Shape, OnRequest, ChunksOk, CoreOk;
      OwnStored(V(), K(), model);
      CanRecord(C(), model, from);
      if canReleaseChunk && ourChunk.stored {
        return [Envelope(Response(), id, from)];
      }
      msgs := [];
      RequestRepresents(V(), K(), model, from);
      model := model.(unanswered := Some(model.unanswered.value + {from}));
      requestUnanswered := Some(requestUnanswered.value[from := true]);
    }

    /** The request for a chunk that an Echo prompts. */
    method Prompt(from: nat) returns (msgs: seq<Envelope<Wire>>)
      requires Valid() && Shape(C(), model)
      ensures msgs == W(Prompted(C(), model, from))
    {
      hide Key, Keeps, Pow256, Marked, Tracks, TracksOne;
      msgs := [];
      if payload == None {
        if payloadState.payloadScheduled {
          msgs := [Envelope(Wire(false, false, false, true, false, false, None, None), id, from)];
        }
      }
    }

    /** A copy of the message for each server. */
    method Broadcast(w: Wire) returns (msgs: seq<Envelope<Wire>>)
      ensures msgs == Copies(p.n, id, w)
    {
      msgs := [];
      for i := 0 to p.n
        invariant msgs == Copies(p.n, id, w)[..i]
      {
        msgs := msgs + [Envelope(w, id, i)];
      }
    }

    /** Sends Ready on N-F Echos or F+1 Readys. */
    method TrySendReady() returns (msgs: seq<Envelope<Wire>>)
      requires Valid()
      modifies this`model, coreState
      ensures Valid()
      ensures model == SendReady(C(), old(model)).0
      ensures msgs == W(SendReady(C(), old(model)).1)
    {
      hide Key, Keeps, Pow256, Marked, Tracks, TracksOne;
      msgs := [];
      if coreState == null {
        return;
      }
      if (coreState.nEchos + p.f >= p.n || coreState.nReadys >= p.f + 1) && !coreState.sentReady {
        WiredCopies(Key(root, OwnChunk(epoch, initID)), Key(root, OwnEcho(epoch, initID)), p.n, id, READY);
        msgs := Broadcast(Wire(false, true, false, false, false, false, None, None));
        model := SendReady(C(), model).0;
        coreState.sentReady := true;
      }
    }

    /** Sends Echo once both own chunks are there. */
    method TrySendEcho() returns (msgs: seq<Envelope<Wire>>)
      requires Valid()
      modifies this`model, coreState
      ensures Valid()
      ensures model == SendEcho(C(), old(model)).0
      ensures msgs == W(SendEcho(C(), old(model)).1)
    {
      hide Key, Keeps, Pow256, Marked, Tracks, TracksOne;
      msgs := [];
      if coreState == null {
        return;
      }
      OwnStored(V(), K(), model);
      if !coreState.sentEcho && ourChunk.stored && ourEcho.stored {
        WiredCopies(Key(root, OwnChunk(epoch, initID)), Key(root, OwnEcho(epoch, initID)), p.n, id, EchoMsg(model.ourEcho.value));
        msgs := Broadcast(Wire(true, false, false, false, false, false, None, Some(Pointer(ourEcho.key))));
        model := SendEcho(C(), model).0;
        coreState.sentEcho := true;
      }
    }

    /** The answers to the requests on record. */
    method AnswerAll(marks: seq<bool>) returns (msgs: seq<Envelope<Wire>>)
      requires Valid() && model.ourChunk.Some? && (|marks| == p.n || marks == [])
      ensures msgs == W(Answers(C(), Marked(marks), model.ourChunk.value, 0))
    {
      hide Key, Keeps, Pow256, Tracks, TracksOne, Answers, Wired, Represents;
      OwnStored(V(), K(), model);
      ghost var chunk, waiting := model.ourChunk.value, Marked(marks);
      msgs := [];
      NoAnswers(C(), Marked([]), chunk, 0);
      for j := 0 to |marks|
        invariant W(Answers(C(), waiting, chunk, 0)) == msgs + W(Answers(C(), waiting, chunk, j))
      {
        WiredAnswers(Key(root, OwnChunk(epoch, initID)), Key(root, OwnEcho(epoch, initID)), C(), waiting, chunk, j);
        if marks[j] {
          msgs := msgs + [Envelope(Response(), id, j)];
        }
      }
      AnswersEnd(C(), waiting, chunk);
    }

    /** Answers the recorded requests as soon as that is possible, and forgets them. */
    method FlushRequests() returns (msgs: seq<Envelope<Wire>>)
      requires Valid()
      modifies this`model, this`requestUnanswered
      ensures Valid()
      ensures model == Flush(C(), old(model)).0
      ensures msgs == W(Flush(C(), old(model)).1)
    {
      hide Key, Keeps, Pow256, Marked, Tracks, TracksOne, Answers;
      msgs := [];
      OwnStored(V(), K(), model);
      if requestUnanswered.Some? && canReleaseChunk && ourChunk.stored {
        NothingMarked();
        NoAnswers(C(), Marked([]), model.ourChunk.value, 0);
        msgs := AnswerAll(requestUnanswered.value);
        model := Flush(C(), model).0;
        requestUnanswered := None;
      }
    }

    /** Collects the first N-2F chunks that are stored; the shards never run out. */
    method Collect(slots: seq<StoredChunk>, ghost echo: bool, ghost held: map<nat, Bytes>) returns (shards: array<Bytes>)
      requires p.Resilient() && Keeps(db.data, root, kept) && Tracks(V(), slots, echo, held) && |held| >= Enough(p)
      ensures fresh(shards) && shards[..] == Gather(held, 0, p.n, Enough(p))
    {
      hide Key, Pow256, Keeps, Tracks;
      ghost var k := Enough(p);
      TracksEnough(V(), slots, echo, held, k);
      shards := new Bytes[p.n - 2 * p.f](_ => []);
      var collected := 0;
      for i := 0 to p.n
        invariant collected < k
        invariant Gather(held, 0, p.n, k) == shards[..collected] + Gather(held, i, p.n, k - collected)
      {
        ShardAt(db.data, V(), slots, echo, held, i);
        if slots[i].stored {
          var shard := db.Get(slots[i].key);
          shards[collected] := shard;
          collected := collected + 1;
        }
        if collected >= p.n - 2 * p.f {
          break;
        }
      }
      if collected < p.n - 2 * p.f {
        assert false;
      }
    }

    /** Decodes the associated object from N-2F Echos. */
    method TryDecodeAssoc()
      requires Valid()
      modifies this`model, this`associatedData
      ensures Valid()
      ensures model == DecodeAssoc(C(), old(model))
    {
      hide Key, Keeps, Pow256, Marked, Tracks, TracksOne, Gather;
      if coreState != null && associatedData == None && coreState.nEchos >= p.n - 2 * p.f {
        var shards := Collect(coreState.echos, true, model.core.value.echos);
        model := DecodeAssoc(C(), model);
        associatedData := Some(codec.decode(shards[..]));
      }
    }

    /** Decodes the payload from N-2F chunks. */
    method TryDecodePayload()
      requires Valid()
      modifies this`model, this`payload
      ensures Valid()
      ensures model == DecodePayload(C(), old(model))
    {
      hide Key, Keeps, Pow256, Marked, Tracks, TracksOne, Gather;
      if payloadState != null && payload == None && payloadState.nChunks >= p.n - 2 * p.f {
        var shards := Collect(payloadState.chunks, false, model.retrieval.value.chunks);
        model := DecodePayload(C(), model);
        payload := Some(codec.decode(shards[..]));
      }
    }

    /** Drops the chunks once the payload is known, and tells the others. */
    method TryDropChunks() returns (msgs: seq<Envelope<Wire>>)
      requires Valid()
      modifies this`model, this`payloadState, this`canceled
      ensures Valid() && (payloadState == null || payloadState == old(payloadState))
      ensures model == DropRetrieval(C(), old(model)).0
      ensures msgs == W(DropRetrieval(C(), old(model)).1)
    {
      hide Key, Keeps, Pow256, Marked, Tracks, TracksOne;
      msgs := [];
      if payloadState != null && payload.Some? {
        if !canceled {
          WiredCopies(Key(root, OwnChunk(epoch, initID)), Key(root, OwnEcho(epoch, initID)), p.n, id, CANCEL);
          msgs := Broadcast(Wire(false, false, false, false, false, true, None, None));
        }
        model := DropRetrieval(C(), model).0;
        payloadState := null;
        canceled := true;
      }
    }

    method HasTerminated() returns (r: bool)
      requires Valid()
      ensures r == Terminated(C(), model)
    {
      hide Key, Keeps, Pow256, Marked, Tracks, TracksOne;
      r := (coreState == null || coreState.nReadys >= 2 * p.f + 1) && associatedData.Some?;
    }

    /** Drops the core once the chunks are gone and the VID has terminated. */
    method TryDropCore()
      requires Valid()
      modifies this`model, this`coreState
      ensures Valid() && (coreState == null || coreState == old(coreState))
      ensures model == DropCore(C(), old(model))
    {
      hide Key, Keeps, Pow256, Marked, Tracks, TracksOne;
      var termed := HasTerminated();
      if payloadState == null && termed {
        model := DropCore(C(), model);
        coreState := null;
      }
    }

    /** All that follows the handlers in Recv. */
    method ReactAll() returns (msgs: seq<Envelope<Wire>>)
      requires Valid()
      modifies this, coreState
      ensures Valid() && kept == old(kept)
      ensures coreState == null || coreState == old(coreState)
      ensures payloadState == null || payloadState == old(payloadState)
      ensures model == React(C(), old(model)).0
      ensures msgs == W(React(C(), old(model)).1)
    {
      hide Key, Keeps, Pow256, Represents, SendReady, SendEcho, Flush, DecodeAssoc, DecodePayload, DropRetrieval, DropCore, Wired;
      ghost var before := model;
      var out1 := TrySendReady();
      var out2 := TrySendEcho();
      var out3 := FlushRequests();
      TryDecodeAssoc();
      TryDecodePayload();
      var out5 := TryDropChunks();
      TryDropCore();
      msgs := out1 + out2 + out3 + out5;
      ReactWired(Key(root, OwnChunk(epoch, initID)), Key(root, OwnEcho(epoch, initID)), C(), before);
    }

    /** A message can be taken in: its chunks are there, those of this server itself by their keys. */
    ghost predicate Acceptable(w: Wire)
      reads this
    {
      && Resolvable(w.payload, Key(root, OwnChunk(epoch, initID)), model.ourChunk)
      && Resolvable(w.assoc, Key(root, OwnEcho(epoch, initID)), model.ourEcho)
      && (w.disperse ==> w.payload.Some? && w.payload.value.Data? && w.assoc.Some? && w.assoc.value.Data?)
    }

    /** The handlers of the Echo, Ready and Disperse flags. */
    method TakeEarly(from: nat, w: Wire) returns (msgs: seq<Envelope<Wire>>)
      requires Valid() && Acceptable(w) && Loadable(db.data, w)
      requires Shape(C(), model) && Genuine(C(), model, from, Load(db.data, w))
      modifies this`model, this`kept, this`ourChunk, this`ourEcho, db, payloadState, coreState
      ensures Valid() && OnlyWrites(old(db.data), db.data, root, epoch, initID)
      ensures var m := Load(old(db.data), w);
              var v1 := if m.echo then OnEcho(old(model), from, m.assoc.value) else old(model);
              var v2 := if m.ready then OnReady(v1, from) else v1;
              model == (if m.disperse then OnDisperse(C(), v2, from, m.payload.value, m.assoc.value) else v2)
              && msgs == if m.echo then W(Prompted(C(), v1, from)) else []
      ensures Shape(C(), model)
    {
      hide Key, OnlyWrites, Keeps, Represents, Pow256, Wired, Shape, OnEcho, OnReady, OnDisperse, Prompted;
      ghost var before, m := db.data, Load(db.data, w);
      WritesNothing(before, root, epoch, initID);
      msgs := [];
      if w.echo {
        EchoKeeps(C(), model, from, m.assoc.value);
        HandleEcho(from, w.assoc.value);
        msgs := Prompt(from);
      }
      if w.ready {
        ReadyKeeps(C(), model, from);
        HandleReady(from);
      }
      if w.disperse {
        ghost var between := db.data;
        DisperseKeeps(C(), model, from, m.payload.value, m.assoc.value);
        HandleDisperse(from, w.payload.value.bytes, w.assoc.value.bytes);
        WritesTogether(before, between, db.data, root, epoch, initID);
      }
    }

    /** The handlers of the Respond and Request flags. */
    method TakeLate(from: nat, w: Wire) returns (msgs: seq<Envelope<Wire>>)
      requires Valid() && from < p.n && Loadable(db.data, w) && Shape(C(), model)
      requires w.respond ==> w.payload.Some? && (from == id ==> model.ourChunk.Some?)
      modifies this`model, this`kept, this`requestUnanswered, db, payloadState
      ensures Valid() && OnlyWrites(old(db.data), db.data, root, epoch, initID)
      ensures var m := Load(old(db.data), w);
              var v4 := if m.respond then OnRespond(old(model), from, m.payload.value) else old(model);
              model == (if m.request then OnRequest(C(), v4, from).0 else v4)
              && msgs == if m.request then W(OnRequest(C(), v4, from).1) else []
      ensures Shape(C(), model)
    {
      hide Key, OnlyWrites, Keeps, Represents, Pow256, Wired, Shape, OnRespond, OnRequest;
      WritesNothing(db.data, root, epoch, initID);
      msgs := [];
      if w.respond {
        RespondKeeps(C(), model, from, Load(db.data, w).payload.value);
        HandleChunkResponse(from, w.payload.value);
      }
      if w.request {
        RequestKeeps(C(), model, from);
        msgs := RespondRequest(from);
      }
    }

    /** The handlers of all flags. */
    method TakeIn(from: nat, w: Wire) returns (msgs: seq<Envelope<Wire>>)
      requires Valid() && Acceptable(w) && Loadable(db.data, w)
      requires Shape(C(), model) && Genuine(C(), model, from, Load(db.data, w))
      modifies this`model, this`kept, this`ourChunk, this`ourEcho, this`requestUnanswered, db, payloadState, coreState
      ensures Valid() && OnlyWrites(old(db.data), db.data, root, epoch, initID)
      ensures model == Intake(C(), old(model), from, Load(old(db.data), w)).0
      ensures msgs == W(Intake(C(), old(model), from, Load(old(db.data), w)).1)
      ensures Shape(C(), model)
    {
      hide Key, OnlyWrites, Keeps, Represents, Pow256, Wired, Shape, Intake, OnEcho, OnReady, OnDisperse, OnRespond, OnRequest, Prompted;
      ghost var before, start, m := db.data, model, Load(db.data, w);
      FetchesOwn(before, V(), K(), start, w);
      IntakeWired(Key(root, OwnChunk(epoch, initID)), Key(root, OwnEcho(epoch, initID)), C(), start, from, m);
      msgs := TakeEarly(from, w);
      ghost var between := db.data;
      EarlyKeepsOwn(C(), start, from, m);
      FetchesOwn(between, V(), K(), model, w);
      var more := TakeLate(from, w);
      msgs := msgs + more;
      WritesTogether(before, between, db.data, root, epoch, initID);
    }

    /** Handles a message; its chunks come by value, or from the own store when the sender is this server. */
    method Recv(from: nat, w: Wire) returns (msgs: seq<Envelope<Wire>>, terminated: bool)
      requires Valid() && Ok(C(), model) && Acceptable(w) && Loadable(db.data, w)
      requires Genuine(C(), model, from, Load(db.data, w))
      modifies this, db, payloadState, coreState
      ensures Valid() && Ok(C(), model) && OnlyWrites(old(db.data), db.data, root, epoch, initID)
      ensures payloadState == null || payloadState == old(payloadState)
      ensures coreState == null || coreState == old(coreState)
      ensures model == Dispersal.Recv(C(), old(model), from, Load(old(db.data), w)).0
      ensures Carries(db.data, msgs, Dispersal.Recv(C(), old(model), from, Load(old(db.data), w)).1)
      ensures terminated == Terminated(C(), model)
    {
      hide Key, OnlyWrites, Keeps, Represents, Pow256, Wired, Shape, Settled, Intake, React, Carries, Terminated;
      ghost var start, m := model, Load(db.data, w);
      msgs := TakeIn(from, w);
      WiredAppend(Key(root, OwnChunk(epoch, initID)), Key(root, OwnEcho(epoch, initID)), Intake(C(), start, from, m).1, React(C(), model).1);
      var more := ReactAll();
      msgs := msgs + more;
      RecvKeepsOk(C(), start, from, m);
      forall e | e in Dispersal.Recv(C(), start, from, m).1
        ensures Honest(C(), model, e)
      {
        DoHonest(C(), start, Hear(from, m), e);
      }
      HonestCarries(db.data, V(), K(), C(), model, Dispersal.Recv(C(), start, from, m).1);
      terminated := HasTerminated();
    }

    /** Enables answers to chunk requests, and answers those on record. */
    method ReleaseChunk() returns (msgs: seq<Envelope<Wire>>)
      requires Valid() && Ok(C(), model)
      modifies this`model, this`canReleaseChunk, this`requestUnanswered
      ensures Valid() && Ok(C(), model)
      ensures model == Dispersal.ReleaseChunk(C(), old(model)).0
      ensures Carries(db.data, msgs, Dispersal.ReleaseChunk(C(), old(model)).1)
    {
      hide Key, Keeps, Marked, Tracks, TracksOne, Pow256, Wired, Shape, Settled, Flush;
      msgs := [];
      if canReleaseChunk {
        return;
      }
      ghost var start := model;
      model := model.(canRelease := true);
      canReleaseChunk := true;
      msgs := FlushRequests();
      ReleaseKeepsOk(C(), start);
      forall e | e in Dispersal.ReleaseChunk(C(), start).1
        ensures Honest(C(), model, e)
      {
        DoHonest(C(), start, Release, e);
      }
      HonestCarries(db.data, V(), K(), C(), model, Dispersal.ReleaseChunk(C(), start).1);
    }

    /** A chunk request to every server that has sent an Echo. */
    method RequestAll() returns (msgs: seq<Envelope<Wire>>)
      requires Valid() && coreState != null
      ensures msgs == W(Requests(C(), model.core.value.echos, 0))
    {
      hide Key, Keeps, Marked, Tracks, TracksOne, Pow256, Requests, Wired, Represents;
      RepresentsCore(V(), K(), model);
      ghost var echos := model.core.value.echos;
      msgs := [];
      for j := 0 to p.n
        invariant W(Requests(C(), echos, 0)) == msgs + W(Requests(C(), echos, j))
      {
        WiredRequests(Key(root, OwnChunk(epoch, initID)), Key(root, OwnEcho(epoch, initID)), C(), echos, j);
        EchoStored(V(), K(), model, j);
        if coreState.echos[j].stored {
          msgs := msgs + [Envelope(Wire(false, false, false, true, false, false, None, None), id, j)];
        }
      }
      RequestsEnd(C(), echos);
    }

    /** Asks for the payload: now for the chunks of those who have sent an Echo, and upon their Echo for the others. */
    method RequestPayload() returns (msgs: seq<Envelope<Wire>>)
      requires Valid() && Ok(C(), model)
      modifies this`model, payloadState
      ensures Valid() && Ok(C(), model)
      ensures model == Dispersal.RequestPayload(C(), old(model)).0
      ensures msgs == W(Dispersal.RequestPayload(C(), old(model)).1)
    {
      hide Key, Keeps, Marked, Tracks, TracksOne, Pow256, Wired, Settled;
      msgs := [];
      if payloadState == null {
        return;
      }
      if payloadState.payloadScheduled {
        return;
      }
      RequestKeepsOk(C(), model);
      if payload == None {
        msgs := RequestAll();
      }
      model := Dispersal.RequestPayload(C(), model).0;
      payloadState.payloadScheduled := true;
    }

    method SetPayload(x: Payload)
      requires Valid() && id == initID
      modifies this`model, this`payload
      ensures Valid() && model == old(model).(payload := Some(x))
    {
      hide Key, Keeps, Marked, Tracks, TracksOne, Pow256;
      model := model.(payload := Some(x));
      payload := Some(x);
    }

    method SetAssociatedData(y: Payload)
      requires Valid() && id == initID
      modifies this`model, this`associatedData
      ensures Valid() && model == old(model).(assoc := Some(y))
    {
      hide Key, Keeps, Marked, Tracks, TracksOne, Pow256;
      model := model.(assoc := Some(y));
      associatedData := Some(y);
    }

    /** Disperses the payload and the associated object, if it is on this server to do so. */
    method Init() returns (msgs: seq<Envelope<Wire>>)
      requires Valid() && coreState != null
      requires id == initID ==>
        && payload.Some? && |codec.encode(payload.value)| == p.n
        && associatedData.Some? && |codec.encode(associatedData.value)| == p.n
      ensures id != initID ==> msgs == []
      ensures id == initID ==> Carries(db.data, msgs, Disperse(C(), model, model.payload.value, model.assoc.value).1)
    {
      hide Key, Keeps, Marked, Tracks, TracksOne, Pow256;
      msgs := [];
      if coreState.initID != id {
        return;
      }
      var chunks, ads := codec.encode(payload.value), codec.encode(associatedData.value);
      for i := 0 to p.n
        invariant |msgs| == i
        invariant forall j :: 0 <= j < i ==>
          msgs[j] == Envelope(Wire(false, true, true, false, false, false, Some(Data(chunks[j])), Some(Data(ads[j]))), id, j)
      {
        msgs := msgs + [Envelope(Wire(false, true, true, false, false, false, Some(Data(chunks[i])), Some(Data(ads[i]))), id, i)];
      }
    }
  }
}
