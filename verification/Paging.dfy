/**
 The cache of VIDs in pika/pika.go: VIDs are written to the database and read back as they are accessed, counted by
 references. To users that keep to the discipline of Read, Write and Free it is a plain array of VIDs.
 */
module Paging {
  import opened Common
  import opened Dispersal
  import opened DispersalNode
  import opened StoreKeys

  /** A VID as MarshalBinary sees it; initID belongs to the core. */
  datatype Image = Image(n: nat, fields: Fields, initID: nat)

  /** One value on the gob stream. */
  datatype Token =
    | Num(num: nat)
    | Flag(flag: bool)
    | Object(content: Option<Payload>)
    | OneSlot(slot: StoredChunk)
    | Slots(slots: seq<StoredChunk>)
    | Bools(bools: seq<bool>)

  function MarshalCore(m: Image): seq<Token> {
    match m.fields.core
    case None => [Flag(false)]
    case Some(core) =>
      [Flag(true), Num(m.initID), Slots(core.echos), Num(core.nEchos), Bools(core.readys), Num(core.nReadys),
       Flag(core.sentEcho), Flag(core.sentReady)]
  }

  function MarshalChunks(m: Image): seq<Token> {
    match m.fields.chunks
    case None => [Flag(false)]
    case Some(chunks) => [Flag(true), Slots(chunks.chunks), Num(chunks.nChunks), Flag(chunks.scheduled)]
  }

  /** MarshalBinary. A missing slice is encoded like an empty one. */
  function Marshal(m: Image): seq<Token> {
    var f := m.fields;
    [Num(m.n), Object(f.payload), Object(f.assoc), OneSlot(f.ourChunk), OneSlot(f.ourEcho),
     Bools(if f.unanswered.Some? then f.unanswered.value else []), Flag(f.canRelease), Flag(f.canceled)]
    + MarshalCore(m) + MarshalChunks(m)
  }

  /** Reads the core; the result is None if the stream is not of the expected form. */
  function UnmarshalCore(s: seq<Token>): Option<(Option<CoreView>, nat, seq<Token>)> {
    if |s| < 1 || !s[0].Flag? then None
    else if !s[0].flag then Some((None, 0, s[1..]))
    else if |s| < 8 || !(s[1].Num? && s[2].Slots? && s[3].Num? && s[4].Bools? && s[5].Num? && s[6].Flag? && s[7].Flag?) then None
    else Some((Some(CoreView(s[2].slots, s[3].num, s[4].bools, s[5].num, s[6].flag, s[7].flag)), s[1].num, s[8..]))
  }

  function UnmarshalChunks(s: seq<Token>): Option<(Option<ChunksView>, seq<Token>)> {
    if |s| < 1 || !s[0].Flag? then None
    else if !s[0].flag then Some((None, s[1..]))
    else if |s| < 4 || !(s[1].Slots? && s[2].Num? && s[3].Flag?) then None
    else Some((Some(ChunksView(s[1].slots, s[2].num, s[3].flag)), s[4..]))
  }

  /** UnmarshalBinary. None stands for an error or for the panic over an unread rest. */
  function Unmarshal(s: seq<Token>): Option<Image> {
    if |s| < 8 || !(s[0].Num? && s[1].Object? && s[2].Object? && s[3].OneSlot? && s[4].OneSlot? && s[5].Bools? && s[6].Flag? && s[7].Flag?)
    then None
    else
      match UnmarshalCore(s[8..])
      case None => None
      case Some((core, initID, rest)) =>
        match UnmarshalChunks(rest)
        case None => None
        case Some((chunks, end)) =>
          if end != [] then None
          else Some(Image(s[0].num,
                          Fields(chunks, core, s[1].content, s[2].content, s[3].slot, s[4].slot, Some(s[5].bools), s[6].flag, s[7].flag),
                          initID))
  }

  /** What survives the round trip: a missing record of requests comes back as an empty one, and initID goes with the core. */
  function Normal(m: Image): Image {
    m.(fields := m.fields.(unanswered := Some(if m.fields.unanswered.Some? then m.fields.unanswered.value else [])),
       initID := if m.fields.core.Some? then m.initID else 0)
  }

  /** Reading back what was written gives the same VID. */
  lemma RoundTrip(m: Image)
    ensures Unmarshal(Marshal(m)) == Some(Normal(m))
  {
    var s, a, b := Marshal(m), MarshalCore(m), MarshalChunks(m);
    assert s[8..] == a + b;
    CoreRoundTrip(m, b);
    ChunksRoundTrip(m);
  }

  lemma CoreRoundTrip(m: Image, rest: seq<Token>)
    ensures UnmarshalCore(MarshalCore(m) + rest) == Some((m.fields.core, if m.fields.core.Some? then m.initID else 0, rest))
  {
    var s := MarshalCore(m) + rest;
    assert s[|MarshalCore(m)|..] == rest;
  }

  lemma ChunksRoundTrip(m: Image)
    ensures UnmarshalChunks(MarshalChunks(m)) == Some((m.fields.chunks, []))
  {
    var s := MarshalChunks(m);
    assert s[|s|..] == [];
  }

  lemma NormalIsNormal(m: Image)
    ensures Normal(Normal(m)) == Normal(m)
  {
  }

  /** A VID read back from the database stands for the very state that the one written stood for. */
  lemma PagedInStands(t: Vault, m: Image, v: VID)
    requires Represents(t, m.fields, v)
    ensures var r := Unmarshal(Marshal(m));
            r.Some? && Represents(t, r.value.fields, v) && (v.core.Some? ==> r.value.initID == m.initID)
  {
    hide Marshal, Unmarshal, ChunksOk, CoreOk, TracksOne;
    RoundTrip(m);
  }

  /**
   Nor does it matter to the behaviour whether a record that is gone is taken for an empty one: the record is gone only when
   requests are answered at once, and the next message drops an empty one without an answer.
   */
  lemma EmptyRecordIsHarmless(c: Ctx, v: VID, from: nat, m: Msg)
    requires c.p.Resilient() && m.Complete() && v.canRelease && v.ourChunk.Some?
    ensures Recv(c, Recorded(v, Some({})), from, m) == Recv(c, Recorded(v, None), from, m)
    ensures ReleaseChunk(c, Recorded(v, Some({}))).1 == ReleaseChunk(c, Recorded(v, None)).1 == []
    ensures Recorded(ReleaseChunk(c, Recorded(v, Some({}))).0, None) == ReleaseChunk(c, Recorded(v, None)).0
    ensures RequestPayload(c, Recorded(v, Some({}))).1 == RequestPayload(c, Recorded(v, None)).1
    ensures Recorded(RequestPayload(c, Recorded(v, Some({}))).0, None) == RequestPayload(c, Recorded(v, None)).0
  {
    hide Intake, React;
    IntakeIgnoresRecord(c, Recorded(v, None), Some({}), from, m);
    ReactIgnoresRecord(c, Intake(c, Recorded(v, None), from, m).0);
  }

  function Recorded(v: VID, r: Option<set<nat>>): VID {
    v.(unanswered := r)
  }

  lemma EchoIgnores(v: VID, r: Option<set<nat>>, from: nat, ad: Bytes)
    ensures OnEcho(Recorded(v, r), from, ad) == Recorded(OnEcho(v, from, ad), r)
  {
  }

  lemma ReadyIgnores(v: VID, r: Option<set<nat>>, from: nat)
    ensures OnReady(Recorded(v, r), from) == Recorded(OnReady(v, from), r)
  {
  }

  lemma DisperseIgnores(c: Ctx, v: VID, r: Option<set<nat>>, from: nat, chunk: Bytes, ad: Bytes)
    ensures OnDisperse(c, Recorded(v, r), from, chunk, ad) == Recorded(OnDisperse(c, v, from, chunk, ad), r)
    ensures v.ourChunk.Some? ==> OnDisperse(c, v, from, chunk, ad).ourChunk == v.ourChunk
    ensures OnDisperse(c, v, from, chunk, ad).canRelease == v.canRelease
  {
  }

  lemma RespondIgnores(v: VID, r: Option<set<nat>>, from: nat, chunk: Bytes)
    ensures OnRespond(Recorded(v, r), from, chunk) == Recorded(OnRespond(v, from, chunk), r)
  {
  }

  /** A VID that answers requests at once does not look at its record while it takes in a message. */
  lemma IntakeIgnoresRecord(c: Ctx, v: VID, r: Option<set<nat>>, from: nat, m: Msg)
    requires m.Complete() && v.canRelease && v.ourChunk.Some?
    ensures var (u, out) := Intake(c, v, from, m);
            && Intake(c, Recorded(v, r), from, m) == (Recorded(u, r), out)
            && u.unanswered == v.unanswered && u.canRelease && u.ourChunk.Some?
  {
    hide OnDisperse;
    var v1 := if m.echo then OnEcho(v, from, m.assoc.value) else v;
    if m.echo {
      EchoIgnores(v, r, from, m.assoc.value);
      EchoIgnores(v, v.unanswered, from, m.assoc.value);
    }
    var v2 := if m.ready then OnReady(v1, from) else v1;
    ReadyIgnores(v1, r, from);
    ReadyIgnores(v1, v.unanswered, from);
    if m.disperse {
      DisperseIgnores(c, v2, r, from, m.payload.value, m.assoc.value);
      DisperseIgnores(c, v2, v.unanswered, from, m.payload.value, m.assoc.value);
    }
    var v3 := if m.disperse then OnDisperse(c, v2, from, m.payload.value, m.assoc.value) else v2;
    if m.respond {
      RespondIgnores(v3, r, from, m.payload.value);
    }
  }

  lemma SendIgnores(c: Ctx, u: VID, r: Option<set<nat>>)
    ensures SendReady(c, Recorded(u, r)) == (Recorded(SendReady(c, u).0, r), SendReady(c, u).1)
    ensures SendEcho(c, Recorded(u, r)) == (Recorded(SendEcho(c, u).0, r), SendEcho(c, u).1)
    ensures SendReady(c, u).0 == u.(core := SendReady(c, u).0.core)
    ensures SendEcho(c, u).0 == u.(core := SendEcho(c, u).0.core)
  {
  }

  /** An empty record is dropped without an answer, and leaves no other trace. */
  lemma ReactIgnoresRecord(c: Ctx, u: VID)
    requires c.p.Resilient() && u.unanswered.None? && u.canRelease && u.ourChunk.Some?
    ensures React(c, Recorded(u, Some({}))) == React(c, u)
  {
    hide SendReady, SendEcho, DecodeAssoc, DecodePayload, DropRetrieval, DropCore, Answers;
    var r: Option<set<nat>> := Some({});
    var v1 := SendReady(c, u).0;
    SendIgnores(c, u, r);
    SendIgnores(c, v1, r);
    var v2 := SendEcho(c, v1).0;
    NoAnswers(c, {}, u.ourChunk.value, 0);
    assert Flush(c, Recorded(v2, r)) == (v2, []) && Flush(c, v2) == (v2, []);
  }
}
