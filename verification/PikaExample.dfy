/**
 The smallest cluster at work: one server, none faulty. It proposes a block, hears its own votes, accepts the block and
 prints it, so that the theorems about printed logs do not speak of empty logs only.
 */
module PikaExample {
  import opened Common
  import opened Dispersal
  import opened AgreementEpoch
  import opened PikaEpoch
  import opened PikaEpochNetwork
  import opened Ledger
  import opened LedgerOrder
  import opened LedgerNode
  import opened PikaNetwork
  import opened PikaWorld
  import A = Agreement
  import PR = PikaEpochRuns

  const ALONE := Params(1, 0)

  const LONE := Config(ALONE, {})

  const VIABLE := A.EpochMsg(0, Signal(Viable, true))
  const AGREED := A.EpochMsg(0, Signal(Agreement, true))

  /** Epoch 0 of the agreement once the server has voted, and once it has heard itself. */
  const VOTED := FRESH_EPOCH.(yes := FRESH_SIDE.(sent := true), estimate := true)
  const HEARD := VOTED.(yes := Side({0}, true, true, false), sentAgreement := true)

  function Voting(ep: Epoch): A.State {
    A.Running(A.Core(true, 0, 1, [None], [ep]))
  }

  function First(body: Bytes): Payload {
    Block([0], body)
  }

  /** The epoch after the proposal, with the agreement in state t. */
  function Proposed(g: Server, x: Payload, t: A.State): EpochState {
    var v := Initial(g.VID(0)).(payload := Some(x), assoc := Some(EmptyPayload), canRelease := true);
    EpochState([t], [v], [Some(true)], [false], [true], [false], false, false, false)
  }

  function Done(g: Server, x: Payload): EpochState {
    Proposed(g, x, A.Decided(true)).(retrieved := [true], termed := true, hptermed := true)
  }

  lemma Begins(g: Server, x: Payload)
    requires g.p == ALONE && g.id == 0
    requires |g.codec.encode(x)| == 1 && |g.codec.encode(EmptyPayload)| == 1
    ensures Sized(g, Fresh(g)) && Runnable(g, Fresh(g)) && Init(g, Fresh(g), x).0 == Proposed(g, x, Voting(VOTED))
    ensures BAOut(0, VIABLE) in Init(g, Fresh(g), x).1
  {
    var s := Fresh(g);
    var (v, out1) := Disperse(g.VID(0), s.v[0], x, EmptyPayload);
    var s1 := s.(v := s.v[0 := v]);
    var (s2, out2) := ReleaseAll(g, s1, 0);
    assert ReleaseAll(g, s1, 0).0 == Release(g, s1, 0).0;
    assert s2 == Proposed(g, x, A.Initial(ALONE)).(input := [None]);
    var (t, out) := A.Input(s2.b[0], true);
    assert t == Voting(VOTED);
    assert out == [VIABLE];
    assert BAOuts(0, out)[0] == BAOut(0, VIABLE);
  }

  lemma Hears()
    ensures A.Recv(ALONE, Voting(VOTED), 0, VIABLE).0 == Voting(HEARD)
    ensures AGREED in A.Recv(ALONE, Voting(VOTED), 0, VIABLE).1
  {
    var (ep, out) := RecvSignal(ALONE, VOTED, 0, VIABLE.signal);
    assert OnViable(ALONE, VOTED, 0, true).0 == HEARD;
    assert HEARD.Backed() == {};
    assert ep == HEARD && out == [Signal(Agreement, true)];
    assert A.Lift(0, out) == [AGREED];
    var core := Voting(VOTED).core;
    assert A.Handle(ALONE, core, 0, VIABLE).1 == [AGREED];
    assert A.Record(ALONE, core, 0, VIABLE).0 == Voting(HEARD).core;
  }

  lemma Decides()
    ensures A.Recv(ALONE, Voting(HEARD), 0, AGREED).0 == A.Decided(true)
  {
    var ep := OnAgreement(HEARD, 0, true);
    assert 0 in ep.agreed && ep.agreed[0] == true;
    assert ep.Backed() == {0};
    assert Settle(ALONE, ep).Candidates() == {true};
  }

  /** The server hears its own vote, and agrees with it. */
  lemma HearsVote(g: Server, x: Payload)
    requires g.p == ALONE && g.id == 0
    ensures var s := Proposed(g, x, Voting(VOTED));
            && Sized(g, s) && Runnable(g, s) && OnBA(g, s, 0, 0, VIABLE).0 == Proposed(g, x, Voting(HEARD))
            && BAOut(0, AGREED) in OnBA(g, s, 0, 0, VIABLE).1
    ensures Conclude(Proposed(g, x, Voting(HEARD))) == Proposed(g, x, Voting(HEARD))
  {
    hide A.Recv;
    Hears();
    var s, s1, out := Proposed(g, x, Voting(VOTED)), Proposed(g, x, Voting(HEARD)), A.Recv(ALONE, Voting(VOTED), 0, VIABLE).1;
    var a :| 0 <= a < |out| && out[a] == AGREED;
    assert BAOuts(0, out)[a] == BAOut(0, AGREED);
    assert s.(b := s.b[0 := Voting(HEARD)]) == s1;
    assert !s1.b[0].Decided?;
  }

  /** Hearing its own Agreement brings the epoch to its end: the block is accepted, and it is there. */
  lemma HearsAgreement(g: Server, x: Payload)
    requires g.p == ALONE && g.id == 0 && x.Block?
    ensures var s := Proposed(g, x, Voting(HEARD));
            Sized(g, s) && Runnable(g, s) && Conclude(OnBA(g, s, 0, 0, AGREED).0) == Done(g, x)
  {
    hide A.Recv;
    Decides();
    var s, s1 := Proposed(g, x, Voting(HEARD)), Proposed(g, x, A.Decided(true));
    assert s.(b := s.b[0 := A.Decided(true)]) == s1;
    assert OnBA(g, s, 0, 0, AGREED).0 == Decide(g, s1, 0).0;
    assert Fetch(g, s1, 0).0 == s1;
    assert InputFalse(g, s1, 0).0 == s1;
    assert AllDecided(s1);
    assert Retrieved(s1) == [true];
  }

  /** Epoch 0 after an action of the server. */
  ghost function With(st: State, net: Net, b: Book): State {
    State((e: nat) => if e == 0 then net else st.nets(e), [b])
  }

  /** The server does act in epoch 0 and sends out. */
  lemma Work(k: Cluster, st: State, m: A.BAMsg, b: Book) returns (next: State)
    requires k.cfg == LONE && Sound(k, st) && Shapely(k, st) && st.books == [b] && b.known >= 1
    requires Sized(k.G(0), At(k, st, 0, 0)) && Runnable(k.G(0), At(k, st, 0, 0))
    requires (0, m) in st.nets(0).ba[0]
    ensures Moves(k, st, next) && Sound(k, next) && Shapely(k, next) && next.books == st.books
    ensures var (s, out) := OnBA(k.G(0), At(k, st, 0, 0), 0, 0, m);
            At(k, next, 0, 0) == Conclude(s) && forall o :: BAOut(0, o) in out ==> (0, o) in next.nets(0).ba[0]
  {
    hide Sound, OnBA, Conclude, Runnable;
    SoundIsFit(k, st);
    var act, net := PR.GetBA(0, 0, m), st.nets(0);
    assert PR.Possible(k, net, 0, act);
    var (s, out) := PR.Do(k, net, 0, act);
    next := With(st, Post(k, net, 0, s, out), b);
    assert Works(k, st, next, 0, 0, act);
    MoveKeepsSound(k, st, next);
    SoundIsFit(k, next);
  }

  /** The server proposes its first block. */
  lemma Propose(k: Cluster, st: State, body: Bytes) returns (next: State)
    requires k.cfg == LONE && Start(k, st) && Restores(ALONE, k.codec)
    ensures Moves(k, st, next) && Sound(k, next) && Shapely(k, next)
    ensures next.books == [Book(1, [First(body)], 0, [], [])]
    ensures At(k, next, 0, 0) == Proposed(k.G(0), First(body), Voting(VOTED)) && (0, VIABLE) in next.nets(0).ba[0]
  {
    hide Sound, Runnable, Restores, Init;
    StartSound(k, st);
    SoundIsFit(k, st);
    CanPropose(k, st, 0, body);
    var net, act := st.nets(0), PR.Begin(First(body));
    assert NextReferences(k, st, 0) == [0];
    var (s, out) := PR.Do(k, net, 0, act);
    Begins(k.G(0), First(body));
    next := With(st, Post(k, net, 0, s, out), Book(1, [First(body)], 0, [], []));
    assert [] + [First(body)] == [First(body)];
    assert next.books == st.books[0 := next.books[0]];
    assert Proposes(k, st, next, 0, body);
    MoveKeepsSound(k, st, next);
    SoundIsFit(k, next);
  }

  /** The server outputs epoch 0. */
  lemma Output(k: Cluster, st: State, body: Bytes, foreign: Foreign) returns (next: State)
    requires k.cfg == LONE && Sound(k, st) && Shapely(k, st) && Restores(ALONE, k.codec) && Granted(k, st, foreign)
    requires st.books == [Book(1, [First(body)], 0, [], [])] && At(k, st, 0, 0) == Done(k.G(0), First(body))
    ensures Moves(k, st, next) && Sound(k, next) && Shapely(k, next)
    ensures next.books == [Book(1, [First(body)], 1, [Entry(0, 0)], [Line(0, 0, body)])]
  {
    hide Sound, Restores, Granted, AllFit;
    SoundIsFit(k, st);
    OwnIsFormed(k, st, foreign, 0);
    var own := Own(k, st, 0);
    assert own(0) == Fate([true], [First(body)]);
    assert Levels(ALONE, own(0), 0) == [0];
    assert ConfirmUntil(ALONE, own(0), 0) == 0;
    assert AddEpoch(ALONE, own, 0, 0, []) == [Entry(0, 0)];
    var done := [Entry(0, 0)];
    assert [] + Lines(ALONE, own, done[0..]) == [Line(0, 0, body)];
    assert Printed(k, st, 0).log == [Line(0, 0, body)];
    next := State(st.nets, [Printed(k, st, 0)]);
    assert Outputs(k, st, next, 0);
    MoveKeepsSound(k, st, next);
    SoundIsFit(k, next);
  }

  /** Without faulty servers there is nothing to grant. */
  lemma NothingToGrant(k: Cluster, st: State, foreign: Foreign)
    requires k.cfg == LONE && Shapely(k, st) && Restores(ALONE, k.codec)
    ensures Granted(k, st, foreign)
  {
  }

  /** A run in which the server proposes a block, accepts it and prints it. */
  lemma PrintingRun(k: Cluster, body: Bytes) returns (run: seq<State>)
    requires k.cfg == LONE && Restores(ALONE, k.codec)
    ensures Run(k, run) && |run| == 5 && Shapely(k, run[4]) && k.cfg.Correct(0)
    ensures forall foreign :: Granted(k, run[4], foreign)
    ensures run[4].books[0].log == [Line(0, 0, body)]
  {
    hide Sound, Moves, Restores, Granted, Runnable, OnBA, Conclude;
    var foreign := (e: nat, i: nat) => NoBlock(1);
    var st0 := State((e: nat) => PR.Start(k), [NEW_BOOK]);
    HearsVote(k.G(0), First(body));
    HearsAgreement(k.G(0), First(body));
    var st1 := Propose(k, st0, body);
    var st2 := Work(k, st1, VIABLE, st1.books[0]);
    var st3 := Work(k, st2, AGREED, st2.books[0]);
    NothingToGrant(k, st3, foreign);
    var st4 := Output(k, st3, body, foreign);
    run := [st0, st1, st2, st3, st4];
    forall f: Foreign
      ensures Granted(k, st4, f)
    {
      NothingToGrant(k, st4, f);
    }
  }
}
