/**
 Whole runs of all servers, with all epochs side by side: what correct servers print is one sequence, of which each has
 printed a prefix, and it is exactly what the epochs confirm.
 */
module PikaRuns {
  import opened Common
  import opened Dispersal
  import opened PikaEpoch
  import opened PikaEpochNetwork
  import opened Ledger
  import opened LedgerOrder
  import opened LedgerNode
  import opened PikaNetwork
  import opened PikaWorld
  import PB = PikaEpochBlocks
  import PR = PikaEpochRuns

  /** The book of server q is what the order prescribes in this world. */
  ghost predicate BookOk(k: Cluster, st: State, q: nat, world: World)
    requires Shapely(k, st) && q < k.N() && AllFormed(k.cfg.params, world)
  {
    var b, p := st.books[q], k.cfg.params;
    && b.firstUnoutput <= b.known && (forall e: nat :: e < b.firstUnoutput ==> At(k, st, q, e).termed)
    && OfServers(p, b.done) && b.done == Log(p, world, b.firstUnoutput) && b.log == Lines(p, world, b.done)
    && forall x :: x in b.done ==> x.epoch < b.known && HasBlock(At(k, st, q, x.epoch).v[x.server])
  }

  /** Epochs that confirm alike add alike. */
  lemma {:induction false} AddEpochSame(p: Params, a: World, b: World, ep: nat, i: nat, done: seq<Entry>)
    requires AllFormed(p, a) && AllFormed(p, b) && a(ep).accepted == b(ep).accepted
    requires forall j: nat :: j < p.n ==> ConfirmUntil(p, a(ep), j) == ConfirmUntil(p, b(ep), j)
    requires forall j: nat :: j < p.n ==> LastLevel(p, a, ep, j) == LastLevel(p, b, ep, j)
    ensures AddEpoch(p, a, ep, i, done) == AddEpoch(p, b, ep, i, done)
    decreases p.n - i
  {
    hide ConfirmUntil, LastLevel, AddLevels, AddOnce;
    if i < p.n {
      assert Formed(p, a(ep));
      AddEpochSame(p, a, b, ep, i + 1, AddServer(p, a, ep, i, done));
    }
  }

  lemma LinesAppend(p: Params, world: World, a: seq<Entry>, b: seq<Entry>)
    requires AllFormed(p, world) && OfServers(p, a) && OfServers(p, b)
    ensures OfServers(p, a + b) && Lines(p, world, a + b) == Lines(p, world, a) + Lines(p, world, b)
  {
    hide Formed;
  }

  lemma LinesSame(p: Params, a: World, b: World, done: seq<Entry>)
    requires AllFormed(p, a) && AllFormed(p, b) && OfServers(p, done)
    requires forall x :: x in done ==> a(x.epoch).blocks[x.server] == b(x.epoch).blocks[x.server]
    ensures Lines(p, a, done) == Lines(p, b, done)
  {
  }

  /** What server q outputs next is what the world prescribes. */
  lemma PrintedAgrees(k: Cluster, st: State, fin: State, foreign: Foreign, q: nat)
    requires Sound(k, st) && Sound(k, fin) && Later(k, st, fin) && k.cfg.Correct(q)
    requires Restores(k.cfg.params, k.codec) && Granted(k, fin, foreign)
    requires AllFormed(k.cfg.params, Own(k, st, q)) && AllFormed(k.cfg.params, WorldOf(k, fin, foreign))
    requires BookOk(k, st, q, WorldOf(k, fin, foreign)) && At(k, st, q, st.books[q].firstUnoutput).termed
    ensures AddEpoch(k.cfg.params, Own(k, st, q), st.books[q].firstUnoutput, 0, st.books[q].done)
            == Log(k.cfg.params, WorldOf(k, fin, foreign), st.books[q].firstUnoutput + 1)
  {
    hide Sound, Lasts, Granted, Restores, Formed, ConfirmUntil, Lines, AddEpoch, OfServers, Own, WorldOf;
    var p, own, world, ep := k.cfg.params, Own(k, st, q), WorldOf(k, fin, foreign), st.books[q].firstUnoutput;
    OwnConfirms(k, st, fin, foreign, q, ep);
    if ep > 0 {
      assert At(k, st, q, ep - 1).termed;
      OwnConfirms(k, st, fin, foreign, q, ep - 1);
    }
    AddEpochSame(p, own, world, ep, 0, st.books[q].done);
  }

  /** The blocks that server q newly confirms are there. */
  lemma NewBlocksThere(k: Cluster, st: State, fin: State, foreign: Foreign, q: nat, x: Entry)
    requires Sound(k, st) && Sound(k, fin) && Later(k, st, fin) && k.cfg.Correct(q)
    requires Restores(k.cfg.params, k.codec) && Granted(k, fin, foreign)
    requires AllFormed(k.cfg.params, Own(k, st, q)) && LinksReady(k, st, q, st.books[q].firstUnoutput)
    requires st.books[q].firstUnoutput < st.books[q].known && At(k, st, q, st.books[q].firstUnoutput).termed
    requires x.server < k.N() && Adds(k.cfg.params, Own(k, st, q), st.books[q].firstUnoutput, x)
    ensures x.epoch < st.books[q].known && HasBlock(At(k, st, q, x.epoch).v[x.server])
    ensures Own(k, st, q)(x.epoch).blocks[x.server] == WorldOf(k, fin, foreign)(x.epoch).blocks[x.server]
  {
    hide Sound, Lasts, Granted, Restores, ConfirmUntil, LastLevel, HasBlock, BlockOf, PB.AcceptedSomewhere;
    OwnAgrees(k, st, fin, foreign, q, st.books[q].firstUnoutput, x.server);
    OwnAgrees(k, st, fin, foreign, q, x.epoch, x.server);
  }

  /** The entries that the output of an epoch adds are there, with the blocks of the world. */
  ghost predicate AddedThere(k: Cluster, st: State, q: nat, world: World, done: seq<Entry>)
    requires Shapely(k, st) && q < k.N() && AllFormed(k.cfg.params, world) && AllFormed(k.cfg.params, Own(k, st, q))
  {
    forall x :: x in done && x !in st.books[q].done ==>
      && x.server < k.N() && x.epoch < st.books[q].known && HasBlock(At(k, st, q, x.epoch).v[x.server])
      && x.server < |Own(k, st, q)(x.epoch).blocks| && x.server < |world(x.epoch).blocks|
      && Own(k, st, q)(x.epoch).blocks[x.server] == world(x.epoch).blocks[x.server]
  }

  lemma AddedAreThere(k: Cluster, st: State, fin: State, foreign: Foreign, q: nat)
    requires Sound(k, st) && Sound(k, fin) && Later(k, st, fin) && k.cfg.Correct(q)
    requires Restores(k.cfg.params, k.codec) && Granted(k, fin, foreign) && AllFormed(k.cfg.params, WorldOf(k, fin, foreign))
    requires AllFormed(k.cfg.params, Own(k, st, q)) && LinksReady(k, st, q, st.books[q].firstUnoutput)
    requires st.books[q].firstUnoutput < st.books[q].known && At(k, st, q, st.books[q].firstUnoutput).termed
    ensures var b, p := st.books[q], k.cfg.params;
            AddedThere(k, st, q, WorldOf(k, fin, foreign), AddEpoch(p, Own(k, st, q), b.firstUnoutput, 0, b.done))
  {
    hide Sound, Lasts, Granted, Restores, Formed, ConfirmUntil, LinksReady, AddEpoch, Adds, BlockOf, PB.AcceptedSomewhere, HasBlock, Distinct;
    var own, b := Own(k, st, q), st.books[q];
    AddEpochExtends(k.cfg.params, own, b.firstUnoutput, 0, b.done);
    forall x: Entry | x.server < k.N() && Adds(k.cfg.params, own, b.firstUnoutput, x)
      ensures x.epoch < b.known && HasBlock(At(k, st, q, x.epoch).v[x.server])
      ensures own(x.epoch).blocks[x.server] == WorldOf(k, fin, foreign)(x.epoch).blocks[x.server]
    {
      NewBlocksThere(k, st, fin, foreign, q, x);
    }
  }

  lemma OutputKeepsBook(k: Cluster, st: State, next: State, fin: State, foreign: Foreign, q: nat)
    requires Sound(k, st) && Sound(k, next) && Sound(k, fin) && Later(k, st, next) && Later(k, st, fin)
    requires Restores(k.cfg.params, k.codec) && Granted(k, fin, foreign)
    requires AllFormed(k.cfg.params, WorldOf(k, fin, foreign)) && AllFit(k, st)
    requires k.cfg.Correct(q) && BookOk(k, st, q, WorldOf(k, fin, foreign)) && Outputs(k, st, next, q)
    ensures BookOk(k, next, q, WorldOf(k, fin, foreign))
  {
    hide Sound, Lasts, Granted, Restores, Formed, ConfirmUntil, LinksReady, AddEpoch, Log, Lines, PR.Fit, WorldOf, Own, HasBlock, Distinct;
    var p, own, world, b := k.cfg.params, Own(k, st, q), WorldOf(k, fin, foreign), st.books[q];
    var done := AddEpoch(p, own, b.firstUnoutput, 0, b.done);
    PrintedAgrees(k, st, fin, foreign, q);
    AddEpochInRange(p, own, b.firstUnoutput, b.done);
    AddedAreThere(k, st, fin, foreign, q);
    LogIsExact(p, world, b.firstUnoutput + 1);
    NewLines(p, own, world, b.done, done);
    forall e: nat
      ensures At(k, next, q, e) == At(k, st, q, e)
    {
      assert next.nets(e) == st.nets(e);
    }
  }

  /** Appending the lines of the new entries yields all lines. */
  lemma NewLines(p: Params, own: World, world: World, before: seq<Entry>, done: seq<Entry>)
    requires AllFormed(p, own) && AllFormed(p, world) && OfServers(p, done) && before <= done && Distinct(done)
    requires OfServers(p, before) && OfServers(p, done[|before|..])
    requires forall x :: x in done && x !in before ==>
               && x.server < |own(x.epoch).blocks| && x.server < |world(x.epoch).blocks|
               && own(x.epoch).blocks[x.server] == world(x.epoch).blocks[x.server]
    ensures Lines(p, world, before) + Lines(p, own, done[|before|..]) == Lines(p, world, done)
  {
    hide Formed, Lines;
    var added := done[|before|..];
    forall x | x in added
      ensures x in done && x !in before
    {
      var a :| 0 <= a < |added| && added[a] == x;
      NewIsNew(before, done, |before| + a);
    }
    LinesSame(p, own, world, added);
    LinesAppend(p, world, before, added);
    assert before + added == done;
  }

  /** Whatever else happens leaves the book of server q in order. */
  lemma OthersKeepBook(k: Cluster, st: State, next: State, q: nat, world: World)
    requires Later(k, st, next) && k.cfg.Correct(q) && AllFormed(k.cfg.params, world) && BookOk(k, st, q, world)
    requires var b, c := st.books[q], next.books[q];
             c.firstUnoutput == b.firstUnoutput && c.done == b.done && c.log == b.log
    ensures BookOk(k, next, q, world)
  {
    hide Log, Lines, Formed, PayloadDispersed;
    forall e: nat, i: nat | i < k.N()
      ensures PB.LastsAt(k.G(q), At(k, st, q, e), At(k, next, q, e), i)
    {
      assert Lasts(k, st, next, e, q);
    }
    forall e: nat | e < next.books[q].firstUnoutput
      ensures At(k, next, q, e).termed
    {
      assert At(k, st, q, e).termed;
      assert PB.LastsAt(k.G(q), At(k, st, q, e), At(k, next, q, e), q);
    }
    forall x | x in next.books[q].done
      ensures HasBlock(At(k, next, q, x.epoch).v[x.server])
    {
      assert PB.LastsAt(k.G(q), At(k, st, q, x.epoch), At(k, next, q, x.epoch), x.server);
    }
  }

  /** Only its own output changes what a book says has been output. */
  lemma OthersLeaveBook(k: Cluster, st: State, next: State, q: nat)
    requires Moves(k, st, next) && q < k.N() && !Outputs(k, st, next, q)
    ensures |next.books| == k.N()
    ensures var b, c := st.books[q], next.books[q];
            c.firstUnoutput == b.firstUnoutput && c.done == b.done && c.log == b.log
  {
    hide PR.Fit, PR.Acts, PR.Forges, LinksReady, OthersRest, Printed, NextReferences;
    if r, e, act :| Works(k, st, next, r, e, act) {
      ActMoves(k, st.nets(e), next.nets(e), r, act);
    } else if r, body :| Proposes(k, st, next, r, body) {
    } else if r :| Outputs(k, st, next, r) {
    }
  }

  lemma MoveKeepsBook(k: Cluster, st: State, next: State, fin: State, foreign: Foreign, q: nat)
    requires Sound(k, st) && Sound(k, fin) && Moves(k, st, next) && Later(k, st, fin)
    requires Restores(k.cfg.params, k.codec) && Granted(k, fin, foreign) && k.cfg.Correct(q)
    requires AllFormed(k.cfg.params, WorldOf(k, fin, foreign)) && BookOk(k, st, q, WorldOf(k, fin, foreign))
    ensures Shapely(k, next) && BookOk(k, next, q, WorldOf(k, fin, foreign))
  {
    hide Sound, Lasts, Granted, Restores, Formed, BookOk, PR.Fit, WorldOf, Outputs, Moves;
    SoundIsFit(k, st);
    MoveKeepsSound(k, st, next);
    if Outputs(k, st, next, q) {
      OutputKeepsBook(k, st, next, fin, foreign, q);
    } else {
      OthersLeaveBook(k, st, next, q);
      OthersKeepBook(k, st, next, q, WorldOf(k, fin, foreign));
    }
  }

  lemma StartBook(k: Cluster, st: State, q: nat, world: World)
    requires Start(k, st) && Shapely(k, st) && q < k.N() && AllFormed(k.cfg.params, world)
    ensures BookOk(k, st, q, world)
  {
  }

  /** At any time t the book of a correct server is what the world as it turns out to be at u prescribes. */
  lemma {:induction false} RunBookOk(k: Cluster, run: seq<State>, t: nat, u: nat, foreign: Foreign, q: nat)
    requires Run(k, run) && t <= u < |run| && k.cfg.Correct(q) && Shapely(k, run[u])
    requires Restores(k.cfg.params, k.codec) && Granted(k, run[u], foreign)
    ensures Shapely(k, run[t]) && AllFormed(k.cfg.params, WorldOf(k, run[u], foreign))
    ensures Linked(k.cfg.params, WorldOf(k, run[u], foreign)) && BookOk(k, run[t], q, WorldOf(k, run[u], foreign))
  {
    hide Sound, Moves, Lasts, Granted, Restores, Formed, BookOk, WorldOf, Start, Linked, Shapely;
    RunIsLater(k, run, t, u);
    WorldIsLinked(k, run[u], foreign);
    SoundIsFit(k, run[t]);
    if t == 0 {
      StartBook(k, run[0], q, WorldOf(k, run[u], foreign));
    } else {
      RunBookOk(k, run, t - 1, u, foreign, q);
      assert Moves(k, run[t - 1], run[t]);
      RunIsLater(k, run, t - 1, u);
      MoveKeepsBook(k, run[t - 1], run[t], run[u], foreign, q);
    }
  }

  /**
   Prefix consistency: of what two correct servers have printed at any two times of a run, one is a prefix of the other.
   */
  lemma PrefixConsistent(k: Cluster, run: seq<State>, t: nat, u: nat, foreign: Foreign, q: nat, r: nat)
    requires Run(k, run) && t <= u < |run| && k.cfg.Correct(q) && k.cfg.Correct(r) && Shapely(k, run[u])
    requires Restores(k.cfg.params, k.codec) && Granted(k, run[u], foreign)
    ensures Shapely(k, run[t])
    ensures run[t].books[q].log <= run[u].books[r].log || run[u].books[r].log <= run[t].books[q].log
  {
    hide Run, Shaped, Granted, Restores, Formed, WorldOf;
    RunBookOk(k, run, t, u, foreign, q);
    RunBookOk(k, run, u, u, foreign, r);
    LogsCompare(k.cfg.params, WorldOf(k, run[u], foreign), run[t].books[q].firstUnoutput, run[u].books[r].firstUnoutput);
  }

  /**
   What a correct server has printed at any time: exactly the blocks below the highest levels confirmed by the epochs
   output so far and the blocks these accepted, each once, and each with the body that was dispersed.
   */
  lemma PrintedExactly(k: Cluster, run: seq<State>, t: nat, foreign: Foreign, q: nat, x: Entry)
    requires Run(k, run) && t < |run| && k.cfg.Correct(q) && Shapely(k, run[t])
    requires Restores(k.cfg.params, k.codec) && Granted(k, run[t], foreign)
    ensures AllFormed(k.cfg.params, WorldOf(k, run[t], foreign))
    ensures var b, world := run[t].books[q], WorldOf(k, run[t], foreign);
            && (Confirmed(k.cfg.params, world, b.firstUnoutput, x) <==> Prints(b.log, x))
            && Once(b.log) && Bodied(world, b.log)
  {
    hide Run, Granted, Restores, Formed, WorldOf, ConfirmUntil;
    RunBookOk(k, run, t, t, foreign, q);
    LinesAreExact(k.cfg.params, WorldOf(k, run[t], foreign), run[t].books[q].firstUnoutput, x);
  }

  /**
   The order of what a correct server has printed at any time: a block that an earlier epoch confirms comes first; of the
   blocks that one epoch newly confirms, those of a smaller server, and of one server those of a smaller epoch.
   */
  lemma PrintedInOrder(k: Cluster, run: seq<State>, t: nat, foreign: Foreign, q: nat)
    requires Run(k, run) && t < |run| && k.cfg.Correct(q) && Shapely(k, run[t])
    requires Restores(k.cfg.params, k.codec) && Granted(k, run[t], foreign)
    ensures AllFormed(k.cfg.params, WorldOf(k, run[t], foreign))
    ensures InOrder(k.cfg.params, WorldOf(k, run[t], foreign), run[t].books[q].log)
  {
    hide Run, Granted, Restores, Formed, WorldOf, ConfirmUntil, InOrder;
    RunBookOk(k, run, t, t, foreign, q);
    LinesAreOrdered(k.cfg.params, WorldOf(k, run[t], foreign), run[t].books[q].firstUnoutput);
  }

  /** A correct server that has terminated its next epoch and has the blocks it confirms can output it. */
  lemma CanOutput(k: Cluster, run: seq<State>, t: nat, foreign: Foreign, q: nat)
    requires Run(k, run) && t < |run| && k.cfg.Correct(q) && Shapely(k, run[t])
    requires Restores(k.cfg.params, k.codec) && Granted(k, run[t], foreign)
    ensures AllFormed(k.cfg.params, Own(k, run[t], q)) && OfServers(k.cfg.params, run[t].books[q].done)
  {
    hide Run, Granted, Restores, Formed, WorldOf;
    RunBookOk(k, run, t, t, foreign, q);
    RunIsSound(k, run, t);
    OwnIsFormed(k, run[t], foreign, q);
  }
}
