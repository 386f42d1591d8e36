/** Whole runs of the dispersal: availability of the payload, totality, and that no chunk request is lost. */
module DispersalRuns {
  import opened Common
  import opened Dispersal
  import opened DispersalInvariant
  import opened DispersalStep
  import opened DispersalNetwork

  /** B contains every faulty server, and the faulty servers and the initiator, whose Ready travels with its Disperse, are
      not more than F. */
  ghost predicate Shields(s: System, b: set<nat>) {
    s.cfg.faulty <= b && b <= Nodes(s.cfg.params.n) && |b| <= s.cfg.params.f && |s.cfg.faulty + {s.initID}| <= s.cfg.params.f
  }

  /** That is so if B contains the initiator as well. */
  lemma InitiatorShields(s: System, b: set<nat>)
    requires s.cfg.faulty <= b && b <= Nodes(s.cfg.params.n) && |b| <= s.cfg.params.f
    requires s.initID in b || |s.cfg.faulty| < s.cfg.params.f
    ensures Shields(s, b)
  {
    if s.initID in b {
      SubsetCount(s.cfg.faulty + {s.initID}, b);
    }
  }

  /** The servers outside b that have stored their own chunk. */
  ghost function Holders(s: System, net: Net, b: set<nat>): set<nat>
    requires |net.nodes| == s.cfg.params.n
  {
    set q: nat | q in Nodes(s.cfg.params.n) - b && net.nodes[q].ourChunk.Some?
  }

  ghost predicate Available(s: System, net: Net, b: set<nat>)
    requires |net.nodes| == s.cfg.params.n
  {
    |Holders(s, net, b)| + 2 * s.cfg.params.f >= s.cfg.params.n
  }

  /** A correct server speaks up only when the payload is available. */
  ghost predicate Backed(s: System, net: Net, b: set<nat>)
    requires |net.nodes| == s.cfg.params.n
  {
    forall q: nat :: s.Correct(q) && Speaks(net.nodes[q]) ==> Available(s, net, b)
  }

  /** A Ready sent by a correct server other than the initiator shows that the payload is available. */
  lemma ReadyBacks(s: System, net: Net, b: set<nat>, r: nat)
    requires Invariant(s, net) && Backed(s, net, b)
    requires s.Correct(r) && r != s.initID && ReadySent(s, net.sent, r)
    ensures Available(s, net, b)
  {
    hide Ok, NodeOk, HandledOk, Available;
    assert ReadySentTo(net.sent, r, 0);
    var e :| e in net.sent && e.from == r && e.dest == 0 && e.msg.ready;
    assert MessageOk(s, net, e);
  }

  lemma AvailableStays(s: System, net: Net, next: Net, b: set<nat>)
    requires Later(s, net, next) && Available(s, net, b)
    ensures Available(s, next, b)
  {
    SubsetCount(Holders(s, net, b), Holders(s, next, b));
  }

  /** N-F Echos, founded in what others did, make the payload available. */
  lemma EchosBack(s: System, net: Net, b: set<nat>, u: CoreState)
    requires |net.nodes| == s.cfg.params.n && Shields(s, b) && Founded(s, net, u)
    requires u.echos.Keys <= Nodes(s.cfg.params.n)
    ensures |u.echos| + s.cfg.params.f >= s.cfg.params.n ==> Available(s, net, b)
  {
    var es := u.echos.Keys;
    assert |es| == |u.echos|;
    SubsetCount(es * b, b);
    assert |es - b| == |es| - |es * b|;
    SubsetCount(es - b, Holders(s, net, b));
  }

  /** So do F+1 Readys. */
  lemma ReadysBack(s: System, net: Net, b: set<nat>, rs: set<nat>)
    requires Invariant(s, net) && Shields(s, b) && Backed(s, net, b)
    requires rs <= Nodes(s.cfg.params.n) && |rs| >= s.cfg.params.f + 1
    requires forall r: nat :: r in rs && s.Correct(r) ==> ReadySent(s, net.sent, r)
    ensures Available(s, net, b)
  {
    hide ReadySent, Invariant, Backed, Available;
    var few := s.cfg.faulty + {s.initID};
    if rs <= few {
      SubsetCount(rs, few);
    }
    assert rs - few != {};
    var r :| r in rs - few;
    ReadyBacks(s, net, b, r);
  }

  /** The Readys counted when a message has been taken in were sent before. */
  lemma MidReadysSent(s: System, net: Net, next: Net, q: nat, act: Act)
    requires Invariant(s, net) && Acts(s, net, next, q, act) && act.Hear? && net.nodes[q].core.Some?
    ensures var u := Mid(s.At(q), net.nodes[q], act);
            u.core.Some? && forall r: nat :: r in u.core.value.readys && s.Correct(r) ==> ReadySent(s, net.sent, r)
  {
    hide Intake, React, Ok, ReadySent, HandledOk;
    var e := Envelope(act.m, act.from, q);
    assert e in Heard(q, act);
    assert MessageOk(s, net, e) && NodeOk(s, net, q);
    IntakeAdds(s.At(q), net.nodes[q], act.from, act.m);
  }

  lemma SpeakingBacks(s: System, net: Net, next: Net, b: set<nat>, q: nat, act: Act)
    requires Invariant(s, net) && Acts(s, net, next, q, act)
    ensures Shields(s, b) && Backed(s, net, b) && !Speaks(net.nodes[q]) && Speaks(next.nodes[q]) ==> Available(s, next, b)
  {
    hide Intake, React, Ok, ReadySent, ReadyToAll, NodeOk, MessageOk, HandledOk, Founded, Kept, Available, Backed;
    var c, v := s.At(q), net.nodes[q];
    ActLater(s, net, next, q, act);
    if act.Hear? && Shields(s, b) && Backed(s, net, b) && !Speaks(v) && Speaks(next.nodes[q]) {
      var u := Mid(c, v, act);
      IntakeAdds(c, v, act.from, act.m);
      SpeaksWhenRipe(c, u);
      MidFounded(s, net, next, q, act);
      MidInRange(s, net, next, q, act);
      MidReadysSent(s, net, next, q, act);
      if |u.core.value.readys| >= s.cfg.params.f + 1 {
        ReadysBack(s, net, b, u.core.value.readys);
        AvailableStays(s, net, next, b);
      } else {
        EchosBack(s, next, b, u.core.value);
      }
    } else if !act.Hear? {
      OthersLeaveCore(c, v, act);
    }
  }

  lemma StepKeepsBacked(s: System, net: Net, next: Net, b: set<nat>)
    requires Invariant(s, net) && Shields(s, b) && Backed(s, net, b) && Step(s, net, next)
    ensures |next.nodes| == s.cfg.params.n && Backed(s, next, b)
  {
    hide Do, NodeOk, MessageOk, HandledOk, Available;
    if q, act :| Acts(s, net, next, q, act) {
      ActLater(s, net, next, q, act);
      forall r: nat | s.Correct(r) && Speaks(next.nodes[r])
        ensures Available(s, next, b)
      {
        if Speaks(net.nodes[r]) {
          AvailableStays(s, net, next, b);
        } else {
          SpeakingBacks(s, net, next, b, q, act);
        }
      }
    } else {
      var e :| Forges(s, net, next, e);
      if Available(s, net, b) {
        AvailableStays(s, net, next, b);
      }
    }
  }

  lemma {:induction false} RunKeepsBacked(s: System, run: seq<Net>, i: nat, b: set<nat>)
    requires Run(s, run) && i < |run| && Shields(s, b)
    ensures Invariant(s, run[i]) && Backed(s, run[i], b)
  {
    hide Step, Invariant, Backed;
    RunKeepsInvariant(s, run, i);
    if i == 0 {
      StartBacked(s, b);
    } else {
      RunKeepsBacked(s, run, i - 1, b);
      assert Step(s, run[i - 1], run[i]);
      StepKeepsBacked(s, run[i - 1], run[i], b);
    }
  }

  lemma StartBacked(s: System, b: set<nat>)
    requires s.Valid()
    ensures |Start(s).nodes| == s.cfg.params.n && Backed(s, Start(s), b)
  {
  }

  lemma BackedIsAvailable(s: System, net: Net, b: set<nat>, q: nat)
    requires Invariant(s, net) && Shields(s, b) && Backed(s, net, b)
    requires s.Correct(q) && PayloadDispersed(s.At(q), net.nodes[q])
    ensures Available(s, net, b)
  {
    hide ReadySent;
    assert NodeOk(s, net, q);
    var v := net.nodes[q];
    if v.core.Some? {
      ReadysBack(s, net, b, v.core.value.readys);
    } else {
      assert Speaks(v);
    }
  }

  /** Availability: once one correct server sees the payload dispersed, N-2F servers outside b hold their chunk. */
  lemma DispersedIsAvailable(s: System, run: seq<Net>, i: nat, b: set<nat>, q: nat)
    requires Run(s, run) && i < |run| && Shields(s, b) && |run[i].nodes| == s.cfg.params.n
    requires s.Correct(q) && PayloadDispersed(s.At(q), run[i].nodes[q])
    ensures |Holders(s, run[i], b)| >= s.cfg.params.n - 2 * s.cfg.params.f
  {
    hide Invariant;
    RunKeepsBacked(s, run, i, b);
    BackedIsAvailable(s, run[i], b, q);
  }

  /** All messages between correct servers have been handled. */
  ghost predicate Quiet(s: System, net: Net) {
    forall e :: e in net.sent && s.Correct(e.from) && s.Correct(e.dest) ==> e in net.delivered
  }

  /** In a quiet state, a correct server has counted every Ready of a correct server. */
  lemma ReadysCounted(s: System, net: Net, rs: set<nat>, q: nat)
    requires Invariant(s, net) && Quiet(s, net) && s.Correct(q) && net.nodes[q].core.Some?
    requires forall r :: r in rs ==> s.Correct(r) && ReadySent(s, net.sent, r)
    ensures rs <= net.nodes[q].core.value.readys
  {
    hide NodeOk, MessageOk;
    forall r | r in rs
      ensures r in net.nodes[q].core.value.readys
    {
      assert ReadySentTo(net.sent, r, q);
      var e :| e in net.sent && e.from == r && e.dest == q && e.msg.ready;
      assert HandledOk(s, net, e);
    }
  }

  /** In a quiet state in which F+1 correct servers sent Ready, all correct servers did. */
  lemma AllSpeak(s: System, net: Net, q: nat)
    requires Invariant(s, net) && Quiet(s, net) && Vouched(s, net.sent) && s.Correct(q)
    ensures ReadySent(s, net.sent, q)
  {
    hide ReadySent, MessageOk, HandledOk;
    assert NodeOk(s, net, q);
    if net.nodes[q].core.Some? {
      var rs :| Vouches(s, net.sent, rs);
      ReadysCounted(s, net, rs, q);
      SubsetCount(rs, net.nodes[q].core.value.readys);
    }
  }

  lemma DispersedIsVouched(s: System, net: Net, p: nat)
    requires Invariant(s, net) && s.Correct(p) && PayloadDispersed(s.At(p), net.nodes[p])
    ensures Vouched(s, net.sent)
  {
    hide MessageOk, HandledOk, Vouched;
    assert NodeOk(s, net, p);
    if net.nodes[p].core.Some? {
      QuorumVouches(s, net, net.nodes[p].core.value);
    }
  }

  /**
   Totality: when all messages between correct servers have been handled and one correct server sees the payload
   dispersed, all correct servers do, even though some of them have dropped their core.
   */
  lemma DispersedEverywhere(s: System, run: seq<Net>, i: nat, p: nat, q: nat)
    requires Run(s, run) && i < |run| && |run[i].nodes| == s.cfg.params.n
    requires Quiet(s, run[i]) && s.Correct(p) && s.Correct(q)
    requires PayloadDispersed(s.At(p), run[i].nodes[p])
    ensures PayloadDispersed(s.At(q), run[i].nodes[q])
  {
    hide NodeOk, MessageOk, HandledOk, Quiet, PayloadDispersed;
    RunKeepsInvariant(s, run, i);
    SeenEverywhere(s, run[i], p, q);
  }

  lemma SeenEverywhere(s: System, net: Net, p: nat, q: nat)
    requires Invariant(s, net) && Quiet(s, net) && s.Correct(p) && s.Correct(q)
    requires PayloadDispersed(s.At(p), net.nodes[p])
    ensures PayloadDispersed(s.At(q), net.nodes[q])
  {
    hide ReadySent, Vouched, NodeOk, MessageOk, HandledOk, Quiet;
    DispersedIsVouched(s, net, p);
    forall r | s.Correct(r)
      ensures ReadySent(s, net.sent, r)
    {
      AllSpeak(s, net, r);
    }
    AllReadysCount(s, net, q);
  }

  /** Once all correct servers have sent Ready, the payload is dispersed for everyone. */
  lemma AllReadysCount(s: System, net: Net, q: nat)
    requires Invariant(s, net) && Quiet(s, net) && s.Correct(q)
    requires forall r :: s.Correct(r) ==> ReadySent(s, net.sent, r)
    ensures PayloadDispersed(s.At(q), net.nodes[q])
  {
    hide ReadySent, Vouched, NodeOk, MessageOk, HandledOk, Quiet;
    var rs := Nodes(s.cfg.params.n) - s.cfg.faulty;
    CorrectCount(s.cfg, Nodes(s.cfg.params.n));
    if net.nodes[q].core.Some? {
      ReadysCounted(s, net, rs, q);
      SubsetCount(rs, net.nodes[q].core.value.readys);
    }
  }

  /**
   No chunk request is lost: a request that was handled is on record or has been answered with the own chunk, and
   the record is gone exactly when the chunk is stored and may be released.
   */
  lemma NoRequestIsLost(s: System, run: seq<Net>, i: nat, q: nat, from: nat, m: Msg)
    requires Run(s, run) && i < |run| && s.Correct(q)
    requires Envelope(m, from, q) in run[i].delivered && m.request
    ensures |run[i].nodes| == s.cfg.params.n && Served(run[i], q, from)
    ensures var v := run[i].nodes[q];
            v.unanswered.None? <==> v.canRelease && v.ourChunk.Some?
  {
    RunKeepsInvariant(s, run, i);
    assert HandledOk(s, run[i], Envelope(m, from, q)) && NodeOk(s, run[i], q);
  }
}
