/**
 Safety of Binary Agreement, stated over the messages that have been broadcast.

 Everything a correct server does is justified by what was broadcast before it, so the invariant `Justified`
 mentions no server state. Agreement and validity follow from it by induction on epoch numbers.
 */
module AgreementSafety {
  import opened Common
  import opened AgreementEpoch
  import opened Agreement

  /** The broadcasts so far, with their senders, and the inputs given to the servers. */
  datatype History = History(sent: set<(nat, BAMsg)>, inputs: set<(nat, bool)>)

  ghost predicate TermedBefore(h: History, j: nat, e: nat, v: bool) {
    exists d: nat :: d < e && (j, TermMsg(d, v)) in h.sent
  }

  /** j supports v in epoch e, with a message of that epoch or with an earlier Term. */
  ghost predicate Supports(h: History, j: nat, kind: Kind, e: nat, v: bool) {
    (j, EpochMsg(e, Signal(kind, v))) in h.sent || TermedBefore(h, j, e, v)
  }

  ghost predicate MaySupport(c: Config, h: History, j: nat, kind: Kind, e: nat, v: bool) {
    j in c.faulty || Supports(h, j, kind, e, v)
  }

  ghost predicate ViableQuorum(c: Config, h: History, e: nat, v: bool, q: set<nat>) {
    && q <= Nodes(c.params.n)
    && |q| >= 2 * c.params.f + 1
    && forall j :: j in q ==> MaySupport(c, h, j, Viable, e, v)
  }

  ghost predicate Believable(c: Config, h: History, e: nat, v: bool) {
    exists q :: ViableQuorum(c, h, e, v, q)
  }

  ghost predicate AgreesWithin(c: Config, h: History, j: nat, e: nat, cs: set<bool>) {
    exists v :: v in cs && MaySupport(c, h, j, AgreementEpoch.Agreement, e, v)
  }

  ghost predicate AgreementQuorum(c: Config, h: History, e: nat, cs: set<bool>, q: set<nat>) {
    && q <= Nodes(c.params.n)
    && |q| >= c.params.n - c.params.f
    && forall j :: j in q ==> AgreesWithin(c, h, j, e, cs)
  }

  /** The broadcasts allow epoch e to end with exactly the candidates cs. */
  ghost predicate Closable(c: Config, h: History, e: nat, cs: set<bool>) {
    && cs != {}
    && (forall v :: v in cs ==> Believable(c, h, e, v))
    && exists q :: AgreementQuorum(c, h, e, cs, q)
  }

  ghost predicate Carried(c: Config, h: History, e: nat, v: bool) {
    exists cs :: Closable(c, h, e, cs) && NextEstimate(e, cs) == v
  }

  ghost predicate CorrectInput(c: Config, h: History, v: bool) {
    exists r: nat :: c.Correct(r) && (r, v) in h.inputs
  }

  ghost predicate CorrectTermedBefore(c: Config, h: History, e: nat, v: bool) {
    exists r: nat :: c.Correct(r) && TermedBefore(h, r, e, v)
  }

  /** Where support for v in epoch e can come from in the first place. */
  ghost predicate Origin(c: Config, h: History, e: nat, v: bool) {
    || (e == 0 && CorrectInput(c, h, v))
    || (e > 0 && Carried(c, h, e - 1, v))
    || CorrectTermedBefore(c, h, e, v)
  }

  ghost predicate ViablesJustified(c: Config, h: History) {
    forall q: nat, e: nat, v :: c.Correct(q) && (q, EpochMsg(e, Signal(Viable, v))) in h.sent ==> Origin(c, h, e, v)
  }

  ghost predicate AgreementsJustified(c: Config, h: History) {
    forall q: nat, e: nat, v :: c.Correct(q) && (q, EpochMsg(e, Signal(AgreementEpoch.Agreement, v))) in h.sent
                                ==> Believable(c, h, e, v)
  }

  ghost predicate OneAgreementPerEpoch(c: Config, h: History) {
    forall q: nat, e: nat, v, w |
      && c.Correct(q)
      && (q, EpochMsg(e, Signal(AgreementEpoch.Agreement, v))) in h.sent
      && (q, EpochMsg(e, Signal(AgreementEpoch.Agreement, w))) in h.sent ::
      v == w
  }

  ghost predicate TermsJustified(c: Config, h: History) {
    forall q: nat, e: nat, v :: c.Correct(q) && (q, TermMsg(e, v)) in h.sent ==> v == Coin(e) && Closable(c, h, e, {v})
  }

  ghost predicate OneTerm(c: Config, h: History) {
    forall q: nat, d: nat, e: nat, v, w :: c.Correct(q) && (q, TermMsg(d, v)) in h.sent && (q, TermMsg(e, w)) in h.sent
                                           ==> d == e && v == w
  }

  /** Every message of a correct server is justified, and it never says two Agreements of an epoch or two Terms. */
  ghost predicate Justified(c: Config, h: History) {
    && ViablesJustified(c, h)
    && AgreementsJustified(c, h)
    && OneAgreementPerEpoch(c, h)
    && TermsJustified(c, h)
    && OneTerm(c, h)
  }

  /** Some correct server supports v in epoch e. */
  ghost predicate Voiced(c: Config, h: History, e: nat, v: bool) {
    exists q: nat :: c.Correct(q) && Supports(h, q, Viable, e, v)
  }

  ghost predicate CorrectTerm(c: Config, h: History, e: nat, v: bool) {
    exists q: nat :: c.Correct(q) && (q, TermMsg(e, v)) in h.sent
  }

  /** Support by a correct server always has an origin. */
  lemma VoicedHasOrigin(c: Config, h: History, e: nat, v: bool)
    requires Justified(c, h) && Voiced(c, h, e, v)
    ensures Origin(c, h, e, v)
  {
    var q: nat :| c.Correct(q) && Supports(h, q, Viable, e, v);
    if (q, EpochMsg(e, Signal(Viable, v))) !in h.sent {
      assert TermedBefore(h, q, e, v);
    }
  }

  /** What can be believed is supported by a correct server. */
  lemma BelievableIsVoiced(c: Config, h: History, e: nat, v: bool)
    requires c.Valid() && Believable(c, h, e, v)
    ensures Voiced(c, h, e, v)
  {
    var quorum :| ViableQuorum(c, h, e, v, quorum);
    var q := CorrectMember(c, quorum);
    assert MaySupport(c, h, q, Viable, e, v);
  }

  lemma TermIsVoiced(c: Config, h: History, e: nat, v: bool)
    requires c.Valid() && Justified(c, h) && CorrectTerm(c, h, e, v)
    ensures Voiced(c, h, e, v)
  {
    BelievableIsVoiced(c, h, e, v);
  }

  /** Epochs before e in which a correct server terminated leave no room for the other value in epoch e. */
  ghost predicate Settled(c: Config, h: History, e: nat) {
    forall d: nat, v :: d < e && CorrectTerm(c, h, d, v) ==> !Voiced(c, h, e, !v)
  }

  lemma TermFixesAgreement(c: Config, h: History, q: nat, e: nat, v: bool, w: bool)
    requires c.Valid() && Justified(c, h) && Settled(c, h, e) && c.Correct(q)
    requires TermedBefore(h, q, e, v) && (q, EpochMsg(e, Signal(AgreementEpoch.Agreement, w))) in h.sent
    ensures v == w
  {
    var d: nat :| d < e && (q, TermMsg(d, v)) in h.sent;
    assert CorrectTerm(c, h, d, v);
    BelievableIsVoiced(c, h, e, w);
  }

  /** A correct server supports only one value with its Agreement of an epoch, even counting replayed Terms. */
  lemma NoEquivocation(c: Config, h: History, q: nat, e: nat, v: bool, w: bool)
    requires c.Valid() && Justified(c, h) && Settled(c, h, e) && c.Correct(q)
    requires Supports(h, q, AgreementEpoch.Agreement, e, v) && Supports(h, q, AgreementEpoch.Agreement, e, w)
    ensures v == w
  {
    if TermedBefore(h, q, e, v) {
      if TermedBefore(h, q, e, w) {
        var a: nat :| a < e && (q, TermMsg(a, v)) in h.sent;
        var b: nat :| b < e && (q, TermMsg(b, w)) in h.sent;
      } else {
        TermFixesAgreement(c, h, q, e, v, w);
      }
    } else if TermedBefore(h, q, e, w) {
      TermFixesAgreement(c, h, q, e, w, v);
    }
  }

  /** If an epoch can end with v alone, every way to end it has v as a candidate. */
  lemma SoleCandidateIsShared(c: Config, h: History, e: nat, v: bool, cs: set<bool>)
    requires c.Valid() && Justified(c, h) && Settled(c, h, e)
    requires Closable(c, h, e, {v}) && Closable(c, h, e, cs)
    ensures v in cs
  {
    var q1 :| AgreementQuorum(c, h, e, {v}, q1);
    var q2 :| AgreementQuorum(c, h, e, cs, q2);
    var q := CorrectInBoth(c, q1, q2);
    assert AgreesWithin(c, h, q, e, {v}) && AgreesWithin(c, h, q, e, cs);
    var w :| w in cs && MaySupport(c, h, q, AgreementEpoch.Agreement, e, w);
    NoEquivocation(c, h, q, e, v, w);
  }

  /** Two correct servers terminate with the same value when one epoch is settled by the other's Term. */
  lemma TermsAgreeWhenSettled(c: Config, h: History, d: nat, v: bool, e: nat, w: bool)
    requires c.Valid() && Justified(c, h) && d <= e && Settled(c, h, e)
    requires CorrectTerm(c, h, d, v) && CorrectTerm(c, h, e, w)
    ensures v == w
  {
    if d < e {
      TermIsVoiced(c, h, e, w);
    } else {
      SoleCandidateIsShared(c, h, e, v, {w});
    }
  }

  /** The estimate carried out of an epoch respects a decision made in it or before it. */
  lemma CarriedRespectsTerm(c: Config, h: History, d: nat, v: bool, e: nat, w: bool)
    requires c.Valid() && Justified(c, h) && d <= e && Settled(c, h, e)
    requires CorrectTerm(c, h, d, v) && Carried(c, h, e, w)
    ensures v == w
  {
    var cs :| Closable(c, h, e, cs) && NextEstimate(e, cs) == w;
    if d < e {
      forall x | x in cs
        ensures x == v
      {
        BelievableIsVoiced(c, h, e, x);
      }
      assert cs == {v};
    } else {
      SoleCandidateIsShared(c, h, e, v, cs);
      BoolSets(cs);
    }
  }

  /** The heart of the argument: every epoch is settled by the decisions of earlier epochs. */
  lemma {:induction false} EpochsAreSettled(c: Config, h: History, e: nat)
    requires c.Valid() && Justified(c, h)
    ensures forall i: nat :: i <= e ==> Settled(c, h, i)
  {
    if e > 0 {
      EpochsAreSettled(c, h, e - 1);
    }
    forall d: nat, v | d < e && CorrectTerm(c, h, d, v)
      ensures !Voiced(c, h, e, !v)
    {
      if Voiced(c, h, e, !v) {
        VoicedHasOrigin(c, h, e, !v);
        if Carried(c, h, e - 1, !v) {
          CarriedRespectsTerm(c, h, d, v, e - 1, !v);
        } else {
          var r: nat :| c.Correct(r) && TermedBefore(h, r, e, !v);
          var b: nat :| b < e && (r, TermMsg(b, !v)) in h.sent;
          assert CorrectTerm(c, h, b, !v);
          if b <= d {
            TermsAgreeWhenSettled(c, h, b, !v, d, v);
          } else {
            TermsAgreeWhenSettled(c, h, d, v, b, !v);
          }
        }
      }
    }
    forall i: nat | i <= e
      ensures Settled(c, h, i)
    {
    }
  }

  /** Agreement: correct servers terminate with one value, whatever the epochs they terminate in. */
  lemma TermsAgree(c: Config, h: History, d: nat, v: bool, e: nat, w: bool)
    requires c.Valid() && Justified(c, h)
    requires CorrectTerm(c, h, d, v) && CorrectTerm(c, h, e, w)
    ensures v == w
  {
    if d <= e {
      EpochsAreSettled(c, h, e);
      TermsAgreeWhenSettled(c, h, d, v, e, w);
    } else {
      EpochsAreSettled(c, h, d);
      TermsAgreeWhenSettled(c, h, e, w, d, v);
    }
  }

  lemma NextIsCandidate(e: nat, cs: set<bool>)
    requires cs != {}
    ensures NextEstimate(e, cs) in cs
  {
    BoolSets(cs);
  }

  /** Validity: whatever a correct server supports, in any epoch, was the input of a correct server. */
  lemma {:induction false} VoicedIsInput(c: Config, h: History, e: nat, v: bool)
    requires c.Valid() && Justified(c, h) && Voiced(c, h, e, v)
    ensures CorrectInput(c, h, v)
    decreases e
  {
    VoicedHasOrigin(c, h, e, v);
    if CorrectTermedBefore(c, h, e, v) {
      var r: nat :| c.Correct(r) && TermedBefore(h, r, e, v);
      var d: nat :| d < e && (r, TermMsg(d, v)) in h.sent;
      assert CorrectTerm(c, h, d, v);
      TermIsVoiced(c, h, d, v);
      VoicedIsInput(c, h, d, v);
    } else if e > 0 {
      var cs :| Closable(c, h, e - 1, cs) && NextEstimate(e - 1, cs) == v;
      NextIsCandidate(e - 1, cs);
      BelievableIsVoiced(c, h, e - 1, v);
      VoicedIsInput(c, h, e - 1, v);
    }
  }

  lemma TermIsInput(c: Config, h: History, e: nat, v: bool)
    requires c.Valid() && Justified(c, h) && CorrectTerm(c, h, e, v)
    ensures CorrectInput(c, h, v)
  {
    TermIsVoiced(c, h, e, v);
    VoicedIsInput(c, h, e, v);
  }
}
