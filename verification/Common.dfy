/** Vocabulary shared by every protocol: optional values, cluster parameters and quorum counting. */
module Common {

  datatype Option<+T> = None | Some(value: T)

  type Bytes = seq<nat>

  /** The cluster size N and the number F of faulty servers it is meant to tolerate. */
  datatype Params = Params(n: nat, f: nat) {
    predicate Resilient() {
      n >= 3 * f + 1
    }
  }

  /** A cluster in which the servers of `faulty` may misbehave arbitrarily. */
  datatype Config = Config(params: Params, faulty: set<nat>) {
    ghost predicate Valid() {
      && params.Resilient()
      && faulty <= Nodes(params.n)
      && |faulty| <= params.f
    }

    ghost predicate Correct(i: nat) {
      i < params.n && i !in faulty
    }
  }

  /** The servers 0, ..., n-1. */
  function Nodes(n: nat): (nodes: set<nat>)
    ensures |nodes| == n
    ensures forall i: nat :: i in nodes <==> i < n
  {
    if n == 0 then {} else Nodes(n - 1) + {n - 1}
  }

  lemma SubsetCount<T>(a: set<T>, b: set<T>)
    requires a <= b
    ensures |a| <= |b|
  {
    assert b * a == a;
    assert |b - a| == |b| - |b * a|;
  }

  /** More than F servers always include a correct one. */
  lemma CorrectMember(c: Config, quorum: set<nat>) returns (q: nat)
    requires c.Valid()
    requires quorum <= Nodes(c.params.n) && |quorum| > c.params.f
    ensures q in quorum && c.Correct(q)
  {
    if quorum <= c.faulty {
      SubsetCount(quorum, c.faulty);
    }
    assert quorum - c.faulty != {};
    q :| q in quorum - c.faulty;
  }

  /** Two sets of N-F servers share a correct one. */
  lemma CorrectInBoth(c: Config, a: set<nat>, b: set<nat>) returns (q: nat)
    requires c.Valid()
    requires a <= Nodes(c.params.n) && |a| >= c.params.n - c.params.f
    requires b <= Nodes(c.params.n) && |b| >= c.params.n - c.params.f
    ensures q in a && q in b && c.Correct(q)
  {
    SubsetCount(a + b, Nodes(c.params.n));
    assert |a + b| == |a| + |b| - |a * b|;
    q := CorrectMember(c, a * b);
  }

  /** At least |quorum|-F members of a quorum are correct. */
  lemma CorrectCount(c: Config, quorum: set<nat>)
    requires c.Valid()
    ensures |quorum - c.faulty| >= |quorum| - c.params.f
  {
    SubsetCount(quorum * c.faulty, c.faulty);
    assert |quorum - c.faulty| == |quorum| - |quorum * c.faulty|;
  }

  /** The indices at which a vector of marks is set. */
  function Marked(marks: seq<bool>): set<nat> {
    set i: nat | i < |marks| && marks[i]
  }

  lemma MarkedUpdate(marks: seq<bool>, i: nat)
    requires i < |marks|
    ensures Marked(marks[i := true]) == Marked(marks) + {i}
  {
    forall j: nat
      ensures j in Marked(marks[i := true]) <==> j in Marked(marks) + {i}
    {
    }
  }

  /** A message on the wire. */
  datatype Envelope<+M> = Envelope(msg: M, from: nat, dest: nat)

  /** One broadcast: a copy of the message for each of the n servers, in index order. */
  function Copies<M>(n: nat, from: nat, m: M): seq<Envelope<M>> {
    seq(n, i requires 0 <= i < n => Envelope(m, from, i))
  }

  /** Several broadcasts, one after the other. */
  function Fan<M>(n: nat, from: nat, ms: seq<M>): seq<Envelope<M>> {
    if ms == [] then [] else Fan(n, from, ms[..|ms| - 1]) + Copies(n, from, ms[|ms| - 1])
  }

  /** What server d receives, in order. */
  function Inbox<M>(es: seq<Envelope<M>>, d: nat): seq<M> {
    if es == [] then []
    else Inbox(es[..|es| - 1], d) + if es[|es| - 1].dest == d then [es[|es| - 1].msg] else []
  }

  lemma {:induction false} InboxAppend<M>(a: seq<Envelope<M>>, b: seq<Envelope<M>>, d: nat)
    ensures Inbox(a + b, d) == Inbox(a, d) + Inbox(b, d)
  {
    if b == [] {
      assert a + b == a;
    } else {
      assert (a + b)[..|a + b| - 1] == a + b[..|b| - 1];
      InboxAppend(a, b[..|b| - 1], d);
    }
  }

  lemma {:induction false} InboxOfCopies<M>(n: nat, from: nat, m: M, d: nat)
    ensures Inbox(Copies(n, from, m), d) == if d < n then [m] else []
  {
    if n > 0 {
      assert Copies(n, from, m)[..n - 1] == Copies(n - 1, from, m);
      InboxOfCopies(n - 1, from, m, d);
    }
  }

  lemma FanUnfold<M>(n: nat, from: nat, ms: seq<M>)
    ensures ms == [] ==> Fan(n, from, ms) == []
    ensures ms != [] ==> Fan(n, from, ms) == Fan(n, from, ms[..|ms| - 1]) + Copies(n, from, ms[|ms| - 1])
  {
  }

  /** Every server receives all broadcasts, each once and in order. */
  lemma {:induction false} FanDelivers<M>(n: nat, from: nat, ms: seq<M>, d: nat)
    ensures Inbox(Fan(n, from, ms), d) == if d < n then ms else []
    ensures forall e :: e in Fan(n, from, ms) ==> e.from == from
  {
    hide Fan, Inbox;
    FanUnfold(n, from, ms);
    if ms == [] {
      EmptyInbox<M>(d);
    } else {
      var last := |ms| - 1;
      var before := Fan(n, from, ms[..last]);
      FanDelivers(n, from, ms[..last], d);
      InboxAppend(before, Copies(n, from, ms[last]), d);
      InboxOfCopies(n, from, ms[last], d);
      assert ms[..last] + [ms[last]] == ms;
    }
  }

  lemma EmptyInbox<M>(d: nat)
    ensures Inbox<M>([], d) == []
  {
  }

  lemma BoolSets(cs: set<bool>)
    ensures cs == {} || cs == {true} || cs == {false} || cs == {true, false}
  {
    assert forall x :: x in cs ==> x == true || x == false;
    assert cs == (if true in cs then {true} else {}) + (if false in cs then {false} else {});
  }
}
