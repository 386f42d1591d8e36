/**
 The network queue of the emulator (FIFO in emulator/netsim.go): a ring buffer that holds the messages to be
 read in this time slot and, behind them, the messages sent in it. Senders draw tickets and place their messages
 in any order; the buffer grows when a ticket has no slot.

 `Queue` is the reference: two sequences. `Ring` is the buffer with the arithmetic of the original on values,
 and the class FIFO carries it out in place.
 */
module Fifo {
  import opened Common

  /** What can be read now, and what was sent since the last Sync, by ticket. */
  datatype Queue<T> = Queue(visible: seq<T>, pending: seq<Option<T>>)

  predicate Complete<T>(pending: seq<Option<T>>) {
    forall k :: 0 <= k < |pending| ==> pending[k].Some?
  }

  function Placed<T>(pending: seq<Option<T>>): (items: seq<T>)
    requires Complete(pending)
    ensures |items| == |pending|
    ensures forall k :: 0 <= k < |items| ==> pending[k] == Some(items[k])
  {
    seq(|pending|, k requires 0 <= k < |pending| => pending[k].value)
  }

  function Filled<T>(items: seq<T>): (slots: seq<Option<T>>)
    ensures |slots| == |items|
    ensures forall k :: 0 <= k < |slots| ==> slots[k] == Some(items[k])
  {
    seq(|items|, k requires 0 <= k < |items| => Some(items[k]))
  }

  /** The buffer: where the two regions start, their sizes, and how much was read and sent in this time slot. */
  datatype Ring<T> = Ring(buf: seq<Option<T>>, rx: nat, rxSize: nat, tx: nat, txSize: nat, nRx: nat, nTx: nat)

  function Wrap(i: nat, len: nat): nat {
    if i >= len then i - len else i
  }

  function Empty<T>(size: nat): Ring<T> {
    Ring(seq(size, i => None), 0, 0, 0, size, 0, 0)
  }

  function Insert<T>(buf: seq<Option<T>>, at: nat, more: nat): (grown: seq<Option<T>>)
    requires at <= |buf|
    ensures |grown| == |buf| + more
  {
    buf[..at] + seq(more, i => None) + buf[at..]
  }

  function Growth(txSize: nat, len: nat, nSend: nat): nat
    requires nSend > txSize
  {
    if nSend - txSize + 4 < len then len else nSend - txSize + 4
  }

  /** Inserts slots behind the sending region, enough for ticket nSend. */
  function Grow<T>(r: Ring<T>, nSend: nat): (g: Ring<T>)
    requires nSend > r.txSize && Wrap(r.tx + r.txSize, |r.buf|) <= |r.buf|
    ensures nSend <= g.txSize
  {
    var at := Wrap(r.tx + r.txSize, |r.buf|);
    var more := Growth(r.txSize, |r.buf|, nSend);
    r.(buf := Insert(r.buf, at, more), rx := r.rx + more,
       tx := if at <= r.tx && r.txSize != 0 then r.tx + more else r.tx,
       txSize := r.txSize + more)
  }

  /** The regions are within the buffer: what the index arithmetic needs, whatever the slots hold. */
  predicate InRange<T>(r: Ring<T>) {
    && (r.rx < |r.buf| || (r.rx == |r.buf| && r.rxSize == 0))
    && (r.tx < |r.buf| || r.tx == |r.buf| == 0)
    && r.rxSize + r.txSize == |r.buf|
    && r.nRx <= r.rxSize
  }

  function TakeTicket<T>(r: Ring<T>): Ring<T> {
    r.(nTx := r.nTx + 1)
  }

  function Place<T>(r: Ring<T>, nSend: nat, m: T): (g: Ring<T>)
    requires InRange(r) && 1 <= nSend
    ensures InRange(g)
  {
    var g := if nSend <= r.txSize then r else Grow(r, nSend);
    g.(buf := g.buf[Wrap(g.tx + nSend - 1, |g.buf|) := Some(m)])
  }

  function Next<T>(r: Ring<T>): (res: (Ring<T>, Option<T>))
    requires InRange(r)
    ensures InRange(res.0)
  {
    if r.rxSize <= r.nRx then (r, None)
    else (r.(nRx := r.nRx + 1), r.buf[Wrap(r.rx + r.nRx, |r.buf|)])
  }

  function Sync<T>(r: Ring<T>): (s: Ring<T>)
    requires InRange(r) && r.nTx <= r.txSize
    ensures InRange(s)
  {
    var len := |r.buf|;
    var rxSize := r.rxSize + r.nTx - r.nRx;
    var rx := Wrap(r.rx + r.nRx, len);
    Ring(r.buf, rx, rxSize, Wrap(rx + rxSize, len), len - rxSize, 0, 0)
  }

  /** Item k, where there is one, is in slot k of the region of `size` slots that starts at `start`. */
  ghost predicate Holds<T>(buf: seq<Option<T>>, start: nat, size: nat, items: seq<Option<T>>)
    requires size <= |buf| && start <= |buf|
  {
    forall k {:trigger items[k]} :: 0 <= k < |items| && items[k].Some?
      ==> k < size && buf[Wrap(start + k, |buf|)] == items[k]
  }

  /** The sending region starts right behind the reading region. */
  predicate Aligned<T>(r: Ring<T>) {
    r.tx == Wrap(r.rx + r.rxSize, |r.buf|)
  }

  /** The ring stands for the reference queue. */
  ghost predicate Represents<T>(r: Ring<T>, slot: seq<T>, tickets: seq<Option<T>>) {
    && InRange(r) && Aligned(r)
    && |slot| == r.rxSize && |tickets| == r.nTx
    && Holds(r.buf, r.rx, r.rxSize, Filled(slot))
    && Holds(r.buf, r.tx, r.txSize, tickets)
  }

  lemma EmptyRepresents<T>(size: nat)
    ensures Represents(Empty<T>(size), [], [])
  {
    hide Holds;
    HoldsNothing(Empty<T>(size).buf, 0, 0);
    HoldsNothing(Empty<T>(size).buf, 0, size);
    assert Filled<T>([]) == [];
  }

  lemma HoldsNothing<T>(buf: seq<Option<T>>, start: nat, size: nat)
    requires size <= |buf| && start <= |buf|
    ensures Holds(buf, start, size, [])
  {
  }

  lemma TicketRepresents<T>(r: Ring<T>, slot: seq<T>, tickets: seq<Option<T>>)
    requires Represents(r, slot, tickets)
    ensures Represents(TakeTicket(r), slot, tickets + [None])
  {
  }

  /** Growth right before the reading region moves it as a whole. */
  lemma GrowReading<T>(r: Ring<T>, items: seq<Option<T>>, nSend: nat)
    requires InRange(r) && Aligned(r) && nSend > r.txSize && (r.rx < |r.buf| || |r.buf| == 0)
    requires Holds(r.buf, r.rx, r.rxSize, items)
    ensures Holds(Grow(r, nSend).buf, Grow(r, nSend).rx, r.rxSize, items)
  {
    assert Wrap(r.tx + r.txSize, |r.buf|) == r.rx;
  }

  /** The sending region ends where the reading region starts, so growth adds slots at its end. */
  lemma GrowSending<T>(r: Ring<T>, items: seq<Option<T>>, nSend: nat)
    requires InRange(r) && Aligned(r) && nSend > r.txSize && (r.rx < |r.buf| || |r.buf| == 0)
    requires Holds(r.buf, r.tx, r.txSize, items)
    ensures Holds(Grow(r, nSend).buf, Grow(r, nSend).tx, Grow(r, nSend).txSize, items)
  {
    assert Wrap(r.tx + r.txSize, |r.buf|) == r.rx;
  }

  /** Growth keeps the queue, wrapped or full, unless the reading region starts at the very end of the buffer. */
  lemma GrowRepresents<T>(r: Ring<T>, slot: seq<T>, tickets: seq<Option<T>>, nSend: nat)
    requires Represents(r, slot, tickets) && nSend > r.txSize && (r.rx < |r.buf| || |r.buf| == 0)
    ensures Represents(Grow(r, nSend), slot, tickets)
  {
    hide Filled, Holds;
    GrowReading(r, Filled(slot), nSend);
    GrowSending(r, tickets, nSend);
  }

  lemma PlaceRepresents<T>(r: Ring<T>, slot: seq<T>, tickets: seq<Option<T>>, nSend: nat, m: T)
    requires Represents(r, slot, tickets) && 1 <= nSend <= |tickets|
    requires nSend <= r.txSize || r.rx < |r.buf| || |r.buf| == 0
    ensures Represents(Place(r, nSend, m), slot, tickets[nSend - 1 := Some(m)])
  {
    hide Holds, Filled, Grow, Insert;
    if nSend > r.txSize {
      GrowRepresents(r, slot, tickets, nSend);
    }
    var g := if nSend <= r.txSize then r else Grow(r, nSend);
    WriteRepresents(g, slot, tickets, nSend - 1, m);
  }

  /** Writing a slot of the sending region leaves the reading region and the other slots alone. */
  lemma WriteRepresents<T>(r: Ring<T>, slot: seq<T>, tickets: seq<Option<T>>, k: nat, m: T)
    requires Represents(r, slot, tickets) && k < |tickets| && k < r.txSize
    ensures Represents(r.(buf := r.buf[Wrap(r.tx + k, |r.buf|) := Some(m)]), slot, tickets[k := Some(m)])
  {
  }

  lemma RecvRepresents<T>(r: Ring<T>, slot: seq<T>, tickets: seq<Option<T>>)
    requires Represents(r, slot, tickets)
    ensures Represents(Next(r).0, slot, tickets)
    ensures Next(r).1 == if r.nRx < |slot| then Some(slot[r.nRx]) else None
  {
    if r.nRx < |slot| {
      assert Filled(slot)[r.nRx] == Some(slot[r.nRx]);
    }
  }

  /** The ring has room for what has been placed. */
  ghost predicate Fits<T>(r: Ring<T>, tickets: seq<Option<T>>) {
    && InRange(r) && |tickets| == r.nTx
    && forall k {:trigger tickets[k]} :: 0 <= k < |tickets| && tickets[k].Some? ==> k < r.txSize
  }

  lemma CompleteFits<T>(r: Ring<T>, tickets: seq<Option<T>>)
    requires Fits(r, tickets) && Complete(tickets)
    ensures r.nTx <= r.txSize
  {
    assert |tickets| > 0 ==> tickets[|tickets| - 1].Some?;
  }

  lemma RepresentsFits<T>(r: Ring<T>, slot: seq<T>, tickets: seq<Option<T>>)
    requires Represents(r, slot, tickets)
    ensures Fits(r, tickets)
  {
  }

  /** The slot behind the k-th message that is left or was sent. */
  lemma SyncSlot<T>(r: Ring<T>, slot: seq<T>, tickets: seq<Option<T>>, k: nat)
    requires Represents(r, slot, tickets) && Complete(tickets) && r.nTx <= r.txSize
    requires k < |slot| - r.nRx + |tickets|
    ensures Sync(r).buf[Wrap(Sync(r).rx + k, |r.buf|)] == Some((slot[r.nRx..] + Placed(tickets))[k])
  {
    hide Filled, Placed;
    var left := r.rxSize - r.nRx;
    if k < left {
      assert Filled(slot)[r.nRx + k] == Some(slot[r.nRx + k]);
    } else {
      assert tickets[k - left].Some?;
    }
  }

  /** How the regions lie after a Sync. */
  lemma SyncShape<T>(r: Ring<T>, slot: seq<T>, tickets: seq<Option<T>>)
    requires Represents(r, slot, tickets) && r.nTx <= r.txSize
    ensures var s := Sync(r);
            && Aligned(s) && s.rxSize == |slot| - r.nRx + |tickets| && s.nRx == s.nTx == 0 && s.buf == r.buf
            && s.rxSize <= |s.buf| && s.txSize <= |s.buf| && s.rx <= |s.buf| && s.tx <= |s.buf|
  {
    hide Holds;
  }

  /** Sync drops exactly what was read and appends what was sent, in ticket order. */
  lemma SyncRepresents<T>(r: Ring<T>, slot: seq<T>, tickets: seq<Option<T>>)
    requires Represents(r, slot, tickets) && Complete(tickets)
    ensures r.nTx <= r.txSize
    ensures Represents(Sync(r), slot[r.nRx..] + Placed(tickets), [])
  {
    hide Filled, Placed, Holds, Sync, Aligned, Complete;
    RepresentsFits(r, slot, tickets);
    CompleteFits(r, tickets);
    SyncShape(r, slot, tickets);
    var s := Sync(r);
    var items := slot[r.nRx..] + Placed(tickets);
    HoldsNothing(s.buf, s.tx, s.txSize);
    forall k | 0 <= k < |items|
      ensures s.buf[Wrap(s.rx + k, |s.buf|)] == Filled(items)[k]
    {
      SyncSlot(r, slot, tickets, k);
    }
    AllHeld(s.buf, s.rx, s.rxSize, Filled(items));
  }

  lemma AllHeld<T>(buf: seq<Option<T>>, start: nat, size: nat, items: seq<Option<T>>)
    requires |items| == size <= |buf| && start <= |buf|
    requires forall k {:trigger items[k]} :: 0 <= k < size ==> buf[Wrap(start + k, |buf|)] == items[k]
    ensures Holds(buf, start, size, items)
  {
  }

  /** The atomic steps of senders, the reader and the scheduler. A Send is a TakeOp and later its PlaceOp. */
  datatype Op<T> = TakeOp | PlaceOp(nSend: nat, m: T) | RecvOp | SyncOp

  /** A ticket is placed once, and Sync is called when no Send is under way. */
  predicate Allowed<T>(tickets: seq<Option<T>>, op: Op<T>) {
    match op
    case PlaceOp(nSend, m) => 1 <= nSend <= |tickets| && tickets[nSend - 1].None?
    case SyncOp => Complete(tickets)
    case _ => true
  }

  function Ticketed<T>(tickets: seq<Option<T>>, op: Op<T>): seq<Option<T>>
    requires Allowed(tickets, op)
  {
    match op
    case TakeOp => tickets + [None]
    case PlaceOp(nSend, m) => tickets[nSend - 1 := Some(m)]
    case RecvOp => tickets
    case SyncOp => []
  }

  /** What the reader of the reference queue gets from the operations, those out of place being skipped. */
  function RunQueue<T>(q: Queue<T>, ops: seq<Op<T>>): seq<T>
    decreases |ops|
  {
    if ops == [] then []
    else if !Allowed(q.pending, ops[0]) then RunQueue(q, ops[1..])
    else
      var pending := Ticketed(q.pending, ops[0]);
      match ops[0]
      case RecvOp =>
        if q.visible == [] then RunQueue(q, ops[1..])
        else [q.visible[0]] + RunQueue(Queue(q.visible[1..], pending), ops[1..])
      case SyncOp => RunQueue(Queue(q.visible + Placed(q.pending), pending), ops[1..])
      case _ => RunQueue(Queue(q.visible, pending), ops[1..])
  }

  function Stepped<T>(r: Ring<T>, ghost tickets: seq<Option<T>>, op: Op<T>): (s: Ring<T>)
    requires Fits(r, tickets) && Allowed(tickets, op)
    ensures Fits(s, Ticketed(tickets, op))
  {
    match op
    case TakeOp => TakeTicket(r)
    case PlaceOp(nSend, m) => Place(r, nSend, m)
    case RecvOp => Next(r).0
    case SyncOp => CompleteFits(r, tickets); Sync(r)
  }

  /** What the reader of the ring gets from the operations; None is the panic on a nil message. */
  ghost function RunRing<T>(r: Ring<T>, tickets: seq<Option<T>>, ops: seq<Op<T>>): seq<Option<T>>
    requires Fits(r, tickets)
    decreases |ops|
  {
    if ops == [] then []
    else if !Allowed(tickets, ops[0]) then RunRing(r, tickets, ops[1..])
    else
      var rest := RunRing(Stepped(r, tickets, ops[0]), Ticketed(tickets, ops[0]), ops[1..]);
      if ops[0].RecvOp? && r.nRx < r.rxSize then [Next(r).1] + rest else rest
  }

  lemma StepRepresents<T>(r: Ring<T>, slot: seq<T>, tickets: seq<Option<T>>, op: Op<T>) returns (slot1: seq<T>)
    requires Represents(r, slot, tickets) && Fits(r, tickets) && r.rx < |r.buf| && Allowed(tickets, op)
    ensures var s := Stepped(r, tickets, op);
            Represents(s, slot1, Ticketed(tickets, op)) && s.rx < |s.buf|
    ensures slot1[Stepped(r, tickets, op).nRx..]
            == match op
               case RecvOp => if r.nRx < r.rxSize then slot[r.nRx + 1..] else slot[r.nRx..]
               case SyncOp => slot[r.nRx..] + Placed(tickets)
               case _ => slot[r.nRx..]
  {
    hide Holds, Filled;
    slot1 := slot;
    match op
    case TakeOp => TicketRepresents(r, slot, tickets);
    case PlaceOp(nSend, m) => PlaceRepresents(r, slot, tickets, nSend, m);
    case RecvOp => RecvRepresents(r, slot, tickets);
    case SyncOp =>
      SyncRepresents(r, slot, tickets);
      slot1 := slot[r.nRx..] + Placed(tickets);
  }

  /** Over every sequence of operations the ring gives the reader what the reference queue does. */
  lemma {:induction false} RingRefinesQueue<T>(r: Ring<T>, slot: seq<T>, tickets: seq<Option<T>>, ops: seq<Op<T>>)
    requires Represents(r, slot, tickets) && Fits(r, tickets) && r.rx < |r.buf|
    ensures RunRing(r, tickets, ops) == Filled(RunQueue(Queue(slot[r.nRx..], tickets), ops))
    decreases |ops|
  {
    hide Holds;
    if ops != [] {
      if !Allowed(tickets, ops[0]) {
        RingRefinesQueue(r, slot, tickets, ops[1..]);
      } else {
        var slot1 := StepRepresents(r, slot, tickets, ops[0]);
        RecvRepresents(r, slot, tickets);
        RingRefinesQueue(Stepped(r, tickets, ops[0]), slot1, Ticketed(tickets, ops[0]), ops[1..]);
      }
    }
  }

  lemma NewFits<T>(size: nat)
    ensures Fits(Empty<T>(size), [])
  {
  }

  /** What the reader of a new ring gets. */
  ghost function RunNew<T>(size: nat, ops: seq<Op<T>>): seq<Option<T>> {
    NewFits<T>(size);
    RunRing(Empty(size), [], ops)
  }

  /** From the start, the ring gives the reader what the reference queue does. */
  ghost predicate ReadsSame<T>(size: nat, ops: seq<Op<T>>) {
    RunNew(size, ops) == Filled(RunQueue(Queue([], []), ops))
  }

  /** A buffer that starts with slots gives the reader exactly what the reference queue does, whatever happens. */
  lemma NonEmptyRefines<T>(size: nat, ops: seq<Op<T>>)
    requires size > 0
    ensures ReadsSame(size, ops)
  {
    EmptyRepresents<T>(size);
    RepresentsFits(Empty<T>(size), [], []);
    RingRefinesQueue(Empty<T>(size), [], [], ops);
  }

  /** A Send whose two steps come one after the other. */
  lemma SendStep<T>(r: Ring<T>, tickets: seq<Option<T>>, m: T, ops: seq<Op<T>>)
    requires Fits(r, tickets)
    ensures var k := |tickets| + 1;
            && Fits(Place(TakeTicket(r), k, m), tickets + [Some(m)])
            && RunRing(r, tickets, [TakeOp, PlaceOp(k, m)] + ops)
               == RunRing(Place(TakeTicket(r), k, m), tickets + [Some(m)], ops)
  {
    var k := |tickets| + 1;
    var all := [TakeOp, PlaceOp(k, m)] + ops;
    var r1, t1 := Stepped(r, tickets, TakeOp), tickets + [None];
    assert all[1..] == [PlaceOp(k, m)] + ops && all[1..][1..] == ops;
    assert Allowed(t1, PlaceOp(k, m)) && t1[k - 1 := Some(m)] == tickets + [Some(m)];
    assert RunRing(r, tickets, all) == RunRing(r1, t1, all[1..]);
    assert RunRing(r1, t1, all[1..]) == RunRing(Stepped(r1, t1, PlaceOp(k, m)), tickets + [Some(m)], ops);
  }

  lemma QueueSendStep<T>(q: Queue<T>, m: T, ops: seq<Op<T>>)
    ensures RunQueue(q, [TakeOp, PlaceOp(|q.pending| + 1, m)] + ops) == RunQueue(Queue(q.visible, q.pending + [Some(m)]), ops)
  {
    var k := |q.pending| + 1;
    var all := [TakeOp, PlaceOp(k, m)] + ops;
    var t1 := q.pending + [None];
    assert all[1..] == [PlaceOp(k, m)] + ops && all[1..][1..] == ops;
    assert Allowed(t1, PlaceOp(k, m)) && t1[k - 1 := Some(m)] == q.pending + [Some(m)];
    assert RunQueue(q, all) == RunQueue(Queue(q.visible, t1), all[1..]);
  }

  /** Sends of the messages, one after the other, before ops. */
  function Sends<T>(ms: seq<T>, ops: seq<Op<T>>): seq<Op<T>> {
    if ms == [] then ops
    else
      var k := |ms| - 1;
      Sends(ms[..k], [TakeOp, PlaceOp(k + 1, ms[k])] + ops)
  }

  /** What slot x of a buffer of len slots holds that had none at first: from the sixth message on they are in front of the
      first five. */
  function Content<T>(len: nat, ms: seq<T>, x: nat): Option<T>
    requires |ms| <= len && 5 <= len
  {
    if x < len - 5 then (if x + 5 < |ms| then Some(ms[x + 5]) else None)
    else if x - (len - 5) < |ms| then Some(ms[x - (len - 5)]) else None
  }

  /** The buffer after the messages of its first time slot: the sending region is all of it and starts five slots before its
      end, while reading will start in front. */
  ghost predicate Askew<T>(r: Ring<T>, ms: seq<T>) {
    && 1 <= |ms| <= |r.buf| && 5 <= |r.buf| && (|ms| <= 5 ==> |r.buf| == 5) && (|ms| > 5 ==> |r.buf| >= 10)
    && r.rx == r.txSize == |r.buf| && r.rxSize == r.nRx == 0 && r.tx == |r.buf| - 5 && r.nTx == |ms|
    && forall x: nat :: x < |r.buf| ==> r.buf[x] == Content(|r.buf|, ms, x)
  }

  lemma FirstAskew<T>(m: T)
    ensures Askew(Place(TakeTicket(Empty(0)), 1, m), [m])
  {
  }

  lemma GrownBuffer<T>(buf: seq<Option<T>>, at: nat, more: nat, x: nat)
    requires at <= |buf| && x < |buf| + more
    ensures Insert(buf, at, more)[x] == if x < at then buf[x] else if x < at + more then None else buf[x - more]
  {
  }

  /** One more message, with or without growth. */
  lemma StaysAskew<T>(r: Ring<T>, ms: seq<T>, m: T)
    requires Askew(r, ms)
    ensures InRange(r) && Askew(Place(TakeTicket(r), |ms| + 1, m), ms + [m])
  {
    hide Insert;
    var r1, k := TakeTicket(r), |ms| + 1;
    var g := if k <= r1.txSize then r1 else Grow(r1, k);
    var s := Place(r1, k, m);
    forall x: nat | x < |s.buf|
      ensures s.buf[x] == Content(|s.buf|, ms + [m], x)
    {
      if k > r1.txSize {
        GrownBuffer(r1.buf, |r.buf| - 5, Growth(r1.txSize, |r1.buf|, k), x);
      }
    }
  }

  /** After all messages have been sent, the buffer is askew. */
  lemma {:induction false} AllSent<T>(ms: seq<T>, ops: seq<Op<T>>) returns (s: Ring<T>)
    requires ms != []
    ensures Askew(s, ms) && Fits(s, Filled(ms))
    ensures RunNew(0, Sends(ms, ops)) == RunRing(s, Filled(ms), ops)
    decreases |ms|
  {
    hide Askew, RunRing, Sends, Fits;
    var k := |ms| - 1;
    var first, last := ms[..k], ms[k];
    var more := [TakeOp, PlaceOp(k + 1, last)] + ops;
    LastSend(ms, ops);
    NewFits<T>(0);
    var r := Empty<T>(0);
    if first == [] {
      NoneSent(more);
      FirstAskew(last);
    } else {
      r := AllSent(first, more);
      StaysAskew(r, first, last);
    }
    SendStep(r, Filled(first), last, ops);
    s := Place(TakeTicket(r), k + 1, last);
    assert first + [last] == ms && Filled(first) + [Some(last)] == Filled(ms);
  }

  lemma LastSend<T>(ms: seq<T>, ops: seq<Op<T>>)
    requires ms != []
    ensures var k := |ms| - 1;
            Sends(ms, ops) == Sends(ms[..k], [TakeOp, PlaceOp(k + 1, ms[k])] + ops)
  {
  }

  lemma NoneSent<T>(ops: seq<Op<T>>)
    ensures Sends([], ops) == ops && Filled<T>([]) == []
  {
  }

  /** What the first two reads after a Sync give. */
  lemma ReadsAskew<T>(r: Ring<T>, ms: seq<T>)
    requires Askew(r, ms) && Fits(r, Filled(ms)) && |ms| >= 6
    ensures RunRing(r, Filled(ms), SyncAndReadTwice()) == [Some(ms[5]), if |ms| > 6 then Some(ms[6]) else None]
  {
    var ops := SyncAndReadTwice<T>();
    assert Complete(Filled(ms));
    var r0 := Stepped(r, Filled(ms), SyncOp);
    assert r0.rx == 0 && r0.rxSize == |ms| && r0.nRx == 0 && r0.buf == r.buf;
    var r1 := Next(r0).0;
    assert Next(r0).1 == r.buf[0] && Next(r1).1 == r.buf[1];
    assert ops[1..] == [RecvOp, RecvOp] && ops[1..][1..] == [RecvOp] && ops[1..][1..][1..] == [];
    assert RunRing(Next(r1).0, [], []) == [];
    assert RunRing(r1, [], ops[1..][1..]) == [r.buf[1]] + RunRing(Next(r1).0, [], []);
    assert RunRing(r0, [], ops[1..]) == [r.buf[0]] + RunRing(r1, [], ops[1..][1..]);
    assert RunRing(r, Filled(ms), ops) == RunRing(r0, [], ops[1..]);
  }

  function SyncAndReadTwice<T>(): seq<Op<T>> {
    [SyncOp, RecvOp, RecvOp]
  }

  /**
   Six or more sends in the first time slot of a buffer without slots, then a Sync and two reads: the first read gives the
   sixth message instead of the first. After exactly six sends the second read is the panic.
   */
  lemma OverflowMisreads<T>(ms: seq<T>)
    requires |ms| >= 6
    ensures RunNew(0, Sends(ms, SyncAndReadTwice())) == [Some(ms[5]), if |ms| > 6 then Some(ms[6]) else None]
  {
    hide RunRing, RunNew, Askew, Fits, Sends, SyncAndReadTwice;
    var r := AllSent(ms, SyncAndReadTwice());
    ReadsAskew(r, ms);
  }

  lemma {:induction false} QueueSends<T>(ms: seq<T>, ops: seq<Op<T>>)
    ensures RunQueue(Queue([], []), Sends(ms, ops)) == RunQueue(Queue([], Filled(ms)), ops)
    decreases |ms|
  {
    hide RunQueue, Sends;
    if ms == [] {
      NoneSent(ops);
    } else {
      var k := |ms| - 1;
      LastSend(ms, ops);
      QueueSends(ms[..k], [TakeOp, PlaceOp(k + 1, ms[k])] + ops);
      QueueSendStep(Queue([], Filled(ms[..k])), ms[k], ops);
      assert Filled(ms[..k]) + [Some(ms[k])] == Filled(ms);
    }
  }

  lemma QueueReadsTwo<T>(ms: seq<T>)
    requires |ms| >= 2
    ensures RunQueue(Queue([], Filled(ms)), SyncAndReadTwice()) == [ms[0], ms[1]]
  {
    var ops := SyncAndReadTwice<T>();
    var q := Queue([] + Placed(Filled(ms)), []);
    assert q.visible == ms;
    assert ops[1..] == [RecvOp, RecvOp] && ops[1..][1..] == [RecvOp] && ops[1..][1..][1..] == [];
    assert RunQueue(Queue(q.visible[1..], []), ops[1..][1..]) == [ms[1]] + RunQueue(Queue(q.visible[1..][1..], []), []);
    assert RunQueue(q, ops[1..]) == [ms[0]] + RunQueue(Queue(q.visible[1..], []), ops[1..][1..]);
    assert RunQueue(Queue([], Filled(ms)), ops) == RunQueue(q, ops[1..]);
  }

  /** The reference queue gives the first two messages. */
  lemma QueueReads<T>(ms: seq<T>)
    requires |ms| >= 2
    ensures RunQueue(Queue([], []), Sends(ms, SyncAndReadTwice())) == [ms[0], ms[1]]
  {
    hide RunQueue, Sends, SyncAndReadTwice;
    QueueSends(ms, SyncAndReadTwice());
    QueueReadsTwo(ms);
  }

  lemma OverflowDiffers<T>(ms: seq<T>)
    requires |ms| == 6
    ensures !ReadsSame(0, Sends(ms, SyncAndReadTwice()))
  {
    hide RunRing, RunQueue, Sends, Fits, Empty, SyncAndReadTwice;
    OverflowMisreads(ms);
    QueueReads(ms);
    assert Filled([ms[0], ms[1]])[1] == Some(ms[1]);
  }

  /** Exactly when the ring refines the queue on every sequence of operations: when it starts with a slot. */
  lemma RefinesExactlyWhenNonEmpty<T(!new)>(size: nat, m: T)
    ensures (forall ops: seq<Op<T>> :: ReadsSame(size, ops)) <==> size > 0
  {
    hide ReadsSame, Sends;
    if size > 0 {
      forall ops: seq<Op<T>>
        ensures ReadsSame(size, ops)
      {
        NonEmptyRefines(size, ops);
      }
    } else {
      OverflowDiffers([m, m, m, m, m, m]);
    }
  }

  /** The reference queue after the operations, and what they made visible on the way. */
  function QueueAfter<T>(q: Queue<T>, ops: seq<Op<T>>): Queue<T>
    decreases |ops|
  {
    if ops == [] then q
    else if !Allowed(q.pending, ops[0]) then QueueAfter(q, ops[1..])
    else
      var pending := Ticketed(q.pending, ops[0]);
      match ops[0]
      case RecvOp => QueueAfter(Queue(if q.visible == [] then [] else q.visible[1..], pending), ops[1..])
      case SyncOp => QueueAfter(Queue(q.visible + Placed(q.pending), pending), ops[1..])
      case _ => QueueAfter(Queue(q.visible, pending), ops[1..])
  }

  function Delivered<T>(tickets: seq<Option<T>>, ops: seq<Op<T>>): seq<T>
    decreases |ops|
  {
    if ops == [] then []
    else if !Allowed(tickets, ops[0]) then Delivered(tickets, ops[1..])
    else (if ops[0].SyncOp? then Placed(tickets) else []) + Delivered(Ticketed(tickets, ops[0]), ops[1..])
  }

  /** First in, first out: what is read and what remains is what was delivered, in ticket order, each message once. */
  lemma {:induction false} QueueIsFifo<T>(q: Queue<T>, ops: seq<Op<T>>)
    ensures q.visible + Delivered(q.pending, ops) == RunQueue(q, ops) + QueueAfter(q, ops).visible
    decreases |ops|
  {
    hide Placed;
    if ops != [] {
      if !Allowed(q.pending, ops[0]) {
        QueueIsFifo(q, ops[1..]);
      } else {
        var pending := Ticketed(q.pending, ops[0]);
        match ops[0]
        case RecvOp =>
          if q.visible == [] {
            QueueIsFifo(q, ops[1..]);
          } else {
            QueueIsFifo(Queue(q.visible[1..], pending), ops[1..]);
            var d := Delivered(pending, ops[1..]);
            assert Delivered(q.pending, ops) == d;
            assert q.visible + d == [q.visible[0]] + (q.visible[1..] + d);
          }
        case SyncOp =>
          QueueIsFifo(Queue(q.visible + Placed(q.pending), pending), ops[1..]);
        case _ =>
          QueueIsFifo(Queue(q.visible, pending), ops[1..]);
      }
    }
  }

  class FIFO<T> {
    var txBufStart: nat
    var rxBufStart: nat
    var txBufSize: nat
    var bufLen: nat
    var buf: array<Option<T>>
    var rxBufSize: nat
    var nRx: nat
    var nRxSuccess: nat
    var nTx: nat
    const crashed: bool

    ghost function Model(): Ring<T>
      reads this, buf
    {
      Ring(buf[..], rxBufStart, rxBufSize, txBufStart, txBufSize, nRx, nTx)
    }

    ghost predicate Valid()
      reads this, buf
    {
      buf.Length == bufLen && nRx == nRxSuccess && InRange(Model())
    }

    constructor (size: nat, crash: bool)
      ensures Valid() && fresh(buf) && crashed == crash
      ensures Model() == Empty(size)
    {
      txBufStart, rxBufStart, txBufSize, bufLen := 0, 0, size, size;
      buf := new Option<T>[size](i => None);
      rxBufSize, nRx, nRxSuccess, nTx := 0, 0, 0, 0;
      crashed := crash;
      new;
      assert buf[..] == seq(size, i => None);
    }

    /** Reads the next message of this time slot; `ok` is false when it is drained. */
    method Recv() returns (msg: Option<T>, ok: bool)
      requires Valid()
      modifies this`nRx, this`nRxSuccess
      ensures Valid()
      ensures (Model(), msg) == Next(old(Model()))
      ensures ok == (old(Model()).nRx < old(Model()).rxSize)
    {
      if rxBufSize <= nRx {
        return None, false;
      }
      nRx := nRx + 1;
      var nRead := nRx;
      assert nRead <= rxBufSize;
      var idx := rxBufStart + nRead - 1;
      if idx >= bufLen {
        idx := idx - bufLen;
      }
      msg := buf[idx];
      nRxSuccess := nRxSuccess + 1;
      ok := true;
    }

    /** The atomic counter of Send: each sender gets the next ticket, counted from 1. */
    method DrawTicket() returns (nSend: nat)
      requires Valid()
      modifies this`nTx
      ensures Valid() && Model() == TakeTicket(old(Model())) && nSend == nTx
    {
      nTx := nTx + 1;
      nSend := nTx;
    }

    method GrowFor(nSend: nat)
      requires Valid() && nSend > txBufSize
      modifies this`buf, this`rxBufStart, this`txBufStart, this`txBufSize, this`bufLen
      ensures Valid() && fresh(buf)
      ensures Model() == Grow(old(Model()), nSend)
    {
      hide Insert;
      var insertAfter := txBufStart + txBufSize;
      if insertAfter >= bufLen {
        insertAfter := insertAfter - bufLen;
      }
      var nAllocated := nSend - txBufSize + 4;
      if nAllocated < bufLen {
        nAllocated := bufLen;
      }
      buf := InsertSlots(insertAfter, nAllocated);
      rxBufStart := rxBufStart + nAllocated;
      if insertAfter <= txBufStart && txBufSize != 0 {
        txBufStart := txBufStart + nAllocated;
      }
      txBufSize := txBufSize + nAllocated;
      bufLen := bufLen + nAllocated;
    }

    /** A copy of the buffer with `more` empty slots inserted before slot `at`. */
    method InsertSlots(at: nat, more: nat) returns (grown: array<Option<T>>)
      requires at <= buf.Length
      ensures fresh(grown) && grown[..] == Insert(buf[..], at, more)
    {
      hide Insert;
      grown := new Option<T>[buf.Length + more](i => None);
      for i := 0 to at
        invariant forall x :: 0 <= x < i ==> grown[x] == buf[x]
        invariant forall x :: at <= x < grown.Length ==> grown[x] == None
      {
        grown[i] := buf[i];
      }
      for i := at to buf.Length
        invariant forall x :: 0 <= x < at ==> grown[x] == buf[x]
        invariant forall x :: at <= x < at + more ==> grown[x] == None
        invariant forall x :: at + more <= x < i + more ==> grown[x] == buf[x - more]
      {
        grown[i + more] := buf[i];
      }
      forall x: nat | x < grown.Length
        ensures grown[..][x] == Insert(buf[..], at, more)[x]
      {
        GrownBuffer(buf[..], at, more, x);
      }
    }

    /** Puts the message of ticket nSend into its slot. */
    method Put(nSend: nat, m: T)
      requires Valid() && 1 <= nSend
      modifies this, buf
      ensures Valid() && (buf == old(buf) || fresh(buf))
      ensures Model() == Place(old(Model()), nSend, m)
    {
      if nSend > txBufSize {
        GrowFor(nSend);
      }
      var idx := txBufStart + nSend - 1;
      if idx >= bufLen {
        idx := idx - bufLen;
      }
      ghost var ring := buf[..];
      buf[idx] := Some(m);
      assert buf[..] == ring[idx := Some(m)];
    }

    method Send(m: T)
      requires Valid()
      modifies this, buf
      ensures Valid() && (buf == old(buf) || fresh(buf))
      ensures Model() == if crashed then old(Model()) else Place(TakeTicket(old(Model())), old(nTx) + 1, m)
    {
      hide Grow;
      if crashed {
        return;
      }
      var nSend := DrawTicket();
      Put(nSend, m);
    }

    /** Ends the time slot: drops what was read and delivers what was sent. */
    method EndSlot()
      requires Valid() && nTx <= txBufSize
      modifies this
      ensures Valid() && buf == old(buf)
      ensures Model() == Sync(old(Model()))
    {
      var received := nRxSuccess;
      var sent := nTx;
      nRx, nTx, nRxSuccess := 0, 0, 0;
      rxBufSize := rxBufSize + sent - received;
      rxBufStart := rxBufStart + received;
      if rxBufStart >= bufLen {
        rxBufStart := rxBufStart - bufLen;
      }
      txBufStart := rxBufStart + rxBufSize;
      if txBufStart >= bufLen {
        txBufStart := txBufStart - bufLen;
      }
      txBufSize := bufLen - rxBufSize;
    }
  }
}
