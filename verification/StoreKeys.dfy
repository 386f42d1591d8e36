/**
 The keys under which a server stores its VIDs and their chunks: WithPrefix in pika/protocol.go, vidKey in
 pika/pika.go and dbKey in pika/avid.go. No two slots of a server share a key.
 */
module StoreKeys {
  import opened Common

  const WORD: nat := 8

  function Pow256(k: nat): nat {
    if k == 0 then 1 else 256 * Pow256(k - 1)
  }

  /** The k low bytes of x, lowest first. */
  function LittleEndian(x: nat, k: nat): (b: Bytes)
    ensures |b| == k
  {
    if k == 0 then [] else [x % 256] + LittleEndian(x / 256, k - 1)
  }

  /** The k low bytes of x, highest first. */
  function BigEndian(x: nat, k: nat): (b: Bytes)
    ensures |b| == k
  {
    if k == 0 then [] else BigEndian(x / 256, k - 1) + [x % 256]
  }

  function Ascii(s: string): (b: Bytes)
    ensures |b| == |s|
  {
    seq(|s|, k requires 0 <= k < |s| => s[k] as nat)
  }

  lemma {:induction false} LittleEndianInjective(x: nat, y: nat, k: nat)
    requires x < Pow256(k) && y < Pow256(k) && LittleEndian(x, k) == LittleEndian(y, k)
    ensures x == y
  {
    if k > 0 {
      var a, b := LittleEndian(x, k), LittleEndian(y, k);
      assert a[0] == b[0] && a[1..] == b[1..];
      LittleEndianInjective(x / 256, y / 256, k - 1);
    }
  }

  lemma {:induction false} BigEndianInjective(x: nat, y: nat, k: nat)
    requires x < Pow256(k) && y < Pow256(k) && BigEndian(x, k) == BigEndian(y, k)
    ensures x == y
  {
    if k > 0 {
      var a, b := BigEndian(x, k), BigEndian(y, k);
      assert a[k - 1] == b[k - 1] && a[..k - 1] == b[..k - 1];
      BigEndianInjective(x / 256, y / 256, k - 1);
    }
  }

  /** The key prefix that WithPrefix derives: the tag and the little-endian index behind the old prefix. */
  function Prefixed(prefix: Bytes, tag: string, i: nat): Bytes {
    prefix + Ascii(tag) + LittleEndian(i, WORD)
  }

  /** WithPrefix writes the parts into a buffer one after the other. */
  method WithPrefix(prefix: Bytes, tag: string, i: nat) returns (key: Bytes)
    ensures key == Prefixed(prefix, tag, i)
  {
    key := [];
    for k := 0 to |prefix|
      invariant key == prefix[..k]
    {
      key := key + [prefix[k]];
    }
    for k := 0 to |tag|
      invariant key == prefix + Ascii(tag)[..k]
    {
      key := key + [tag[k] as nat];
    }
    var x := i;
    for k := 0 to WORD
      invariant LittleEndian(i, WORD) == LittleEndian(i, WORD)[..k] + LittleEndian(x, WORD - k)
      invariant key == prefix + Ascii(tag) + LittleEndian(i, WORD)[..k]
    {
      assert LittleEndian(x, WORD - k) == [x % 256] + LittleEndian(x / 256, WORD - k - 1);
      assert LittleEndian(i, WORD)[k] == x % 256;
      key := key + [x % 256];
      x := x / 256;
    }
  }

  /** What a server stores: per epoch and proposer a paged VID, its own chunks, and those received from server `from`. */
  datatype Slot =
    | PagedVID(epoch: nat, idx: nat)
    | OwnChunk(epoch: nat, idx: nat)
    | OwnEcho(epoch: nat, idx: nat)
    | GotChunk(epoch: nat, idx: nat, from: nat)
    | GotEcho(epoch: nat, idx: nat, from: nat)

  predicate Fits(s: Slot) {
    && s.epoch < Pow256(WORD) && s.idx < Pow256(WORD)
    && (s.GotChunk? ==> s.from < Pow256(WORD))
    && (s.GotEcho? ==> s.from < Pow256(WORD))
  }

  function EpochPrefix(root: Bytes, epoch: nat): Bytes {
    Prefixed(root, "PikaEpoch", epoch)
  }

  function VIDPrefix(root: Bytes, epoch: nat, idx: nat): Bytes {
    Prefixed(EpochPrefix(root, epoch), "VID", idx)
  }

  function Key(root: Bytes, s: Slot): Bytes {
    match s
    case PagedVID(e, i) => EpochPrefix(root, e) + BigEndian(i, WORD)
    case OwnChunk(e, i) => VIDPrefix(root, e, i) + Ascii("ourchunk") + BigEndian(0, WORD)
    case OwnEcho(e, i) => VIDPrefix(root, e, i) + Ascii("ourecho") + BigEndian(0, WORD)
    case GotChunk(e, i, j) => VIDPrefix(root, e, i) + Ascii("ch") + BigEndian(j, WORD)
    case GotEcho(e, i, j) => VIDPrefix(root, e, i) + Ascii("ec") + BigEndian(j, WORD)
  }

  lemma SplitEqual(a: Bytes, b: Bytes, c: Bytes, d: Bytes)
    requires a + b == c + d && |a| == |c|
    ensures a == c && b == d
  {
    assert a == (a + b)[..|a|] && c == (c + d)[..|a|];
    assert b == (a + b)[|a|..] && d == (c + d)[|a|..];
  }

  lemma PrefixedInjective(p: Bytes, q: Bytes, tag: string, i: nat, j: nat)
    requires i < Pow256(WORD) && j < Pow256(WORD) && |p| == |q|
    requires Prefixed(p, tag, i) == Prefixed(q, tag, j)
    ensures p == q && i == j
  {
    SplitEqual(p + Ascii(tag), LittleEndian(i, WORD), q + Ascii(tag), LittleEndian(j, WORD));
    SplitEqual(p, Ascii(tag), q, Ascii(tag));
    LittleEndianInjective(i, j, WORD);
  }

  lemma VIDPrefixInjective(root: Bytes, d: nat, i: nat, e: nat, j: nat)
    requires d < Pow256(WORD) && e < Pow256(WORD) && i < Pow256(WORD) && j < Pow256(WORD)
    requires VIDPrefix(root, d, i) == VIDPrefix(root, e, j)
    ensures d == e && i == j
  {
    PrefixedInjective(EpochPrefix(root, d), EpochPrefix(root, e), "VID", i, j);
    PrefixedInjective(root, root, "PikaEpoch", d, e);
  }

  /** The kind of a slot shows in the length of its key, but for received chunks and echoes, whose tags differ. */
  lemma KeyLength(root: Bytes, s: Slot)
    ensures |Key(root, s)| == |root| + match s
                                       case PagedVID(_, _) => 25
                                       case OwnChunk(_, _) => 44
                                       case OwnEcho(_, _) => 43
                                       case _ => 38
  {
  }

  lemma TaggedInjective(p: Bytes, tag: string, j: nat, q: Bytes, tag': string, k: nat)
    requires j < Pow256(WORD) && k < Pow256(WORD) && |p| == |q| && |tag| == |tag'|
    requires p + Ascii(tag) + BigEndian(j, WORD) == q + Ascii(tag') + BigEndian(k, WORD)
    ensures p == q && Ascii(tag) == Ascii(tag') && j == k
  {
    SplitEqual(p + Ascii(tag), BigEndian(j, WORD), q + Ascii(tag'), BigEndian(k, WORD));
    SplitEqual(p, Ascii(tag), q, Ascii(tag'));
    BigEndianInjective(j, k, WORD);
  }

  lemma PagedInjective(root: Bytes, d: nat, i: nat, e: nat, j: nat)
    requires d < Pow256(WORD) && e < Pow256(WORD) && i < Pow256(WORD) && j < Pow256(WORD)
    requires Key(root, PagedVID(d, i)) == Key(root, PagedVID(e, j))
    ensures d == e && i == j
  {
    SplitEqual(EpochPrefix(root, d), BigEndian(i, WORD), EpochPrefix(root, e), BigEndian(j, WORD));
    PrefixedInjective(root, root, "PikaEpoch", d, e);
    BigEndianInjective(i, j, WORD);
  }

  /** Distinct slots of a server have distinct keys, and only they. */
  lemma KeysDisjoint(root: Bytes, s: Slot, t: Slot)
    requires Fits(s) && Fits(t)
    ensures Key(root, s) == Key(root, t) <==> s == t
  {
    if Key(root, s) == Key(root, t) {
      KeyLength(root, s);
      KeyLength(root, t);
      var p, q := VIDPrefix(root, s.epoch, s.idx), VIDPrefix(root, t.epoch, t.idx);
      match s
      case PagedVID(d, i) => PagedInjective(root, d, i, t.epoch, t.idx);
      case OwnChunk(d, i) =>
        TaggedInjective(p, "ourchunk", 0, q, "ourchunk", 0);
        VIDPrefixInjective(root, d, i, t.epoch, t.idx);
      case OwnEcho(d, i) =>
        TaggedInjective(p, "ourecho", 0, q, "ourecho", 0);
        VIDPrefixInjective(root, d, i, t.epoch, t.idx);
      case _ =>
        var tagS, tagT := (if s.GotChunk? then "ch" else "ec"), (if t.GotChunk? then "ch" else "ec");
        TaggedInjective(p, tagS, s.from, q, tagT, t.from);
        assert Ascii("ch")[0] != Ascii("ec")[0];
        VIDPrefixInjective(root, s.epoch, s.idx, t.epoch, t.idx);
    }
  }
}
