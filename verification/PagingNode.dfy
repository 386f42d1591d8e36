/** The objects of the VID cache in pika/pika.go. The cache stands for a plain array of VIDs, `values`. */
module PagingNode {
  import opened Common
  import opened StoreKeys
  import opened Paging

  /** The database, holding one gob stream per key. */
  class Disk {
    var data: map<Bytes, seq<Token>>

    constructor ()
      ensures data == map[]
    {
      data := map[];
    }

    method Put(key: Bytes, value: seq<Token>)
      modifies this
      ensures data == old(data)[key := value]
    {
      data := data[key := value];
    }

    method Get(key: Bytes) returns (value: seq<Token>)
      requires key in data
      ensures value == data[key]
    {
      value := data[key];
    }
  }

  /** A VID in memory, which users hold by reference. */
  class Cell {
    var image: Image

    constructor (m: Image)
      ensures image == m
    {
      image := m;
    }
  }

  /** Where a VID is. */
  datatype Storage = InMemory | OnDisk | PagedInClean | PagedInDirty

  ghost predicate StoredAt(data: map<Bytes, seq<Token>>, key: Bytes, m: Image) {
    key in data && Unmarshal(data[key]) == Some(m)
  }

  /** Storing one VID of an epoch does not touch another. */
  lemma OthersStored(data: map<Bytes, seq<Token>>, root: Bytes, epoch: nat, i: nat, j: nat, value: seq<Token>, m: Image)
    requires epoch < Pow256(WORD) && i < Pow256(WORD) && j < Pow256(WORD) && i != j
    requires StoredAt(data, Key(root, PagedVID(epoch, j)), m)
    ensures StoredAt(data[Key(root, PagedVID(epoch, i)) := value], Key(root, PagedVID(epoch, j)), m)
  {
    hide Unmarshal, Key;
    KeysDisjoint(root, PagedVID(epoch, i), PagedVID(epoch, j));
  }

  class VIDCache {
    const n: nat
    const root: Bytes
    const epoch: nat
    const disk: Disk
    var v: seq<Cell?>
    var vStorage: seq<Storage>
    /** How often each VID has been accessed and not yet been freed. */
    var vRefCount: seq<nat>
    /** How many of these accesses may change the VID. */
    ghost var writers: seq<nat>
    /** The VIDs as an array. */
    ghost var values: seq<Image>

    ghost function Cells(): set<object>
      reads this
    {
      set c: Cell? | c in v && c != null :: c
    }

    ghost predicate Sized()
      reads this
    {
      |v| == |vStorage| == |vRefCount| == |writers| == |values| == n && n < Pow256(WORD) && epoch < Pow256(WORD)
    }

    function VidKey(i: nat): Bytes {
      Key(root, PagedVID(epoch, i))
    }

    /** The database has the current value of VID i. */
    ghost predicate Stored(i: nat)
      requires Sized() && i < n
      reads this, disk
    {
      StoredAt(disk.data, VidKey(i), values[i])
    }

    ghost predicate SlotOk(i: nat)
      requires Sized() && i < n
      reads this, disk, v[i]
    {
      && Normal(values[i]) == values[i]
      && writers[i] <= vRefCount[i]
      && (vStorage[i].OnDisk? <==> v[i] == null)
      && (vStorage[i].OnDisk? ==> vRefCount[i] == 0 && Stored(i))
      && (vStorage[i].PagedInClean? ==> vRefCount[i] > 0 && writers[i] == 0 && Stored(i))
      && (vStorage[i].PagedInDirty? ==> vRefCount[i] > 0)
      && (v[i] != null ==> Normal(v[i].image) == values[i])
    }

    ghost predicate Valid()
      reads this, disk, Cells()
    {
      && Sized()
      && (forall i: nat :: i < n ==> assert v[i] in v; SlotOk(i))
      && (forall i: nat, j: nat :: i < j < n && v[i] != null ==> v[i] != v[j])
    }

    /** All VIDs start in memory. */
    constructor (images: seq<Image>, root: Bytes, epoch: nat, disk: Disk)
      requires |images| < Pow256(WORD) && epoch < Pow256(WORD)
      ensures Valid() && n == |images| && values == seq(n, i requires 0 <= i < n => Normal(images[i]))
      ensures this.disk == disk && vRefCount == writers == seq(n, i => 0)
    {
      hide Normal, Pow256, Key;
      n := |images|;
      this.root, this.epoch, this.disk := root, epoch, disk;
      v, vStorage, vRefCount, writers := [], seq(|images|, i => InMemory), seq(|images|, i => 0), seq(|images|, i => 0);
      values := seq(|images|, i requires 0 <= i < |images| => Normal(images[i]));
      new;
      for k := 0 to n
        invariant |v| == k
        invariant forall i: nat :: i < k ==> v[i] != null && fresh(v[i]) && v[i].image == images[i]
        invariant forall i: nat, j: nat :: i < j < k ==> v[i] != v[j]
        invariant values == seq(|images|, i requires 0 <= i < |images| => Normal(images[i]))
        invariant vStorage == seq(n, i => InMemory) && vRefCount == writers == seq(n, i => 0)
        modifies this
      {
        var c := new Cell(images[k]);
        v := v + [c];
      }
      forall i: nat | i < n
        ensures SlotOk(i)
      {
        NormalIsNormal(images[i]);
      }
    }

    /** Writes VID i to the database and drops it from memory. */
    method PageOut(i: nat)
      requires Sized() && i < n && v[i] != null && Normal(v[i].image) == values[i]
      modifies this`v, disk
      ensures Sized() && v == old(v)[i := null] && Stored(i)
      ensures disk.data == old(disk.data)[VidKey(i) := Marshal(old(v[i].image))]
    {
      hide Normal, Marshal, Unmarshal, Pow256, Key;
      RoundTrip(v[i].image);
      disk.Put(VidKey(i), Marshal(v[i].image));
      v := v[i := null];
    }

    /** Reads VID i back from the database. */
    method PageIn(i: nat)
      requires Sized() && i < n && Stored(i)
      modifies this`v
      ensures Sized() && v == old(v)[i := v[i]] && v[i] != null && fresh(v[i]) && v[i].image == values[i]
    {
      hide Normal, Marshal, Unmarshal, Pow256, Key;
      var data := disk.Get(VidKey(i));
      var c := new Cell(Unmarshal(data).value);
      v := v[i := c];
    }

    /** Gives access to VID i for reading. */
    method ReadVID(i: nat) returns (c: Cell)
      requires Valid() && i < n
      modifies this`v, this`vStorage, this`vRefCount
      ensures Valid() && c == v[i] && Normal(c.image) == values[i]
      ensures vRefCount == old(vRefCount)[i := old(vRefCount[i]) + 1]
      ensures v == old(v)[i := c] && (old(vRefCount[i]) > 0 ==> c == old(v[i]))
    {
      hide Normal, Unmarshal, Pow256, Key;
      assert SlotOk(i);
      if !vStorage[i].OnDisk? {
        vRefCount := vRefCount[i := vRefCount[i] + 1];
      } else {
        PageIn(i);
        vRefCount, vStorage := vRefCount[i := vRefCount[i] + 1], vStorage[i := PagedInClean];
      }
      c := v[i];
      forall j: nat | j < n
        ensures SlotOk(j)
      {
        assert old(SlotOk(j));
      }
    }

    /** Gives access to VID i for changing it. */
    method WriteVID(i: nat) returns (c: Cell)
      requires Valid() && i < n
      modifies this`v, this`vStorage, this`vRefCount, this`writers
      ensures Valid() && c == v[i] && Normal(c.image) == values[i]
      ensures vRefCount == old(vRefCount)[i := old(vRefCount[i]) + 1]
      ensures writers == old(writers)[i := old(writers[i]) + 1]
      ensures v == old(v)[i := c] && (old(vRefCount[i]) > 0 ==> c == old(v[i]))
    {
      hide Normal, Unmarshal, Pow256, Key;
      assert SlotOk(i);
      writers := writers[i := writers[i] + 1];
      if !vStorage[i].OnDisk? {
        vRefCount := vRefCount[i := vRefCount[i] + 1];
        if vStorage[i].PagedInClean? {
          vStorage := vStorage[i := PagedInDirty];
        }
      } else {
        PageIn(i);
        vRefCount, vStorage := vRefCount[i := vRefCount[i] + 1], vStorage[i := PagedInDirty];
      }
      c := v[i];
      forall j: nat | j < n
        ensures SlotOk(j)
      {
        assert old(SlotOk(j));
      }
    }

    /** A user with access for changing VID i changes it. */
    method Change(i: nat, c: Cell, m: Image)
      requires Valid() && i < n && writers[i] > 0 && c == v[i]
      modifies c, this`values
      ensures Valid() && values == old(values)[i := Normal(m)]
    {
      hide Unmarshal, Pow256, Key;
      assert SlotOk(i);
      NormalIsNormal(m);
      c.image := m;
      values := values[i := Normal(m)];
      forall j: nat | j < n && j != i
        ensures SlotOk(j)
      {
        assert old(SlotOk(j));
      }
    }

    /** Moves a VID that nobody accesses to the database. */
    method PageOutToDisk(i: nat)
      requires Sized() && i < n && v[i] != null && vRefCount[i] == 0 && writers[i] == 0
      requires Normal(values[i]) == values[i] && Normal(v[i].image) == values[i]
      requires forall j: nat :: j < n && j != i ==> assert v[j] in v; SlotOk(j)
      requires forall j: nat, k: nat :: j < k < n && v[j] != null ==> v[j] != v[k]
      modifies this`v, this`vStorage, disk
      ensures Valid()
      ensures v == old(v)[i := null] && vStorage == old(vStorage)[i := OnDisk]
    {
      hide Normal, Unmarshal, Pow256, Key;
      PageOut(i);
      vStorage := vStorage[i := OnDisk];
      forall j: nat | j < n && j != i
        ensures SlotOk(j)
      {
        assert old(SlotOk(j));
        if old(Stored(j)) {
          OthersStored(old(disk.data), root, epoch, i, j, Marshal(old(v[i].image)), values[j]);
        }
      }
    }

    /** Forces VID i to the database: at once if nobody accesses it, otherwise with the last access. */
    method StashVID(i: nat)
      requires Valid() && i < n && (vRefCount[i] > 0 || !vStorage[i].OnDisk?)
      modifies this`v, this`vStorage, disk
      ensures Valid()
      ensures old(vRefCount[i]) > 0 ==> v == old(v)
      ensures old(vRefCount[i]) == 0 ==> vStorage[i].OnDisk?
    {
      hide Normal, Unmarshal, Pow256, Key;
      assert SlotOk(i);
      if vRefCount[i] == 0 {
        PageOutToDisk(i);
      } else {
        vStorage := vStorage[i := PagedInDirty];
        forall j: nat | j < n
          ensures SlotOk(j)
        {
          assert old(SlotOk(j));
        }
      }
    }

    /** Gives up an access to VID i; `wrote` tells which kind of access it was. */
    method FreeVID(i: nat, ghost wrote: bool)
      requires Valid() && i < n
      requires vRefCount[i] > 0 && if wrote then writers[i] > 0 else vRefCount[i] > writers[i]
      modifies this`v, this`vStorage, this`vRefCount, this`writers, disk
      ensures Valid()
      ensures vRefCount == old(vRefCount)[i := old(vRefCount[i]) - 1]
      ensures writers == if wrote then old(writers)[i := old(writers[i]) - 1] else old(writers)
      ensures old(vRefCount[i]) > 1 ==> v == old(v)
    {
      hide Normal, Unmarshal, Pow256, Key;
      assert SlotOk(i);
      vRefCount := vRefCount[i := vRefCount[i] - 1];
      if wrote {
        writers := writers[i := writers[i] - 1];
      }
      forall j: nat | j < n && j != i
        ensures SlotOk(j)
      {
        assert old(SlotOk(j));
      }
      if vRefCount[i] == 0 {
        match vStorage[i]
        case InMemory =>
        case PagedInClean =>
          v, vStorage := v[i := null], vStorage[i := OnDisk];
          forall j: nat | j < n
            ensures SlotOk(j)
          {
            assert old(SlotOk(j));
          }
        case PagedInDirty =>
          PageOutToDisk(i);
        case OnDisk =>
          assert false;
      }
    }
  }
}
