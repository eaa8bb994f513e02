/**
 Blocks, bitmap, inodes and block addresses of kernel/fs.c as a value, and what allocating,
 freeing and overwriting a block does to every file.
 */
module FsState {
  import opened Blocks
  import opened Sets

  const NDIRECT := 12
  const MAXFILE := 268      // NDIRECT + NINDIRECT
  const BPB := 8192         // bitmap bits per block
  const IPB := 16           // inodes per block
  const SLOTS := 269        // NDIRECT addresses, the indirect block, its NINDIRECT entries

  /** The superblock, and where data blocks begin. */
  datatype Layout = Layout(size: nat, ninodes: nat, inodestart: nat, bmapstart: nat, datastart: nat)

  predicate LayoutOk(l: Layout) {
    && 0 < l.inodestart && l.inodestart + l.ninodes / IPB < l.bmapstart
    && l.bmapstart + l.size / BPB < l.datastart <= l.size < 0x8000_0000
  }

  datatype Inode = Inode(addrs: seq<nat>, size: nat)

  /** Where a block address is kept: k < 12 direct, k == 12 the indirect block, then its entries. */
  datatype Slot = Slot(i: nat, k: nat)

  /** Buffers as the log shows them, inodes in memory and on disk, blocks logged, and who owns a block. */
  datatype State = State(lay: Layout, blk: seq<Block>, ino: seq<Inode>, din: seq<Inode>, logged: set<nat>,
      owner: map<nat, Slot>)

  function BitmapBlock(l: Layout, b: nat): nat { b / BPB + l.bmapstart }

  // ---- shape ----

  ghost predicate Shape(s: State) {
    && LayoutOk(s.lay)
    && |s.blk| == s.lay.size
    && |s.ino| == |s.din| == s.lay.ninodes
    && (forall i :: 0 <= i < |s.ino| ==> |s.ino[i].addrs| == NDIRECT + 1)
    && (forall i :: 0 <= i < |s.ino| ==> s.ino[i].addrs[NDIRECT] < s.lay.size)
  }

  /** The bitmap bit of block b. */
  ghost predicate Bit(s: State, b: nat)
    requires LayoutOk(s.lay) && |s.blk| == s.lay.size && b < s.lay.size
  {
    BitOf(s.blk[BitmapBlock(s.lay, b)][b % BPB / 8], b % BPB % 8)
  }

  /** The address in slot k of inode i, 0 if there is none. */
  ghost function AddrAt(s: State, i: nat, k: nat): nat
    requires Shape(s) && i < |s.ino| && k < SLOTS
  {
    if k <= NDIRECT then s.ino[i].addrs[k]
    else if s.ino[i].addrs[NDIRECT] == 0 then 0
    else Word(s.blk[s.ino[i].addrs[NDIRECT]], k - NDIRECT - 1)
  }

  /** The slot of the bn-th block of a file. */
  function SlotOf(bn: nat): nat { if bn < NDIRECT then bn else bn + 1 }

  /** The byte at offset o of file i; a block that is not there reads as zeros. */
  ghost function ByteAt(s: State, i: nat, o: nat): Byte
    requires Shape(s) && i < |s.ino| && o < MAXFILE * BSIZE
  {
    var a := AddrAt(s, i, SlotOf(o / BSIZE));
    if 0 < a < |s.blk| then s.blk[a][o % BSIZE] else 0
  }

  /** The contents of file i. */
  ghost function File(s: State, i: nat): seq<Byte>
    requires Shape(s) && i < |s.ino| && s.ino[i].size <= MAXFILE * BSIZE
  {
    seq(s.ino[i].size, o requires 0 <= o < s.ino[i].size => ByteAt(s, i, o))
  }

  // ---- the invariant ----

  /** Entries below j of inode i's indirect block, while itrunc is freeing them. */
  predicate Gone(i: nat, j: nat, x: Slot) {
    x.i == i && NDIRECT < x.k <= NDIRECT + j
  }

  /** Blocks below the data area are marked in use; a data block is so exactly if it has an owner. */
  ghost predicate BitsOk(s: State)
    requires Shape(s)
  {
    && (forall b: nat :: b < s.lay.datastart ==> Bit(s, b))
    && (forall b: nat :: b in s.owner ==> s.lay.datastart <= b < s.lay.size)
    && (forall b: nat :: s.lay.datastart <= b < s.lay.size ==> (b in s.owner <==> Bit(s, b)))
  }

  /** The owner of a block holds its address. */
  ghost predicate Held(s: State, gi: nat, gj: nat)
    requires Shape(s)
  {
    && (forall b: nat :: b in s.owner ==>
        s.owner[b].i < |s.ino| && s.owner[b].k < SLOTS && AddrAt(s, s.owner[b].i, s.owner[b].k) == b)
    && (forall b: nat :: b in s.owner ==> !Gone(gi, gj, s.owner[b]))
  }

  /** Whoever holds an address owns the block, apart from entries already given up. */
  ghost predicate Owned(s: State, gi: nat, gj: nat)
    requires Shape(s)
  {
    forall i: nat, k: nat :: i < |s.ino| && k < SLOTS && AddrAt(s, i, k) != 0 && !Gone(gi, gj, Slot(i, k)) ==>
      AddrAt(s, i, k) in s.owner && s.owner[AddrAt(s, i, k)] == Slot(i, k)
  }

  ghost predicate SizesOk(s: State) {
    forall i :: 0 <= i < |s.ino| ==> s.ino[i].size <= MAXFILE * BSIZE
  }

  ghost predicate InvBut(s: State, gi: nat, gj: nat) {
    Shape(s) && SizesOk(s) && BitsOk(s) && Held(s, gi, gj) && Owned(s, gi, gj)
  }

  ghost predicate Inv(s: State) {
    InvBut(s, 0, 0)
  }

  /** No block is shared, and every block in use by a file is marked. */
  lemma NoSharing(s: State, i: nat, k: nat, i': nat, k': nat)
    requires Inv(s) && i < |s.ino| && i' < |s.ino| && k < SLOTS && k' < SLOTS
    requires AddrAt(s, i, k) != 0
    ensures s.lay.datastart <= AddrAt(s, i, k) < s.lay.size && Bit(s, AddrAt(s, i, k))
    ensures AddrAt(s, i, k) == AddrAt(s, i', k') ==> i == i' && k == k'
  {
    hide AddrAt, Bit, Shape;
  }

  /** No block leaks: a marked data block is held in some slot. */
  lemma NoLeak(s: State, b: nat)
    requires Inv(s) && s.lay.datastart <= b < s.lay.size && Bit(s, b)
    ensures exists i: nat, k: nat :: i < |s.ino| && k < SLOTS && AddrAt(s, i, k) == b
  {
    hide AddrAt, Bit, Shape;
    assert b in s.owner;
    assert AddrAt(s, s.owner[b].i, s.owner[b].k) == b;
  }

  // ---- marking a bit ----

  function Mark(s: State, b: nat, v: bool): State
    requires LayoutOk(s.lay) && |s.blk| == s.lay.size && b < s.lay.size
  {
    var bb := BitmapBlock(s.lay, b);
    s.(blk := s.blk[bb := s.blk[bb][b % BPB / 8 := SetTo(s.blk[bb][b % BPB / 8], b % BPB % 8, v)]])
  }

  lemma SameBit(b: nat, c: nat)
    requires b / BPB == c / BPB && b % BPB / 8 == c % BPB / 8 && b % BPB % 8 == c % BPB % 8
    ensures b == c
  {
  }

  lemma MarkBit(s: State, b: nat, v: bool, c: nat)
    requires LayoutOk(s.lay) && |s.blk| == s.lay.size && b < s.lay.size && c < s.lay.size
    ensures Bit(Mark(s, b, v), c) == if c == b then v else Bit(s, c)
  {
    hide BitOf, SetTo;
    var bb := BitmapBlock(s.lay, b);
    SetToBit(s.blk[bb][b % BPB / 8], b % BPB % 8, v, c % BPB % 8);
    if c != b && b / BPB == c / BPB && b % BPB / 8 == c % BPB / 8 && b % BPB % 8 == c % BPB % 8 { SameBit(b, c); }
  }

  // ---- taking a block and storing its address ----

  function Zeros(): Block { seq(BSIZE, _ => 0) }

  /** What balloc does for block b. */
  function Taken(s: State, b: nat): State
    requires LayoutOk(s.lay) && |s.blk| == s.lay.size && b < s.lay.size
  {
    var t := Mark(s, b, true);
    t.(blk := t.blk[b := Zeros()], logged := t.logged + {BitmapBlock(s.lay, b), b})
  }

  /** Store address a in slot k of inode i. */
  ghost function PutAddr(s: State, i: nat, k: nat, a: nat): State
    requires Shape(s) && i < |s.ino| && k < SLOTS && a < s.lay.size
  {
    if k <= NDIRECT then s.(ino := s.ino[i := s.ino[i].(addrs := s.ino[i].addrs[k := a])])
    else
      var x := s.ino[i].addrs[NDIRECT];
      s.(blk := s.blk[x := PutWord(s.blk[x], k - NDIRECT - 1, a)], logged := s.logged + {x})
  }

  /** What bmap does to fill slot k of inode i with block b. */
  ghost function Attached(s: State, i: nat, k: nat, b: nat): State
    requires Shape(s) && i < |s.ino| && k < SLOTS && b < s.lay.size
  {
    PutAddr(Taken(s, b), i, k, b).(owner := s.owner[b := Slot(i, k)])
  }

  /** Block b is free and slot k of inode i is empty, and can be filled. */
  ghost predicate CanAttach(s: State, i: nat, k: nat, b: nat) {
    && Inv(s) && i < |s.ino| && k < SLOTS && b < s.lay.size && !Bit(s, b)
    && AddrAt(s, i, k) == 0 && (k > NDIRECT ==> s.ino[i].addrs[NDIRECT] != 0)
  }

  lemma FreeIsData(s: State, b: nat)
    requires Inv(s) && b < s.lay.size && !Bit(s, b)
    ensures s.lay.datastart <= b && b !in s.owner
  {
    hide Bit, AddrAt;
  }

  lemma TakenBit(s: State, b: nat, c: nat)
    requires Shape(s) && s.lay.datastart <= b < s.lay.size && c < s.lay.size
    ensures Bit(Taken(s, b), c) == (c == b || Bit(s, c))
  {
    hide BitOf, SetTo;
    MarkBit(s, b, true, c);
    assert BitmapBlock(s.lay, c) < s.lay.datastart;
  }

  /** Indirect blocks lie in the data area, are owned, and belong to one inode. */
  lemma IndirectOwned(s: State, i: nat)
    requires Inv(s) && i < |s.ino| && s.ino[i].addrs[NDIRECT] != 0
    ensures s.lay.datastart <= s.ino[i].addrs[NDIRECT] < s.lay.size
    ensures s.ino[i].addrs[NDIRECT] in s.owner && s.owner[s.ino[i].addrs[NDIRECT]] == Slot(i, NDIRECT)
  {
    hide Bit;
    assert AddrAt(s, i, NDIRECT) == s.ino[i].addrs[NDIRECT];
  }

  lemma ZeroWords(j: nat)
    requires j < NINDIRECT
    ensures Word(Zeros(), j) == 0
  {
  }

  lemma TakenAddr(s: State, b: nat, i: nat, k: nat)
    requires Inv(s) && b < s.lay.size && !Bit(s, b) && i < |s.ino| && k < SLOTS
    ensures AddrAt(Taken(s, b), i, k) == AddrAt(s, i, k)
  {
    hide Bit, BitOf, SetTo, Owned, Held, Word;
    FreeIsData(s, b);
    if k > NDIRECT && s.ino[i].addrs[NDIRECT] != 0 {
      IndirectOwned(s, i);
    }
  }

  lemma AttachedAddr(s: State, i: nat, k: nat, b: nat, i': nat, k': nat)
    requires CanAttach(s, i, k, b) && i' < |s.ino| && k' < SLOTS
    ensures Shape(Attached(s, i, k, b)) && Attached(s, i, k, b).lay == s.lay && |Attached(s, i, k, b).ino| == |s.ino|
    ensures AddrAt(Attached(s, i, k, b), i', k') == if i' == i && k' == k then b else AddrAt(s, i', k')
  {
    hide Bit, BitOf, SetTo, Owned, Held, BitsOk, Word, PutWord, Zeros;
    TakenAddr(s, b, i', k');
    var t := Taken(s, b);
    var x := s.ino[i].addrs[NDIRECT];
    if k > NDIRECT {
      IndirectOwned(s, i);
      if k' > NDIRECT {
        if s.ino[i'].addrs[NDIRECT] != 0 { IndirectOwned(s, i'); }
        PutWordWord(t.blk[x], k - NDIRECT - 1, b, k' - NDIRECT - 1);
      }
    } else if k == NDIRECT && k' > NDIRECT {
      ZeroWords(k' - NDIRECT - 1);
    }
  }

  /** Filling an empty slot changes the data of no slot that holds file data. */
  lemma AttachedData(s: State, i: nat, k: nat, b: nat, a: nat)
    requires CanAttach(s, i, k, b) && s.lay.datastart <= a < s.lay.size
    requires a == b || (a in s.owner && s.owner[a].k != NDIRECT)
    ensures Shape(Attached(s, i, k, b))
    ensures Attached(s, i, k, b).blk[a] == if a == b then Zeros() else s.blk[a]
  {
    hide Bit, BitOf, SetTo, Owned, Held, BitsOk, Word, PutWord, Zeros;
    FreeIsData(s, b);
    if k > NDIRECT { IndirectOwned(s, i); }
  }

  lemma AttachedBit(s: State, i: nat, k: nat, b: nat, c: nat)
    requires CanAttach(s, i, k, b) && c < s.lay.size
    ensures Shape(Attached(s, i, k, b))
    ensures Bit(Attached(s, i, k, b), c) == (c == b || Bit(s, c))
  {
    hide BitOf, SetTo, Owned, Held, BitsOk, Word, PutWord, Zeros;
    FreeIsData(s, b);
    TakenBit(s, b, c);
    if k > NDIRECT { IndirectOwned(s, i); }
    assert BitmapBlock(s.lay, c) < s.lay.datastart;
  }

  lemma AttachedInv(s: State, i: nat, k: nat, b: nat)
    requires CanAttach(s, i, k, b)
    ensures Inv(Attached(s, i, k, b))
  {
    hide Bit, AddrAt, BitsOk, Held, Owned, PutAddr, Taken;
    var t := Attached(s, i, k, b);
    FreeIsData(s, b);
    AttachedAddr(s, i, k, b, i, k);
    AttachedSizes(s, i, k, b);
    forall c: nat | c < s.lay.size ensures Bit(t, c) == (c == b || Bit(s, c)) { AttachedBit(s, i, k, b, c); }
    forall i': nat, k': nat | i' < |s.ino| && k' < SLOTS
      ensures AddrAt(t, i', k') == if i' == i && k' == k then b else AddrAt(s, i', k')
    {
      AttachedAddr(s, i, k, b, i', k');
    }
    OwnerAdded(s, t, i, k, b);
  }

  lemma AttachedSizes(s: State, i: nat, k: nat, b: nat)
    requires Shape(s) && i < |s.ino| && k < SLOTS && b < s.lay.size
    ensures var t := Attached(s, i, k, b);
            |t.ino| == |s.ino| && t.din == s.din && forall j :: 0 <= j < |s.ino| ==> t.ino[j].size == s.ino[j].size
  {
    hide BitOf, SetTo, Zeros, PutWord;
  }

  /** t is s with block b newly marked, and held in the empty slot k of inode i. */
  ghost predicate Adds(s: State, t: State, i: nat, k: nat, b: nat) {
    && Shape(s) && Shape(t) && t.lay == s.lay && |t.ino| == |s.ino| && t.owner == s.owner[b := Slot(i, k)]
    && i < |s.ino| && k < SLOTS && s.lay.datastart <= b < s.lay.size && b !in s.owner && AddrAt(s, i, k) == 0
    && (forall c: nat :: c < s.lay.size ==> Bit(t, c) == (c == b || Bit(s, c)))
    && (forall i': nat, k': nat :: i' < |s.ino| && k' < SLOTS ==>
          AddrAt(t, i', k') == if i' == i && k' == k then b else AddrAt(s, i', k'))
  }

  lemma OwnerAdded(s: State, t: State, i: nat, k: nat, b: nat)
    requires Inv(s) && Adds(s, t, i, k, b)
    ensures BitsOk(t) && Held(t, 0, 0) && Owned(t, 0, 0)
  {
    hide BitsOk, Held, Owned, Adds, Bit, AddrAt;
    AddsBits(s, t, i, k, b);
    AddsHeld(s, t, i, k, b);
    AddsOwned(s, t, i, k, b);
  }

  lemma AddsBits(s: State, t: State, i: nat, k: nat, b: nat)
    requires Adds(s, t, i, k, b) && BitsOk(s)
    ensures Shape(t) && BitsOk(t)
  {
    hide AddrAt, Bit;
  }

  lemma AddsHeld(s: State, t: State, i: nat, k: nat, b: nat)
    requires Adds(s, t, i, k, b) && BitsOk(s) && Held(s, 0, 0)
    ensures Shape(t) && Held(t, 0, 0)
  {
    hide AddrAt, Bit;
  }

  lemma AddsOwned(s: State, t: State, i: nat, k: nat, b: nat)
    requires Adds(s, t, i, k, b) && Owned(s, 0, 0)
    ensures Shape(t) && Owned(t, 0, 0)
  {
    hide AddrAt, Bit;
  }

  lemma AttachedByte(s: State, i: nat, k: nat, b: nat, i': nat, o: nat)
    requires CanAttach(s, i, k, b) && i' < |s.ino| && o < MAXFILE * BSIZE
    ensures Shape(Attached(s, i, k, b)) && ByteAt(Attached(s, i, k, b), i', o) == ByteAt(s, i', o)
  {
    hide Bit, AddrAt, BitsOk, Held, Attached;
    FreeIsData(s, b);
    var k' := SlotOf(o / BSIZE);
    AttachedAddr(s, i, k, b, i', k');
    var a := AddrAt(s, i', k');
    if i' == i && k' == k {
      AttachedData(s, i, k, b, b);
    } else if a != 0 {
      NoSharing(s, i', k', i', k');
      AttachedData(s, i, k, b, a);
    }
  }

  // ---- giving blocks back ----

  /** What bfree does for block b. */
  function Freed(s: State, b: nat): State
    requires LayoutOk(s.lay) && |s.blk| == s.lay.size && b < s.lay.size
  {
    var t := Mark(s, b, false);
    t.(logged := t.logged + {BitmapBlock(s.lay, b)})
  }

  /** bfree touches the bitmap only. */
  lemma FreedBlocks(s: State, b: nat, a: nat)
    requires Shape(s) && b < s.lay.size && s.lay.datastart <= a < s.lay.size
    ensures Shape(Freed(s, b)) && Freed(s, b).blk[a] == s.blk[a]
  {
    hide SetTo;
  }

  lemma FreedBit(s: State, b: nat, c: nat)
    requires Shape(s) && b < s.lay.size && c < s.lay.size
    ensures Bit(Freed(s, b), c) == (c != b && Bit(s, c))
  {
    hide BitOf, SetTo;
    MarkBit(s, b, false, c);
  }

  /** Indirect blocks lie in the data area. */
  ghost predicate IndirectsData(s: State)
    requires Shape(s)
  {
    forall i :: 0 <= i < |s.ino| && s.ino[i].addrs[NDIRECT] != 0 ==> s.lay.datastart <= s.ino[i].addrs[NDIRECT]
  }

  lemma IndirectsAre(s: State, gi: nat, gj: nat)
    requires InvBut(s, gi, gj)
    ensures IndirectsData(s)
  {
    hide Bit;
    forall i | 0 <= i < |s.ino| && s.ino[i].addrs[NDIRECT] != 0 ensures s.lay.datastart <= s.ino[i].addrs[NDIRECT] {
      assert AddrAt(s, i, NDIRECT) == s.ino[i].addrs[NDIRECT];
    }
  }

  lemma FreedAddr(s: State, b: nat, i: nat, k: nat)
    requires Shape(s) && IndirectsData(s) && b < s.lay.size && i < |s.ino| && k < SLOTS
    ensures Shape(Freed(s, b)) && AddrAt(Freed(s, b), i, k) == AddrAt(s, i, k)
  {
    hide SetTo, Word;
  }

  /** An entry of the indirect block of inode i is freed; the address stays where it is until the block goes. */
  function EntryFreed(s: State, b: nat): State
    requires LayoutOk(s.lay) && |s.blk| == s.lay.size && b < s.lay.size
  {
    Freed(s, b).(owner := s.owner - {b})
  }

  lemma EntryFreedInv(s: State, i: nat, j: nat)
    requires InvBut(s, i, j) && i < |s.ino| && j < NINDIRECT && AddrAt(s, i, NDIRECT + 1 + j) != 0
    ensures AddrAt(s, i, NDIRECT + 1 + j) < s.lay.size && Bit(s, AddrAt(s, i, NDIRECT + 1 + j))
    ensures InvBut(EntryFreed(s, AddrAt(s, i, NDIRECT + 1 + j)), i, j + 1)
  {
    hide Bit, AddrAt, Freed;
    var b := AddrAt(s, i, NDIRECT + 1 + j);
    assert !Gone(i, j, Slot(i, NDIRECT + 1 + j));
    IndirectsAre(s, i, j);
    FreedAddr(s, b, i, 0);
    FreedFrame(s, b);
    var t := EntryFreed(s, b);
    forall c: nat | c < s.lay.size ensures Bit(t, c) == (c != b && Bit(s, c)) {
      FreedBit(s, b, c);
      OwnerBit(Freed(s, b), t.owner, c);
    }
    forall i': nat, k': nat | i' < |s.ino| && k' < SLOTS ensures AddrAt(t, i', k') == AddrAt(s, i', k') {
      FreedAddr(s, b, i', k');
      OwnerAddr(Freed(s, b), t.owner, i', k');
    }
    EntryRemoved(s, t, i, j, b);
  }

  lemma FreedFrame(s: State, b: nat)
    requires LayoutOk(s.lay) && |s.blk| == s.lay.size && b < s.lay.size
    ensures var t := Freed(s, b);
            t.lay == s.lay && t.ino == s.ino && t.din == s.din && t.owner == s.owner && |t.blk| == |s.blk|
  {
  }

  /** Bits and addresses do not depend on the owner map. */
  lemma OwnerBit(s: State, o: map<nat, Slot>, c: nat)
    requires Shape(s) && c < s.lay.size
    ensures Bit(s.(owner := o), c) == Bit(s, c)
  {
  }

  lemma OwnerAddr(s: State, o: map<nat, Slot>, i: nat, k: nat)
    requires Shape(s) && i < |s.ino| && k < SLOTS
    ensures AddrAt(s.(owner := o), i, k) == AddrAt(s, i, k)
  {
  }

  lemma EntryRemoved(s: State, t: State, i: nat, j: nat, b: nat)
    requires InvBut(s, i, j) && i < |s.ino| && j < NINDIRECT && AddrAt(s, i, NDIRECT + 1 + j) == b && b in s.owner
    requires s.owner[b] == Slot(i, NDIRECT + 1 + j)
    requires Shape(t) && t.lay == s.lay && t.ino == s.ino && t.owner == s.owner - {b}
    requires forall c: nat :: c < s.lay.size ==> Bit(t, c) == (c != b && Bit(s, c))
    requires forall i': nat, k': nat :: i' < |s.ino| && k' < SLOTS ==> AddrAt(t, i', k') == AddrAt(s, i', k')
    ensures InvBut(t, i, j + 1)
  {
    hide Bit, AddrAt, Shape;
  }

  /** A block held in the inode itself is freed and its address cleared. */
  function Detached(s: State, i: nat, k: nat): State
    requires LayoutOk(s.lay) && |s.blk| == s.lay.size && i < |s.ino| && k < |s.ino[i].addrs|
    requires s.ino[i].addrs[k] < s.lay.size
  {
    var b := s.ino[i].addrs[k];
    Freed(s, b).(ino := s.ino[i := s.ino[i].(addrs := s.ino[i].addrs[k := 0])], owner := s.owner - {b})
  }

  lemma DetachedAddr(s: State, i: nat, k: nat, i': nat, k': nat)
    requires Shape(s) && IndirectsData(s) && i < |s.ino| && k <= NDIRECT && s.ino[i].addrs[k] < s.lay.size
    requires i' < |s.ino| && k' < SLOTS
    ensures Shape(Detached(s, i, k))
    ensures AddrAt(Detached(s, i, k), i', k') ==
            if i' == i && (k' == k || k == NDIRECT < k') then 0 else AddrAt(s, i', k')
  {
    hide Freed, Word;
    FreedFrame(s, s.ino[i].addrs[k]);
    FreedAddr(s, s.ino[i].addrs[k], i', k');
    if s.ino[i'].addrs[NDIRECT] != 0 { FreedBlocks(s, s.ino[i].addrs[k], s.ino[i'].addrs[NDIRECT]); }
  }

  lemma DetachedBit(s: State, i: nat, k: nat, c: nat)
    requires Shape(s) && i < |s.ino| && k <= NDIRECT && s.ino[i].addrs[k] < s.lay.size && c < s.lay.size
    ensures LayoutOk(Detached(s, i, k).lay) && Bit(Detached(s, i, k), c) == (c != s.ino[i].addrs[k] && Bit(s, c))
  {
    hide Freed, BitOf;
    FreedFrame(s, s.ino[i].addrs[k]);
    FreedBit(s, s.ino[i].addrs[k], c);
  }

  /** gj entries of inode i's indirect block are gone: none, or all of them when the block itself goes. */
  lemma DetachedInv(s: State, i: nat, k: nat)
    requires i < |s.ino| && k <= NDIRECT && InvBut(s, i, if k < NDIRECT then 0 else NINDIRECT) && s.ino[i].addrs[k] != 0
    ensures s.ino[i].addrs[k] < s.lay.size && Bit(s, s.ino[i].addrs[k])
    ensures Inv(Detached(s, i, k))
  {
    hide Bit, AddrAt, BitsOk, Held, Owned;
    var gj := if k < NDIRECT then 0 else NINDIRECT;
    var b := s.ino[i].addrs[k];
    OwnSlot(s, i, k, gj);
    IndirectsAre(s, i, gj);
    DetachedAddr(s, i, k, i, k);
    var t := Detached(s, i, k);
    forall c: nat | c < s.lay.size ensures Bit(t, c) == (c != b && Bit(s, c)) { DetachedBit(s, i, k, c); }
    forall i': nat, k': nat | i' < |s.ino| && k' < SLOTS
      ensures AddrAt(t, i', k') == if i' == i && (k' == k || k == NDIRECT < k') then 0 else AddrAt(s, i', k')
    {
      DetachedAddr(s, i, k, i', k');
    }
    DetachRemoved(s, t, i, k, gj, b);
  }

  lemma OwnSlot(s: State, i: nat, k: nat, gj: nat)
    requires InvBut(s, i, gj) && i < |s.ino| && k <= NDIRECT && s.ino[i].addrs[k] != 0
    ensures s.lay.datastart <= s.ino[i].addrs[k] < s.lay.size && Bit(s, s.ino[i].addrs[k])
    ensures s.ino[i].addrs[k] in s.owner && s.owner[s.ino[i].addrs[k]] == Slot(i, k)
    ensures AddrAt(s, i, k) == s.ino[i].addrs[k]
  {
    hide Bit;
    assert AddrAt(s, i, k) == s.ino[i].addrs[k];
  }

  lemma DetachRemoved(s: State, t: State, i: nat, k: nat, gj: nat, b: nat)
    requires InvBut(s, i, gj) && i < |s.ino| && k <= NDIRECT && b in s.owner && s.owner[b] == Slot(i, k)
    requires AddrAt(s, i, k) == b
    requires gj == if k < NDIRECT then 0 else NINDIRECT
    requires Shape(t) && SizesOk(t) && t.lay == s.lay && |t.ino| == |s.ino| && t.owner == s.owner - {b}
    requires forall c: nat :: c < s.lay.size ==> Bit(t, c) == (c != b && Bit(s, c))
    requires forall i': nat, k': nat :: i' < |s.ino| && k' < SLOTS ==>
               AddrAt(t, i', k') == if i' == i && (k' == k || k == NDIRECT < k') then 0 else AddrAt(s, i', k')
    ensures Inv(t)
  {
    hide Bit, AddrAt;
  }

  // ---- overwriting data ----

  function Over(b: Block, pos: nat, data: seq<Byte>): Block
    requires pos + |data| <= BSIZE
  {
    seq(BSIZE, q requires 0 <= q < BSIZE => if pos <= q < pos + |data| then data[q - pos] else b[q])
  }

  /** Copy data into block a at pos and log it. */
  function Poked(s: State, a: nat, pos: nat, data: seq<Byte>): State
    requires a < |s.blk| && pos + |data| <= BSIZE
  {
    s.(blk := s.blk[a := Over(s.blk[a], pos, data)], logged := s.logged + {a})
  }

  /** a is block bn of file i. */
  ghost predicate IsBlock(s: State, i: nat, bn: nat, a: nat) {
    Inv(s) && i < |s.ino| && bn < MAXFILE && a != 0 && AddrAt(s, i, SlotOf(bn)) == a
  }

  lemma BlockFacts(s: State, i: nat, bn: nat, a: nat)
    requires IsBlock(s, i, bn, a)
    ensures s.lay.datastart <= a < s.lay.size && a in s.owner && s.owner[a] == Slot(i, SlotOf(bn))
  {
    hide Bit, AddrAt;
  }

  lemma PokedAddr(s: State, i: nat, bn: nat, a: nat, pos: nat, data: seq<Byte>, i': nat, k': nat)
    requires IsBlock(s, i, bn, a) && a < |s.blk| && pos + |data| <= BSIZE && i' < |s.ino| && k' < SLOTS
    ensures Shape(Poked(s, a, pos, data)) && AddrAt(Poked(s, a, pos, data), i', k') == AddrAt(s, i', k')
  {
    hide Bit, Word, Over, Owned, Held, BitsOk;
    BlockFacts(s, i, bn, a);
    if s.ino[i'].addrs[NDIRECT] != 0 { IndirectOwned(s, i'); }
  }

  lemma PokedInv(s: State, i: nat, bn: nat, a: nat, pos: nat, data: seq<Byte>)
    requires IsBlock(s, i, bn, a) && a < |s.blk| && pos + |data| <= BSIZE
    ensures Inv(Poked(s, a, pos, data))
  {
    hide Bit, AddrAt, Over, Owned, Held, BitsOk;
    var t := Poked(s, a, pos, data);
    BlockFacts(s, i, bn, a);
    PokedAddr(s, i, bn, a, pos, data, i, 0);
    forall c: nat | c < s.lay.size ensures Bit(t, c) == Bit(s, c) { PokedBit(s, a, pos, data, c); }
    forall i': nat, k': nat | i' < |s.ino| && k' < SLOTS ensures AddrAt(t, i', k') == AddrAt(s, i', k') {
      PokedAddr(s, i, bn, a, pos, data, i', k');
    }
    SameAddrInv(s, t);
  }

  lemma PokedBit(s: State, a: nat, pos: nat, data: seq<Byte>, c: nat)
    requires Shape(s) && s.lay.datastart <= a < |s.blk| && pos + |data| <= BSIZE && c < s.lay.size
    ensures Shape(Poked(s, a, pos, data)) && Bit(Poked(s, a, pos, data), c) == Bit(s, c)
  {
    hide BitOf, Over;
    assert BitmapBlock(s.lay, c) < s.lay.datastart;
  }

  /** The invariant depends on bits, addresses, sizes and owners only. */
  lemma SameAddrInv(s: State, t: State)
    requires Inv(s) && Shape(t) && SizesOk(t) && t.lay == s.lay && |t.ino| == |s.ino| && t.owner == s.owner
    requires forall c: nat :: c < s.lay.size ==> Bit(t, c) == Bit(s, c)
    requires forall i: nat, k: nat :: i < |s.ino| && k < SLOTS ==> AddrAt(t, i, k) == AddrAt(s, i, k)
    ensures Inv(t)
  {
    hide Bit, AddrAt;
  }

  lemma SlotOfInj(x: nat, y: nat)
    requires SlotOf(x) == SlotOf(y)
    ensures x == y
  {
  }

  lemma PokedByte(s: State, i: nat, bn: nat, a: nat, pos: nat, data: seq<Byte>, i': nat, o: nat)
    requires IsBlock(s, i, bn, a) && a < |s.blk| && pos + |data| <= BSIZE && i' < |s.ino| && o < MAXFILE * BSIZE
    ensures Shape(Poked(s, a, pos, data))
    ensures ByteAt(Poked(s, a, pos, data), i', o) ==
            if i' == i && o / BSIZE == bn && pos <= o % BSIZE < pos + |data| then data[o % BSIZE - pos]
            else ByteAt(s, i', o)
  {
    hide Bit, AddrAt, Owned, Held, BitsOk;
    var k' := SlotOf(o / BSIZE);
    PokedAddr(s, i, bn, a, pos, data, i', k');
    if AddrAt(s, i', k') == a {
      NoSharing(s, i', k', i, SlotOf(bn));
      SlotOfInj(bn, o / BSIZE);
    }
  }

  // ---- what a write does to all files ----

  /** t is s with data at offset off of file i; sizes, and every other byte of every file, are as in s. */
  ghost predicate Written(s: State, t: State, i: nat, off: nat, data: seq<Byte>) {
    && Shape(s) && Shape(t) && t.lay == s.lay && |t.ino| == |s.ino| && t.din == s.din
    && (forall j :: 0 <= j < |s.ino| ==> t.ino[j].size == s.ino[j].size)
    && (forall j: nat, o: nat :: j < |s.ino| && o < MAXFILE * BSIZE ==>
          ByteAt(t, j, o) == if j == i && off <= o < off + |data| then data[o - off] else ByteAt(s, j, o))
  }

  /** Blocks once mapped stay where they are, and only blocks lo to hi of file i are mapped anew. */
  ghost predicate Grown(s: State, t: State, i: nat, lo: nat, hi: nat)
    requires Shape(s) && Shape(t) && |t.ino| == |s.ino|
  {
    && (forall j: nat, k: nat :: j < |s.ino| && k < SLOTS && AddrAt(s, j, k) != 0 ==>
        AddrAt(t, j, k) == AddrAt(s, j, k))
    && (forall j: nat, k: nat :: j < |s.ino| && k < SLOTS && AddrAt(t, j, k) != AddrAt(s, j, k) ==>
          j == i && (k == NDIRECT || Between(k, lo, hi)))
  }

  /** Slot k holds one of blocks lo to hi. */
  predicate Between(k: nat, lo: nat, hi: nat) {
    if k < NDIRECT then lo <= k < hi else k > NDIRECT && lo <= k - 1 < hi
  }

  /** The blocks that a write to blocks lo to hi of file i may log, besides the inode's. */
  ghost function Touches(t: State, i: nat, lo: nat, hi: nat): set<nat>
    requires Shape(t) && i < |t.ino|
  {
    (set k: nat | k < SLOTS && (k == NDIRECT || Between(k, lo, hi)) && AddrAt(t, i, k) != 0 :: AddrAt(t, i, k))
    + Bitmap(t.lay)
  }

  predicate IsBitmap(l: Layout, b: nat) { l.bmapstart <= b <= l.bmapstart + (l.size - 1) / BPB }

  ghost function Bitmap(l: Layout): set<nat> { set b: nat | b < l.size && IsBitmap(l, b) }

  /** Every block, and every inode on disk, that differs between s and t is in t's transaction. */
  ghost predicate AllLogged(s: State, t: State) {
    && t.lay == s.lay && |t.blk| == |s.blk| && |t.din| == |s.din| && s.logged <= t.logged
    && (forall b: nat :: b < |s.blk| && t.blk[b] != s.blk[b] ==> b in t.logged)
    && (forall j: nat :: j < |s.din| && t.din[j] != s.din[j] ==> InodeBlock(s.lay, j) in t.logged)
  }

  lemma AllLoggedTwice(s: State, t: State, u: State)
    requires AllLogged(s, t) && AllLogged(t, u)
    ensures AllLogged(s, u)
  {
  }

  lemma AttachAllLogged(s: State, i: nat, k: nat, b: nat)
    requires Shape(s) && i < |s.ino| && k < SLOTS && b < s.lay.size
    ensures AllLogged(s, Attached(s, i, k, b))
  {
    hide SetTo, PutWord, Zeros;
  }

  lemma FreedAllLogged(s: State, b: nat)
    requires LayoutOk(s.lay) && |s.blk| == s.lay.size && b < s.lay.size
    ensures AllLogged(s, Freed(s, b))
  {
    hide SetTo;
  }

  lemma SameLog(s: State, t: State, u: State)
    requires AllLogged(s, t) && u.lay == t.lay && u.blk == t.blk && u.din == t.din && u.logged == t.logged
    ensures AllLogged(s, u)
  {
  }

  lemma UpdatedAllLogged(s: State, i: nat, size: nat)
    requires i < |s.ino| && i < |s.din|
    ensures AllLogged(s, Updated(s, i, size))
  {
  }

  /** What bmap and the copy loop of writei do to the file system. */
  ghost predicate Changed(s: State, t: State, i: nat, off: nat, data: seq<Byte>, lo: nat, hi: nat) {
    && Inv(s) && Inv(t) && i < |s.ino| && Written(s, t, i, off, data) && Grown(s, t, i, lo, hi)
    && t.logged <= s.logged + Touches(t, i, lo, hi) && AllLogged(s, t)
  }

  lemma Unchanged(s: State, i: nat, off: nat, lo: nat, hi: nat)
    requires Inv(s) && i < |s.ino|
    ensures Changed(s, s, i, off, [], lo, hi)
  {
    hide AddrAt, ByteAt, Bit;
  }

  /** Where an empty write is made does not matter. */
  lemma AnyOffset(s: State, t: State, i: nat, off: nat, off': nat, lo: nat, hi: nat)
    requires Changed(s, t, i, off, [], lo, hi)
    ensures Changed(s, t, i, off', [], lo, hi)
  {
    hide AddrAt, ByteAt, Bit, Inv, Touches, Shape;
  }

  /** One write after another. */
  lemma WrittenTwice(s: State, t: State, u: State, i: nat, off: nat, d: seq<Byte>, e: seq<Byte>)
    requires Written(s, t, i, off, d) && Written(t, u, i, off + |d|, e)
    ensures Written(s, u, i, off, d + e)
  {
    hide ByteAt, Shape;
  }

  lemma GrownTwice(s: State, t: State, u: State, i: nat, lo: nat, mid: nat, hi: nat)
    requires Shape(s) && Shape(t) && Shape(u) && |t.ino| == |s.ino| == |u.ino| && i < |s.ino|
    requires lo <= mid <= hi && Grown(s, t, i, lo, mid) && exists m: nat :: lo <= m <= mid && Grown(t, u, i, m, hi)
    ensures Grown(s, u, i, lo, hi)
  {
    hide AddrAt, Shape;
  }

  lemma TouchesGrow(s: State, t: State, i: nat, lo: nat, hi: nat, lo': nat, hi': nat, b: nat)
    requires Shape(s) && Shape(t) && t.lay == s.lay && |t.ino| == |s.ino| && i < |s.ino|
    requires forall k: nat :: k < SLOTS && AddrAt(s, i, k) != 0 ==> AddrAt(t, i, k) == AddrAt(s, i, k)
    requires lo' <= lo && hi <= hi' && b in Touches(s, i, lo, hi)
    ensures b in Touches(t, i, lo', hi')
  {
    hide AddrAt, Shape;
  }

  lemma ChangedTwice(s: State, t: State, u: State, i: nat, off: nat, d: seq<Byte>, e: seq<Byte>, lo: nat, mid: nat,
      m: nat, hi: nat)
    requires Changed(s, t, i, off, d, lo, mid) && Changed(t, u, i, off + |d|, e, m, hi) && lo <= m <= mid <= hi
    ensures Changed(s, u, i, off, d + e, lo, hi)
  {
    hide AddrAt, ByteAt, Touches, BitsOk, Held, Owned, SizesOk, Written, AllLogged;
    AllLoggedTwice(s, t, u);
    WrittenTwice(s, t, u, i, off, d, e);
    WrittenSizes(s, t, i, off, d);
    WrittenSizes(t, u, i, off + |d|, e);
    GrownTwice(s, t, u, i, lo, mid, hi);
    forall b | b in u.logged ensures b in s.logged + Touches(u, i, lo, hi) {
      if b in Touches(u, i, m, hi) { TouchesGrow(u, u, i, m, hi, lo, hi, b); }
      else if b in Touches(t, i, lo, mid) { TouchesGrow(t, u, i, lo, mid, lo, hi, b); }
    }
  }

  lemma ChangedWider(s: State, t: State, i: nat, off: nat, d: seq<Byte>, lo: nat, hi: nat, hi': nat)
    requires Changed(s, t, i, off, d, lo, hi) && hi <= hi'
    ensures Changed(s, t, i, off, d, lo, hi')
  {
    hide AddrAt, ByteAt, Touches, BitsOk, Held, Owned, SizesOk, Written, AllLogged;
    WrittenSizes(s, t, i, off, d);
    forall b | b in t.logged ensures b in s.logged + Touches(t, i, lo, hi') {
      if b in Touches(t, i, lo, hi) { TouchesGrow(t, t, i, lo, hi, lo, hi', b); }
    }
  }

  lemma WrittenSizes(s: State, t: State, i: nat, off: nat, d: seq<Byte>)
    requires Written(s, t, i, off, d)
    ensures Shape(s) && Shape(t) && t.lay == s.lay && |t.ino| == |s.ino|
  {
  }

  /** Mapping a new block of file i, or its indirect block, leaves every file's bytes as they were. */
  lemma AttachChanged(s: State, i: nat, k: nat, b: nat, off: nat, lo: nat, hi: nat)
    requires CanAttach(s, i, k, b) && (k == NDIRECT || Between(k, lo, hi))
    ensures Changed(s, Attached(s, i, k, b), i, off, [], lo, hi)
  {
    hide AddrAt, ByteAt, Bit, BitsOk, Held, Owned, SizesOk, Touches, PutAddr, Taken, AllLogged;
    AttachAllLogged(s, i, k, b);
    var t := Attached(s, i, k, b);
    AttachedInv(s, i, k, b);
    AttachedAddr(s, i, k, b, i, k);
    AttachedSizes(s, i, k, b);
    forall j: nat, o: nat | j < |s.ino| && o < MAXFILE * BSIZE ensures ByteAt(t, j, o) == ByteAt(s, j, o) {
      AttachedByte(s, i, k, b, j, o);
    }
    forall j: nat, k': nat | j < |s.ino| && k' < SLOTS
      ensures AddrAt(t, j, k') == if j == i && k' == k then b else AddrAt(s, j, k')
    {
      AttachedAddr(s, i, k, b, j, k');
    }
    AttachLogged(s, i, k, b, lo, hi);
  }

  lemma AttachLogged(s: State, i: nat, k: nat, b: nat, lo: nat, hi: nat)
    requires CanAttach(s, i, k, b) && (k == NDIRECT || Between(k, lo, hi))
    ensures Shape(Attached(s, i, k, b))
    ensures Attached(s, i, k, b).logged <= s.logged + Touches(Attached(s, i, k, b), i, lo, hi)
  {
    hide AddrAt, Bit, BitsOk, Held, Owned, SetTo, PutWord, Zeros;
    var t := Attached(s, i, k, b);
    FreeIsData(s, b);
    AttachedAddr(s, i, k, b, i, k);
    AttachedAddr(s, i, k, b, i, NDIRECT);
    IndirectAddr(s, i);
    assert b == AddrAt(t, i, k) && b in Touches(t, i, lo, hi);
    assert IsBitmap(s.lay, BitmapBlock(s.lay, b)) && BitmapBlock(s.lay, b) in Bitmap(s.lay);
    if k > NDIRECT { assert AddrAt(t, i, NDIRECT) in Touches(t, i, lo, hi); }
  }

  lemma IndirectAddr(s: State, i: nat)
    requires Shape(s) && i < |s.ino|
    ensures AddrAt(s, i, NDIRECT) == s.ino[i].addrs[NDIRECT]
  {
  }

  /** Overwriting part of block bn of file i changes those bytes of that file and nothing else. */
  lemma PokeChanged(s: State, i: nat, bn: nat, a: nat, pos: nat, data: seq<Byte>)
    requires IsBlock(s, i, bn, a) && a < |s.blk| && pos + |data| <= BSIZE
    ensures Changed(s, Poked(s, a, pos, data), i, bn * BSIZE + pos, data, bn, bn + 1)
  {
    hide AddrAt, ByteAt, Bit, BitsOk, Held, Owned, SizesOk, Over;
    var t := Poked(s, a, pos, data);
    PokedInv(s, i, bn, a, pos, data);
    forall j: nat, o: nat | j < |s.ino| && o < MAXFILE * BSIZE
      ensures ByteAt(t, j, o) ==
          if j == i && bn * BSIZE + pos <= o < bn * BSIZE + pos + |data| then data[o - (bn * BSIZE + pos)]
          else ByteAt(s, j, o)
    {
      PokedByte(s, i, bn, a, pos, data, j, o);
    }
    forall j: nat, k: nat | j < |s.ino| && k < SLOTS ensures AddrAt(t, j, k) == AddrAt(s, j, k) {
      PokedAddr(s, i, bn, a, pos, data, j, k);
    }
    assert a == AddrAt(t, i, SlotOf(bn)) && a in Touches(t, i, bn, bn + 1);
  }

  // ---- how many blocks a write logs ----

  ghost function SlotBlocks(t: State, i: nat, lo: nat, hi: nat): set<nat>
    requires Shape(t) && i < |t.ino|
  {
    set k: nat | k < SLOTS && Between(k, lo, hi) && AddrAt(t, i, k) != 0 :: AddrAt(t, i, k)
  }

  lemma {:induction false} SlotBlocksCard(t: State, i: nat, lo: nat, hi: nat)
    requires Shape(t) && i < |t.ino| && lo <= hi <= MAXFILE
    ensures |SlotBlocks(t, i, lo, hi)| <= hi - lo
    decreases hi
  {
    hide AddrAt, Shape;
    if lo == hi {
      assert SlotBlocks(t, i, lo, hi) == {};
    } else {
      SlotBlocksCard(t, i, lo, hi - 1);
      var a := AddrAt(t, i, SlotOf(hi - 1));
      assert SlotBlocks(t, i, lo, hi) <= SlotBlocks(t, i, lo, hi - 1) + {a};
      SubsetCard(SlotBlocks(t, i, lo, hi), SlotBlocks(t, i, lo, hi - 1) + {a});
    }
  }

  ghost function Range(lo: nat, n: nat): set<nat> {
    if n == 0 then {} else Range(lo, n - 1) + {lo + n - 1}
  }

  lemma {:induction false} RangeHas(lo: nat, n: nat, b: nat)
    ensures lo <= b < lo + n ==> b in Range(lo, n)
    ensures |Range(lo, n)| <= n
  {
    if n > 0 { RangeHas(lo, n - 1, b); }
  }

  lemma BitmapCard(l: Layout)
    requires LayoutOk(l)
    ensures |Bitmap(l)| <= (l.size - 1) / BPB + 1
  {
    var n := (l.size - 1) / BPB + 1;
    forall b | b in Bitmap(l) ensures b in Range(l.bmapstart, n) { RangeHas(l.bmapstart, n, b); }
    SubsetCard(Bitmap(l), Range(l.bmapstart, n));
    RangeHas(l.bmapstart, n, 0);
  }

  /** A write to blocks lo to hi logs their blocks, the indirect block, and bitmap blocks. */
  lemma TouchesCard(t: State, i: nat, lo: nat, hi: nat)
    requires Shape(t) && i < |t.ino| && lo <= hi <= MAXFILE
    ensures |Touches(t, i, lo, hi)| <= hi - lo + 1 + (t.lay.size - 1) / BPB + 1
  {
    hide AddrAt;
    var x := AddrAt(t, i, NDIRECT);
    SlotBlocksCard(t, i, lo, hi);
    BitmapCard(t.lay);
    var all := SlotBlocks(t, i, lo, hi) + {x} + Bitmap(t.lay);
    assert Touches(t, i, lo, hi) <= all;
    SubsetCard(Touches(t, i, lo, hi), all);
  }

  // ---- the end of a write ----

  function InodeBlock(l: Layout, i: nat): nat { i / IPB + l.inodestart }

  /** The inode area holds IPB inodes to a block, in order, and ends before the bitmap. */
  lemma InodePlace(l: Layout, i: nat)
    requires LayoutOk(l) && i < l.ninodes
    ensures var n := InodeBlock(l, i) - l.inodestart; 0 <= n && n * IPB <= i < (n + 1) * IPB
    ensures InodeBlock(l, i) < l.bmapstart
  {
    assert i / IPB <= l.ninodes / IPB;
  }

  /** A new size for inode i, and iupdate. */
  function Updated(s: State, i: nat, size: nat): State
    requires i < |s.ino| && i < |s.din|
  {
    var ip := s.ino[i].(size := size);
    s.(ino := s.ino[i := ip], din := s.din[i := ip], logged := s.logged + {InodeBlock(s.lay, i)})
  }

  /** f with d at off, extended if d reaches past its end. */
  function Spliced(f: seq<Byte>, off: nat, d: seq<Byte>): seq<Byte>
    requires off <= |f|
  {
    f[..off] + d + if off + |d| < |f| then f[off + |d|..] else []
  }

  lemma UpdatedSame(s: State, i: nat, size: nat)
    requires Inv(s) && i < |s.ino| && size <= MAXFILE * BSIZE
    ensures Inv(Updated(s, i, size))
    ensures forall j: nat, k: nat :: j < |s.ino| && k < SLOTS ==> AddrAt(Updated(s, i, size), j, k) == AddrAt(s, j, k)
    ensures forall j: nat, o: nat :: j < |s.ino| && o < MAXFILE * BSIZE ==>
        ByteAt(Updated(s, i, size), j, o) == ByteAt(s, j, o)
  {
    hide BitOf, Word, Held, Owned, BitsOk;
    var t := Updated(s, i, size);
    assert Shape(t);
    SameAddrInv(s, t);
  }

  lemma WriteEnds(s: State, t: State, i: nat, off: nat, d: seq<Byte>, size: nat)
    requires Inv(s) && Inv(t) && Written(s, t, i, off, d) && i < |s.ino| && off <= s.ino[i].size
    requires off + |d| <= MAXFILE * BSIZE && size == if off + |d| > s.ino[i].size then off + |d| else s.ino[i].size
    ensures Inv(Updated(t, i, size)) && File(Updated(t, i, size), i) == Spliced(File(s, i), off, d)
    ensures forall j: nat :: j < |s.ino| && j != i ==> File(Updated(t, i, size), j) == File(s, j)
  {
    hide AddrAt, ByteAt, Held, Owned, BitsOk;
    UpdatedSame(t, i, size);
    var u := Updated(t, i, size);
    forall o: nat | o < size ensures File(u, i)[o] == Spliced(File(s, i), off, d)[o] {
      assert File(u, i)[o] == ByteAt(t, i, o);
    }
    assert |Spliced(File(s, i), off, d)| == size;
    forall j: nat | j < |s.ino| && j != i ensures File(u, j) == File(s, j) {
      assert u.ino[j].size == s.ino[j].size;
      forall o: nat | o < s.ino[j].size ensures File(u, j)[o] == File(s, j)[o] {
        assert ByteAt(u, j, o) == ByteAt(t, j, o);
      }
    }
  }

  /** Two adjoining writes are one. */
  lemma SplicedTwice(f: seq<Byte>, off: nat, d: seq<Byte>, e: seq<Byte>)
    requires off <= |f|
    ensures off + |d| <= |Spliced(f, off, d)| && Spliced(Spliced(f, off, d), off + |d|, e) == Spliced(f, off, d + e)
  {
    var g := Spliced(f, off, d);
    var all := Spliced(f, off, d + e);
    assert |Spliced(g, off + |d|, e)| == |all|;
    forall q | 0 <= q < |all| ensures Spliced(g, off + |d|, e)[q] == all[q] {}
  }

  // ---- truncation ----

  /** The slots itrunc has emptied: d direct ones, j entries, and at last the indirect block. */
  predicate CutSlot(k: nat, d: nat, j: nat, all: bool) {
    k < d || NDIRECT < k <= NDIRECT + j || (all && k == NDIRECT)
  }

  /** t is s with those slots of inode i emptied and their blocks freed; no data block has changed. */
  ghost predicate Cut(s: State, t: State, i: nat, d: nat, j: nat, all: bool) {
    && Inv(s) && InvBut(t, i, if all then 0 else j) && t.lay == s.lay && |t.ino| == |s.ino| && i < |s.ino|
    && t.din == s.din
    && d <= NDIRECT && j <= NINDIRECT
    && (forall c: nat :: s.lay.datastart <= c < s.lay.size ==> t.blk[c] == s.blk[c])
    && (forall q: nat :: q < |s.ino| && q != i ==> t.ino[q] == s.ino[q])
    && t.ino[i].size == s.ino[i].size
    && (forall k: nat :: k <= NDIRECT ==>
        t.ino[i].addrs[k] == if k < d || (k == NDIRECT && all) then 0 else s.ino[i].addrs[k])
    && (forall b: nat :: b in t.owner <==> b in s.owner && !(s.owner[b].i == i && CutSlot(s.owner[b].k, d, j, all)))
    && (forall b: nat :: b in t.owner ==> t.owner[b] == s.owner[b])
    && t.logged <= s.logged + Bitmap(s.lay) && AllLogged(s, t)
  }

  lemma CutNothing(s: State, i: nat)
    requires Inv(s) && i < |s.ino|
    ensures Cut(s, s, i, 0, 0, false)
  {
    hide AddrAt, Bit, BitsOk, Owned;
    assert InvBut(s, i, 0) by { GapEmpty(s, i); }
  }

  lemma GapEmpty(s: State, i: nat)
    requires Inv(s)
    ensures InvBut(s, i, 0)
  {
    hide AddrAt, Bit, BitsOk;
  }

  lemma SlotFilled(s: State, b: nat)
    requires Inv(s) && b in s.owner
    ensures s.owner[b].i < |s.ino| && s.owner[b].k < SLOTS && AddrAt(s, s.owner[b].i, s.owner[b].k) == b && b != 0
  {
    hide AddrAt, Bit;
  }

  lemma CutDirectEmpty(s: State, t: State, i: nat, d: nat)
    requires Cut(s, t, i, d, 0, false) && d < NDIRECT && t.ino[i].addrs[d] == 0
    ensures Cut(s, t, i, d + 1, 0, false)
  {
    hide Bit, BitsOk, Held, Owned, SizesOk;
    forall b: nat | b in s.owner ensures s.owner[b] != Slot(i, d) { SlotFilled(s, b); }
  }

  lemma CutDirect(s: State, t: State, i: nat, d: nat)
    requires Cut(s, t, i, d, 0, false) && d < NDIRECT && t.ino[i].addrs[d] != 0
    ensures t.ino[i].addrs[d] < t.lay.size && Bit(t, t.ino[i].addrs[d])
    ensures Cut(s, Detached(t, i, d), i, d + 1, 0, false)
  {
    hide AddrAt, Bit, BitsOk, Held, Owned, Freed, AllLogged;
    var b := t.ino[i].addrs[d];
    OwnSlot(t, i, d, 0);
    DetachedInv(t, i, d);
    FreedFrame(t, b);
    FreedLogged(t, b);
    FreedAllLogged(t, b);
    var u := Detached(t, i, d);
    SameLog(t, Freed(t, b), u);
    AllLoggedTwice(s, t, u);
    GapEmpty(u, i);
    forall c: nat | s.lay.datastart <= c < s.lay.size ensures u.blk[c] == s.blk[c] { FreedBlocks(t, b, c); }
    forall x: nat | x in s.owner && x != b ensures s.owner[x] != Slot(i, d) { SlotUnique(s, x, b, i, d); }
  }

  lemma FreedLogged(s: State, b: nat)
    requires LayoutOk(s.lay) && |s.blk| == s.lay.size && b < s.lay.size
    ensures Freed(s, b).logged <= s.logged + Bitmap(s.lay)
  {
    assert IsBitmap(s.lay, BitmapBlock(s.lay, b));
  }

  lemma SlotUnique(s: State, x: nat, b: nat, i: nat, k: nat)
    requires Inv(s) && x in s.owner && b in s.owner && s.owner[b] == Slot(i, k) && x != b
    ensures s.owner[x] != Slot(i, k)
  {
    SlotFilled(s, x);
    SlotFilled(s, b);
  }

  lemma EntryKept(s: State, t: State, i: nat, j: nat, k: nat)
    requires Cut(s, t, i, NDIRECT, j, false) && NDIRECT <= k < SLOTS
    ensures AddrAt(t, i, k) == AddrAt(s, i, k)
  {
    hide Bit, BitsOk, Held, Owned, Word;
    IndirectsAre(s, 0, 0);
  }

  lemma CutEntryEmpty(s: State, t: State, i: nat, j: nat)
    requires Cut(s, t, i, NDIRECT, j, false) && j < NINDIRECT && AddrAt(t, i, NDIRECT + 1 + j) == 0
    ensures Cut(s, t, i, NDIRECT, j + 1, false)
  {
    hide AddrAt, Bit, BitsOk, SizesOk;
    EntryKept(s, t, i, j, NDIRECT + 1 + j);
    forall b: nat | b in s.owner ensures s.owner[b] != Slot(i, NDIRECT + 1 + j) { SlotFilled(s, b); }
    forall b: nat | b in t.owner ensures !Gone(i, j + 1, t.owner[b]) {}
    assert InvBut(t, i, j + 1);
  }

  lemma CutEntry(s: State, t: State, i: nat, j: nat)
    requires Cut(s, t, i, NDIRECT, j, false) && j < NINDIRECT && AddrAt(t, i, NDIRECT + 1 + j) != 0
    ensures AddrAt(t, i, NDIRECT + 1 + j) < t.lay.size && Bit(t, AddrAt(t, i, NDIRECT + 1 + j))
    ensures Cut(s, EntryFreed(t, AddrAt(t, i, NDIRECT + 1 + j)), i, NDIRECT, j + 1, false)
  {
    hide AddrAt, Bit, BitsOk, Held, Owned, Freed, AllLogged;
    var b := AddrAt(t, i, NDIRECT + 1 + j);
    EntryOwned(t, i, j);
    EntryFreedInv(t, i, j);
    FreedFrame(t, b);
    FreedLogged(t, b);
    FreedAllLogged(t, b);
    var u := EntryFreed(t, b);
    SameLog(t, Freed(t, b), u);
    AllLoggedTwice(s, t, u);
    forall c: nat | s.lay.datastart <= c < s.lay.size ensures u.blk[c] == s.blk[c] { FreedBlocks(t, b, c); }
    forall x: nat | x in s.owner && x != b ensures s.owner[x] != Slot(i, NDIRECT + 1 + j) {
      SlotUnique(s, x, b, i, NDIRECT + 1 + j);
    }
  }

  lemma EntryOwned(t: State, i: nat, j: nat)
    requires InvBut(t, i, j) && i < |t.ino| && j < NINDIRECT && AddrAt(t, i, NDIRECT + 1 + j) != 0
    ensures AddrAt(t, i, NDIRECT + 1 + j) in t.owner
    ensures t.owner[AddrAt(t, i, NDIRECT + 1 + j)] == Slot(i, NDIRECT + 1 + j)
  {
    hide AddrAt, Bit;
    assert !Gone(i, j, Slot(i, NDIRECT + 1 + j));
  }

  /** No indirect block: its entries were never there. */
  lemma CutNoIndirect(s: State, t: State, i: nat)
    requires Cut(s, t, i, NDIRECT, 0, false) && t.ino[i].addrs[NDIRECT] == 0
    ensures Cut(s, t, i, NDIRECT, NINDIRECT, true)
  {
    hide Bit, BitsOk, SizesOk;
    forall b: nat | b in s.owner ensures !(s.owner[b].i == i && s.owner[b].k >= NDIRECT) { SlotFilled(s, b); }
  }

  lemma CutIndirect(s: State, t: State, i: nat)
    requires Cut(s, t, i, NDIRECT, NINDIRECT, false) && t.ino[i].addrs[NDIRECT] != 0
    ensures t.ino[i].addrs[NDIRECT] < t.lay.size && Bit(t, t.ino[i].addrs[NDIRECT])
    ensures Cut(s, Detached(t, i, NDIRECT), i, NDIRECT, NINDIRECT, true)
  {
    hide AddrAt, Bit, BitsOk, Held, Owned, Freed, AllLogged;
    var b := t.ino[i].addrs[NDIRECT];
    OwnSlot(t, i, NDIRECT, NINDIRECT);
    DetachedInv(t, i, NDIRECT);
    FreedFrame(t, b);
    FreedLogged(t, b);
    FreedAllLogged(t, b);
    var u := Detached(t, i, NDIRECT);
    SameLog(t, Freed(t, b), u);
    AllLoggedTwice(s, t, u);
    GapEmpty(u, i);
    forall c: nat | s.lay.datastart <= c < s.lay.size ensures u.blk[c] == s.blk[c] { FreedBlocks(t, b, c); }
    forall x: nat | x in s.owner && x != b ensures s.owner[x] != Slot(i, NDIRECT) { SlotUnique(s, x, b, i, NDIRECT); }
  }

  /** What itrunc leaves of s: file i is empty, exactly its blocks are free, other files are as they were. */
  ghost predicate Truncated(s: State, u: State, i: nat) {
    && Inv(s) && Inv(u) && u.lay == s.lay && |u.ino| == |s.ino| && i < |s.ino|
    && (forall b: nat :: b < s.lay.size ==> (Bit(u, b) <==> Bit(s, b) && !(b in s.owner && s.owner[b].i == i)))
    && (forall k: nat :: k < SLOTS ==> AddrAt(u, i, k) == 0)
    && (forall j: nat, k: nat :: j < |s.ino| && j != i && k < SLOTS ==> AddrAt(u, j, k) == AddrAt(s, j, k))
    && File(u, i) == [] && (forall j: nat :: j < |s.ino| && j != i ==> File(u, j) == File(s, j))
    && u.din == s.din[i := u.ino[i]] && u.logged <= s.logged + Bitmap(s.lay) + {InodeBlock(s.lay, i)}
    && AllLogged(s, u)
  }

  lemma TruncEnds(s: State, t: State, i: nat)
    requires Cut(s, t, i, NDIRECT, NINDIRECT, true)
    ensures Truncated(s, Updated(t, i, 0), i)
  {
    hide AddrAt, ByteAt, Bit, Held, Owned, BitsOk, AllLogged;
    var u := Updated(t, i, 0);
    UpdatedAllLogged(t, i, 0);
    AllLoggedTwice(s, t, u);
    GapAny(t, i);
    UpdatedSame(t, i, 0);
    forall b: nat | b < s.lay.size ensures Bit(u, b) <==> Bit(s, b) && !(b in s.owner && s.owner[b].i == i) {
      CutBit(s, t, u, i, b);
    }
    forall j: nat, k: nat | j < |s.ino| && k < SLOTS ensures AddrAt(t, j, k) == if j == i then 0 else AddrAt(s, j, k) {
      CutAddr(s, t, i, j, k);
    }
    forall j: nat | j < |s.ino| && j != i ensures File(u, j) == File(s, j) {
      forall o: nat | o < s.ino[j].size ensures ByteAt(u, j, o) == ByteAt(s, j, o) { CutByte(s, t, i, j, o); }
    }
  }

  lemma GapAny(t: State, i: nat)
    requires InvBut(t, i, 0)
    ensures Inv(t)
  {
    hide AddrAt, Bit, BitsOk;
  }

  lemma CutBit(s: State, t: State, u: State, i: nat, b: nat)
    requires Cut(s, t, i, NDIRECT, NINDIRECT, true) && Inv(u) && u.lay == s.lay && u.owner == t.owner && b < s.lay.size
    ensures Bit(u, b) <==> Bit(s, b) && !(b in s.owner && s.owner[b].i == i)
  {
    hide AddrAt, Bit, Owned;
    if b in s.owner { SlotFilled(s, b); }
  }

  lemma CutAddr(s: State, t: State, i: nat, j: nat, k: nat)
    requires Cut(s, t, i, NDIRECT, NINDIRECT, true) && j < |s.ino| && k < SLOTS
    ensures AddrAt(t, j, k) == if j == i then 0 else AddrAt(s, j, k)
  {
    hide Bit, Held, Owned, BitsOk, Word;
    IndirectsAre(s, 0, 0);
  }

  lemma CutByte(s: State, t: State, i: nat, j: nat, o: nat)
    requires Cut(s, t, i, NDIRECT, NINDIRECT, true) && j < |s.ino| && j != i && o < MAXFILE * BSIZE
    ensures ByteAt(t, j, o) == ByteAt(s, j, o)
  {
    hide AddrAt, Bit, Held, Owned, BitsOk;
    var k := SlotOf(o / BSIZE);
    CutAddr(s, t, i, j, k);
    if AddrAt(s, j, k) != 0 { NoSharing(s, j, k, j, k); }
  }
}
